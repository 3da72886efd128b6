/**
 * The MySQL-to-PostgreSQL migration's `transform_data`, migrate_mysql_to_postgres.py:
 * one entity per taxpayer, patched in place with the name and email of the
 * first individual and then the first business per TPIN, followed by the
 * obligations and cases built from returns, payments and audit cases.
 *
 * The entity dictionaries the script builds have no 'id' key, yet the entity
 * lookup for an obligation or a case reads `e['id']` of the first entity whose
 * tin matches. So a record whose TPIN belongs to a taxpayer raises `KeyError`,
 * and a record whose TPIN matches none is dropped: a run that finishes has no
 * obligations and no cases. Both outcomes are modelled.
 */
module Migration {
  import opened Strings

  datatype Taxpayer = Taxpayer(tpin: string, taxpayerType: string, primaryEmail: string, primaryPhone: string,
                               status: string, registrationDate: string)
  datatype Individual = Individual(tpin: string, firstName: string, lastName: string, email: string)
  datatype Business = Business(tpin: string, businessName: string, email: string)
  datatype TaxReturn = TaxReturn(tpin: string, taxPeriod: string, dueDate: Option<string>, status: string)
  datatype Payment = Payment(tpin: string, paymentId: string, amountPaid: string, paymentMethod: string,
                             paymentDate: Option<string>)
  datatype AuditCase = AuditCase(auditId: string, tpin: string, auditType: string, riskLevel: string, status: string,
                                 findingsSummary: Option<string>, caseOfficerId: string, startDate: Option<string>)

  /** The tables read from MySQL. */
  datatype MysqlData = MysqlData(taxpayers: seq<Taxpayer>, individuals: seq<Individual>, businesses: seq<Business>,
                                 taxReturns: seq<TaxReturn>, payments: seq<Payment>, auditCases: seq<AuditCase>)

  /** An entity dictionary; the contact info is its email and phone. */
  datatype Entity = Entity(entityId: string, name: string, entityType: string, tin: string, email: string, phone: string,
                           complianceScore: real, riskScore: real, status: string, createdAt: string)

  datatype Obligation = Obligation(obligationId: string, entityId: string, kind: string, description: string,
                                   dueDate: string, status: string, priority: string)

  datatype Case = Case(caseId: string, entityId: string, caseType: string, priority: string, status: string,
                       description: string, assignedOfficer: string, createdAt: string)

  /** The run's outcome: the `KeyError` raised for a missing dictionary key, or the transformed data. */
  datatype Outcome = KeyError(key: string) | Migrated(entities: seq<Entity>, obligations: seq<Obligation>, cases: seq<Case>)

  const MissingKey: string := "id"

  /** Python truthiness of a possibly NULL text column: neither None nor ''. */
  predicate PyTruthy(v: Option<string>) {
    v.Some? && v.value != []
  }

  /** The entity built from a taxpayer, before any individual or business is applied. */
  function InitialEntity(t: Taxpayer): (e: Entity)
    ensures e.entityId == "entity-" + t.tpin && e.tin == t.tpin && e.name == t.tpin
    ensures e.entityType == ToLower(t.taxpayerType) && e.status == ToLower(t.status)
    ensures e.complianceScore == 0.0 && e.riskScore == 0.0
    ensures e.email == t.primaryEmail && e.phone == t.primaryPhone && e.createdAt == t.registrationDate
  {
    Entity("entity-" + t.tpin, t.tpin, ToLower(t.taxpayerType), t.tpin, t.primaryEmail, t.primaryPhone,
           0.0, 0.0, ToLower(t.status), t.registrationDate)
  }

  /** The index of the first entity with that tin, as the inner `for … break` finds it. */
  function FirstWithTin(es: seq<Entity>, tin: string): (k: Option<nat>)
    ensures k.None? <==> forall j :: 0 <= j < |es| ==> es[j].tin != tin
    ensures k.Some? ==> k.value < |es| && es[k.value].tin == tin && forall j :: 0 <= j < k.value ==> es[j].tin != tin
    decreases |es|
  {
    if es == [] then None
    else if es[0].tin == tin then Some(0)
    else match FirstWithTin(es[1..], tin)
      case None => None
      case Some(k) => Some(k + 1)
  }

  /** Overwrite name and email of the first entity with that tin; no entity matching leaves all unchanged. */
  function SetContact(es: seq<Entity>, tin: string, name: string, email: string): (r: seq<Entity>)
    ensures |r| == |es|
    ensures FirstWithTin(es, tin).None? ==> r == es
    ensures FirstWithTin(es, tin).Some? ==>
      var k := FirstWithTin(es, tin).value;
      r == es[k := es[k].(name := name, email := email)]
  {
    match FirstWithTin(es, tin)
    case None => es
    case Some(k) => es[k := es[k].(name := name, email := email)]
  }

  function FullName(i: Individual): string {
    i.firstName + " " + i.lastName
  }

  /** The entities after the individuals loop has run over `inds`. */
  function WithIndividuals(es: seq<Entity>, inds: seq<Individual>): (r: seq<Entity>)
    ensures |r| == |es|
    decreases |inds|
  {
    if inds == [] then es
    else
      var last := inds[|inds| - 1];
      SetContact(WithIndividuals(es, inds[..|inds| - 1]), last.tpin, FullName(last), last.email)
  }

  /** The entities after the businesses loop has run over `bs`. */
  function WithBusinesses(es: seq<Entity>, bs: seq<Business>): (r: seq<Entity>)
    ensures |r| == |es|
    decreases |bs|
  {
    if bs == [] then es
    else
      var last := bs[|bs| - 1];
      SetContact(WithBusinesses(es, bs[..|bs| - 1]), last.tpin, last.businessName, last.email)
  }

  /** The entities a run produces: initial entities in taxpayer order, then individuals, then businesses. */
  function FinalEntities(data: MysqlData): (r: seq<Entity>)
    ensures |r| == |data.taxpayers|
  {
    WithBusinesses(WithIndividuals(Initial(data.taxpayers), data.individuals), data.businesses)
  }

  function Initial(taxpayers: seq<Taxpayer>): (r: seq<Entity>)
    ensures |r| == |taxpayers|
    ensures forall i :: 0 <= i < |r| ==> r[i] == InitialEntity(taxpayers[i])
  {
    seq(|taxpayers|, i requires 0 <= i < |taxpayers| => InitialEntity(taxpayers[i]))
  }

  /** Two entities that differ at most in name and email. */
  predicate SameIdentity(a: Entity, b: Entity) {
    a.(name := b.name, email := b.email) == b
  }

  lemma SetContactKeepsIdentity(es: seq<Entity>, tin: string, name: string, email: string)
    ensures var r := SetContact(es, tin, name, email);
      forall i :: 0 <= i < |es| ==> SameIdentity(es[i], r[i])
  {
  }

  /** The two patch loops change names and emails only: ids, tins, types, status, scores, phone and date stay as built. */
  lemma {:induction false} PatchesKeepIdentity(data: MysqlData)
    ensures forall i :: 0 <= i < |data.taxpayers| ==> SameIdentity(InitialEntity(data.taxpayers[i]), FinalEntities(data)[i])
  {
    var init := Initial(data.taxpayers);
    IndividualsKeepIdentity(init, data.individuals);
    var mid := WithIndividuals(init, data.individuals);
    BusinessesKeepIdentity(mid, data.businesses);
  }

  lemma {:induction false} IndividualsKeepIdentity(es: seq<Entity>, inds: seq<Individual>)
    ensures forall i :: 0 <= i < |es| ==> SameIdentity(es[i], WithIndividuals(es, inds)[i])
    decreases |inds|
  {
    if inds != [] {
      var prefix := inds[..|inds| - 1];
      IndividualsKeepIdentity(es, prefix);
      var last := inds[|inds| - 1];
      SetContactKeepsIdentity(WithIndividuals(es, prefix), last.tpin, FullName(last), last.email);
    }
  }

  lemma {:induction false} BusinessesKeepIdentity(es: seq<Entity>, bs: seq<Business>)
    ensures forall i :: 0 <= i < |es| ==> SameIdentity(es[i], WithBusinesses(es, bs)[i])
    decreases |bs|
  {
    if bs != [] {
      var prefix := bs[..|bs| - 1];
      BusinessesKeepIdentity(es, prefix);
      var last := bs[|bs| - 1];
      SetContactKeepsIdentity(WithBusinesses(es, prefix), last.tpin, last.businessName, last.email);
    }
  }

  /** An entity no individual and no business names keeps the TPIN as its name and the taxpayer's email. */
  lemma {:induction false} UnmatchedKeepsTpinName(data: MysqlData, i: nat)
    requires i < |data.taxpayers|
    requires forall j :: 0 <= j < |data.individuals| ==> data.individuals[j].tpin != data.taxpayers[i].tpin
    requires forall j :: 0 <= j < |data.businesses| ==> data.businesses[j].tpin != data.taxpayers[i].tpin
    ensures FinalEntities(data)[i] == InitialEntity(data.taxpayers[i])
  {
    var init := Initial(data.taxpayers);
    IndividualsSkip(init, data.individuals, i);
    BusinessesSkip(WithIndividuals(init, data.individuals), data.businesses, i);
  }

  lemma {:induction false} IndividualsSkip(es: seq<Entity>, inds: seq<Individual>, i: nat)
    requires i < |es| && forall j :: 0 <= j < |inds| ==> inds[j].tpin != es[i].tin
    ensures WithIndividuals(es, inds)[i] == es[i]
    decreases |inds|
  {
    if inds != [] {
      var prefix := inds[..|inds| - 1];
      IndividualsSkip(es, prefix, i);
      IndividualsKeepIdentity(es, prefix);
    }
  }

  lemma {:induction false} BusinessesSkip(es: seq<Entity>, bs: seq<Business>, i: nat)
    requires i < |es| && forall j :: 0 <= j < |bs| ==> bs[j].tpin != es[i].tin
    ensures WithBusinesses(es, bs)[i] == es[i]
    decreases |bs|
  {
    if bs != [] {
      var prefix := bs[..|bs| - 1];
      BusinessesSkip(es, prefix, i);
      BusinessesKeepIdentity(es, prefix);
    }
  }

  /** A business that shares the TPIN of the only individual has the last word on name and email. */
  lemma BusinessOverridesIndividual(t: Taxpayer, ind: Individual, b: Business)
    requires ind.tpin == t.tpin && b.tpin == t.tpin
    ensures var r := FinalEntities(MysqlData([t], [ind], [b], [], [], []));
      r[0].name == b.businessName && r[0].email == b.email
  {
    var e0 := Initial([t]);
    assert e0[0].tin == t.tpin;
    assert FirstWithTin(e0, t.tpin) == Some(0);
    assert [ind][..0] == [];
    var e1 := WithIndividuals(e0, [ind]);
    assert e1 == SetContact(WithIndividuals(e0, []), ind.tpin, FullName(ind), ind.email);
    assert e1[0].tin == t.tpin;
    assert FirstWithTin(e1, t.tpin) == Some(0);
    assert [b][..0] == [];
    var e2 := WithBusinesses(e1, [b]);
    assert e2 == SetContact(WithBusinesses(e1, []), b.tpin, b.businessName, b.email);
  }

  // ---------------------------------------------------------------------------
  // The per-record mappings
  // ---------------------------------------------------------------------------

  /** The obligation of a tax return, for the entity id the lookup would give and the clock's `now`. */
  function ReturnObligation(r: TaxReturn, entityId: string, now: string): (o: Obligation)
    ensures o.obligationId == "return-" + r.tpin + "-" + r.taxPeriod
    ensures o.status == (if r.status == "Filed" then "completed" else "pending")
    ensures o.dueDate == (if PyTruthy(r.dueDate) then r.dueDate.value else now)
    ensures o.kind == "tax_filing" && o.priority == "medium" && o.entityId == entityId
  {
    Obligation("return-" + r.tpin + "-" + r.taxPeriod, entityId, "tax_filing",
               "Tax return filing for period " + r.taxPeriod,
               if PyTruthy(r.dueDate) then r.dueDate.value else now,
               if r.status == "Filed" then "completed" else "pending", "medium")
  }

  /** The obligation of a payment: always completed, always high priority. */
  function PaymentObligation(p: Payment, entityId: string, now: string): (o: Obligation)
    ensures o.obligationId == "payment-" + p.tpin + "-" + p.paymentId
    ensures o.status == "completed" && o.priority == "high" && o.kind == "payment"
    ensures o.dueDate == (if PyTruthy(p.paymentDate) then p.paymentDate.value else now)
  {
    Obligation("payment-" + p.tpin + "-" + p.paymentId, entityId, "payment",
               "Payment of " + p.amountPaid + " via " + p.paymentMethod,
               if PyTruthy(p.paymentDate) then p.paymentDate.value else now,
               "completed", "high")
  }

  /** The case of an audit: investigating only while open, fraud only for an investigation, priority from the risk level. */
  function CaseOf(a: AuditCase, entityId: string, now: string): (c: Case)
    ensures c.caseId == "case-" + a.auditId && c.entityId == entityId
    ensures c.status == (if a.status == "Open" then "investigating" else "resolved")
    ensures c.caseType == (if a.auditType == "Investigation" then "fraud_investigation" else "compliance_review")
    ensures c.priority == ToLower(a.riskLevel)
    ensures c.description == (if PyTruthy(a.findingsSummary) then a.findingsSummary.value else "Audit case for " + a.auditType)
  {
    Case("case-" + a.auditId, entityId,
         if a.auditType == "Investigation" then "fraud_investigation" else "compliance_review",
         ToLower(a.riskLevel),
         if a.status == "Open" then "investigating" else "resolved",
         if PyTruthy(a.findingsSummary) then a.findingsSummary.value else "Audit case for " + a.auditType,
         "Officer-" + a.caseOfficerId,
         if PyTruthy(a.startDate) then a.startDate.value else now)
  }

  // ---------------------------------------------------------------------------
  // The transformation
  // ---------------------------------------------------------------------------

  /** Some return, payment or audit case carries the TPIN of a taxpayer. */
  predicate Referenced(data: MysqlData) {
    AnyTaxpayer(data, Tpins(data.taxReturns, (r: TaxReturn) => r.tpin)) || AnyTaxpayer(data, Tpins(data.payments, (p: Payment) => p.tpin))
    || AnyTaxpayer(data, Tpins(data.auditCases, (c: AuditCase) => c.tpin))
  }

  predicate AnyTaxpayer(data: MysqlData, tpins: seq<string>) {
    exists j :: 0 <= j < |tpins| && HasTaxpayer(data, tpins[j])
  }

  predicate HasTaxpayer(data: MysqlData, tpin: string) {
    exists i :: 0 <= i < |data.taxpayers| && data.taxpayers[i].tpin == tpin
  }

  /** The TPINs a record loop looks up, one per record, in order. */
  function Tpins<T>(records: seq<T>, tpin: T -> string): (t: seq<string>)
    ensures |t| == |records| && forall j :: 0 <= j < |records| ==> t[j] == tpin(records[j])
  {
    seq(|records|, j requires 0 <= j < |records| => tpin(records[j]))
  }

  /** The final entities carry the taxpayers' TPINs as tins, so a lookup by TPIN matches exactly for a taxpayer's TPIN. */
  lemma LookupMatchesTaxpayer(data: MysqlData, tpin: string)
    ensures FirstWithTin(FinalEntities(data), tpin).Some? <==> HasTaxpayer(data, tpin)
  {
    PatchesKeepIdentity(data);
    var es := FinalEntities(data);
    if HasTaxpayer(data, tpin) {
      var i :| 0 <= i < |data.taxpayers| && data.taxpayers[i].tpin == tpin;
      assert es[i].tin == tpin;
    }
    if FirstWithTin(es, tpin).Some? {
      var k := FirstWithTin(es, tpin).value;
      assert data.taxpayers[k].tpin == tpin;
    }
  }

  /**
   * `transform_data`. The entity list is built and patched in place; then
   * every return, payment and audit case looks its entity up, which raises
   * `KeyError('id')` as soon as one matches and drops the record otherwise.
   */
  method TransformData(data: MysqlData) returns (out: Outcome)
    ensures out.KeyError? <==> Referenced(data)
    ensures out.KeyError? ==> out.key == MissingKey
    ensures out.Migrated? ==> out.entities == FinalEntities(data) && out.obligations == [] && out.cases == []
  {
    var entities := BuildEntities(data.taxpayers);
    entities := ApplyIndividuals(entities, data.individuals);
    entities := ApplyBusinesses(entities, data.businesses);
    var obligations: seq<Obligation> := [];
    var cases: seq<Case> := [];
    var raised := LookupRaises(data, entities, Tpins(data.taxReturns, (r: TaxReturn) => r.tpin));
    if raised {
      return KeyError(MissingKey);
    }
    raised := LookupRaises(data, entities, Tpins(data.payments, (p: Payment) => p.tpin));
    if raised {
      return KeyError(MissingKey);
    }
    raised := LookupRaises(data, entities, Tpins(data.auditCases, (c: AuditCase) => c.tpin));
    if raised {
      return KeyError(MissingKey);
    }
    out := Migrated(entities, obligations, cases);
  }

  /**
   * One of the record loops, over the records' TPINs: the lookup of the first
   * record whose TPIN some entity carries raises; the others are dropped.
   */
  method LookupRaises(data: MysqlData, entities: seq<Entity>, tpins: seq<string>) returns (raised: bool)
    requires entities == FinalEntities(data)
    ensures raised <==> AnyTaxpayer(data, tpins)
  {
    var i := 0;
    while i < |tpins|
      invariant 0 <= i <= |tpins|
      invariant forall j :: 0 <= j < i ==> !HasTaxpayer(data, tpins[j])
    {
      LookupMatchesTaxpayer(data, tpins[i]);
      if FirstWithTin(entities, tpins[i]).Some? {
        return true;
      }
      i := i + 1;
    }
    return false;
  }

  /** The individuals loop. */
  method ApplyIndividuals(es: seq<Entity>, inds: seq<Individual>) returns (entities: seq<Entity>)
    ensures entities == WithIndividuals(es, inds)
  {
    entities := es;
    var i := 0;
    while i < |inds|
      invariant 0 <= i <= |inds|
      invariant entities == WithIndividuals(es, inds[..i])
    {
      var ind := inds[i];
      entities := UpdateFirst(entities, ind.tpin, FullName(ind), ind.email);
      assert inds[..i + 1][..i] == inds[..i];
      i := i + 1;
    }
    assert inds[..i] == inds;
  }

  /** The businesses loop. */
  method ApplyBusinesses(es: seq<Entity>, bs: seq<Business>) returns (entities: seq<Entity>)
    ensures entities == WithBusinesses(es, bs)
  {
    entities := es;
    var i := 0;
    while i < |bs|
      invariant 0 <= i <= |bs|
      invariant entities == WithBusinesses(es, bs[..i])
    {
      var b := bs[i];
      entities := UpdateFirst(entities, b.tpin, b.businessName, b.email);
      assert bs[..i + 1][..i] == bs[..i];
      i := i + 1;
    }
    assert bs[..i] == bs;
  }

  /** The taxpayers loop: one entity appended per taxpayer, in order. */
  method BuildEntities(taxpayers: seq<Taxpayer>) returns (entities: seq<Entity>)
    ensures entities == Initial(taxpayers)
  {
    entities := [];
    var i := 0;
    while i < |taxpayers|
      invariant 0 <= i <= |taxpayers| && |entities| == i
      invariant forall j :: 0 <= j < i ==> entities[j] == InitialEntity(taxpayers[j])
    {
      entities := entities + [InitialEntity(taxpayers[i])];
      i := i + 1;
    }
  }

  /** The inner loop: the first entity with a matching tin takes the name and email, then `break`. */
  method UpdateFirst(entities: seq<Entity>, tin: string, name: string, email: string) returns (r: seq<Entity>)
    ensures r == SetContact(entities, tin, name, email)
  {
    r := entities;
    var j := 0;
    while j < |r|
      invariant 0 <= j <= |r| && r == entities
      invariant forall m :: 0 <= m < j ==> r[m].tin != tin
    {
      if r[j].tin == tin {
        assert FirstWithTin(entities, tin) == Some(j) by { FirstWithTinIs(entities, tin, j); }
        r := r[j := r[j].(name := name, email := email)];
        return;
      }
      j := j + 1;
    }
  }

  lemma FirstWithTinIs(es: seq<Entity>, tin: string, j: nat)
    requires j < |es| && es[j].tin == tin && forall m :: 0 <= m < j ==> es[m].tin != tin
    ensures FirstWithTin(es, tin) == Some(j)
  {
    var k := FirstWithTin(es, tin);
    assert k.Some?;
    assert !(k.value < j) && !(k.value > j);
  }
}
