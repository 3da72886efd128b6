/**
 * The test-token generator, generate_token.py: the claims of a dashboard
 * token for a user type, the expiry `create_access_token` adds, and the menu
 * that picks the user type.
 *
 * Times are whole seconds since the epoch and the clock is a parameter; the
 * JWT encoding (with its secret and algorithm) is the function `encode`, and
 * the console output is not modelled.
 */
module Tokens {
  import opened Strings

  /** `JWT_EXPIRE_MINUTES`, in seconds. */
  const DefaultLifetime: int := 30 * 60

  const Admin: string := "admin"
  const Officer: string := "officer"
  const Taxpayer: string := "taxpayer"
  const Donor: string := "donor"

  const ExpClaim: string := "exp"
  const UserIdClaim: string := "user_id"
  const UserTypeClaim: string := "user_type"
  const UsernameClaim: string := "username"
  const PermissionsClaim: string := "permissions"
  const EntityIdClaim: string := "entity_id"
  const RoleClaim: string := "role"
  const ClearanceClaim: string := "clearance_level"
  const IssuedAtClaim: string := "iat"
  const IssuerClaim: string := "iss"
  const AudienceClaim: string := "aud"

  const Issuer: string := "zra-system"
  const Audience: string := "zra-dashboard"
  const UserSuffix: string := "_user"
  const EntityPrefix: string := "ENTITY_"
  const AdminAccess: string := "admin:access"
  const UserAccess: string := "user:access"

  /** A claim value: text, a number, a list of texts, or a time in seconds. */
  datatype Claim = Text(text: string) | Number(number: int) | TextList(items: seq<string>) | Time(seconds: int)

  type Payload = map<string, Claim>

  // ---------------------------------------------------------------------------
  // create_access_token
  // ---------------------------------------------------------------------------

  /** The expiry: `now + expires_delta` when the delta is given and non-zero (a truthy timedelta), else thirty minutes on. */
  function Expiry(now: int, delta: Option<int>): (exp: int)
    ensures delta.Some? && delta.value != 0 ==> exp == now + delta.value
    ensures delta.None? || delta.value == 0 ==> exp == now + DefaultLifetime
  {
    if delta.Some? && delta.value != 0 then now + delta.value else now + DefaultLifetime
  }

  /**
   * The claims encoded: a copy of `data` with `exp` set (replacing any `exp`
   * already there); every other claim is kept as given and `data` itself,
   * being a value, is not changed.
   */
  function WithExpiry(data: Payload, now: int, delta: Option<int>): (p: Payload)
    ensures p.Keys == data.Keys + {ExpClaim}
    ensures p[ExpClaim] == Time(Expiry(now, delta))
    ensures forall k :: k in data && k != ExpClaim ==> p[k] == data[k]
  {
    data[ExpClaim := Time(Expiry(now, delta))]
  }

  /** The token encodes the data's own claims together with the expiry. */
  function CreateAccessToken(data: Payload, now: int, delta: Option<int>, encode: Payload -> string): (token: string)
    ensures exists p :: token == encode(p) && p.Keys == data.Keys + {ExpClaim} && p[ExpClaim] == Time(Expiry(now, delta))
                        && forall k :: k in data && k != ExpClaim ==> p[k] == data[k]
  {
    encode(WithExpiry(data, now, delta))
  }

  /** A zero delta is the default: the token lives thirty minutes, as with no delta at all. */
  lemma ZeroDeltaFallsBack(data: Payload, now: int, encode: Payload -> string)
    ensures CreateAccessToken(data, now, Some(0), encode) == CreateAccessToken(data, now, None, encode)
    ensures WithExpiry(data, now, Some(0))[ExpClaim] == Time(now + DefaultLifetime)
  {
  }

  // ---------------------------------------------------------------------------
  // generate_test_token
  // ---------------------------------------------------------------------------

  /** `3 if admin else 2 if officer else 1`. */
  function ClearanceLevel(userType: string): (level: int)
    ensures 1 <= level <= 3
    ensures level == 3 <==> userType == Admin
    ensures level == 2 <==> userType == Officer
  {
    if userType == Admin then 3 else if userType == Officer then 2 else 1
  }

  /** Four fixed permissions, then the admin or the user access flag. */
  function Permissions(userType: string): (ps: seq<string>)
    ensures |ps| == 5
    ensures ps[..4] == ["read:dashboard", "read:cases", "write:cases", "read:audit"]
    ensures AdminAccess in ps <==> userType == Admin
    ensures UserAccess in ps <==> userType != Admin
  {
    ["read:dashboard", "read:cases", "write:cases", "read:audit", if userType == Admin then AdminAccess else UserAccess]
  }

  /** The token's claims before the expiry is added. */
  function TestTokenData(userType: string, userId: string, now: int): (p: Payload)
    ensures p.Keys == {UserIdClaim, UserTypeClaim, UsernameClaim, PermissionsClaim, EntityIdClaim, RoleClaim,
                       ClearanceClaim, IssuedAtClaim, IssuerClaim, AudienceClaim}
    ensures p[UsernameClaim] == Text(userType + UserSuffix)
    ensures p[EntityIdClaim] == Text(EntityPrefix + userId)
    ensures p[RoleClaim] == p[UserTypeClaim] == Text(userType)
    ensures p[IssuedAtClaim] == Time(now)
  {
    map[
      UserIdClaim := Text(userId),
      UserTypeClaim := Text(userType),
      UsernameClaim := Text(userType + UserSuffix),
      PermissionsClaim := TextList(Permissions(userType)),
      EntityIdClaim := Text(EntityPrefix + userId),
      RoleClaim := Text(userType),
      ClearanceClaim := Number(ClearanceLevel(userType)),
      IssuedAtClaim := Time(now),
      IssuerClaim := Text(Issuer),
      AudienceClaim := Text(Audience)
    ]
  }

  /** The claims the test token carries: the data above with the default expiry. */
  function TestTokenClaims(userType: string, userId: string, now: int): Payload {
    WithExpiry(TestTokenData(userType, userId, now), now, None)
  }

  /** The test token encodes the user's type, an issue time of now and an expiry thirty minutes on. */
  function GenerateTestToken(userType: string, userId: string, now: int, encode: Payload -> string): (token: string)
    ensures exists p :: token == encode(p) && ExpClaim in p && IssuedAtClaim in p && UserTypeClaim in p
                        && p[ExpClaim] == Time(now + DefaultLifetime) && p[IssuedAtClaim] == Time(now)
                        && p[UserTypeClaim] == Text(userType)
  {
    var p := TestTokenClaims(userType, userId, now);
    assert ExpClaim !in TestTokenData(userType, userId, now);
    assert p[UserTypeClaim] == Text(userType);
    CreateAccessToken(TestTokenData(userType, userId, now), now, None, encode)
  }

  /** A test token expires thirty minutes after it is issued, whatever the user. */
  lemma TestTokenLifetime(userType: string, userId: string, now: int)
    ensures TestTokenClaims(userType, userId, now)[ExpClaim] == Time(now + DefaultLifetime)
    ensures TestTokenClaims(userType, userId, now)[IssuedAtClaim] == Time(now)
  {
    assert ExpClaim !in TestTokenData(userType, userId, now);
  }

  /** The admin flag and clearance 3 go together: a token has both or neither. */
  lemma AdminClaimsAgree(userType: string, userId: string, now: int)
    ensures var p := TestTokenClaims(userType, userId, now);
      (p[ClearanceClaim] == Number(3)) <==> AdminAccess in p[PermissionsClaim].items
  {
    assert ExpClaim !in TestTokenData(userType, userId, now);
  }

  // ---------------------------------------------------------------------------
  // The menu
  // ---------------------------------------------------------------------------

  const DefaultChoice: string := "1"

  /** `input(...).strip() or "1"`: the answer stripped, a blank one read as the first entry. */
  function MenuChoice(input: string): (choice: string)
    ensures choice != []
    ensures PyStrip(input) != [] ==> choice == PyStrip(input)
  {
    var stripped := PyStrip(input);
    if stripped == [] then DefaultChoice else stripped
  }

  /** `user_types.get(choice, "admin")`. */
  function UserTypeFor(choice: string): (userType: string)
    ensures userType in {Admin, Officer, Taxpayer, Donor}
    ensures userType == Admin <==> choice !in {"2", "3", "4"}
  {
    if choice == "1" then Admin
    else if choice == "2" then Officer
    else if choice == "3" then Taxpayer
    else if choice == "4" then Donor
    else Admin
  }

  function MenuUserType(input: string): string {
    UserTypeFor(MenuChoice(input))
  }

  /** A blank answer and any answer outside 2, 3 and 4 both give an admin token. */
  lemma MenuFallsBackToAdmin(input: string)
    ensures MenuUserType(input) == Admin <==> PyStrip(input) !in {"2", "3", "4"}
  {
  }

  /** The answer is read after stripping: whitespace around it does not change the user type. */
  lemma MenuIgnoresSpaces(pre: string, answer: string, post: string)
    requires forall i :: 0 <= i < |pre| ==> PySpace(pre[i])
    requires forall i :: 0 <= i < |post| ==> PySpace(post[i])
    requires answer != [] && !PySpace(answer[0]) && !PySpace(answer[|answer| - 1])
    ensures MenuUserType(pre + answer + post) == MenuUserType(answer)
  {
    TrimPadding(pre, answer, post, PySpace);
    TrimPadding([], answer, [], PySpace);
    assert [] + answer + [] == answer;
    assert MenuChoice(pre + answer + post) == MenuChoice(answer);
  }
}
