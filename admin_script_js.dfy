/**
 * The admin dashboard script, base/src/script.js: the risk-cell colouring, the
 * week navigation of the calendar, and the nudge panel (compliance alert cards,
 * the message editor with its live preview, and the sent-nudge log).
 *
 * Dates are whole days counted from 1970-01-01, a Thursday; the time of day,
 * the time zone and the `toLocaleString` texts are not part of this model.
 */
module AdminScript {
  import opened Strings
  import opened Days

  // ---------------------------------------------------------------------------
  // Risk cells
  // ---------------------------------------------------------------------------

  /** The third cell of a table row: its text, and the colour and bold weight the script may set. */
  datatype RiskCell = RiskCell(text: string, color: Option<string>, bold: bool)

  /** The level a risk cell names: its text trimmed and lowercased. */
  function Level(text: string): string {
    ToLower(JsTrim(text))
  }

  /** The colour of a risk level, by its trimmed lowercased text; None leaves the cell alone. */
  function RiskColour(text: string): (c: Option<string>)
    ensures c.Some? <==> Level(text) in {"high", "medium", "low"}
    ensures Level(text) == "high" ==> c == Some("#e74c3c")
    ensures Level(text) == "medium" ==> c == Some("#f39c12")
    ensures Level(text) == "low" ==> c == Some("#27ae60")
  {
    var level := Level(text);
    if level == "high" then Some("#e74c3c")
    else if level == "medium" then Some("#f39c12")
    else if level == "low" then Some("#27ae60")
    else None
  }

  /** A cell after the colouring pass: a known level gets its colour in bold, anything else is left as it was. */
  function Coloured(cell: RiskCell): RiskCell {
    match RiskColour(cell.text)
    case Some(c) => cell.(color := Some(c), bold := true)
    case None => cell
  }

  // ---------------------------------------------------------------------------
  // Week range
  // ---------------------------------------------------------------------------

  /** The Sunday that starts the week of `day`. */
  function WeekStart(day: int): (s: int)
    ensures s <= day < s + 7 && Weekday(s) == 0
  {
    day - Weekday(day)
  }

  /** Moving a day by a whole week moves its week by the same amount. */
  lemma WeekStartShift(day: int, weeks: int)
    ensures WeekStart(day + 7 * weeks) == WeekStart(day) + 7 * weeks
  {
    assert (day + 7 * weeks + 4) % 7 == (day + 4) % 7 by {
      assert day + 7 * weeks + 4 == (day + 4) + 7 * weeks;
    }
  }

  /** Every day of a week maps to that week's Sunday. */
  lemma WeekStartUnique(day: int, sunday: int)
    requires Weekday(sunday) == 0 && sunday <= day < sunday + 7
    ensures WeekStart(day) == sunday
  {
    var k := day - sunday;
    assert (day + 4) % 7 == ((sunday + 4) + k) % 7;
  }

  // ---------------------------------------------------------------------------
  // Nudge panel
  // ---------------------------------------------------------------------------

  /** A sample compliance alert of the nudge panel. */
  datatype ComplianceAlert = ComplianceAlert(userId: string, name: string, issue: string, risk: string)

  const ComplianceAlerts: seq<ComplianceAlert> := [
    ComplianceAlert("TXP-2034", "Officer Sarah Mwanza", "Missed Filing Deadline", "High"),
    ComplianceAlert("TXP-1599", "James Kunda", "Incomplete Tax Form", "Medium"),
    ComplianceAlert("TXP-1178", "Linda Chirwa", "Late Payment Notice", "High")]

  const PreviewPlaceholder: string := "Your message will appear here..."
  const BlankMessageAlert: string := "Please add a message or choose a template."

  /** The person a card addresses: name and user id. */
  function Addressee(a: ComplianceAlert): string {
    a.name + UserIdOpen + a.userId + UserIdClose
  }

  const UserIdOpen: string := " (User ID: "
  const UserIdClose: string := ")"

  /** The recipient banner set by a card's Nudge button. */
  function Banner(a: ComplianceAlert): string {
    "Nudging " + Addressee(a)
  }

  /** The banner text with its first 'Nudging ' removed. */
  function Recipient(banner: string): string {
    ReplaceFirst(banner, "Nudging ", "")
  }

  /** The recipient read back from a banner is the text after 'Nudging '. */
  lemma RecipientOfBanner(x: string)
    ensures Recipient("Nudging " + x) == x
  {
    var s := "Nudging " + x;
    assert StartsWith(s, "Nudging ");
    assert IndexOf(s, "Nudging ") == Some(0);
    assert s[8..] == x;
  }

  /** `updatePreview`: recipient, ': ', then the trimmed message or the placeholder when it is blank. */
  function Preview(banner: string, message: string): (p: string)
    ensures JsTrim(message) == [] ==> p == Recipient(banner) + ": " + PreviewPlaceholder
    ensures JsTrim(message) != [] ==> p == Recipient(banner) + ": " + JsTrim(message)
  {
    var m := JsTrim(message);
    Recipient(banner) + ": " + (if m != [] then m else PreviewPlaceholder)
  }

  /** The preview after a card's button and a message names that card's person and id. */
  lemma PreviewNamesRecipient(a: ComplianceAlert, message: string)
    requires JsTrim(message) != []
    ensures Preview(Banner(a), message) == Addressee(a) + ": " + JsTrim(message)
  {
    RecipientOfBanner(Addressee(a));
  }

  /** A log line: the date, the recipient and the trimmed message. */
  function LogEntry(date: string, recipient: string, message: string): string {
    LogDateOpen + date + LogDateClose + recipient + LogQuoteOpen + message + LogQuoteClose
  }

  const LogDateOpen: string := "<strong>"
  const LogDateClose: string := ":</strong> Sent to "
  const LogQuoteOpen: string := " — “"
  const LogQuoteClose: string := "”"

  class AdminPage {
    var cells: seq<RiskCell>
    var currentDay: int
    var weekStart: int
    var weekEnd: int
    var panelHidden: bool
    var cards: seq<ComplianceAlert>
    var banner: string
    var editorHidden: bool
    var message: string
    var templates: seq<string>   // the option values of the template select
    var templateIndex: nat
    var preview: string
    var log: seq<string>         // newest first
    var alerts: seq<string>

    constructor (initialCells: seq<RiskCell>, today: int, templateValues: seq<string>)
      ensures cells == initialCells && currentDay == today && templates == templateValues
      ensures weekStart == WeekStart(today) && weekEnd == weekStart + 6
      ensures panelHidden && editorHidden && cards == [] && log == [] && alerts == []
    {
      cells := initialCells;
      currentDay := today;
      weekStart := WeekStart(today);   // the `updateWeekRange()` run on load
      weekEnd := WeekStart(today) + 6;
      panelHidden, editorHidden := true, true;
      cards, banner, message := [], [], [];
      templates, templateIndex := templateValues, 0;
      preview, log, alerts := [], [], [];
    }

    /** The DOMContentLoaded pass over the rows: known levels get their colour in bold, other cells are untouched. */
    method ColourRiskCells()
      modifies this`cells
      ensures |cells| == |old(cells)|
      ensures forall j :: 0 <= j < |cells| ==> cells[j] == Coloured(old(cells)[j])
    {
      var rows := cells;
      var i := 0;
      while i < |rows|
        invariant 0 <= i <= |rows| == |cells|
        invariant forall j :: 0 <= j < i ==> rows[j] == Coloured(cells[j])
        invariant forall j :: i <= j < |rows| ==> rows[j] == cells[j]
      {
        rows := rows[i := Coloured(rows[i])];
        i := i + 1;
      }
      cells := rows;
    }

    /** `updateWeekRange`: Sunday of the current date's week, and six days later. */
    method UpdateWeekRange()
      modifies this`weekStart, this`weekEnd
      ensures weekStart == WeekStart(currentDay) && weekEnd == weekStart + 6
      ensures weekStart <= currentDay <= weekEnd && Weekday(weekStart) == 0
    {
      weekStart := currentDay - Weekday(currentDay);
      weekEnd := weekStart + 6;
    }

    /** The previous-week button. */
    method OnPrevWeek()
      modifies this`currentDay, this`weekStart, this`weekEnd
      ensures currentDay == old(currentDay) - 7
      ensures weekStart == WeekStart(old(currentDay)) - 7 && weekEnd == weekStart + 6
    {
      currentDay := currentDay - 7;
      UpdateWeekRange();
      WeekStartShift(old(currentDay), -1);
    }

    /** The next-week button. */
    method OnNextWeek()
      modifies this`currentDay, this`weekStart, this`weekEnd
      ensures currentDay == old(currentDay) + 7
      ensures weekStart == WeekStart(old(currentDay)) + 7 && weekEnd == weekStart + 6
    {
      currentDay := currentDay + 7;
      UpdateWeekRange();
      WeekStartShift(old(currentDay), 1);
    }

    /** `loadComplianceAlerts`: the container is cleared, then one card per sample alert, in order. */
    method LoadComplianceAlerts()
      modifies this`cards
      ensures cards == ComplianceAlerts
    {
      cards := [];
      var i := 0;
      while i < |ComplianceAlerts|
        invariant 0 <= i <= |ComplianceAlerts|
        invariant cards == ComplianceAlerts[..i]
      {
        cards := cards + [ComplianceAlerts[i]];
        i := i + 1;
      }
    }

    /** The toggle button: the panel's 'hidden' class flips and the cards are reloaded. */
    method OnTogglePanel()
      modifies this`panelHidden, this`cards
      ensures panelHidden == !old(panelHidden) && cards == ComplianceAlerts
    {
      panelHidden := !panelHidden;
      LoadComplianceAlerts();
    }

    method OnClosePanel()
      modifies this`panelHidden
      ensures panelHidden
    {
      panelHidden := true;
    }

    /** A card's Nudge button: banner set, editor shown, message, template and preview reset. */
    method OnCardNudge(k: nat)
      requires k < |cards|
      modifies this`banner, this`editorHidden, this`message, this`templateIndex, this`preview
      ensures banner == Banner(cards[k]) && Recipient(banner) == Addressee(cards[k])
      ensures !editorHidden && message == [] && templateIndex == 0 && preview == PreviewPlaceholder
    {
      banner := Banner(cards[k]);
      RecipientOfBanner(Addressee(cards[k]));
      editorHidden := false;
      message := [];
      templateIndex := 0;
      preview := PreviewPlaceholder;
    }

    /** The template select: a non-empty template replaces the message; the preview is recomputed either way. */
    method OnTemplateChange(index: nat)
      requires index < |templates|
      modifies this`templateIndex, this`message, this`preview
      ensures templateIndex == index
      ensures message == if templates[index] != [] then templates[index] else old(message)
      ensures preview == Preview(banner, message)
    {
      templateIndex := index;
      if templates[index] != [] {
        message := templates[index];
      }
      preview := Preview(banner, message);
    }

    /** Typing in the message box. */
    method OnMessageInput(text: string)
      modifies this`message, this`preview
      ensures message == text && preview == Preview(banner, text)
    {
      message := text;
      preview := Preview(banner, message);
    }

    /**
     * The send button, with `date` the formatted current date: a blank message is
     * refused with an alert; otherwise one entry is prepended to the log and the
     * editor is hidden and cleared.
     */
    method OnSend(date: string)
      modifies this`alerts, this`log, this`editorHidden, this`message, this`preview
      ensures JsTrim(old(message)) == [] ==>
        alerts == old(alerts) + [BlankMessageAlert] && log == old(log)
        && editorHidden == old(editorHidden) && message == old(message) && preview == old(preview)
      ensures JsTrim(old(message)) != [] ==> alerts == old(alerts)
      ensures JsTrim(old(message)) != [] ==> log == [LogEntry(date, Recipient(banner), JsTrim(old(message)))] + old(log)
      ensures JsTrim(old(message)) != [] ==> editorHidden && message == [] && preview == PreviewPlaceholder
    {
      var text := JsTrim(message);
      if text == [] {
        RefuseBlank();
      } else {
        RecordSend(LogEntry(date, Recipient(banner), text));
      }
    }

    /** The alert a blank message raises; nothing else changes. */
    method RefuseBlank()
      modifies this`alerts
      ensures alerts == old(alerts) + [BlankMessageAlert]
    {
      alerts := alerts + [BlankMessageAlert];
    }

    /** A message sent: its entry goes first in the log and the editor is cleared. */
    method RecordSend(entry: string)
      modifies this`log, this`editorHidden, this`message, this`preview
      ensures log == [entry] + old(log)
      ensures editorHidden && message == [] && preview == PreviewPlaceholder
    {
      log := [entry] + log;
      ClearEditor();
    }

    /** The editor reset after a send: hidden, with an empty message and the placeholder preview. */
    method ClearEditor()
      modifies this`editorHidden, this`message, this`preview
      ensures editorHidden && message == [] && preview == PreviewPlaceholder
    {
      editorHidden, message, preview := true, [], PreviewPlaceholder;
    }
  }
}
