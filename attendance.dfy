/**
 * The attendance service as the bot sees it: the report the attendance endpoint
 * returns, the report the skip endpoint returns, and the refactored bot's
 * report formatter `buildAttendanceMessage` (test.js).
 *
 * The HTTP endpoints themselves are parameters of type `AttendanceApi` and
 * `SkipApi`; `None` stands for a request that failed.
 */
module Attendance {
  import opened Wrappers
  import Text

  /** One row of `subjectwise_summary`. */
  datatype SubjectRow = SubjectRow(name: string, attendedHeld: string, percentage: int)

  /**
   * One row of `attendance_summary`: either a class held today (`subject`,
   * `attendance_today`) or a note such as "no classes today" (`message`).
   * Any of the three members may be missing.
   */
  datatype TodayEntry = TodayEntry(subject: Option<string>, attendanceToday: Option<string>, message: Option<string>)

  /** `total_info`; the two hour counts are sent only when they apply. */
  datatype TotalInfo = TotalInfo(
    attended: int, held: int, percentage: int,
    hoursCanSkip: Option<int>, additionalHoursNeeded: Option<int>)

  /** The body of a successful attendance request. */
  datatype Report = Report(rollNumber: string, total: TotalInfo, subjects: seq<SubjectRow>, today: seq<TodayEntry>)

  /**
   * What the attendance endpoint answers: the report itself, plus whatever a
   * member named `data` of that body holds (the documented endpoint sends none).
   */
  datatype Payload = Payload(report: Report, data: Option<Report>)

  /** The body of a successful skip request. */
  datatype SkipReport = SkipReport(newPercentage: int, originalPercentage: int, status: string, hoursLeft: int)

  /** `GET /attendance?student_id=&password=`; `None` when the request fails. */
  type AttendanceApi = (string, string) -> Option<Payload>

  /** `GET /skip?student_id=&password=&hours=`; an absent `hours` is not sent. */
  type SkipApi = (string, string, Option<string>) -> Option<SkipReport>

  /** How a template literal prints a string member that may be missing. */
  function Show(s: Option<string>): string {
    match s
    case Some(t) => t
    case None => "undefined"
  }

  /** How a template literal prints a number member that may be missing. */
  function ShowInt(n: Option<int>): string {
    match n
    case Some(k) => Text.IntToString(k)
    case None => "undefined"
  }

  /** JavaScript truthiness of a string member that may be missing. */
  predicate Present(s: Option<string>) {
    s.Some? && s.value != ""
  }

  /** JavaScript truthiness of a number member that may be missing. */
  predicate NonZero(n: Option<int>) {
    n.Some? && n.value != 0
  }

  /** The percentage below which a student is short of attendance. */
  const Threshold := 75

  const NeedPrefix := "\nYou need to attend "
  const SkipPrefix := "\nYou can skip "
  const TodayHeading := "\n\nToday's Attendance:\n"
  const SubjectHeading := "\nSubject-wise Attendance:\n"

  function TotalLine(t: TotalInfo): string {
    "Total: " + Text.IntToString(t.attended) + "/" + Text.IntToString(t.held)
    + " (" + Text.IntToString(t.percentage) + "%)\n"
  }

  /** The greeting and the total line that open the report. */
  function Header(r: Report): string {
    "Hi, Roll Number: " + r.rollNumber + "\n" + TotalLine(r.total)
  }

  /** The advice line: hours still needed below the threshold, hours that may be skipped otherwise. */
  function Advice(t: TotalInfo): string {
    if t.percentage < Threshold then
      NeedPrefix + ShowInt(t.additionalHoursNeeded) + " more hours to reach 75%."
    else
      SkipPrefix + ShowInt(t.hoursCanSkip) + " hours and still maintain above 75%."
  }

  function TodayLine(e: TodayEntry): string {
    Show(e.subject) + ": " + Show(e.attendanceToday) + "\n"
  }

  /** What stands in for today's lines when the first entry names no subject. */
  function TodayNote(e: TodayEntry): string {
    "\n" + Show(e.message) + "\n"
  }

  function SubjectLine(s: SubjectRow): string {
    s.name + ": " + s.attendedHeld + " (" + Text.IntToString(s.percentage) + "%)\n"
  }

  /**
   * The part about today: one line per entry when the first entry names a
   * subject, otherwise the first entry's message. With no entry at all the
   * source reads a member of `undefined` and throws, which is `None` here.
   */
  function TodaySection(today: seq<TodayEntry>): (r: Option<string>)
    ensures r.None? <==> today == []
  {
    if |today| > 0 && Present(today[0].subject) then Some(TodayHeading + Text.Lines(today, TodayLine))
    else if |today| == 0 then None
    else Some(TodayNote(today[0]))
  }

  /** The text `buildAttendanceMessage(data)` returns, or `None` where it throws. */
  function AttendanceMessage(r: Report): (msg: Option<string>)
    ensures msg.None? <==> r.today == []
  {
    match TodaySection(r.today)
    case None => None
    case Some(today) => Some(Header(r) + Advice(r.total) + today + SubjectHeading + Text.Lines(r.subjects, SubjectLine))
  }

  /**
   * `buildAttendanceMessage`: appends the header, the advice line, today's
   * lines and the subject lines to one string, one `+=` at a time.
   */
  method BuildAttendanceMessage(r: Report) returns (msg: Option<string>)
    ensures msg == AttendanceMessage(r)
  {
    var message := "Hi, Roll Number: " + r.rollNumber + "\n";
    message := message + TotalLine(r.total);
    message := message + Advice(r.total);
    var head := message;
    var today := r.today;
    if |today| > 0 && Present(today[0].subject) {
      message := message + TodayHeading;
      message := Text.AppendLines(message, today, TodayLine);
      Text.AppendAssoc(head, TodayHeading, Text.Lines(today, TodayLine));
    } else if |today| == 0 {
      return None;
    } else {
      message := message + TodayNote(today[0]);
    }
    message := message + SubjectHeading;
    message := Text.AppendLines(message, r.subjects, SubjectLine);
    return Some(message);
  }

  /** The report opens with the header and the advice line. */
  lemma MessageOpening(r: Report)
    requires AttendanceMessage(r).Some?
    ensures Header(r) + Advice(r.total) <= AttendanceMessage(r).value
  {
    var opening := Header(r) + Advice(r.total);
    var today := TodaySection(r.today).value;
    Text.PrefixAppend(opening, today);
    Text.PrefixAppend(opening + today, SubjectHeading);
    Text.PrefixAppend(opening + today + SubjectHeading, Text.Lines(r.subjects, SubjectLine));
  }

  /**
   * The advice line is chosen by the threshold alone: the report continues
   * after its header with the hours-needed line exactly when the total
   * percentage is below 75, and with the hours-to-skip line exactly when not.
   */
  lemma AdviceByThreshold(r: Report)
    requires AttendanceMessage(r).Some?
    ensures r.total.percentage < Threshold <==> Header(r) + NeedPrefix <= AttendanceMessage(r).value
    ensures r.total.percentage >= Threshold <==> Header(r) + SkipPrefix <= AttendanceMessage(r).value
  {
    var msg := AttendanceMessage(r).value;
    var h := Header(r);
    var t := r.total;
    MessageOpening(r);
    var k := |h| + 5;
    assert (h + NeedPrefix)[k] == 'n';
    assert (h + SkipPrefix)[k] == 'c';
    if t.percentage < Threshold {
      Text.PrefixAppend(NeedPrefix, ShowInt(t.additionalHoursNeeded));
      Text.PrefixAppend(NeedPrefix + ShowInt(t.additionalHoursNeeded), " more hours to reach 75%.");
      Text.PrefixUnder(h, NeedPrefix, Advice(t));
    } else {
      Text.PrefixAppend(SkipPrefix, ShowInt(t.hoursCanSkip));
      Text.PrefixAppend(SkipPrefix + ShowInt(t.hoursCanSkip), " hours and still maintain above 75%.");
      Text.PrefixUnder(h, SkipPrefix, Advice(t));
    }
  }

  /**
   * When the first entry names a subject, today's part is the heading and then
   * every entry's line in list order: entry `i` right after entries `0 .. i-1`.
   */
  lemma TodayLinesInOrder(today: seq<TodayEntry>, i: nat)
    requires |today| > 0 && Present(today[0].subject)
    requires i < |today|
    ensures TodaySection(today).Some?
    ensures TodaySection(today).value
            == TodayHeading + (Text.Lines(today[..i], TodayLine) + TodayLine(today[i]) + Text.Lines(today[i + 1..], TodayLine))
  {
    Text.LinesAt(today, i, TodayLine);
  }

  /** The reply to `skip`, built from the skip report and the hours as typed. */
  function SkipMessage(hours: Option<string>, s: SkipReport): string {
    "Attendance report after skipping " + Show(hours) + " hours:\n\n"
    + "New attendance % : " + Text.IntToString(s.newPercentage) + "%\n"
    + "Original attendance % : " + Text.IntToString(s.originalPercentage) + "%\n"
    + s.status + "\n\n"
    + "Hours left to skip : " + Text.IntToString(s.hoursLeft) + "\n"
  }
}
