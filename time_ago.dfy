/**
 * `formatTimeAgo` of src/components/ServiceCard.tsx: a millisecond difference rendered as
 * whole minutes, hours or days. The difference `Date.now() - new Date(iso).getTime()` is a
 * parameter; `None` stands for a timestamp that does not parse (NaN).
 */
module TimeAgo {
  import opened Wrappers
  import opened Text

  const MinuteMs := 60000
  const HourMs := 3600000
  const DayMs := 86400000

  datatype Unit = Minutes | Hours | Days

  /** A rendered quantity: "<amount>m ago", "<amount>h ago" or "<amount>d ago". */
  datatype Span = Span(amount: int, unit: Unit)

  function UnitMs(u: Unit): nat {
    match u
    case Minutes => MinuteMs
    case Hours => HourMs
    case Days => DayMs
  }

  /**
   * The unit and amount chosen for a difference: minutes below one hour (negative for a
   * future timestamp), whole hours 1..23 below one day, whole days from then on; the amount is
   * always the difference divided by the unit, rounded down.
   */
  function Elapsed(diff: int): (s: Span)
    ensures s.amount * UnitMs(s.unit) <= diff < (s.amount + 1) * UnitMs(s.unit)
    ensures s.unit == Minutes <==> diff < HourMs
    ensures s.unit == Minutes ==> s.amount < 60
    ensures s.unit == Hours <==> HourMs <= diff < DayMs
    ensures s.unit == Hours ==> 1 <= s.amount <= 23
    ensures s.unit == Days ==> diff >= DayMs && s.amount >= 1
  {
    var minutes := diff / MinuteMs;
    var hours := diff / HourMs;
    var days := diff / DayMs;
    if minutes < 60 then Span(minutes, Minutes)
    else if hours < 24 then Span(hours, Hours)
    else Span(days, Days)
  }

  function Suffix(u: Unit): string {
    match u
    case Minutes => "m ago"
    case Hours => "h ago"
    case Days => "d ago"
  }

  function Render(s: Span): string {
    IntToString(s.amount) + Suffix(s.unit)
  }

  /** Reads a rendered span back; "N/A" and "NaNd ago" give nothing. */
  function ParseSpan(r: string): Option<Span> {
    if |r| < 5 then None
    else
      var head, tail := r[..|r| - 5], r[|r| - 5..];
      var unit :=
        if tail == "m ago" then Some(Minutes)
        else if tail == "h ago" then Some(Hours)
        else if tail == "d ago" then Some(Days)
        else None;
      match (unit, ParseInt(head))
      case (Some(u), Some(n)) => Some(Span(n, u))
      case _ => None
  }

  lemma RenderRoundTrip(s: Span)
    ensures ParseSpan(Render(s)) == Some(s)
  {
    var r := Render(s);
    assert r[..|r| - 5] == IntToString(s.amount);
    assert r[|r| - 5..] == Suffix(s.unit);
    IntToStringRoundTrip(s.amount);
  }

  /** The converse: a string that reads back as a span is that span's rendering, character for character. */
  lemma ParseSpanExact(r: string)
    requires ParseSpan(r).Some?
    ensures Render(ParseSpan(r).value) == r
  {
    var head, tail := r[..|r| - 5], r[|r| - 5..];
    ParseIntExact(head);
    assert r == head + tail;
  }

  /**
   * `formatTimeAgo(iso)`: "N/A" for a missing or empty timestamp; "NaNd ago" when the
   * timestamp does not parse (every comparison with NaN is false); otherwise the span.
   */
  function FormatTimeAgo(iso: Option<string>, diff: Option<int>): (r: string)
    ensures iso.None? || iso.value == "" ==> r == "N/A"
    ensures iso.Some? && iso.value != "" && diff.None? ==> r == "NaNd ago"
    ensures iso.Some? && iso.value != "" && diff.Some? ==> ParseSpan(r) == Some(Elapsed(diff.value))
  {
    if iso.None? || iso.value == "" then "N/A"
    else match diff
      case None => "NaNd ago"
      case Some(d) =>
        RenderRoundTrip(Elapsed(d));
        Render(Elapsed(d))
  }

  /** The three strings a caller can tell apart: no timestamp, a bad one, and a real span. */
  lemma FormatDistinguishesCases(iso: Option<string>, diff: Option<int>)
    ensures ParseSpan(FormatTimeAgo(iso, diff)).Some? <==> iso.Some? && iso.value != "" && diff.Some?
  {
    if iso.Some? && iso.value != "" && diff.None? {
      assert "NaNd ago"[..3] == "NaN";
      assert !IsDigit("NaN"[0]);
    }
  }
}
