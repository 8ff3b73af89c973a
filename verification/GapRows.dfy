/** The hourly gap measurement: sidecar records are summed up into a row of a
    tab-separated file (lib/sigmond/gap_hourly.py), and the last row of that file
    is read and judged by the heartbeat (lib/sigmond/heartbeat.py). */
module GapRows {
  import opened Lists
  import opened Text

  // ---- sampling ----

  /** `minute_boundary`, as JSON gives it. */
  datatype Boundary = NoBoundary | Seconds(n: int) | Words(s: string) | NoNumber

  /** `gap_count`: absent or null count as zero. */
  datatype GapCount = NoCount | Count(n: int)

  datatype Sidecar = Sidecar(boundary: Boundary, gapCount: GapCount)

  function BoundarySeconds(b: Boundary): Option<int> {
    match b
    case Seconds(n) => Some(n)
    case Words(s) => ParseInt(s)
    case _ => None
  }

  function GapsOf(s: Sidecar): int {
    if s.gapCount.NoCount? then 0 else s.gapCount.n
  }

  predicate InWindow(s: Sidecar, now: int, window: int) {
    var at := BoundarySeconds(s.boundary);
    at.Some? && now - window <= at.value < now
  }

  function TotalGaps(sidecars: seq<Sidecar>): int {
    if sidecars == [] then 0 else GapsOf(sidecars[0]) + TotalGaps(sidecars[1..])
  }

  lemma {:induction false} TotalGapsAppend(sidecars: seq<Sidecar>, s: Sidecar)
    ensures TotalGaps(sidecars + [s]) == TotalGaps(sidecars) + GapsOf(s)
  {
    if sidecars == [] {
      assert [] + [s] == [s];
    } else {
      assert (sidecars + [s])[1..] == sidecars[1..] + [s];
      TotalGapsAppend(sidecars[1..], s);
    }
  }

  /** The sidecars of the window. */
  function Measured(sidecars: seq<Sidecar>, now: int, window: int): seq<Sidecar> {
    Filter(sidecars, WindowTest(now, window))
  }

  function WindowTest(now: int, window: int): Sidecar -> bool {
    (s: Sidecar) => InWindow(s, now, window)
  }

  lemma MeasuredAppend(sidecars: seq<Sidecar>, s: Sidecar, now: int, window: int)
    ensures var was, r := Measured(sidecars, now, window), Measured(sidecars + [s], now, window);
      if InWindow(s, now, window) then |r| == |was| + 1 && TotalGaps(r) == TotalGaps(was) + GapsOf(s) else r == was
  {
    FilterAppend(sidecars, s, WindowTest(now, window));
    TotalGapsAppend(Measured(sidecars, now, window), s);
  }

  lemma NothingMeasured(now: int, window: int)
    ensures Measured([], now, window) == [] && TotalGaps([]) == 0
  {
  }

  datatype Summary = Summary(gaps: string, channelHours: string, rate: string)

  /** `fixed2(a, b)` is `a / b` with two decimals. */
  function SummaryOf(count: nat, gaps: int, fixed2: (int, int) -> string): Summary {
    if count == 0 then Summary("NA", "0.00", "NA")
    else Summary(ToInt(gaps), fixed2(count * 300, 3600), fixed2(gaps * 3600, count * 300))
  }

  function RowFields(utc: string, s: Summary, running: int): seq<string> {
    [utc, s.gaps, s.channelHours, s.rate, ToInt(running)]
  }

  const WINDOW_SEC := 3600

  /** The row of one sample taken at `now`, when `running` daily jobs ran. */
  method BuildRow(utc: string, sidecars: seq<Sidecar>, now: int, fixed2: (int, int) -> string, running: int)
    returns (fields: seq<string>)
    ensures fields == SampleRow(utc, Measured(sidecars, now, WINDOW_SEC), fixed2, running)
  {
    var summary := SummariseWindow(sidecars, now, WINDOW_SEC, fixed2);
    fields := [utc, summary.gaps, summary.channelHours, summary.rate, ToInt(running)];
  }

  function SampleRow(utc: string, measured: seq<Sidecar>, fixed2: (int, int) -> string, running: int): seq<string> {
    RowFields(utc, SummaryOf(|measured|, TotalGaps(measured), fixed2), running)
  }

  method SummariseWindow(sidecars: seq<Sidecar>, now: int, window: int, fixed2: (int, int) -> string)
    returns (r: Summary)
    ensures var measured := Measured(sidecars, now, window);
      r == SummaryOf(|measured|, TotalGaps(measured), fixed2)
  {
    var start, gaps, count := now - window, 0, 0;
    hide TotalGaps, Measured;
    NothingMeasured(now, window);
    for i := 0 to |sidecars|
      invariant gaps == TotalGaps(Measured(sidecars[..i], now, window))
      invariant count == |Measured(sidecars[..i], now, window)|
    {
      assert sidecars[..i + 1] == sidecars[..i] + [sidecars[i]];
      MeasuredAppend(sidecars[..i], sidecars[i], now, window);
      var at := BoundarySeconds(sidecars[i].boundary);
      if at.None? {
        continue;
      }
      var gapCount := if sidecars[i].gapCount.NoCount? then 0 else sidecars[i].gapCount.n;
      if start <= at.value < now {
        gaps := gaps + gapCount;
        count := count + 1;
      }
    }
    assert sidecars[..|sidecars|] == sidecars;
    if count * 300 == 0 {
      return Summary("NA", "0.00", "NA");
    }
    return Summary(ToInt(gaps), fixed2(count * 300, 3600), fixed2(gaps * 3600, count * 300));
  }

  // ---- the file ----

  const COLUMNS := ["# utc", "gaps", "channel_hours", "gaps_per_ch_hr", "grape_running"]

  const HEADER := Join(COLUMNS, '\t')

  predicate Unbroken(s: string) {
    forall i :: 0 <= i < |s| ==> !IsBreak(s[i])
  }

  predicate IsData(line: string) {
    Strip(line) != [] && LStrip(line)[0] != '#'
  }

  /** A field of a row: neither tab nor line break. */
  predicate Clean(field: string) {
    forall i :: 0 <= i < |field| ==> field[i] != '\t' && !IsBreak(field[i])
  }

  class GapLog {
    /** None when there is no file. */
    var text: Option<string>

    constructor ()
      ensures text == None
    {
      text := None;
    }

    method AppendRow(fields: seq<string>)
      modifies this`text
      ensures text == Some(Appended(old(text), Join(fields, '\t')))
    {
      var written := "";
      if text.None? {
        written := HEADER + "\n";
      }
      assert text.GetOr("") + written == if text.None? then HEADER + "\n" else text.value;
      text := Some(text.GetOr("") + written + Join(fields, '\t') + "\n");
    }
  }

  function Appended(text: Option<string>, row: string): string {
    (if text.None? then HEADER + "\n" else text.value) + row + "\n"
  }

  // ---- reading ----

  /** The lines of a text, with an empty one after a final break (reading skips
      blank lines). */
  function Lines(s: string): (r: seq<string>)
    ensures r != []
  {
    if s == [] then [[]]
    else if IsBreak(s[0]) then [[]] + Lines(s[1..])
    else
      var r := Lines(s[1..]);
      [[s[0]] + r[0]] + r[1..]
  }

  function DataRows(text: string): seq<string> {
    Filter(Lines(text), IsData)
  }

  datatype Reading = Unreadable | Reading(utc: string, gaps: Option<int>, age: Option<real>)

  /** `parse` reads a time stamp as seconds. */
  function ParseGapRow(text: string, now: real, parse: string -> Option<int>): Reading {
    var rows := DataRows(text);
    if rows == [] then Unreadable
    else
      var fields := SplitOn(rows[|rows| - 1], '\t');
      if |fields| < 4 then Unreadable
      else
        var utc := Strip(fields[0]);
        Reading(utc, ParseInt(fields[1]),
                match parse(utc) case None => None case Some(t) => Some(now - t as real))
  }

  datatype Verdict = VALID | INVALID | INDETERMINATE

  const GAP_ROW_MAX_AGE_SEC := 7200

  function MapGaps(raw: Reading): Verdict
    requires raw.Reading?
  {
    if raw.age.None? then INDETERMINATE
    else if raw.age.value < 0.0 then INDETERMINATE
    else if raw.age.value > GAP_ROW_MAX_AGE_SEC as real then INDETERMINATE
    else if raw.gaps.None? then INDETERMINATE
    else if raw.gaps.value > 0 then INVALID
    else VALID
  }
}
