/** From the sidecars through the log to the verdict: what the heartbeat says of a
    row that the sampler wrote (lib/sigmond/gap_hourly.py,
    lib/sigmond/heartbeat.py). */
module GapVerdict {
  import opened Lists
  import opened Text
  import opened GapRows

  // ---- lines ----

  predicate EndsLine(text: string) {
    text == [] || IsBreak(text[|text| - 1])
  }

  lemma {:induction false} LinesOfOne(s: string)
    requires Unbroken(s)
    ensures Lines(s) == [s]
  {
    if s == [] {
    } else {
      LinesOfOne(s[1..]);
      assert [s[0]] + s[1..] == s;
    }
  }

  lemma {:induction false} LinesConcat(a: string, c: char, b: string)
    requires IsBreak(c)
    ensures Lines(a + [c] + b) == Lines(a) + Lines(b)
  {
    hide *;
    LinesCons(c, b);
    if a == [] {
      LinesOfNone();
      Peeled(a, c, b);
    } else {
      LinesConcat(a[1..], c, b);
      LinesCons(a[0], a[1..] + [c] + b);
      LinesCons(a[0], a[1..]);
      Peeled(a, c, b);
      var r := Lines(a[1..]);
      if IsBreak(a[0]) {
        Grouped([[]], r, Lines(b));
      } else {
        FirstOfConcat(r, Lines(b));
        Grouped([[a[0]] + r[0]], r[1..], Lines(b));
      }
    }
  }

  lemma Peeled<T>(a: seq<T>, c: T, b: seq<T>)
    ensures a == [] ==> a + [c] + b == [c] + b
    ensures a != [] ==> a == [a[0]] + a[1..] && a + [c] + b == [a[0]] + (a[1..] + [c] + b)
  {
  }

  lemma FirstOfConcat<T>(x: seq<T>, y: seq<T>)
    requires x != []
    ensures (x + y)[0] == x[0] && (x + y)[1..] == x[1..] + y
  {
  }

  lemma LinesOfNone()
    ensures Lines([]) == [[]] && DataRows([]) == []
  {
    BlankIsNoData();
  }

  lemma LinesCons(c: char, rest: string)
    ensures Lines([c] + rest) == if IsBreak(c) then [[]] + Lines(rest) else [[c] + Lines(rest)[0]] + Lines(rest)[1..]
  {
    assert ([c] + rest)[1..] == rest;
  }

  lemma BlankIsNoData()
    ensures Filter([[]], IsData) == []
  {
    var none: string := [];
    assert Strip(none) == [];
    assert [none][1..] == [];
  }

  lemma RowsOfOne(row: string)
    requires Unbroken(row)
    ensures DataRows(row) == if IsData(row) then [row] else []
  {
    LinesOfOne(row);
    assert [row][1..] == [];
  }

  lemma RowsConcat(a: string, c: char, b: string)
    requires IsBreak(c)
    ensures DataRows(a + [c] + b) == DataRows(a) + DataRows(b)
  {
    LinesConcat(a, c, b);
    FilterConcat(Lines(a), Lines(b), IsData);
  }

  /** A text is what is before its last line break and what is after it. */
  lemma {:induction false} LastBreak(text: string) returns (start: string, rest: string)
    ensures Unbroken(rest)
    ensures start == [] || IsBreak(start[|start| - 1])
    ensures text == start + rest
  {
    if EndsLine(text) {
      start, rest := text, [];
    } else {
      var n := |text| - 1;
      start, rest := LastBreak(text[..n]);
      assert text == text[..n] + [text[n]];
      rest := rest + [text[n]];
    }
  }

  lemma RowsAfterEnded(start: string, rest: string)
    requires EndsLine(start) && Unbroken(rest)
    ensures DataRows(start + rest) == DataRows(start) + if IsData(rest) then [rest] else []
  {
    hide DataRows, IsData;
    RowsOfOne(rest);
    LinesOfNone();
    if start == [] {
      assert start + rest == rest;
    } else {
      var n := |start| - 1;
      assert start + rest == start[..n] + [start[n]] + rest;
      RowsConcat(start[..n], start[n], rest);
      assert start == start[..n] + [start[n]] + [];
      RowsConcat(start[..n], start[n], []);
    }
  }

  /** What a row appended to an unended line does. */
  lemma RowsAfterAppend(start: string, rest: string, row: string)
    requires EndsLine(start) && Unbroken(rest) && Unbroken(row) && IsData(row)
    ensures DataRows(start + rest) == DataRows(start) + if IsData(rest) then [rest] else []
    ensures DataRows(start + rest + row + "\n") == DataRows(start) + if IsData(rest + row) then [rest + row] else []
  {
    hide *;
    UnbrokenConcat(rest, row);
    RowsAfterEnded(start, rest);
    RowsAfterEnded(start, rest + row);
    EndedRow(start + rest + row);
    Grouped(start, rest, row);
  }

  lemma UnbrokenConcat(a: string, b: string)
    requires Unbroken(a) && Unbroken(b)
    ensures Unbroken(a + b)
  {
  }


  lemma EndedRow(text: string)
    ensures DataRows(text + "\n") == DataRows(text)
  {
    var nl := "\n"[0];
    RowsConcat(text, nl, []);
    assert text + "\n" == text + [nl] + [];
    BlankIsNoData();
    assert Lines([]) == [[]];
  }

  /** A row is appended as a row of its own exactly when the file is empty or
      ends with a line break. */
  lemma RowIsAppended(text: string, row: string)
    requires IsData(row) && Unbroken(row)
    ensures DataRows(text + row + "\n") == DataRows(text) + [row] <==> EndsLine(text)
  {
    var start, rest := LastBreak(text);
    RestIsEmpty(text, start, rest);
    hide *;
    RowsAfterAppend(start, rest, row);
    var rows := DataRows(start);
    Nothing(rows);
    if rest == [] {
      BlankRow(row);
    } else {
      ListsDiffer(rows, rest + row, rest, row);
    }
  }

  lemma BlankRow(row: string)
    ensures !IsData([]) && [] + row == row
  {
  }

  lemma RestIsEmpty(text: string, start: string, rest: string)
    requires text == start + rest && EndsLine(start) && Unbroken(rest)
    ensures EndsLine(text) <==> rest == []
  {
    assert rest != [] ==> text[|text| - 1] == rest[|rest| - 1];
  }

  lemma ListsDiffer(rows: seq<string>, joined: string, rest: string, row: string)
    requires joined == rest + row && rest != []
    ensures rows + [joined] != rows + [row] && rows != rows + [row]
    ensures rows + [joined] != rows + [rest] + [row] && rows != rows + [rest] + [row]
  {
    assert |joined| == |rest| + |row|;
    assert (rows + [joined])[|rows|] == joined && (rows + [row])[|rows|] == row;
    assert |rows + [rest] + [row]| == |rows| + 2;
  }

  // ---- from the sidecars to the verdict ----

  /** A time stamp as the sampler prints it: no white space, no comment. */
  predicate IsStamp(utc: string) {
    IsWord(utc) && utc[0] != '#'
  }

  lemma WordsAreClean(s: string)
    requires NoSpace(s)
    ensures Clean(s)
  {
  }

  lemma {:induction false} JoinIsUnbroken(fields: seq<string>)
    requires forall f :: f in fields ==> Clean(f)
    ensures Unbroken(Join(fields, '\t'))
  {
    if fields == [] {
    } else {
      assert fields[0] in fields;
      JoinIsUnbroken(fields[1..]);
    }
  }

  lemma RowIsData(utc: string, more: seq<string>)
    requires IsStamp(utc)
    ensures IsData(Join([utc] + more, '\t'))
  {
    var row := Join([utc] + more, '\t');
    assert row[0] == utc[0] by {
      assert ([utc] + more)[1..] == more;
    }
    StripIs(row);
    assert utc[0] in row;
  }

  lemma NotMeasuredText()
    ensures ParseInt("NA") == None && Clean("NA") && Clean("0.00")
  {
    var na := "NA";
    assert Stripped(na);
    StrippedStays(na);
  }

  /** The fields of a sample are read back as they were written. */
  lemma SampleIsRead(utc: string, count: nat, gaps: int, fixed2: (int, int) -> string, running: int)
    requires IsStamp(utc) && forall a, b :: Clean(fixed2(a, b))
    ensures var fields := RowFields(utc, SummaryOf(count, gaps, fixed2), running);
      var row := Join(fields, '\t');
      && IsData(row) && Unbroken(row) && SplitOn(row, '\t') == fields
      && ParseInt(fields[1]) == if count == 0 then None else Some(gaps)
  {
    var fields := RowFields(utc, SummaryOf(count, gaps, fixed2), running);
    NotMeasuredText();
    ParseOfInt(gaps);
    ParseOfInt(running);
    WordsAreClean(utc);
    WordsAreClean(ToInt(gaps));
    WordsAreClean(ToInt(running));
    hide ParseInt, ToInt, IsStamp, Clean, IsData, Unbroken, Join, SplitOn;
    CleanRowIsRead(utc, fields[1..]);
    assert fields == [utc] + fields[1..];
  }

  lemma CleanRowIsRead(utc: string, more: seq<string>)
    requires IsStamp(utc) && forall f :: f in more ==> Clean(f)
    ensures var row := Join([utc] + more, '\t'); IsData(row) && Unbroken(row) && SplitOn(row, '\t') == [utc] + more
  {
    var fields := [utc] + more;
    RowIsData(utc, more);
    WordsAreClean(utc);
    assert forall f :: f in fields ==> Clean(f) && '\t' !in f;
    hide *;
    JoinIsUnbroken(fields);
    SplitOfJoin(fields, '\t');
  }

  lemma HeaderIsNoData()
    ensures EndsLine(HEADER + "\n") && DataRows(HEADER + "\n") == []
  {
    hide *;
    HeaderIsComment();
    RowsOfOne(HEADER);
    EndedRow(HEADER);
    NewlineEnds(HEADER);
  }

  lemma HeaderIsComment()
    ensures Unbroken(HEADER) && !IsData(HEADER)
  {
    forall f | f in COLUMNS ensures Clean(f) {
      ColumnsAreClean();
    }
    hide Clean, Unbroken;
    JoinIsUnbroken(COLUMNS);
    CommentIsNoData(HEADER);
  }

  lemma ColumnsAreClean()
    ensures Clean("# utc") && Clean("gaps") && Clean("channel_hours") && Clean("gaps_per_ch_hr")
      && Clean("grape_running")
  {
  }

  lemma CommentIsNoData(line: string)
    requires line != [] && line[0] == '#'
    ensures !IsData(line)
  {
  }

  lemma NewlineEnds(s: string)
    ensures EndsLine(s + "\n")
  {
  }

  predicate Sound(file: Option<string>) {
    file.None? || EndsLine(file.value)
  }

  function RowsOf(file: Option<string>): seq<string> {
    if file.None? then [] else DataRows(file.value)
  }

  /** A row written to a sound file is its last row and keeps it sound. */
  lemma AppendedRow(file: Option<string>, row: string)
    requires Sound(file) && IsData(row) && Unbroken(row)
    ensures Sound(Some(Appended(file, row)))
    ensures RowsOf(Some(Appended(file, row))) == RowsOf(file) + [row]
  {
    var text := if file.None? then HEADER + "\n" else file.value;
    HeaderIsNoData();
    hide DataRows, EndsLine, IsData, Unbroken;
    RowIsAppended(text, row);
    NewlineEnds(text + row);
  }

  predicate Fresh(utc: string, later: real, parse: string -> Option<int>) {
    parse(utc).Some? && 0.0 <= later - parse(utc).value as real <= 7200.0
  }

  /** What a row's fields are read as. */
  function FieldsRead(fields: seq<string>, later: real, parse: string -> Option<int>): Reading {
    if |fields| < 4 then Unreadable
    else
      var utc := Strip(fields[0]);
      Reading(utc, ParseInt(fields[1]), match parse(utc) case None => None case Some(t) => Some(later - t as real))
  }

  lemma LastRowIsRead(text: string, rows: seq<string>, row: string, later: real, parse: string -> Option<int>)
    requires DataRows(text) == rows + [row]
    ensures ParseGapRow(text, later, parse) == FieldsRead(SplitOn(row, '\t'), later, parse)
  {
    hide DataRows, SplitOn, Strip, ParseInt;
    assert (rows + [row])[|rows|] == row;
  }

  /** Whatever the sidecars are, the verdict on the row sampled from them: not
      known when the row is stale or nothing was measured; otherwise bad exactly
      when the gap counts add up to more than zero. */
  lemma {:induction false} VerdictOnSample(file: Option<string>, utc: string, measured: seq<Sidecar>,
      fixed2: (int, int) -> string, running: int, later: real, parse: string -> Option<int>)
    requires Sound(file) && IsStamp(utc) && forall a, b :: Clean(fixed2(a, b))
    ensures var row := Join(SampleRow(utc, measured, fixed2, running), '\t');
      var reading := ParseGapRow(Appended(file, row), later, parse);
      && reading.Reading? && reading.utc == utc
      && MapGaps(reading) == if !Fresh(utc, later, parse) || measured == [] then INDETERMINATE
                             else if TotalGaps(measured) > 0 then INVALID
                             else VALID
  {
    SampleIsRead(utc, |measured|, TotalGaps(measured), fixed2, running);
    var fields := SampleRow(utc, measured, fixed2, running);
    var row := Join(fields, '\t');
    StrippedStays(utc);
    AppendedRow(file, row);
    LastRowIsRead(Appended(file, row), RowsOf(file), row, later, parse);
    ReadFromFirst(fields, later, parse);
    hide TotalGaps, SplitOn, Join, IsData, Unbroken, DataRows, ParseInt, Appended, SummaryOf, Strip, Sound, RowsOf,
      ParseGapRow, FieldsRead, IsStamp, Clean, NoSpace;
  }

  lemma {:induction false} NoGapsAtAll(sidecars: seq<Sidecar>)
    requires forall s :: s in sidecars ==> GapsOf(s) >= 0
    ensures TotalGaps(sidecars) >= 0
    ensures TotalGaps(sidecars) == 0 <==> forall s :: s in sidecars ==> GapsOf(s) == 0
  {
    if sidecars == [] {
    } else {
      assert sidecars == [sidecars[0]] + sidecars[1..];
      NoGapsAtAll(sidecars[1..]);
    }
  }

  /** The sidecar is of this second: a number, or a text that reads as one. */
  predicate TakenAt(s: Sidecar, at: int) {
    match s.boundary
    case Seconds(n) => n == at
    case Words(w) => ParseInt(w) == Some(at)
    case _ => false
  }

  /** The sidecar lies in the hour before `now`. */
  ghost predicate InTheHour(s: Sidecar, now: int) {
    exists at :: TakenAt(s, at) && now - 3600 <= at < now
  }

  lemma HourIsWindow(s: Sidecar, now: int)
    ensures InWindow(s, now, WINDOW_SEC) <==> InTheHour(s, now)
  {
    hide ParseInt;
    var at := BoundarySeconds(s.boundary);
    if at.Some? {
      assert TakenAt(s, at.value);
    }
  }

  /** The row is read between zero and two hours after its stamp. */
  predicate InTime(utc: string, later: real, parse: string -> Option<int>) {
    parse(utc).Some? && parse(utc).value as real <= later <= parse(utc).value as real + 7200.0
  }

  /** With counts that are not negative the verdict is honest: INVALID exactly
      when the row is read in time and some sidecar of the hour before it reports
      a gap, INDETERMINATE exactly when the row is read late or early or no
      sidecar is of that hour, and VALID otherwise. */
  lemma HonestVerdict(file: Option<string>, utc: string, sidecars: seq<Sidecar>, now: int, fixed2: (int, int) -> string,
                      running: int, later: real, parse: string -> Option<int>)
    requires Sound(file) && IsStamp(utc) && forall a, b :: Clean(fixed2(a, b))
    requires forall s :: s in sidecars && s.gapCount.Count? ==> s.gapCount.n >= 0
    ensures var row := Join(SampleRow(utc, Measured(sidecars, now, WINDOW_SEC), fixed2, running), '\t');
      var reading := ParseGapRow(Appended(file, row), later, parse);
      && reading.Reading?
      && (MapGaps(reading) == INVALID <==>
            && InTime(utc, later, parse)
            && exists s :: s in sidecars && InTheHour(s, now) && s.gapCount.Count? && s.gapCount.n > 0)
      && (MapGaps(reading) == INDETERMINATE <==>
            !InTime(utc, later, parse) || forall s :: s in sidecars ==> !InTheHour(s, now))
      && MapGaps(reading) in {VALID, INVALID, INDETERMINATE}
  {
    var measured := Measured(sidecars, now, WINDOW_SEC);
    assert forall s :: s in measured <==> s in sidecars && InWindow(s, now, WINDOW_SEC);
    assert forall s: Sidecar :: GapsOf(s) == if s.gapCount.Count? then s.gapCount.n else 0;
    assert InTime(utc, later, parse) <==> Fresh(utc, later, parse);
    forall s ensures InWindow(s, now, WINDOW_SEC) <==> InTheHour(s, now) {
      HourIsWindow(s, now);
    }
    hide TotalGaps, SampleRow, ParseGapRow, Appended, Join, MapGaps, InWindow, InTheHour, GapsOf, IsStamp, Clean, Fresh,
      InTime;
    NoGapsAtAll(measured);
    VerdictOnSample(file, utc, measured, fixed2, running, later, parse);
    assert measured != [] <==> exists s :: s in measured by {
      assert measured != [] ==> measured[0] in measured;
    }
  }

  /** Counts of opposite sign cancel: a negative one hides a gap. */
  lemma OppositeCountsCancel(utc: string, fixed2: (int, int) -> string, running: int, later: real,
      parse: string -> Option<int>)
    requires IsStamp(utc) && Fresh(utc, later, parse) && forall a, b :: Clean(fixed2(a, b))
    ensures var measured := [Sidecar(Seconds(0), Count(1)), Sidecar(Seconds(0), Count(-1))];
      var reading := ParseGapRow(Appended(None, Join(SampleRow(utc, measured, fixed2, running), '\t')), later, parse);
      reading.Reading? && MapGaps(reading) == VALID
  {
    var measured := [Sidecar(Seconds(0), Count(1)), Sidecar(Seconds(0), Count(-1))];
    assert measured[1..] == [measured[1]] && [measured[1]][1..] == [];
    assert TotalGaps(measured) == 0;
    hide *;
    assert Sound(None) by {
      NoFileIsSound();
    }
    VerdictOnSample(None, utc, measured, fixed2, running, later, parse);
  }

  lemma NoFileIsSound()
    ensures Sound(None)
  {
  }

  // ---- a log whose last line was cut off ----

  predicate IsComment(line: string) {
    LStrip(line) != [] && LStrip(line)[0] == '#'
  }

  /** The fields of a line when a row's fields are written behind what is there. */
  function JoinedFields(rest: string, fields: seq<string>): seq<string>
    requires fields != []
  {
    RunTogether(SplitOn(rest, '\t'), fields)
  }

  /** The last of the one list run together with the first of the other. */
  function RunTogether(parts: seq<string>, more: seq<string>): seq<string>
    requires parts != [] && more != []
  {
    parts[..|parts| - 1] + [parts[|parts| - 1] + more[0]] + more[1..]
  }

  lemma SplitOnStep(c: char, s: string, sep: char)
    ensures var r := SplitOn(s, sep);
      SplitOn([c] + s, sep) == if c == sep then [[]] + r else [[c] + r[0]] + r[1..]
  {
    assert ([c] + s)[1..] == s;
  }

  lemma {:induction false} SplitOnJoined(a: string, b: string, sep: char)
    ensures SplitOn(a + b, sep) == RunTogether(SplitOn(a, sep), SplitOn(b, sep))
  {
    if a == [] {
      SplitOfNothing(b, sep);
    } else {
      hide *;
      SplitOnJoined(a[1..], b, sep);
      SplitOnStep(a[0], a[1..], sep);
      SplitOnStep(a[0], a[1..] + b, sep);
      FirstApart(a, b);
      var parts := SplitOn(a[1..], sep);
      RunTogetherAfter([], parts, SplitOn(b, sep));
      RunTogetherAt(a[0], parts, SplitOn(b, sep));
    }
  }

  lemma FirstApart<T>(a: seq<T>, b: seq<T>)
    requires a != []
    ensures a == [a[0]] + a[1..] && a + b == [a[0]] + (a[1..] + b)
  {
  }

  lemma SplitOfNothing(b: string, sep: char)
    ensures SplitOn([], sep) == [[]] && [] + b == b
    ensures SplitOn(b, sep) == RunTogether([[]], SplitOn(b, sep))
  {
    var more := SplitOn(b, sep);
    assert [] + more[0] == more[0];
  }

  lemma RunTogetherAfter(x: string, parts: seq<string>, more: seq<string>)
    requires parts != [] && more != []
    ensures [x] + RunTogether(parts, more) == RunTogether([x] + parts, more)
  {
    var n := |parts| - 1;
    assert ([x] + parts)[..n + 1] == [x] + parts[..n];
  }

  lemma RunTogetherAt(c: char, parts: seq<string>, more: seq<string>)
    requires parts != [] && more != []
    ensures var whole := RunTogether(parts, more);
      whole != [] && [[c] + whole[0]] + whole[1..] == RunTogether([[c] + parts[0]] + parts[1..], more)
  {
    if |parts| == 1 {
      assert [c] + (parts[0] + more[0]) == ([c] + parts[0]) + more[0];
    } else {
      var rest := parts[1..];
      assert parts == [parts[0]] + rest;
      hide RunTogether;
      RunTogetherAfter(parts[0], rest, more);
      RunTogetherAfter([c] + parts[0], rest, more);
    }
  }

  lemma {:induction false} LStripJoined(rest: string, row: string)
    ensures LStrip(rest + row) == if LStrip(rest) == [] then LStrip(row) else LStrip(rest) + row
  {
    if rest == [] {
      assert rest + row == row;
    } else if IsSpace(rest[0]) {
      assert (rest + row)[1..] == rest[1..] + row;
      LStripJoined(rest[1..], row);
    }
  }

  lemma JoinedIsData(rest: string, row: string)
    requires IsData(row)
    ensures IsData(rest + row) <==> !IsComment(rest)
  {
    LStripJoined(rest, row);
    LStripIs(row);
    LStripIs(rest);
    var line := rest + row;
    RStripIs(LStrip(line));
    assert LStrip(line) != [];
    assert LStrip(line)[0] in LStrip(line);
  }

  /** What is read after a sample is written to a log whose last line was cut off:
      nothing of it behind a comment; otherwise the line's own fields, the last of
      them run together with the sample's first. */
  lemma {:induction false} VerdictOnUnended(start: string, rest: string, utc: string, measured: seq<Sidecar>,
      fixed2: (int, int) -> string, running: int, later: real, parse: string -> Option<int>)
    requires EndsLine(start) && Unbroken(rest) && IsStamp(utc) && forall a, b :: Clean(fixed2(a, b))
    ensures var fields := SampleRow(utc, measured, fixed2, running);
      ParseGapRow(Appended(Some(start + rest), Join(fields, '\t')), later, parse)
      == if IsComment(rest) then ParseGapRow(start, later, parse)
         else FieldsRead(JoinedFields(rest, fields), later, parse)
  {
    var fields := SampleRow(utc, measured, fixed2, running);
    var row := Join(fields, '\t');
    SampleIsRead(utc, |measured|, TotalGaps(measured), fixed2, running);
    AppendedIs(start + rest, row);
    hide *;
    JoinedIsData(rest, row);
    RowsAfterAppend(start, rest, row);
    SplitOnJoined(rest, row, '\t');
    Nothing(DataRows(start));
    if IsComment(rest) {
      SameRowsSameReading(start + rest + row + "\n", start, later, parse);
    } else {
      LastRowIsRead(start + rest + row + "\n", DataRows(start), rest + row, later, parse);
      JoinedFieldsAre(rest, fields);
    }
  }

  lemma AppendedIs(text: string, row: string)
    ensures Appended(Some(text), row) == text + row + "\n"
  {
  }

  lemma SampleHasFields(utc: string, measured: seq<Sidecar>, fixed2: (int, int) -> string, running: int)
    ensures |SampleRow(utc, measured, fixed2, running)| == 5 && SampleRow(utc, measured, fixed2, running)[0] == utc
  {
  }

  lemma JoinedFieldsAre(rest: string, fields: seq<string>)
    requires fields != []
    ensures JoinedFields(rest, fields) == RunTogether(SplitOn(rest, '\t'), fields)
  {
  }

  lemma SameRowsSameReading(a: string, b: string, later: real, parse: string -> Option<int>)
    requires DataRows(a) == DataRows(b)
    ensures ParseGapRow(a, later, parse) == ParseGapRow(b, later, parse)
  {
    hide DataRows, SplitOn, Strip, ParseInt;
  }

  /** A cut-off line that kept its time stamp and its count, tabs included, is
      judged in the sample's place: no sample changes the verdict. */
  lemma {:induction false} TornRowHidesSample(start: string, rest: string, utc: string, measured: seq<Sidecar>,
      fixed2: (int, int) -> string, running: int, later: real, parse: string -> Option<int>)
    requires EndsLine(start) && Unbroken(rest) && IsStamp(utc) && forall a, b :: Clean(fixed2(a, b))
    requires !IsComment(rest) && |SplitOn(rest, '\t')| >= 3
    ensures var parts := SplitOn(rest, '\t');
      var was := Strip(parts[0]);
      ParseGapRow(Appended(Some(start + rest), Join(SampleRow(utc, measured, fixed2, running), '\t')), later, parse)
      == Reading(was, ParseInt(parts[1]), match parse(was) case None => None case Some(t) => Some(later - t as real))
  {
    VerdictOnUnended(start, rest, utc, measured, fixed2, running, later, parse);
    SampleHasFields(utc, measured, fixed2, running);
    JoinedKeepsFirst(rest, SampleRow(utc, measured, fixed2, running));
    ReadFromFirst(JoinedFields(rest, SampleRow(utc, measured, fixed2, running)), later, parse);
    hide *;
  }

  lemma JoinedKeepsFirst(rest: string, fields: seq<string>)
    requires |fields| == 5 && |SplitOn(rest, '\t')| >= 3
    ensures var parts, joined := SplitOn(rest, '\t'), JoinedFields(rest, fields);
      |joined| == |parts| + 4 && joined[0] == parts[0] && joined[1] == parts[1]
  {
    hide SplitOn;
  }

  lemma ReadFromFirst(fields: seq<string>, later: real, parse: string -> Option<int>)
    requires |fields| >= 4
    ensures var was := Strip(fields[0]);
      FieldsRead(fields, later, parse)
      == Reading(was, ParseInt(fields[1]), match parse(was) case None => None case Some(t) => Some(later - t as real))
  {
    hide Strip, ParseInt;
  }

  /** So it is with an earlier sample cut off before its last field: a fresh row
      without gaps stays VALID whatever the next sample found. */
  lemma TornSampleIsJudgedAgain(start: string, was: string, before: seq<Sidecar>, utc: string, measured: seq<Sidecar>,
                                fixed2: (int, int) -> string, ran: int, running: int, later: real,
                                parse: string -> Option<int>)
    requires EndsLine(start) && IsStamp(was) && IsStamp(utc) && forall a, b :: Clean(fixed2(a, b))
    ensures var torn := Join(SampleRow(was, before, fixed2, ran)[..4] + [""], '\t');
      var row := Join(SampleRow(utc, measured, fixed2, running), '\t');
      var reading := ParseGapRow(Appended(Some(start + torn), row), later, parse);
      && reading.Reading? && reading.utc == was
      && MapGaps(reading) == if !Fresh(was, later, parse) || before == [] then INDETERMINATE
                             else if TotalGaps(before) > 0 then INVALID
                             else VALID
  {
    var fields := SampleRow(was, before, fixed2, ran);
    var kept := fields[..4] + [""];
    var torn := Join(kept, '\t');
    SampleHasFields(was, before, fixed2, ran);
    TornFields(was, |before|, TotalGaps(before), fixed2, ran);
    StrippedStays(was);
    assert Stripped(was);
    TornIsNoComment(was, kept[1..]);
    assert kept == [was] + kept[1..];
    TornRowHidesSample(start, torn, utc, measured, fixed2, running, later, parse);
    hide TotalGaps, SplitOn, Join, ParseInt, Appended, SampleRow, Strip, ParseGapRow, Unbroken, EndsLine, IsStamp,
      IsComment;
  }

  lemma SummaryIsClean(count: nat, gaps: int, fixed2: (int, int) -> string)
    requires forall a, b :: Clean(fixed2(a, b))
    ensures var s := SummaryOf(count, gaps, fixed2);
      && Clean(s.gaps) && Clean(s.channelHours) && Clean(s.rate)
      && ParseInt(s.gaps) == if count == 0 then None else Some(gaps)
  {
    NotMeasuredText();
    ParseOfInt(gaps);
    WordsAreClean(ToInt(gaps));
    hide ParseInt, ToInt, Clean;
  }

  lemma TornFields(was: string, count: nat, gaps: int, fixed2: (int, int) -> string, ran: int)
    requires IsStamp(was) && forall a, b :: Clean(fixed2(a, b))
    ensures var kept := RowFields(was, SummaryOf(count, gaps, fixed2), ran)[..4] + [""];
      && SplitOn(Join(kept, '\t'), '\t') == kept && Unbroken(Join(kept, '\t'))
      && ParseInt(kept[1]) == if count == 0 then None else Some(gaps)
  {
    var sum := SummaryOf(count, gaps, fixed2);
    SummaryIsClean(count, gaps, fixed2);
    FirstFour(was, sum, ran);
    assert Clean([]);
    hide *;
    CleanRowIsRead(was, [sum.gaps, sum.channelHours, sum.rate, []]);
  }

  lemma FirstFour(was: string, s: Summary, ran: int)
    ensures RowFields(was, s, ran)[..4] + [""] == [was] + [s.gaps, s.channelHours, s.rate, []]
  {
  }

  lemma TornIsNoComment(was: string, more: seq<string>)
    requires IsStamp(was)
    ensures !IsComment(Join([was] + more, '\t'))
  {
    hide Join;
    RowIsData(was, more);
  }

  // ---- the log over time ----

  /** The file after rows were appended one by one, starting from no file. */
  function Logged(rows: seq<string>): Option<string> {
    if rows == [] then None
    else Some(Appended(Logged(rows[..|rows| - 1]), rows[|rows| - 1]))
  }

  /** The log keeps every row, in order. */
  lemma {:induction false} LogKeepsRows(rows: seq<string>)
    requires forall r :: r in rows ==> IsData(r) && Unbroken(r)
    ensures Sound(Logged(rows)) && RowsOf(Logged(rows)) == rows
  {
    if rows == [] {
    } else {
      var n := |rows| - 1;
      assert rows == rows[..n] + [rows[n]];
      assert rows[n] in rows;
      LogKeepsRows(rows[..n]);
      hide Sound, RowsOf, IsData, Unbroken, Appended;
      AppendedRow(Logged(rows[..n]), rows[n]);
    }
  }

  // ---- hours and rate ----

  /** The formatting depends on the quotient alone. */
  ghost predicate OfQuotient(fixed2: (int, int) -> string) {
    forall a, b, c, d :: b > 0 && d > 0 && a * d == c * b ==> fixed2(a, b) == fixed2(c, d)
  }

  /** Each sidecar stands for five minutes of one channel: the row gives the
      hours that makes and the gaps for each such hour. */
  lemma HoursAndRate(utc: string, measured: seq<Sidecar>, fixed2: (int, int) -> string, running: int)
    requires OfQuotient(fixed2) && measured != []
    ensures var fields := SampleRow(utc, measured, fixed2, running);
      && fields[2] == fixed2(5 * |measured|, 60)
      && fields[3] == fixed2(TotalGaps(measured) * 60, 5 * |measured|)
  {
    var n, gaps := |measured|, TotalGaps(measured);
    assert (n * 300) * 60 == (5 * n) * 3600;
    assert (gaps * 3600) * (5 * n) == (gaps * 60) * (n * 300);
    hide TotalGaps;
  }
}
