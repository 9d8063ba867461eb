/** The progress scraping of `DemucsWorker.run`: every line of the separation
    tool's merged output that contains `%` and whose text before the first `%`
    is an integer becomes a progress signal carrying that integer; after the
    last line a single `finished` signal follows. */
module Progress {
  import opened Wrappers
  import opened Text

  /** The two signals the worker emits: `Percent(n)` is `progress(int)`, `Finished` is `finished()`. */
  datatype Event = Percent(value: int) | Finished

  // ---------------------------------------------------------------------------
  // One line

  /** The progress value one output line yields, `None` when the line yields
      nothing (no `%`, or the text before it is not an integer: the
      `ValueError` the worker catches). */
  function ProgressOf(line: string): (r: Option<int>)
    ensures '%' !in line ==> r == None
  {
    if '%' in line then ParseInt(Strip(FirstField(line, '%'))) else None
  }

  /** The value emitted is exactly the integer written before the `%`, whatever
      the whitespace around it and whatever follows; there is no clamping to
      0..100, so negative values and values above 100 come through. */
  lemma ProgressOfPadded(a: string, n: int, b: string, rest: string)
    requires AllSpace(a) && AllSpace(b)
    ensures ProgressOf(a + Format(n) + b + "%" + rest) == Some(n)
  {
    var x := a + Format(n) + b;
    assert '%' !in x by {
      assert !IsSpace('%');
      assert IsIntegerText(Format(n));
    }
    assert a + Format(n) + b + "%" + rest == x + ['%'] + rest;
    FirstFieldBefore(x, '%', rest);
    StripPadded(a, Format(n), b);
    ParseFormat(n);
  }

  /** The unpadded case: `<n>%` followed by anything yields `n`. */
  lemma ProgressOfValue(n: int, rest: string)
    ensures ProgressOf(Format(n) + "%" + rest) == Some(n)
  {
    ProgressOfPadded("", n, "", rest);
    assert "" + Format(n) + "" + "%" + rest == Format(n) + "%" + rest;
  }

  /** A line whose text before the first `%` is not, once stripped, an
      integer literal yields nothing (the `ValueError` is swallowed). */
  lemma NonIntegerSkipped(line: string)
    requires !IsIntegerText(Strip(FirstField(line, '%')))
    ensures ProgressOf(line) == None
  {
  }

  /** A character before the first `%` that is neither whitespace, a digit nor
      a sign (as in `abc%`) makes the line yield nothing, wherever it stands. */
  lemma {:induction false} StrayCharSkipped(line: string, i: nat)
    requires i < |FirstField(line, '%')|
    requires !IsSpace(line[i]) && !IsAsciiDigit(line[i]) && line[i] != '+' && line[i] != '-'
    ensures ProgressOf(line) == None
  {
    var p := FirstField(line, '%');
    assert p[i] == line[i];
    var lo := SkipSpaces(p, 0);
    var hi := SkipSpacesBack(p, lo, |p|);
    assert lo <= i < hi;
    var t := Strip(p);
    assert t == p[lo..hi] && t[i - lo] == line[i];
    assert !IsDigits(t);
    if |t| > 1 && i > lo {
      assert t[1..][i - lo - 1] == line[i];
    }
    NonIntegerSkipped(line);
  }

  /** A `%` with nothing before it (as in a bare `%`) yields nothing. */
  lemma NothingBeforePercent(rest: string)
    ensures ProgressOf("%" + rest) == None
  {
    FirstFieldBefore("", '%', rest);
    assert "" + ['%'] + rest == "%" + rest;
    assert Strip("") == "";
  }

  /** Lines that yield nothing: no `%`, a word before it, nothing before it. */
  lemma SkipExamples()
    ensures ProgressOf("done") == None
    ensures ProgressOf("abc%") == None
    ensures ProgressOf("%") == None
  {
    assert ProgressOf("abc%") == None by {
      StrayCharSkipped("abc%", 0);
    }
    assert ProgressOf("%") == None by {
      NothingBeforePercent("");
      assert "%" + "" == "%";
    }
  }

  // ---------------------------------------------------------------------------
  // The loop over the lines

  /** What one parsed line contributes: a progress signal or nothing. */
  function Emit(v: Option<int>): seq<Event> {
    match v
    case Some(n) => [Percent(n)]
    case None => []
  }

  /** The worker's loop as an order-preserving filter-map: the signals emitted
      for `lines`, each line read by `read`. */
  function Scan(lines: seq<string>, read: string -> Option<int>): (r: seq<Event>)
    ensures |r| <= |lines|
    ensures forall k :: 0 <= k < |r| ==> r[k].Percent?
  {
    if lines == [] then []
    else
      var n := |lines| - 1;
      Scan(lines[..n], read) + Emit(read(lines[n]))
  }

  /** The progress signals for the lines read so far. */
  function ProgressEvents(lines: seq<string>): seq<Event> {
    Scan(lines, ProgressOf)
  }

  /** Everything the worker emits for a run: the progress signals, then exactly
      one `finished`, which comes last. */
  function Events(lines: seq<string>): (r: seq<Event>)
    ensures |r| >= 1 && r[|r| - 1] == Finished
    ensures forall k :: 0 <= k < |r| - 1 ==> r[k].Percent?
    ensures forall k :: 0 <= k < |r| && r[k] == Finished ==> k == |r| - 1
  {
    ProgressEvents(lines) + [Finished]
  }

  /** The indices of the lines that yield a value under `read`, ascending. */
  function Matches(lines: seq<string>, read: string -> Option<int>): seq<nat> {
    if lines == [] then []
    else
      var n := |lines| - 1;
      Matches(lines[..n], read) + if read(lines[n]).Some? then [n] else []
  }

  /** One more line read: its contribution goes after the earlier signals. */
  lemma ScanStep(lines: seq<string>, i: nat, read: string -> Option<int>)
    requires i < |lines|
    ensures Scan(lines[..i + 1], read) == Scan(lines[..i], read) + Emit(read(lines[i]))
  {
    assert lines[..i + 1][..i] == lines[..i];
  }

  /** Reading more output only appends: the signals for a concatenation are
      those of the first part followed by those of the second. */
  lemma {:induction false} ScanAppend(a: seq<string>, b: seq<string>, read: string -> Option<int>)
    ensures Scan(a + b, read) == Scan(a, read) + Scan(b, read)
  {
    if b == [] {
      assert a + b == a;
    } else {
      var n := |b| - 1;
      assert (a + b)[..|a + b| - 1] == a + b[..n];
      assert (a + b)[|a + b| - 1] == b[n];
      ScanAppend(a, b[..n], read);
    }
  }

  /** Order is preserved: the k-th signal comes from the k-th line that yields
      a value, and those lines appear in ascending order. */
  lemma {:induction false} ScanMatches(lines: seq<string>, read: string -> Option<int>)
    ensures |Matches(lines, read)| == |Scan(lines, read)|
    ensures forall k :: 0 <= k < |Matches(lines, read)| ==>
      Matches(lines, read)[k] < |lines|
      && read(lines[Matches(lines, read)[k]]) == Some(Scan(lines, read)[k].value)
    ensures forall k, l :: 0 <= k < l < |Matches(lines, read)| ==>
      Matches(lines, read)[k] < Matches(lines, read)[l]
  {
    if lines != [] {
      var n := |lines| - 1;
      var init := lines[..n];
      ScanMatches(init, read);
      var m, m0 := Matches(lines, read), Matches(init, read);
      var e, e0 := Scan(lines, read), Scan(init, read);
      assert forall k :: 0 <= k < |m0| ==> m0[k] < n && lines[m0[k]] == init[m0[k]];
      match read(lines[n]) {
        case Some(v) =>
          assert m == m0 + [n] && e == e0 + [Percent(v)];
        case None =>
          assert m == m0 && e == e0;
      }
    }
  }

  /** Every line left out of `Matches` yields nothing. */
  lemma {:induction false} MatchesComplete(lines: seq<string>, read: string -> Option<int>)
    ensures forall j :: 0 <= j < |lines| && j !in Matches(lines, read) ==> read(lines[j]) == None
  {
    if lines != [] {
      var n := |lines| - 1;
      var init := lines[..n];
      MatchesComplete(init, read);
      assert forall j :: 0 <= j < n ==> lines[j] == init[j];
      assert Matches(init, read) <= Matches(lines, read);
    }
  }

  /** A line that `read` turns into nothing leaves the signals unchanged. */
  lemma ScanSkip(before: seq<string>, line: string, after: seq<string>, read: string -> Option<int>)
    requires read(line) == None
    ensures Scan(before + [line] + after, read) == Scan(before + after, read)
  {
    assert Scan([line], read) == [] by {
      assert [line][..0] == [] && [line][0] == line;
    }
    calc {
      Scan(before + [line] + after, read);
      { ScanAppend(before + [line], after, read); }
      Scan(before + [line], read) + Scan(after, read);
      { ScanAppend(before, [line], read); }
      Scan(before, read) + Scan(after, read);
      { ScanAppend(before, after, read); }
      Scan(before + after, read);
    }
  }

  /** Output whose every line yields a value gives one signal per line,
      carrying those values in line order. */
  lemma {:induction false} ScanAllRead(lines: seq<string>, read: string -> Option<int>, values: seq<int>)
    requires |lines| == |values|
    requires forall k :: 0 <= k < |lines| ==> read(lines[k]) == Some(values[k])
    ensures Scan(lines, read) == seq(|values|, k requires 0 <= k < |values| => Percent(values[k]))
  {
    if lines != [] {
      var n := |lines| - 1;
      ScanAllRead(lines[..n], read, values[..n]);
    }
  }

  // ---------------------------------------------------------------------------
  // The run as the worker performs it

  /** Order is preserved in the worker's signals: the k-th progress signal
      carries the value of the k-th line that yields one, those lines come in
      output order, and every other line is skipped. */
  lemma EventsFollowLines(lines: seq<string>)
    ensures |Matches(lines, ProgressOf)| == |Events(lines)| - 1
    ensures forall k :: 0 <= k < |Matches(lines, ProgressOf)| ==>
      Matches(lines, ProgressOf)[k] < |lines|
      && ProgressOf(lines[Matches(lines, ProgressOf)[k]]) == Some(Events(lines)[k].value)
    ensures forall k, l :: 0 <= k < l < |Matches(lines, ProgressOf)| ==>
      Matches(lines, ProgressOf)[k] < Matches(lines, ProgressOf)[l]
    ensures forall j :: 0 <= j < |lines| && j !in Matches(lines, ProgressOf) ==> ProgressOf(lines[j]) == None
  {
    ScanMatches(lines, ProgressOf);
    MatchesComplete(lines, ProgressOf);
    var e := ProgressEvents(lines);
    assert forall k :: 0 <= k < |e| ==> Events(lines)[k] == e[k];
  }

  /** Reading a further stretch of output appends its signals before the
      single `finished`. */
  lemma EventsAppend(a: seq<string>, b: seq<string>)
    ensures Events(a + b) == ProgressEvents(a) + Events(b)
  {
    ScanAppend(a, b, ProgressOf);
  }

  /** A line that yields no value is skipped and processing goes on: the run
      emits exactly what it would have emitted without that line. */
  lemma SkippedLine(before: seq<string>, line: string, after: seq<string>)
    requires ProgressOf(line) == None
    ensures Events(before + [line] + after) == Events(before + after)
  {
    ScanSkip(before, line, after, ProgressOf);
  }

  /** Output made only of progress lines, one `"<n>%\n"` per value. */
  function PercentLines(values: seq<int>): seq<string> {
    seq(|values|, k requires 0 <= k < |values| => Format(values[k]) + "%\n")
  }

  /** Output of `<n>%` lines (as `10%`, `50%`, `100%`) gives one progress
      signal per line with exactly the values written, then `finished`. */
  lemma EventsOfPercentLines(values: seq<int>)
    ensures Events(PercentLines(values))
      == seq(|values|, k requires 0 <= k < |values| => Percent(values[k])) + [Finished]
  {
    var lines := PercentLines(values);
    forall k | 0 <= k < |lines| ensures ProgressOf(lines[k]) == Some(values[k]) {
      ProgressOfValue(values[k], "\n");
      assert Format(values[k]) + "%" + "\n" == lines[k];
    }
    ScanAllRead(lines, ProgressOf, values);
  }

  lemma NumberTexts()
    ensures Format(10) == "10" && Format(50) == "50" && Format(100) == "100"
  {
    assert DigitChar(0) == '0' && DigitChar(1) == '1' && DigitChar(5) == '5';
    assert NatText(1) == "1" && NatText(5) == "5";
    assert NatText(10) == "10";
    assert NatText(50) == "50";
    assert NatText(100) == NatText(10) + "0";
  }

  lemma ThreeLines()
    ensures PercentLines([10, 50, 100]) == ["10%\n", "50%\n", "100%\n"]
  {
    NumberTexts();
    var p := PercentLines([10, 50, 100]);
    assert p[0] == "10%\n" && p[1] == "50%\n" && p[2] == "100%\n";
  }

  /** A tool that prints `10%`, `50%` and `100%` on three lines: the listener
      sees those three values in that order, then `finished`. */
  lemma ThreeProgressLines()
    ensures Events(["10%\n", "50%\n", "100%\n"])
      == [Percent(10), Percent(50), Percent(100), Finished]
  {
    var values := [10, 50, 100];
    EventsOfPercentLines(values);
    ThreeLines();
    var e := seq(|values|, k requires 0 <= k < |values| => Percent(values[k]));
    assert e == [Percent(10), Percent(50), Percent(100)];
  }
}
