/**
  The text `generateReport` builds from a run's results: the title banner,
  the single-suite or multi-suite overview, the numbered failure listings,
  and the empty buckets it writes back into the data.
 */
module Reports {
  import opened Wrappers
  import opened Dicts
  import opened Runnables
  import opened Aggregation

  /** The errors `generateReport` throws: its two explicit checks, and a TypeError on malformed data. */
  datatype ReportError = NoSuiteName | NoContents | MalformedData

  /**
    The collaborators the report calls but this model does not interpret:
    `helper.msToString` (None stands for undefined or NaN), the rounded
    percentage `count` of `of` as JavaScript prints it, the printed
    `new Date(Date.now() - elapsed)`, and `stripAnsi`.
   */
  datatype Formatter = Formatter(
    msToString: Option<nat> -> string,
    percent: (nat, nat) -> string,
    startTime: Option<nat> -> string,
    stripAnsi: string -> string)

  /** `c.repeat(n)` */
  function Repeat(c: char, n: nat): (r: string)
    ensures |r| == n && forall i :: 0 <= i < n ==> r[i] == c
  {
    if n == 0 then "" else Repeat(c, n - 1) + [c]
  }

  function DigitChar(d: nat): (c: char)
    requires d < 10
    ensures '0' <= c <= '9' && c as int - '0' as int == d
  {
    ('0' as int + d) as char
  }

  /** A string of decimal digits. */
  predicate IsDigits(s: string) {
    forall i :: 0 <= i < |s| ==> '0' <= s[i] <= '9'
  }

  /** The number a string of decimal digits denotes, read most significant digit first. */
  function DecimalValue(s: string): nat
    requires IsDigits(s)
    decreases |s|
  {
    if s == [] then 0
    else 10 * DecimalValue(s[..|s| - 1]) + (s[|s| - 1] as int - '0' as int)
  }

  /** A non-negative JavaScript number printed in decimal: its digits, with no leading zero. */
  function NatToString(n: nat): (s: string)
    ensures |s| >= 1 && IsDigits(s)
    ensures DecimalValue(s) == n
    ensures s[0] != '0' || n == 0
  {
    if n < 10 then [DigitChar(n)]
    else
      var init, last := NatToString(n / 10), DigitChar(n % 10);
      var s := init + [last];
      assert s[..|s| - 1] == init;
      s
  }

  /** The number of stars in each banner row: `Math.max(suiteName.length, 12) + 2`. */
  function BannerWidth(name: string): (w: nat)
    ensures w >= |name| + 2 && w >= 14
    ensures w == |name| + 2 || w == 14
  {
    (if |name| > 12 then |name| else 12) + 2
  }

  /** A row of `w` stars between `open` and `close`. */
  function StarRow(open: char, w: nat, close: char): (r: string)
    ensures |r| == w + 2 && r[0] == open && r[w + 1] == close
    ensures forall i :: 1 <= i <= w ==> r[i] == '*'
  {
    [open] + Repeat('*', w) + [close]
  }

  /** The lines between the star rows: the suite name indented by two, then "Test Results" indented by `w / 2 - 6`. */
  function BannerMiddle(name: string, w: nat): (r: string)
    requires w >= 12
    ensures |r| == |name| + (w / 2 - 6) + 19
    ensures r[..4] == "\n\n  " && r[4..4 + |name|] == name && r[4 + |name|] == '\n'
    ensures forall i :: 5 + |name| <= i < 5 + |name| + (w / 2 - 6) ==> r[i] == ' '
    ensures r[5 + |name| + (w / 2 - 6)..] == "Test Results\n\n"
  {
    var head, tail := "\n\n  " + name + "\n", Repeat(' ', w / 2 - 6) + "Test Results\n\n";
    assert head[..4] == "\n\n  " && head[4..4 + |name|] == name by {
      assert head == "\n\n  " + (name + "\n");
    }
    assert tail[w / 2 - 6..] == "Test Results\n\n";
    var r := head + tail;
    assert r[..4] == head[..4];
    assert r[4..4 + |name|] == head[4..4 + |name|];
    assert r[|head|..] == tail;
    assert r[5 + |name| + (w / 2 - 6)..] == tail[w / 2 - 6..];
    r
  }

  /**
    The title block: a row of stars between `/` and `\`, the suite name
    indented by two, "Test Results" indented to sit in the middle of the
    rows, and a row of stars between `\` and `/`.
   */
  function Banner(name: string): string {
    var w := BannerWidth(name);
    StarRow('/', w, '\\') + BannerMiddle(name, w) + StarRow('\\', w, '/') + "\n\n"
  }

  /**
    Both star rows are `BannerWidth(name)` stars wide; between them come a
    blank line, the name after two spaces, "Test Results" after `w / 2 - 6`
    spaces and another blank line; a blank line closes the banner.
   */
  lemma BannerShape(name: string)
    ensures var r, w := Banner(name), BannerWidth(name);
      var g, sp := |name|, w / 2 - 6;
      && |r| == 2 * w + g + sp + 25
      && r[0] == '/' && r[w + 1] == '\\'
      && (forall i :: 1 <= i <= w ==> r[i] == '*')
      && r[w + 2..w + 6] == "\n\n  "
      && r[w + 6..w + 6 + g] == name
      && r[w + 6 + g] == '\n'
      && (forall i :: w + 7 + g <= i < w + 7 + g + sp ==> r[i] == ' ')
      && r[w + 7 + g + sp..|r| - w - 4] == "Test Results\n\n"
      && r[|r| - w - 4] == '\\' && r[|r| - 3] == '/'
      && (forall i :: |r| - w - 3 <= i < |r| - 3 ==> r[i] == '*')
      && r[|r| - 2..] == "\n\n"
  {
    var w := BannerWidth(name);
    BannerFacts(Banner(name), StarRow('/', w, '\\'), BannerMiddle(name, w), StarRow('\\', w, '/'), name, w, w / 2 - 6);
  }

  /** The banner facts, for any star rows and middle of the right shape. */
  lemma BannerFacts(r: string, top: string, middle: string, bottom: string, name: string, w: nat, sp: nat)
    requires r == top + middle + bottom + "\n\n"
    requires |top| == w + 2 && top[0] == '/' && top[w + 1] == '\\' && forall i :: 1 <= i <= w ==> top[i] == '*'
    requires |bottom| == w + 2 && bottom[0] == '\\' && bottom[w + 1] == '/' && forall i :: 1 <= i <= w ==> bottom[i] == '*'
    requires |middle| == |name| + sp + 19
    requires middle[..4] == "\n\n  " && middle[4..4 + |name|] == name && middle[4 + |name|] == '\n'
    requires forall i :: 5 + |name| <= i < 5 + |name| + sp ==> middle[i] == ' '
    requires middle[5 + |name| + sp..] == "Test Results\n\n"
    ensures var g := |name|;
      && |r| == 2 * w + g + sp + 25
      && r[0] == '/' && r[w + 1] == '\\'
      && (forall i :: 1 <= i <= w ==> r[i] == '*')
      && r[w + 2..w + 6] == "\n\n  "
      && r[w + 6..w + 6 + g] == name
      && r[w + 6 + g] == '\n'
      && (forall i :: w + 7 + g <= i < w + 7 + g + sp ==> r[i] == ' ')
      && r[w + 7 + g + sp..|r| - w - 4] == "Test Results\n\n"
      && r[|r| - w - 4] == '\\' && r[|r| - 3] == '/'
      && (forall i :: |r| - w - 3 <= i < |r| - 3 ==> r[i] == '*')
      && r[|r| - 2..] == "\n\n"
  {
    BannerJoin(top, middle, bottom, w);
    MiddleShape(r, middle, name, w + 2, sp);
  }

  /** The middle's facts, read at offset `at` of a string that holds it there. */
  lemma MiddleShape(r: string, middle: string, name: string, at: nat, sp: nat)
    requires |middle| == |name| + sp + 19 && at + |middle| <= |r| && r[at..at + |middle|] == middle
    requires middle[..4] == "\n\n  " && middle[4..4 + |name|] == name && middle[4 + |name|] == '\n'
    requires forall i :: 5 + |name| <= i < 5 + |name| + sp ==> middle[i] == ' '
    requires middle[5 + |name| + sp..] == "Test Results\n\n"
    ensures r[at..at + 4] == "\n\n  "
    ensures r[at + 4..at + 4 + |name|] == name
    ensures r[at + 4 + |name|] == '\n'
    ensures forall i :: at + 5 + |name| <= i < at + 5 + |name| + sp ==> r[i] == ' '
    ensures r[at + 5 + |name| + sp..at + |middle|] == "Test Results\n\n"
  {
    var g := |name|;
    assert forall i :: 0 <= i < |middle| ==> r[at + i] == middle[i] by {
      forall i | 0 <= i < |middle| ensures r[at + i] == middle[i] {
        assert r[at..at + |middle|][i] == r[at + i];
      }
    }
    assert r[at..at + 4] == middle[..4];
    assert r[at + 4..at + 4 + g] == middle[4..4 + g];
    assert r[at + 4 + g] == middle[4 + g];
    forall i | at + 5 + g <= i < at + 5 + g + sp ensures r[i] == ' ' {
      assert r[i] == middle[i - at];
    }
    assert r[at + 5 + g + sp..at + |middle|] == middle[5 + g + sp..];
  }

  /** Where the rows, the middle and the closing blank line sit in the banner, for any strings of the right shape. */
  lemma BannerJoin(top: string, middle: string, bottom: string, w: nat)
    requires |top| == w + 2 && top[0] == '/' && top[w + 1] == '\\' && forall i :: 1 <= i <= w ==> top[i] == '*'
    requires |bottom| == w + 2 && bottom[0] == '\\' && bottom[w + 1] == '/' && forall i :: 1 <= i <= w ==> bottom[i] == '*'
    ensures var r := top + middle + bottom + "\n\n";
      && |r| == 2 * w + |middle| + 6
      && r[0] == '/' && r[w + 1] == '\\'
      && (forall i :: 1 <= i <= w ==> r[i] == '*')
      && r[w + 2..w + 2 + |middle|] == middle
      && r[|r| - w - 4] == '\\' && r[|r| - 3] == '/'
      && (forall i :: |r| - w - 3 <= i < |r| - 3 ==> r[i] == '*')
      && r[|r| - 2..] == "\n\n"
  {
    var r := top + middle + bottom + "\n\n";
    JoinIndexes(top, middle, bottom, "\n\n");
    assert r[w + 2..w + 2 + |middle|] == middle;
    var start := w + 2 + |middle|;
    assert r[|r| - w - 4] == bottom[0] && r[|r| - 3] == bottom[w + 1];
    forall i | |r| - w - 3 <= i < |r| - 3
      ensures r[i] == '*'
    {
      assert r[start + (i - start)] == bottom[i - start];
    }
  }

  /** Where each of four joined strings sits in the result. */
  lemma JoinIndexes(a: string, b: string, c: string, d: string)
    ensures var r := a + b + c + d;
      && |r| == |a| + |b| + |c| + |d|
      && (forall i :: 0 <= i < |a| ==> r[i] == a[i])
      && (forall i :: 0 <= i < |b| ==> r[|a| + i] == b[i])
      && (forall i :: 0 <= i < |c| ==> r[|a| + |b| + i] == c[i])
  {
    var r := a + b + c + d;
    assert forall i :: 0 <= i < |b| ==> r[|a| + i] == b[i] by {
      assert r == a + (b + (c + d));
    }
    assert forall i :: 0 <= i < |c| ==> r[|a| + |b| + i] == c[i] by {
      assert r == (a + b) + (c + d);
    }
  }

  /**
    `test.file || test.parent.file` as a template literal prints it: an
    empty or missing file falls back to the parent's (or "undefined"); with
    no parent the access throws (None).
   */
  function FileText(test: Node): (r: Option<string>)
    ensures test.file.Some? && test.file.value != "" ==> r == test.file
    ensures r.None? <==> (test.file.None? || test.file.value == "") && test.parent.None?
    ensures (test.file.None? || test.file.value == "") && test.parent.Some? ==>
      r == Some(test.parent.value.file.GetOr("undefined"))
  {
    if test.file.Some? && test.file.value != "" then test.file
    else match test.parent
      case None => None
      case Some(p) => Some(p.file.GetOr("undefined"))
  }

  /** The file of the first record under `k` in `total`; an empty bucket or a parentless test without a file throws. */
  function FirstFile(total: Dict<Records>, k: Key): (r: Result<string, ReportError>)
    ensures r.Failure? ==> r.error == MalformedData
    ensures |Lookup(total, k)| == 0 ==> r.Failure?
    ensures |Lookup(total, k)| > 0 ==> (r.Success? <==> FileText(Lookup(total, k)[0].test).Some?)
  {
    var rs := Lookup(total, k);
    if |rs| == 0 then Failure(MalformedData)
    else match FileText(rs[0].test)
      case None => Failure(MalformedData)
      case Some(f) => Success(f)
  }

  /** The Passes, Failures and Skipped lines, each with its share of the suite's own test count. */
  function CountLines(p: nat, f: nat, s: nat, fmt: Formatter): string {
    var n := p + f + s;
    "- Passes     : " + NatToString(p) + " (" + fmt.percent(p, n) + "%)\n" +
    "- Failures   : " + NatToString(f) + " (" + fmt.percent(f, n) + "%)\n" +
    "- Skipped    : " + NatToString(s) + " (" + fmt.percent(s, n) + "%)\n"
  }

  /** `helper.msToString(t) || +t || '0ms'` */
  function TotalDuration(fmt: Formatter, t: Option<nat>): (r: string)
    ensures r != ""
    ensures fmt.msToString(t) != "" ==> r == fmt.msToString(t)
    ensures fmt.msToString(t) == "" && Truthy(t) ==> r == NatToString(t.value)
    ensures fmt.msToString(t) == "" && !Truthy(t) ==> r == "0ms"
  {
    var m := fmt.msToString(t);
    if m != "" then m else if Truthy(t) then NatToString(t.value) else "0ms"
  }

  /** `helper.msToString(t) || +t`: a zero prints as "0", an undefined one as "NaN". */
  function Duration(fmt: Formatter, t: Option<nat>): (r: string)
    ensures r != ""
    ensures fmt.msToString(t) != "" ==> r == fmt.msToString(t)
    ensures fmt.msToString(t) == "" && t == Some(0) ==> r == "0"
    ensures fmt.msToString(t) == "" && t.Some? ==> r == NatToString(t.value)
    ensures fmt.msToString(t) == "" && t.None? ==> r == "NaN"
  {
    var m := fmt.msToString(t);
    if m != "" then m else if t.Some? then NatToString(t.value) else "NaN"
  }

  /** `stripAnsi(error.stack || error.message)` */
  function ErrorText(e: ErrorInfo, fmt: Formatter): (r: string)
    ensures e.stack.Some? && e.stack.value != "" ==> r == fmt.stripAnsi(e.stack.value)
    ensures e.stack.None? || e.stack.value == "" ==> r == fmt.stripAnsi(e.message)
  {
    fmt.stripAnsi(if e.stack.Some? && e.stack.value != "" then e.stack.value else e.message)
  }

  /** Every failure record carries its error (reading `failure.error.stack` would otherwise throw). */
  predicate HaveErrors(fs: Records) {
    forall i :: 0 <= i < |fs| ==> fs[i].error.Some?
  }

  /** Block `n` of a failure listing. */
  function FailureBlock(n: nat, rec: Record, fmt: Formatter): (r: string)
    requires rec.error.Some?
    ensures "Failure " + NatToString(n) + ":\n\n" <= r
    ensures r[|r| - 1] == '\n'
  {
    var head := "Failure " + NatToString(n) + ":\n\n";
    var rest := "Name     : " + rec.test.title + "\n" +
      "Duration : " + Duration(fmt, rec.test.duration) + "\n" +
      "Error    : " + ErrorText(rec.error.value, fmt) + "\n";
    assert (head + rest)[..|head|] == head;
    head + rest
  }

  const Separator := "------------------------------\n\n"
  const FailuresHeading := "|--------------------\n| Failures:\n|--------------------\n\n"
  const SuiteTrailer := "=============================================\n\n"

  /** The pieces of a failure listing in order: block 1, separator, block 2, …, block n. */
  function FailurePieces(fs: Records, fmt: Formatter): (ps: seq<string>)
    requires HaveErrors(fs)
    ensures |ps| == if fs == [] then 0 else 2 * |fs| - 1
    decreases |fs|
  {
    if fs == [] then []
    else if |fs| == 1 then [FailureBlock(1, fs[0], fmt)]
    else FailurePieces(fs[..|fs| - 1], fmt) + [Separator, FailureBlock(|fs|, fs[|fs| - 1], fmt)]
  }

  /**
    A listing of n failures: blocks numbered 1 to n in stored order at the
    even positions, and exactly the n - 1 odd positions between them hold a
    separator, so none follows the last block.
   */
  lemma {:induction false} FailureListingShape(fs: Records, fmt: Formatter)
    requires HaveErrors(fs)
    ensures forall j :: 0 <= j < |FailurePieces(fs, fmt)| ==>
              (j % 2 == 0 ==> FailurePieces(fs, fmt)[j] == FailureBlock(j / 2 + 1, fs[j / 2], fmt))
              && (j % 2 == 1 ==> FailurePieces(fs, fmt)[j] == Separator)
    decreases |fs|
  {
    if |fs| > 1 {
      var init := fs[..|fs| - 1];
      assert HaveErrors(init) by {
        forall i | 0 <= i < |init| ensures init[i].error.Some? { assert init[i] == fs[i]; }
      }
      FailureListingShape(init, fmt);
      var ps := FailurePieces(fs, fmt);
      assert ps == FailurePieces(init, fmt) + [Separator, FailureBlock(|fs|, fs[|fs| - 1], fmt)];
      forall j | 0 <= j < |ps|
        ensures (j % 2 == 0 ==> ps[j] == FailureBlock(j / 2 + 1, fs[j / 2], fmt))
        ensures (j % 2 == 1 ==> ps[j] == Separator)
      {
        if j < |ps| - 2 {
          assert ps[j] == FailurePieces(init, fmt)[j];
          if j % 2 == 0 { assert init[j / 2] == fs[j / 2]; }
        }
      }
    }
  }

  function Concat(ss: seq<string>): string
    decreases |ss|
  {
    if ss == [] then "" else Concat(ss[..|ss| - 1]) + ss[|ss| - 1]
  }

  lemma ConcatSnoc(ss: seq<string>, s: string)
    ensures Concat(ss + [s]) == Concat(ss) + s
  {
    assert (ss + [s])[..|ss|] == ss;
  }

  /** Extending a failure listing by one record adds a separator (unless it is the first) and one block. */
  lemma ListingStep(fs: Records, i: nat, fmt: Formatter)
    requires i < |fs| && HaveErrors(fs[..i + 1])
    ensures HaveErrors(fs[..i])
    ensures Concat(FailurePieces(fs[..i + 1], fmt))
            == Concat(FailurePieces(fs[..i], fmt)) + (if i > 0 then Separator else "") + FailureBlock(i + 1, fs[i], fmt)
  {
    assert fs[..i + 1][..i] == fs[..i];
    assert forall j :: 0 <= j < i ==> fs[..i][j] == fs[..i + 1][j];
    var block := FailureBlock(i + 1, fs[i], fmt);
    var done := FailurePieces(fs[..i], fmt);
    if i == 0 {
      assert FailurePieces(fs[..1], fmt) == [block];
      ConcatSnoc([], block);
    } else {
      assert FailurePieces(fs[..i + 1], fmt) == done + [Separator, block];
      assert done + [Separator, block] == (done + [Separator]) + [block];
      ConcatSnoc(done, Separator);
      ConcatSnoc(done + [Separator], block);
    }
  }

  /** The numbered failure listing, as the loop at lines 170-178 (and 238-246) builds it. */
  method ListFailures(fs: Records, fmt: Formatter) returns (r: Result<string, ReportError>)
    ensures HaveErrors(fs) ==> r == Success(Concat(FailurePieces(fs, fmt)))
    ensures !HaveErrors(fs) ==> r == Failure(MalformedData)
  {
    var body := "";
    for i := 0 to |fs|
      invariant HaveErrors(fs[..i])
      invariant body == Listed(fs, i, fmt)
    {
      var failure := fs[i];
      if failure.error.None? {
        assert !HaveErrors(fs) by { assert !fs[i].error.Some?; }
        return Failure(MalformedData);
      }
      ListedStep(fs, i, fmt);
      body := body + FailureBlock(i + 1, failure, fmt);
      if i + 1 < |fs| {
        body := body + Separator;
      }
    }
    ListedAll(fs, fmt);
    return Success(body);
  }

  /** What the loop has produced after `i` records: the first `i` blocks and, if more follow, a separator. */
  function Listed(fs: Records, i: nat, fmt: Formatter): string
    requires i <= |fs| && HaveErrors(fs[..i])
  {
    Concat(FailurePieces(fs[..i], fmt)) + (if 0 < i < |fs| then Separator else "")
  }

  lemma ListedStep(fs: Records, i: nat, fmt: Formatter)
    requires i < |fs| && HaveErrors(fs[..i]) && fs[i].error.Some?
    ensures HaveErrors(fs[..i + 1])
    ensures Listed(fs, i + 1, fmt) == Listed(fs, i, fmt) + FailureBlock(i + 1, fs[i], fmt) + (if i + 1 < |fs| then Separator else "")
  {
    var done := fs[..i + 1];
    assert done == fs[..i] + [fs[i]];
    ListingStep(fs, i, fmt);
  }

  lemma ListedAll(fs: Records, fmt: Formatter)
    requires HaveErrors(fs[..|fs|])
    ensures HaveErrors(fs) && Listed(fs, |fs|, fmt) == Concat(FailurePieces(fs, fmt))
  {
    assert fs[..|fs|] == fs;
  }

  /** How many records of a run were passed, failed, or anything else, by their test's `state`. */
  datatype Tally = Tally(passed: nat, failed: nat, skipped: nat) {
    function Plus(t: Tally): Tally {
      Tally(passed + t.passed, failed + t.failed, skipped + t.skipped)
    }
  }

  /** The `switch` on `test.state`: 'passed' is a pass, 'failed' a failure, anything else skipped. */
  function Classify(rec: Record): Tally
  {
    if rec.test.state == Some("passed") then Tally(1, 0, 0)
    else if rec.test.state == Some("failed") then Tally(0, 1, 0)
    else Tally(0, 0, 1)
  }

  /** A record counts as passed exactly when its state is 'passed', as failed exactly when it is 'failed'. */
  lemma ClassifyCases(rec: Record)
    ensures Classify(rec).passed == 1 <==> rec.test.state == Some("passed")
    ensures Classify(rec).failed == 1 <==> rec.test.state == Some("failed")
    ensures Classify(rec).skipped == 1 <==> rec.test.state != Some("passed") && rec.test.state != Some("failed")
    ensures Classify(rec).passed + Classify(rec).failed + Classify(rec).skipped == 1
  {
  }

  /** The states of the first `n` records of a bucket, counted. */
  function TallyOf(rs: Records, n: nat): Tally
    requires n <= |rs|
  {
    if n == 0 then Tally(0, 0, 0) else TallyOf(rs, n - 1).Plus(Classify(rs[n - 1]))
  }

  /** The number of records under the first `n` keys of `total`. */
  function RecordCount(total: Dict<Records>, n: nat): nat
    requires n <= |total.keys|
  {
    if n == 0 then 0 else RecordCount(total, n - 1) + |Lookup(total, total.keys[n - 1])|
  }

  /** The grand totals over the first `n` keys of `total`. */
  function TallyKeys(total: Dict<Records>, n: nat): Tally
    requires n <= |total.keys|
  {
    if n == 0 then Tally(0, 0, 0)
    else
      var rs := Lookup(total, total.keys[n - 1]);
      TallyKeys(total, n - 1).Plus(TallyOf(rs, |rs|))
  }

  /** The nested loops at lines 187-201 that count totalPass, totalFail and totalSkip. */
  method CountStates(total: Dict<Records>) returns (t: Tally)
    ensures t == TallyKeys(total, |total.keys|)
    ensures t.passed + t.failed + t.skipped == RecordCount(total, |total.keys|)
  {
    var totalPass, totalFail, totalSkip := 0, 0, 0;
    for i := 0 to |total.keys|
      invariant Tally(totalPass, totalFail, totalSkip) == TallyKeys(total, i)
    {
      var rs := Lookup(total, total.keys[i]);
      ghost var before := TallyKeys(total, i);
      for j := 0 to |rs|
        invariant Tally(totalPass, totalFail, totalSkip) == before.Plus(TallyOf(rs, j))
      {
        var state := rs[j].test.state;
        if state == Some("passed") {
          totalPass := totalPass + 1;
        } else if state == Some("failed") {
          totalFail := totalFail + 1;
        } else {
          totalSkip := totalSkip + 1;
        }
      }
    }
    t := Tally(totalPass, totalFail, totalSkip);
    TallyKeysCounts(total, |total.keys|);
  }

  /** Every record of a bucket is counted exactly once. */
  lemma {:induction false} TallyOfCounts(rs: Records, n: nat)
    requires n <= |rs|
    ensures TallyOf(rs, n).passed + TallyOf(rs, n).failed + TallyOf(rs, n).skipped == n
  {
    if n > 0 {
      TallyOfCounts(rs, n - 1);
      ClassifyCases(rs[n - 1]);
      PlusSum(TallyOf(rs, n - 1), Classify(rs[n - 1]), n - 1, 1);
    }
  }

  lemma PlusSum(a: Tally, b: Tally, x: nat, y: nat)
    requires a.passed + a.failed + a.skipped == x && b.passed + b.failed + b.skipped == y
    ensures a.Plus(b).passed + a.Plus(b).failed + a.Plus(b).skipped == x + y
  {
  }

  /** Every record under the counted keys is counted exactly once: totalPass + totalFail + totalSkip is the number of records. */
  lemma {:induction false} TallyKeysCounts(total: Dict<Records>, n: nat)
    requires n <= |total.keys|
    ensures TallyKeys(total, n).passed + TallyKeys(total, n).failed + TallyKeys(total, n).skipped == RecordCount(total, n)
  {
    if n > 0 {
      TallyKeysCounts(total, n - 1);
      var rs := Lookup(total, total.keys[n - 1]);
      TallyOfCounts(rs, |rs|);
      PlusSum(TallyKeys(total, n - 1), TallyOf(rs, |rs|), RecordCount(total, n - 1), |rs|);
    }
  }

  /** The single-suite overview lines after "Overview:": the suite's name, then its details. */
  function SingleOverview(k: Key, file: string, p: nat, f: nat, s: nat, timeTaken: Dict<nat>, fmt: Formatter): string {
    SuiteNameLine(k) + SingleDetails(file, p, f, s, timeTaken, fmt)
  }

  function SuiteNameLine(k: Key): string {
    "- Suite Name : " + k + "\n"
  }

  function SingleDetails(file: string, p: nat, f: nat, s: nat, timeTaken: Dict<nat>, fmt: Formatter): string {
    "- File       : " + file + "\n" +
    CountLines(p, f, s, fmt) +
    "- Duration   : " + TotalDuration(fmt, timeTaken.Get(TotalKey)) + "\n" +
    "- Start Time : " + fmt.startTime(Some(timeTaken.GetOr(TotalKey, 0))) + "\n\n"
  }

  /** The multi-suite overview lines after "Overview:", with percentages of the grand total. */
  function MultiOverview(suites: nat, t: Tally, timeTaken: Dict<nat>, fmt: Formatter): string {
    SuitesRanLine(suites) + MultiTotals(t, timeTaken, fmt)
  }

  function SuitesRanLine(suites: nat): string {
    "- Test Suites Ran : " + NatToString(suites) + "\n"
  }

  function MultiTotals(t: Tally, timeTaken: Dict<nat>, fmt: Formatter): string {
    var totalCount := t.passed + t.failed + t.skipped;
    "- Total Passes    : " + NatToString(t.passed) + " (" + fmt.percent(t.passed, totalCount) + "%)\n" +
    "- Total Failures  : " + NatToString(t.failed) + " (" + fmt.percent(t.failed, totalCount) + "%)\n" +
    "- Total Skipped   : " + NatToString(t.skipped) + " (" + fmt.percent(t.skipped, totalCount) + "%)\n" +
    "- Total Duration  : " + TotalDuration(fmt, timeTaken.Get(TotalKey)) + "\n\n" +
    "- Start Time      : " + fmt.startTime(timeTaken.Get(TotalKey)) + "\n\n"
  }

  function SuiteHeading(k: Key): string {
    "‖==============================\n‖ " + k + "\n‖==============================\n\n"
  }

  /** One suite's block in the multi-suite layout; a suite with failures ends with the `=====` line. */
  function SuiteSection(d: Results, k: Key, fmt: Formatter): (r: Result<string, ReportError>)
    ensures r.Failure? ==> r.error == MalformedData
    ensures r.Success? <==> FirstFile(d.total, k).Success? && HaveErrors(Lookup(d.failures, k))
  {
    var p := Lookup(d.passes, k);
    var f := Lookup(d.failures, k);
    var s := Lookup(d.pending, k);
    var file :- FirstFile(d.total, k);
    if !HaveErrors(f) then Failure(MalformedData)
    else
      var head := SuiteHeading(k) + "- File       : " + file + "\n" + CountLines(|p|, |f|, |s|, fmt) +
        "- Duration   : " + Duration(fmt, d.timeTaken.Get(k)) + "\n\n";
      Success(head + if |f| > 0 then FailuresHeading + Concat(FailurePieces(f, fmt)) + SuiteTrailer else "")
  }

  /** A suite with failures ends its block with the `=====` line (line 248). */
  lemma SuiteSectionTrailer(d: Results, k: Key, fmt: Formatter)
    requires SuiteSection(d, k, fmt).Success? && |Lookup(d.failures, k)| > 0
    ensures var text := SuiteSection(d, k, fmt).value;
      |text| >= |SuiteTrailer| && text[|text| - |SuiteTrailer|..] == SuiteTrailer
  {
    var text := SuiteSection(d, k, fmt).value;
    var f := Lookup(d.failures, k);
    var front := text[..|text| - |SuiteTrailer|];
    assert text == front + SuiteTrailer;
  }

  /** The suite blocks for `keys`, in order; the first malformed suite throws. */
  function Sections(d: Results, keys: seq<Key>, fmt: Formatter): (r: Result<string, ReportError>)
    ensures r.Failure? ==> r.error == MalformedData
    decreases |keys|
  {
    if keys == [] then Success("")
    else
      var prev :- Sections(d, keys[..|keys| - 1], fmt);
      var section :- SuiteSection(d, keys[|keys| - 1], fmt);
      Success(prev + section)
  }

  /** The suite blocks are produced exactly when no suite is malformed. */
  lemma {:induction false} SectionsSucceed(d: Results, keys: seq<Key>, fmt: Formatter)
    ensures Sections(d, keys, fmt).Success? <==> forall i :: 0 <= i < |keys| ==> SuiteSection(d, keys[i], fmt).Success?
    decreases |keys|
  {
    if keys != [] {
      var init := keys[..|keys| - 1];
      SectionsSucceed(d, init, fmt);
      SuccessSnoc(d, keys, init, fmt);
    }
  }

  lemma SuccessSnoc(d: Results, keys: seq<Key>, init: seq<Key>, fmt: Formatter)
    requires keys != [] && init == keys[..|keys| - 1]
    ensures (forall i :: 0 <= i < |keys| ==> SuiteSection(d, keys[i], fmt).Success?) <==>
              (forall i :: 0 <= i < |init| ==> SuiteSection(d, init[i], fmt).Success?) &&
              SuiteSection(d, keys[|keys| - 1], fmt).Success?
  {
    assert forall i :: 0 <= i < |init| ==> init[i] == keys[i];
  }

  /** `!passes[k] && (passes[k] = [])`, and likewise for failures and pending. */
  function FillKey(d: Results, k: Key): (r: Results)
    ensures r.total == d.total && r.timeTaken == d.timeTaken
    ensures k in r.passes.entries && k in r.failures.entries && k in r.pending.entries
    ensures BackFilled(d, r, [k])
  {
    d.(passes := if k in d.passes.entries then d.passes else d.passes.Put(k, []),
       failures := if k in d.failures.entries then d.failures else d.failures.Put(k, []),
       pending := if k in d.pending.entries then d.pending else d.pending.Put(k, []))
  }

  /** `after` differs from `before` at most by empty buckets added under keys in `ks`. */
  ghost predicate BackFilledOne(before: Dict<Records>, after: Dict<Records>, ks: seq<Key>) {
    && before.entries.Keys <= after.entries.Keys
    && (forall k :: k in before.entries ==> after.entries[k] == before.entries[k])
    && (forall k :: k in after.entries && k !in before.entries ==> k in ks && after.entries[k] == [])
  }

  /** Every key in `ks` has a `passes`, a `failures` and a `pending` bucket. */
  ghost predicate HasBuckets(r: Results, ks: seq<Key>) {
    forall k :: k in ks ==> k in r.passes.entries && k in r.failures.entries && k in r.pending.entries
  }

  ghost predicate BackFilled(before: Results, after: Results, ks: seq<Key>) {
    && after.total == before.total && after.timeTaken == before.timeTaken
    && BackFilledOne(before.passes, after.passes, ks)
    && BackFilledOne(before.failures, after.failures, ks)
    && BackFilledOne(before.pending, after.pending, ks)
  }

  /**
    The data after the multi-suite loop has run over `keys`: the keys up to
    and including the first malformed suite are back-filled, none after it.
   */
  function FilledThrough(d: Results, keys: seq<Key>, fmt: Formatter): (r: Results)
    ensures r.total == d.total && r.timeTaken == d.timeTaken
    decreases |keys|
  {
    if keys == [] then d
    else
      var init := keys[..|keys| - 1];
      var prev := FilledThrough(d, init, fmt);
      if Sections(d, init, fmt).Failure? then prev
      else FillKey(prev, keys[|keys| - 1])
  }

  /** The loop only ever adds empty buckets, and only under the keys it visits. */
  lemma {:induction false} FilledThroughOnlyFills(d: Results, keys: seq<Key>, fmt: Formatter)
    ensures BackFilled(d, FilledThrough(d, keys, fmt), keys)
    decreases |keys|
  {
    if keys != [] {
      var init := keys[..|keys| - 1];
      var last := keys[|keys| - 1];
      FilledThroughOnlyFills(d, init, fmt);
      var prev := FilledThrough(d, init, fmt);
      assert keys == init + [last];
      if Sections(d, init, fmt).Success? {
        BackFilledTrans(d, prev, FillKey(prev, last), init, [last]);
      } else {
        BackFilledWider(d, prev, init, keys);
      }
    }
  }

  lemma BackFilledTrans(a: Results, b: Results, c: Results, ks1: seq<Key>, ks2: seq<Key>)
    requires BackFilled(a, b, ks1) && BackFilled(b, c, ks2)
    ensures BackFilled(a, c, ks1 + ks2)
  {
  }

  lemma BackFilledWider(a: Results, b: Results, init: seq<Key>, keys: seq<Key>)
    requires BackFilled(a, b, init) && init <= keys
    ensures BackFilled(a, b, keys)
  {
  }

  /** When no suite throws, every visited key ends up with all three buckets. */
  lemma {:induction false} FilledThroughCovers(d: Results, keys: seq<Key>, fmt: Formatter)
    requires Sections(d, keys, fmt).Success?
    ensures forall k :: k in keys ==> var r := FilledThrough(d, keys, fmt);
              k in r.passes.entries && k in r.failures.entries && k in r.pending.entries
    decreases |keys|
  {
    if keys != [] {
      var init := keys[..|keys| - 1];
      var last := keys[|keys| - 1];
      assert Sections(d, init, fmt).Success?;
      FilledThroughCovers(d, init, fmt);
      var prev := FilledThrough(d, init, fmt);
      var r := FillKey(prev, last);
      assert FilledThrough(d, keys, fmt) == r;
      forall k | k in keys
        ensures k in r.passes.entries && k in r.failures.entries && k in r.pending.entries
      {
        if k != last {
          assert k in init;
        }
      }
    }
  }

  /** What `generateReport` leaves behind: its result or the error it threw, and the data object as it then stands. */
  datatype Outcome = Outcome(text: Result<string, ReportError>, after: Option<Results>)

  /**
    `generateReport(suiteName, data)`: `name` None stands for a missing
    suite name, `data` None for a missing data object.
   */
  function Report(name: Option<string>, data: Option<Results>, fmt: Formatter): (o: Outcome)
    ensures name.None? || name.value == "" ==> o == Outcome(Failure(NoSuiteName), data)
    ensures name.Some? && name.value != "" && data.None? ==> o == Outcome(Failure(NoContents), None)
    ensures o.after.Some? <==> data.Some?
    ensures o.text.Failure? && name.Some? && name.value != "" && data.Some? ==> o.text.error == MalformedData
  {
    if name.None? || name.value == "" then Outcome(Failure(NoSuiteName), data)
    else if data.None? then Outcome(Failure(NoContents), None)
    else
      var d := data.value;
      if |d.total.keys| == 1 then Outcome(SingleText(Banner(name.value), d, fmt), Some(FillKey(d, d.total.keys[0])))
      else Outcome(MultiText(Banner(name.value), d, fmt), Some(FilledThrough(d, d.total.keys, fmt)))
  }

  /** The text of a report with one suite: the overview, then the one failure listing. */
  function SingleText(title: string, d: Results, fmt: Formatter): (r: Result<string, ReportError>)
    requires |d.total.keys| == 1
    ensures r.Failure? ==> r.error == MalformedData
  {
    var k := d.total.keys[0];
    var f := Lookup(d.failures, k);
    var file :- FirstFile(d.total, k);
    if !HaveErrors(f) then Failure(MalformedData)
    else
      var overview := SingleOverview(k, file, |Lookup(d.passes, k)|, |f|, |Lookup(d.pending, k)|, d.timeTaken, fmt);
      var listing := if |f| > 0 then FailuresHeading + Concat(FailurePieces(f, fmt)) else "";
      Success(title + "Overview:\n" + overview + listing)
  }

  /** The text of a report with zero or several suites: the grand totals, then one block per suite. */
  function MultiText(title: string, d: Results, fmt: Formatter): (r: Result<string, ReportError>)
    ensures r.Failure? ==> r.error == MalformedData
  {
    var keys := d.total.keys;
    var body :- Sections(d, keys, fmt);
    Success(title + "Overview:\n" + MultiOverview(|keys|, TallyKeys(d.total, |keys|), d.timeTaken, fmt) + body)
  }

  lemma PrefixJoin(a: string, b: string, c: string)
    requires a <= b
    ensures a <= b + c
  {
    assert (b + c)[..|a|] == b[..|a|];
  }

  lemma PrefixAfter(t: string, a: string, b: string)
    requires a <= b
    ensures t + a <= t + b
  {
    assert (t + b)[..|t + a|] == t + b[..|a|];
  }

  /** A single-suite report goes on from the title with that suite's name. */
  lemma SingleLayout(title: string, d: Results, fmt: Formatter)
    requires |d.total.keys| == 1 && SingleText(title, d, fmt).Success?
    ensures title + "Overview:\n" + SuiteNameLine(d.total.keys[0]) <= SingleText(title, d, fmt).value
  {
    var k := d.total.keys[0];
    var file := FirstFile(d.total, k).value;
    var f := Lookup(d.failures, k);
    var details := SingleDetails(file, |Lookup(d.passes, k)|, |f|, |Lookup(d.pending, k)|, d.timeTaken, fmt);
    var tail := if |f| > 0 then FailuresHeading + Concat(FailurePieces(f, fmt)) else "";
    LeadAfterTitle(title + "Overview:\n", SuiteNameLine(k), details, tail);
  }

  /** A report over zero or several suites goes on from the title with the number of suites. */
  lemma MultiLayout(title: string, d: Results, fmt: Formatter)
    requires MultiText(title, d, fmt).Success?
    ensures title + "Overview:\n" + SuitesRanLine(|d.total.keys|) <= MultiText(title, d, fmt).value
  {
    var keys := d.total.keys;
    var totals := MultiTotals(TallyKeys(d.total, |keys|), d.timeTaken, fmt);
    LeadAfterTitle(title + "Overview:\n", SuitesRanLine(|keys|), totals, Sections(d, keys, fmt).value);
  }

  /** `title + lead` opens `title + (lead + rest) + tail`. */
  lemma LeadAfterTitle(title: string, lead: string, rest: string, tail: string)
    ensures title + lead <= title + (lead + rest) + tail
  {
    PrefixJoin(lead, lead, rest + tail);
    PrefixAfter(title, lead, lead + rest + tail);
    assert title + (lead + rest + tail) == title + (lead + rest) + tail;
  }

  /**
    A report that is produced starts with the title banner and "Overview:";
    with exactly one key in `total` it goes on with that suite's name,
    otherwise with the number of suites.
   */
  lemma ReportLayout(name: string, d: Results, fmt: Formatter)
    requires name != "" && Report(Some(name), Some(d), fmt).text.Success?
    ensures var text := Report(Some(name), Some(d), fmt).text.value;
      && (|d.total.keys| == 1 ==> Banner(name) + "Overview:\n" + SuiteNameLine(d.total.keys[0]) <= text)
      && (|d.total.keys| != 1 ==> Banner(name) + "Overview:\n" + SuitesRanLine(|d.total.keys|) <= text)
  {
    if |d.total.keys| == 1 {
      SingleLayout(Banner(name), d, fmt);
    } else {
      MultiLayout(Banner(name), d, fmt);
    }
  }

  /**
    `generateReport` writes into the data only empty `passes`, `failures`
    and `pending` buckets, only under keys of `total`, and leaves every
    existing bucket, `total` and `timeTaken` as they were.
   */
  lemma ReportOnlyBackFills(name: string, d: Results, fmt: Formatter)
    requires name != ""
    ensures BackFilled(d, Report(Some(name), Some(d), fmt).after.value, d.total.keys)
  {
    if |d.total.keys| == 1 {
      assert d.total.keys == [d.total.keys[0]];
    } else {
      FilledThroughOnlyFills(d, d.total.keys, fmt);
    }
  }

  /** After a report is produced, every key of `total` has all three buckets. */
  lemma ReportFillsEveryKey(name: string, d: Results, fmt: Formatter)
    requires name != "" && Report(Some(name), Some(d), fmt).text.Success?
    ensures var after := Report(Some(name), Some(d), fmt).after.value;
      forall k :: k in d.total.keys ==> k in after.passes.entries && k in after.failures.entries && k in after.pending.entries
  {
    if |d.total.keys| != 1 {
      assert Report(Some(name), Some(d), fmt).after.value == FilledThrough(d, d.total.keys, fmt);
      assert Sections(d, d.total.keys, fmt).Success?;
      FilledThroughCovers(d, d.total.keys, fmt);
    } else {
      assert Report(Some(name), Some(d), fmt).after.value == FillKey(d, d.total.keys[0]);
      assert d.total.keys == [d.total.keys[0]];
    }
  }

  /**
    When several suites are reported and suite `j` throws, the report fails
    and no key after `j` has been back-filled; when `j` is the first suite
    that throws, every key up to and including `j` has all three buckets.
   */
  lemma ReportStopsAtMalformedSuite(name: string, d: Results, fmt: Formatter, j: nat)
    requires name != "" && |d.total.keys| != 1 && j < |d.total.keys|
    requires SuiteSection(d, d.total.keys[j], fmt).Failure?
    ensures Report(Some(name), Some(d), fmt).text == Failure(MalformedData)
    ensures BackFilled(d, Report(Some(name), Some(d), fmt).after.value, d.total.keys[..j + 1])
    ensures (forall i :: 0 <= i < j ==> SuiteSection(d, d.total.keys[i], fmt).Success?) ==>
      HasBuckets(Report(Some(name), Some(d), fmt).after.value, d.total.keys[..j + 1])
  {
    assert Report(Some(name), Some(d), fmt).after.value == FilledThrough(d, d.total.keys, fmt);
    if forall i :: 0 <= i < j ==> SuiteSection(d, d.total.keys[i], fmt).Success? {
      FilledThroughFillsToFailure(d, d.total.keys, fmt, j);
    }
    SectionsSucceed(d, d.total.keys, fmt);
    FilledThroughStops(d, d.total.keys, fmt, j);
  }

  /** Whichever suite `j` throws, the loop touches no key after `j`. */
  lemma {:induction false} FilledThroughStops(d: Results, keys: seq<Key>, fmt: Formatter, j: nat)
    requires j < |keys| && SuiteSection(d, keys[j], fmt).Failure?
    ensures BackFilled(d, FilledThrough(d, keys, fmt), keys[..j + 1])
    decreases |keys|
  {
    var init := keys[..|keys| - 1];
    var last := keys[|keys| - 1];
    if j < |keys| - 1 {
      assert init[j] == keys[j];
      SectionsSucceed(d, init, fmt);
      FilledThroughStops(d, init, fmt, j);
      assert init[..j + 1] == keys[..j + 1];
    } else {
      assert keys[..j + 1] == keys;
      FilledThroughOnlyFills(d, keys, fmt);
    }
  }

  /** When suite `j` is the first that throws, the loop has given every key up to and including `j` all three buckets. */
  lemma FilledThroughFillsToFailure(d: Results, keys: seq<Key>, fmt: Formatter, j: nat)
    requires j < |keys| && SuiteSection(d, keys[j], fmt).Failure?
    requires forall i :: 0 <= i < j ==> SuiteSection(d, keys[i], fmt).Success?
    ensures HasBuckets(FilledThrough(d, keys, fmt), keys[..j + 1])
  {
    var pre := keys[..j];
    PrefixSucceeds(d, keys, j, fmt);
    FilledThroughAtFailure(d, keys, j, fmt);
    var prev := FilledThrough(d, pre, fmt);
    FilledThroughCovers(d, pre, fmt);
    assert HasBuckets(prev, pre);
    FillKeyAddsOne(prev, keys, j);
  }

  /** When none of the first `j` suites throws, their blocks are produced. */
  lemma PrefixSucceeds(d: Results, keys: seq<Key>, j: nat, fmt: Formatter)
    requires j <= |keys| && forall i :: 0 <= i < j ==> SuiteSection(d, keys[i], fmt).Success?
    ensures Sections(d, keys[..j], fmt).Success?
  {
    var pre := keys[..j];
    assert forall i :: 0 <= i < |pre| ==> pre[i] == keys[i];
    SectionsSucceed(d, pre, fmt);
  }

  /** The loop's data when suite `j` is the first that throws: that key filled, and the loop left. */
  lemma FilledThroughAtFailure(d: Results, keys: seq<Key>, j: nat, fmt: Formatter)
    requires j < |keys| && Sections(d, keys[..j], fmt).Success? && SuiteSection(d, keys[j], fmt).Failure?
    ensures FilledThrough(d, keys, fmt) == FillKey(FilledThrough(d, keys[..j], fmt), keys[j])
  {
    FilledThroughStep(d, keys, j, fmt);
    FilledThroughAfterFailure(d, keys, j + 1, fmt);
  }

  /** Filling key `keys[j]` keeps the buckets of the keys before it and adds its own. */
  lemma FillKeyAddsOne(prev: Results, keys: seq<Key>, j: nat)
    requires j < |keys| && HasBuckets(prev, keys[..j])
    ensures HasBuckets(FillKey(prev, keys[j]), keys[..j + 1])
  {
    assert keys[..j + 1] == keys[..j] + [keys[j]];
  }

  /**
    Generating the report a second time, from the data object the first
    call back-filled, gives the same text or the same error. The clock is
    the `startTime` field of the Formatter, so both calls print the same
    Start Time; the code reads `Date.now()` anew on each call.
   */
  lemma ReportRepeatable(name: string, d: Results, fmt: Formatter)
    requires name != ""
    ensures var after := Report(Some(name), Some(d), fmt).after.value;
      Report(Some(name), Some(after), fmt).text == Report(Some(name), Some(d), fmt).text
  {
    var after := Report(Some(name), Some(d), fmt).after.value;
    ReportOnlyBackFills(name, d, fmt);
    if |d.total.keys| == 1 {
      SingleTextAfterFill(Banner(name), d, after, d.total.keys, fmt);
    } else {
      MultiTextAfterFill(Banner(name), d, after, d.total.keys, fmt);
    }
  }

  /** The one-suite text reads the same from back-filled data. */
  lemma SingleTextAfterFill(title: string, before: Results, after: Results, ks: seq<Key>, fmt: Formatter)
    requires BackFilled(before, after, ks) && |before.total.keys| == 1
    ensures SingleText(title, after, fmt) == SingleText(title, before, fmt)
  {
    BackFilledReads(before, after, ks, before.total.keys[0]);
  }

  /** The zero-or-several-suite text reads the same from back-filled data. */
  lemma MultiTextAfterFill(title: string, before: Results, after: Results, ks: seq<Key>, fmt: Formatter)
    requires BackFilled(before, after, ks)
    ensures MultiText(title, after, fmt) == MultiText(title, before, fmt)
  {
    SectionsAfterFill(before, after, ks, before.total.keys, fmt);
  }

  /** Every run of suite blocks reads the same from back-filled data. */
  lemma {:induction false} SectionsAfterFill(before: Results, after: Results, ks: seq<Key>, keys: seq<Key>, fmt: Formatter)
    requires BackFilled(before, after, ks)
    ensures Sections(after, keys, fmt) == Sections(before, keys, fmt)
    decreases |keys|
  {
    if keys != [] {
      SectionsAfterFill(before, after, ks, keys[..|keys| - 1], fmt);
      SectionAfterFill(before, after, ks, keys[|keys| - 1], fmt);
    }
  }

  /** Back-filling never changes what a bucket reads as. */
  lemma BackFilledReads(before: Results, after: Results, ks: seq<Key>, k: Key)
    requires BackFilled(before, after, ks)
    ensures Lookup(after.passes, k) == Lookup(before.passes, k)
    ensures Lookup(after.failures, k) == Lookup(before.failures, k)
    ensures Lookup(after.pending, k) == Lookup(before.pending, k)
  {
  }

  /** So a suite's block reads the same from the back-filled data as from the original. */
  lemma SectionAfterFill(before: Results, after: Results, ks: seq<Key>, k: Key, fmt: Formatter)
    requires BackFilled(before, after, ks)
    ensures SuiteSection(after, k, fmt) == SuiteSection(before, k, fmt)
  {
    BackFilledReads(before, after, ks, k);
  }

  /** One more suite handled by the multi-suite loop. */
  lemma FilledThroughStep(d: Results, keys: seq<Key>, i: nat, fmt: Formatter)
    requires i < |keys| && Sections(d, keys[..i], fmt).Success?
    ensures FilledThrough(d, keys[..i + 1], fmt) == FillKey(FilledThrough(d, keys[..i], fmt), keys[i])
    ensures Sections(d, keys[..i + 1], fmt) ==
              match SuiteSection(d, keys[i], fmt)
              case Failure(e) => Failure(e)
              case Success(section) => Success(Sections(d, keys[..i], fmt).value + section)
  {
    assert keys[..i + 1][..i] == keys[..i];
  }

  /** After the first suite that throws, the loop is over: the data stays as it is. */
  lemma {:induction false} FilledThroughAfterFailure(d: Results, keys: seq<Key>, j: nat, fmt: Formatter)
    requires j <= |keys| && Sections(d, keys[..j], fmt).Failure?
    ensures FilledThrough(d, keys, fmt) == FilledThrough(d, keys[..j], fmt)
    ensures Sections(d, keys, fmt).Failure?
    decreases |keys|
  {
    if j < |keys| {
      var init := keys[..|keys| - 1];
      assert init[..j] == keys[..j];
      FilledThroughAfterFailure(d, init, j, fmt);
    } else {
      assert keys[..j] == keys;
    }
  }

  /** The `data` object `generateReport` reads and back-fills in place. */
  class ReportData {
    var passes: Dict<Records>
    var failures: Dict<Records>
    var timeTaken: Dict<nat>
    var total: Dict<Records>
    var pending: Dict<Records>

    function Value(): Results
      reads this
    {
      Results(passes, failures, timeTaken, total, pending)
    }

    constructor (r: Results)
      ensures Value() == r
    {
      passes, failures, timeTaken, total, pending := r.passes, r.failures, r.timeTaken, r.total, r.pending;
    }

    /** `!passes[k] && (passes[k] = [])`, and the same for `failures` and `pending`. */
    method Fill(k: Key)
      modifies this
      ensures Value() == FillKey(old(Value()), k)
    {
      if k !in passes.entries {
        passes := passes.Put(k, []);
      }
      if k !in failures.entries {
        failures := failures.Put(k, []);
      }
      if k !in pending.entries {
        pending := pending.Put(k, []);
      }
    }
  }

  /** One suite's block of the multi-suite loop (lines 216-249), with its failure listing built by the inner loop. */
  method SuiteBlock(d: Results, k: Key, fmt: Formatter) returns (r: Result<string, ReportError>)
    ensures r == SuiteSection(d, k, fmt)
  {
    var p := Lookup(d.passes, k);
    var f := Lookup(d.failures, k);
    var s := Lookup(d.pending, k);
    var file :- FirstFile(d.total, k);
    var block := SuiteHeading(k) + "- File       : " + file + "\n" + CountLines(|p|, |f|, |s|, fmt) +
      "- Duration   : " + Duration(fmt, d.timeTaken.Get(k)) + "\n\n";
    if |f| > 0 {
      var listing :- ListFailures(f, fmt);
      block := block + (FailuresHeading + listing + SuiteTrailer);
    } else {
      assert HaveErrors(f) && block + "" == block;
    }
    return Success(block);
  }

  lemma JoinAssoc(a: string, b: string, c: string, d: string)
    ensures a + (b + c) + d == a + b + c + d
  {
  }

  /** Lines 144-184: the single-suite report, written over `data` in place. */
  method RenderSingle(title: string, data: ReportData, fmt: Formatter) returns (r: Result<string, ReportError>)
    requires |data.total.keys| == 1
    modifies data
    ensures r == SingleText(title, old(data.Value()), fmt)
    ensures data.Value() == FillKey(old(data.Value()), old(data.total.keys[0]))
  {
    ghost var d := data.Value();
    var total := data.total;
    var header := "Overview:\n";
    var failureBody := "";
    var testKey := total.keys[0];
    data.Fill(testKey);
    var p, f, s := Lookup(data.passes, testKey), Lookup(data.failures, testKey), Lookup(data.pending, testKey);
    BackFilledReads(d, data.Value(), [testKey], testKey);
    var file :- FirstFile(total, testKey);
    header := header + SingleOverview(testKey, file, |p|, |f|, |s|, data.timeTaken, fmt);
    if |f| > 0 {
      var listing :- ListFailures(f, fmt);
      failureBody := FailuresHeading + listing;
    } else {
      assert HaveErrors(f);
    }
    JoinAssoc(title, "Overview:\n", SingleOverview(testKey, file, |p|, |f|, |s|, d.timeTaken, fmt), failureBody);
    return Success(title + header + failureBody);
  }

  /** Lines 185-251: the grand totals and the per-suite blocks, back-filling each suite's buckets as it goes. */
  method RenderSuites(title: string, data: ReportData, fmt: Formatter) returns (r: Result<string, ReportError>)
    modifies data
    ensures r == MultiText(title, old(data.Value()), fmt)
    ensures data.Value() == FilledThrough(old(data.Value()), old(data.total.keys), fmt)
  {
    ghost var d := data.Value();
    var total := data.total;
    var header := "Overview:\n";
    var failureBody := "";
    var tally := CountStates(total);
    header := header + MultiOverview(|total.keys|, tally, data.timeTaken, fmt);
    for i := 0 to |total.keys|
      invariant data.Value() == FilledThrough(d, total.keys[..i], fmt)
      invariant Sections(d, total.keys[..i], fmt) == Success(failureBody)
    {
      var testKey := total.keys[i];
      FilledThroughStep(d, total.keys, i, fmt);
      data.Fill(testKey);
      FilledThroughOnlyFills(d, total.keys[..i + 1], fmt);
      SectionAfterFill(d, data.Value(), total.keys[..i + 1], testKey, fmt);
      var section := SuiteBlock(data.Value(), testKey, fmt);
      if section.Failure? {
        FilledThroughAfterFailure(d, total.keys, i + 1, fmt);
        return Failure(section.error);
      }
      failureBody := failureBody + section.value;
    }
    assert total.keys[..|total.keys|] == total.keys;
    JoinAssoc(title, "Overview:\n", MultiOverview(|total.keys|, tally, d.timeTaken, fmt), failureBody);
    return Success(title + header + failureBody);
  }
}
