/** The line scanner of bufio over a bundle, and the byte offsets the importer derives from
    it: the scanner strips the end of a line, and the importer adds one for it. */
module BundleScanner {
  /** The scanner's buffer; a line and its end must fit. */
  const MAX_LINE: nat := 16 * 1024 * 1024

  /** A scanned line: its text, whether a carriage return was stripped from its end, and
      where the next line starts. */
  datatype Line = Line(text: string, stripped: bool, next: nat)

  datatype Scan = Scan(lines: seq<Line>, tooLong: bool)

  /** The first line feed at or after `p`, or the end of the bundle. */
  function LineEnd(b: string, p: nat): (e: nat)
    requires p <= |b|
    ensures p <= e <= |b| && (e < |b| ==> b[e] == '\n')
    ensures forall k :: p <= k < e ==> b[k] != '\n'
    decreases |b| - p
  {
    if p == |b| || b[p] == '\n' then p else LineEnd(b, p + 1)
  }

  function LineFrom(b: string, p: nat): Line
    requires p < |b|
  {
    var e := LineEnd(b, p);
    var cr := e > p && b[e - 1] == '\r';
    Line(if cr then b[p..e - 1] else b[p..e], cr, if e < |b| then e + 1 else e)
  }

  predicate Fits(b: string, p: nat)
    requires p < |b|
  {
    LineEnd(b, p) - p + 1 <= MAX_LINE
  }

  /** All lines from offset `p` on, up to one that is too long. */
  function ScanFrom(b: string, p: nat): Scan
    decreases |b| - p
  {
    if p >= |b| then Scan([], false)
    else if !Fits(b, p) then Scan([], true)
    else
      var line := LineFrom(b, p);
      var rest := ScanFrom(b, line.next);
      Scan([line] + rest.lines, rest.tooLong)
  }

  /** How far the importer believes to be after `n` lines. */
  function Claimed(lines: seq<Line>, n: nat): nat
    requires n <= |lines|
  {
    if n == 0 then 0 else Claimed(lines, n - 1) + |lines[n - 1].text| + 1
  }

  function Stripped(lines: seq<Line>, n: nat): nat
    requires n <= |lines|
  {
    if n == 0 then 0 else Stripped(lines, n - 1) + if lines[n - 1].stripped then 1 else 0
  }

  lemma {:induction false} ClaimedCons(line: Line, rest: seq<Line>, n: nat)
    requires n <= |rest|
    ensures Claimed([line] + rest, n + 1) == |line.text| + 1 + Claimed(rest, n)
    ensures Stripped([line] + rest, n + 1) == (if line.stripped then 1 else 0) + Stripped(rest, n)
  {
    if n > 0 {
      ClaimedCons(line, rest, n - 1);
      assert ([line] + rest)[n] == rest[n - 1];
    }
  }

  /** Where line `n` of a scan from `p` must end if it is shown to the importer as it is. */
  ghost predicate Lags(b: string, next: nat, claimed: nat, stripped: nat) {
    && next <= |b| && next > 0
    && next == claimed + stripped - (if b[next - 1] == '\n' then 0 else 1)
    && (b[next - 1] != '\n' ==> next == |b|)
  }

  lemma LineShape(b: string, p: nat)
    requires p < |b|
    ensures var line := LineFrom(b, p);
            p < line.next && Lags(b, line.next, p + |line.text| + 1, if line.stripped then 1 else 0)
  {
  }

  /** After a line that is not the last, the importer's offset lags behind the true one by the
      carriage returns stripped so far. After the last it lags by as much, or by one less if
      the bundle does not end in a line feed. */
  lemma {:induction false} ClaimLagsByStripped(b: string, p: nat, n: nat)
    requires 0 < n <= |ScanFrom(b, p).lines|
    ensures LagsAfter(b, p, ScanFrom(b, p).lines, n)
    decreases n
  {
    LineShape(b, p);
    LinesFollow(b, p);
    var line := LineFrom(b, p);
    var rest := ScanFrom(b, line.next).lines;
    if n > 1 { ClaimLagsByStripped(b, line.next, n - 1); }
    if |rest| > 0 { ScanEnds(b, line.next); }
    LagAdds(b, p, line, rest, n);
  }

  ghost predicate LagsAfter(b: string, p: nat, lines: seq<Line>, n: nat)
    requires 0 < n <= |lines|
  {
    && p < lines[n - 1].next
    && Lags(b, lines[n - 1].next, p + Claimed(lines, n), Stripped(lines, n))
    && (n < |lines| ==> lines[n - 1].next < |b|)
  }

  lemma ScanEnds(b: string, p: nat)
    requires |ScanFrom(b, p).lines| > 0
    ensures p < |b|
  {
  }

  lemma LagAdds(b: string, p: nat, line: Line, rest: seq<Line>, n: nat)
    requires 0 < n <= |rest| + 1
    requires p < line.next && Lags(b, line.next, p + |line.text| + 1, if line.stripped then 1 else 0)
    requires |rest| > 0 ==> line.next < |b|
    requires n > 1 ==> LagsAfter(b, line.next, rest, n - 1)
    ensures LagsAfter(b, p, [line] + rest, n)
  {
    ClaimedCons(line, rest, n - 1);
    var lines := [line] + rest;
    if n == 1 {
      assert lines[n - 1] == line && Claimed(rest, 0) == 0 && Stripped(rest, 0) == 0;
    } else {
      assert lines[n - 1] == rest[n - 2];
    }
  }

  /** The importer's offset after a line is the start of the next one exactly when no carriage
      return was stripped up to there. */
  lemma OffsetExactIff(b: string, p: nat, n: nat)
    requires 0 < n < |ScanFrom(b, p).lines|
    ensures var lines := ScanFrom(b, p).lines;
            p + Claimed(lines, n) == lines[n - 1].next <==> forall k :: 0 <= k < n ==> !lines[k].stripped
  {
    ClaimLagsByStripped(b, p, n);
    StrippedIsZeroIff(ScanFrom(b, p).lines, n);
  }

  lemma {:induction false} StrippedIsZeroIff(lines: seq<Line>, n: nat)
    requires n <= |lines|
    ensures Stripped(lines, n) == 0 <==> forall k :: 0 <= k < n ==> !lines[k].stripped
  {
    if n > 0 { StrippedIsZeroIff(lines, n - 1); }
  }

  // ---- Bundles with plain line ends ----

  /** None of the first `n` lines ends in a carriage return. */
  predicate PlainUntil(s: Scan, n: nat)
    requires n <= |s.lines|
  {
    forall k :: 0 <= k < n ==> !s.lines[k].stripped
  }

  /** No scanned line ends in a carriage return, except perhaps the last one of the bundle. */
  predicate PlainBeforeLast(s: Scan) {
    forall k :: 0 <= k < |s.lines| && (s.tooLong || k < |s.lines| - 1) ==> !s.lines[k].stripped
  }

  /** Where a line may start. A bundle whose last line has no end counts as having one. */
  predicate Boundary(b: string, p: nat) {
    p == 0 || (p <= |b| && b[p - 1] == '\n') || (p == |b| + 1 && (b == [] || b[|b| - 1] != '\n'))
  }

  lemma LinesFollow(b: string, p: nat)
    requires |ScanFrom(b, p).lines| > 0
    ensures ScanFrom(b, p).lines == [LineFrom(b, p)] + ScanFrom(b, LineFrom(b, p).next).lines
    ensures ScanFrom(b, p).tooLong == ScanFrom(b, LineFrom(b, p).next).tooLong
  {
  }

  /** Scanning from `q` gives what follows the first `n` lines of `s`. */
  ghost predicate IsRest(b: string, q: nat, s: Scan, n: nat)
    requires n <= |s.lines|
  {
    ScanFrom(b, q) == Scan(s.lines[n..], s.tooLong)
  }

  /** One step of the scanner. */
  lemma ScanStep(b: string, p: nat, s: Scan, n: nat)
    requires n <= |s.lines| && IsRest(b, p, s, n)
    ensures if p < |b| && Fits(b, p) then
              n < |s.lines| && s.lines[n] == LineFrom(b, p) && IsRest(b, LineFrom(b, p).next, s, n + 1)
            else n == |s.lines| && s.tooLong == (p < |b|)
  {
    if p < |b| && Fits(b, p) {
      assert s.lines[n..] == [LineFrom(b, p)] + ScanFrom(b, LineFrom(b, p).next).lines;
      assert s.lines[n..][1..] == s.lines[n + 1..];
    }
  }

  lemma {:induction false} RestFollows(b: string, p: nat, n: nat)
    requires 0 < n <= |ScanFrom(b, p).lines|
    ensures IsRest(b, ScanFrom(b, p).lines[n - 1].next, ScanFrom(b, p), n)
    decreases n
  {
    LinesFollow(b, p);
    var next := LineFrom(b, p).next;
    assert ScanFrom(b, p).lines[1..] == ScanFrom(b, next).lines;
    if n > 1 {
      RestFollows(b, next, n - 1);
      assert ScanFrom(b, p).lines[n..] == ScanFrom(b, next).lines[n - 1..];
    }
  }

  /** An offset is a line start after `next`, or one past the end of a bundle whose last line
      has no end. */
  ghost predicate Reaches(b: string, next: nat, offset: nat) {
    0 < next <= |b| && (if b[next - 1] == '\n' then offset == next else next == |b| && offset == |b| + 1)
  }

  /** After lines with plain ends the importer's offset is the start of the next line, or one
      past the end of a bundle whose last line has no end. */
  lemma PlainOffset(b: string, p: nat, n: nat, s: Scan)
    requires s == ScanFrom(b, p) && 0 < n <= |s.lines| && PlainUntil(s, n)
    ensures Reaches(b, s.lines[n - 1].next, p + Claimed(s.lines, n))
  {
    ClaimLagsByStripped(b, p, n);
    StrippedIsZeroIff(s.lines, n);
  }

  lemma ScanPastEnd(b: string, p: nat)
    requires p >= |b|
    ensures ScanFrom(b, p) == Scan([], false)
  {
  }

  /** Scanning from the importer's offset after `n` lines of a scan from `p` gives the lines
      that follow, and that offset is a boundary if `p` is. */
  ghost predicate Resumes(b: string, p: nat, offset: nat, s: Scan, n: nat)
    requires n <= |s.lines|
  {
    && IsRest(b, offset, s, n)
    && (PlainBeforeLast(s) ==> PlainBeforeLast(ScanFrom(b, offset)))
    && (Boundary(b, p) ==> Boundary(b, offset))
  }

  lemma RestIsPlain(b: string, q: nat, s: Scan, n: nat)
    requires n <= |s.lines| && IsRest(b, q, s, n) && PlainBeforeLast(s)
    ensures PlainBeforeLast(ScanFrom(b, q))
  {
    RestOfPlain(s, n);
  }

  lemma RestOfPlain(s: Scan, n: nat)
    requires n <= |s.lines| && PlainBeforeLast(s)
    ensures PlainBeforeLast(Scan(s.lines[n..], s.tooLong))
  {
  }

  lemma ReachedResumes(b: string, p: nat, next: nat, offset: nat, s: Scan, n: nat)
    requires Reaches(b, next, offset) && n <= |s.lines| && IsRest(b, next, s, n)
    ensures Resumes(b, p, offset, s, n)
  {
    if next == |b| {
      ScanPastEnd(b, |b|);
      ScanPastEnd(b, |b| + 1);
    }
    if PlainBeforeLast(s) { RestIsPlain(b, offset, s, n); }
  }

  lemma StartResumes(b: string, p: nat, offset: nat, s: Scan)
    requires offset == p && s == ScanFrom(b, p)
    ensures Resumes(b, p, offset, s, 0)
  {
    assert s.lines[0..] == s.lines;
  }

  /** Scanning again from the offset the importer has after `n` lines with plain ends gives the
      lines that follow, and that offset is a boundary. */
  lemma ResumeFindsRest(b: string, p: nat, n: nat, s: Scan, offset: nat)
    requires s == ScanFrom(b, p) && n <= |s.lines| && PlainUntil(s, n) && offset == p + Claimed(s.lines, n)
    ensures Resumes(b, p, offset, s, n)
  {
    if n == 0 {
      StartResumes(b, p, offset, s);
    } else {
      PlainOffset(b, p, n, s);
      RestFollows(b, p, n);
      ReachedResumes(b, p, s.lines[n - 1].next, offset, s, n);
    }
  }

  // ---- Bundles with carriage returns ----

  lemma LineAt(b: string, p: nat, n: nat) returns (q: nat)
    requires n < |ScanFrom(b, p).lines|
    ensures q < |b| && ScanFrom(b, p).lines[n] == LineFrom(b, q)
  {
    var s := ScanFrom(b, p);
    if n == 0 {
      q := p;
    } else {
      q := s.lines[n - 1].next;
      RestFollows(b, p, n);
      assert ScanFrom(b, q).lines[0] == s.lines[n];
    }
  }

  /** A line that ends before `next` ends in a carriage return, or in one and a line feed. */
  ghost predicate EndsInReturn(b: string, next: nat) {
    0 < next <= |b| && if b[next - 1] == '\n' then next > 1 && b[next - 2] == '\r' else b[next - 1] == '\r'
  }

  lemma StrippedEnd(b: string, q: nat)
    requires q < |b| && LineFrom(b, q).stripped
    ensures EndsInReturn(b, LineFrom(b, q).next)
  {
  }

  lemma StrippedLineEnd(b: string, p: nat, k: nat, lines: seq<Line>)
    requires lines == ScanFrom(b, p).lines && k < |lines| && lines[k].stripped
    ensures EndsInReturn(b, lines[k].next)
  {
    var q := LineAt(b, p, k);
    StrippedEnd(b, q);
  }

  lemma {:induction false} FirstStripped(s: Scan, n: nat) returns (k: nat)
    requires n <= |s.lines| && exists i :: 0 <= i < n && s.lines[i].stripped
    ensures k < n && s.lines[k].stripped && forall i :: 0 <= i < k ==> !s.lines[i].stripped
  {
    if exists i :: 0 <= i < n - 1 && s.lines[i].stripped {
      k := FirstStripped(s, n - 1);
    } else {
      k := n - 1;
    }
  }

  lemma OneStripped(b: string, p: nat, k: nat, lines: seq<Line>)
    requires k < |lines| && LagsAfter(b, p, lines, k + 1)
    requires lines[k].stripped && forall i :: 0 <= i < k ==> !lines[i].stripped
    ensures Lags(b, lines[k].next, p + Claimed(lines, k + 1), 1)
  {
    StrippedIsZeroIff(lines, k);
    assert Stripped(lines, k + 1) == 1;
  }

  /** After the first line with a carriage return the importer's offset is inside a line end. */
  lemma StrippedOffsetIsNoBoundary(b: string, p: nat, k: nat, lines: seq<Line>)
    requires lines == ScanFrom(b, p).lines && k < |lines| && lines[k].stripped
             && forall i :: 0 <= i < k ==> !lines[i].stripped
    ensures !Boundary(b, p + Claimed(lines, k + 1))
  {
    ClaimLagsByStripped(b, p, k + 1);
    OneStripped(b, p, k, lines);
    StrippedLineEnd(b, p, k, lines);
    OffsetInLineEnd(b, lines[k].next, p + Claimed(lines, k + 1));
  }

  lemma OffsetInLineEnd(b: string, next: nat, offset: nat)
    requires Lags(b, next, offset, 1) && EndsInReturn(b, next)
    ensures !Boundary(b, offset)
  {
  }

  // ---- Lines that are too long ----

  /** From `i` on there are 16 MiB without a line feed. */
  ghost predicate Stretch(b: string, i: nat) {
    var n := 16 * 1024 * 1024; i + n <= |b| && forall k :: i <= k < i + n ==> b[k] != '\n'
  }

  ghost predicate HasLongStretch(b: string, p: nat) { exists i :: p <= i && Stretch(b, i) }

  /** The scanner stops at a line that is too long exactly if there is such a stretch. */
  lemma {:induction false} TooLongIff(b: string, p: nat)
    requires p <= |b|
    ensures ScanFrom(b, p).tooLong <==> HasLongStretch(b, p)
    decreases |b| - p
  {
    if p < |b| {
      var e := LineEnd(b, p);
      if Fits(b, p) {
        TooLongIff(b, LineFrom(b, p).next);
        StretchIsLater(b, p);
      } else {
        assert Stretch(b, p);
      }
    }
  }

  lemma StretchIsLater(b: string, p: nat)
    requires p < |b| && Fits(b, p)
    ensures HasLongStretch(b, p) <==> HasLongStretch(b, LineFrom(b, p).next)
  {
    var e, next := LineEnd(b, p), LineFrom(b, p).next;
    forall i | p <= i && Stretch(b, i) ensures next <= i {
      assert e < i + 16 * 1024 * 1024;
    }
  }
}
