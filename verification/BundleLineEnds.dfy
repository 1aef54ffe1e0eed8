/** Why resuming an import needs plain line ends: the offsets of a bundle with carriage
    returns lag behind, and a resume reads again what the remote already has. */
module BundleLineEnds {
  import opened Domain
  import opened ImportLines
  import opened BundleScanner
  import opened BundleStream

  /** The offset a run saves after sending some lines, but not all, is the start of the next
      line exactly when no carriage return was stripped from the lines it sent. */
  lemma SavedOffsetExactIff(x: Session, b: string, offset: nat) returns (d: nat)
    ensures var lines := ScanFrom(b, offset).lines;
            var f := Import(x, b, offset);
            && Sends(lines, Effects(x.process, lines), offset, d, f)
            && (0 < d < |lines| ==>
                  (f.stream.committed == lines[d - 1].next <==> forall k :: 0 <= k < d ==> !lines[k].stripped))
  {
    d := ImportSendsPrefix(x, b, offset);
    if 0 < d < |ScanFrom(b, offset).lines| { OffsetExactIff(b, offset, d); }
  }

  // ---- Exactly once needs plain line ends ----

  /** Every line is sent in a chunk of its own, and the first `n` chunks are accepted. */
  ghost predicate SendsEach(x: Session, n: nat) {
    x.maxChunk == 1 && (forall line :: x.process(line).sent.Some?) && (forall k: nat :: x.post(k) <==> k < n)
  }

  /** The saved offset is then the importer's offset after `n` lines, and the run fails unless
      that was the last line of the bundle. */
  lemma {:induction false} SavesAfter(x: Session, n: nat, scan: Scan, offset: nat, i: nat, s: Stream)
    requires SendsEach(x, n) && i <= n <= |scan.lines| && s.chunk == "" && |s.bodies| == i
    requires s.current == s.committed == offset + Claimed(scan.lines, i)
    ensures var f := Run(s, x, scan, Effects(x.process, scan.lines), i);
            && f.stream.committed == offset + Claimed(scan.lines, n)
            && (f.ok <==> n == |scan.lines| && !scan.tooLong)
    decreases |scan.lines| - i
  {
    if i < |scan.lines| {
      var es := Effects(x.process, scan.lines);
      assert es[i] == x.process(scan.lines[i].text) && es[i].sent.Some?;
      var t := Take(s, |scan.lines[i].text|, es[i]);
      assert |t.chunk| > 0;
      if i < n { SavesAfter(x, n, scan, offset, i + 1, Feed(s, x, |scan.lines[i].text|, es[i]).stream); }
    }
  }

  lemma ImportSavesAfter(x: Session, b: string, n: nat)
    requires SendsEach(x, n) && n <= |ScanFrom(b, 0).lines|
    ensures var f, s := Import(x, b, 0), ScanFrom(b, 0);
            f.stream.committed == Claimed(s.lines, n) && (f.ok <==> n == |s.lines| && !s.tooLong)
  {
    SavesAfter(x, n, ScanFrom(b, 0), 0, 0, Opened(0));
  }

  lemma ResumedOnce(process: string -> Effect, maxChunk: nat, b: string, p: nat -> bool)
    ensures Resumed(process, maxChunk, b, [p])
            == Continued(History("", 0, false), Import(Session(process, maxChunk, p), b, 0))
  {
    assert [p][..0] == [];
  }

  /** Whatever the importer does with a line, whatever the chunk size and whatever the remote
      rejects: the bundle is sent exactly once. */
  ghost predicate AlwaysExact(b: string) {
    forall process, maxChunk, posts :: Exact(process, b, Resumed(process, maxChunk, b, posts))
  }

  lemma PlainIsExact(b: string)
    requires PlainBeforeLast(ScanFrom(b, 0))
    ensures AlwaysExact(b)
  {
    forall process, maxChunk, posts ensures Exact(process, b, Resumed(process, maxChunk, b, posts)) {
      ResumedExactlyOnce(process, maxChunk, b, posts);
    }
  }

  /** The importer's offset after the first line with a carriage return is inside its end. If
      that line is not the last one of the bundle, there is more to come. */
  lemma FirstBadOffset(b: string, s: Scan) returns (n: nat)
    requires s == ScanFrom(b, 0) && !PlainBeforeLast(s)
    ensures n <= |s.lines| && !Boundary(b, Claimed(s.lines, n)) && (s.tooLong || n < |s.lines|)
  {
    var k := FirstStripped(s, |s.lines|);
    StrippedOffsetIsNoBoundary(b, 0, k, s.lines);
    n := k + 1;
  }

  function SendAll(): string -> Effect { line => Effect(NOTHING, Some(Sent(line, 1))) }

  /** A run that ends there fails and saves that offset. */
  lemma StrippedSavesBadOffset(b: string) returns (posts: seq<nat -> bool>)
    requires !PlainBeforeLast(ScanFrom(b, 0))
    ensures var h := Resumed(SendAll(), 1, b, posts); !h.done && !Boundary(b, h.offset)
  {
    var n := FirstBadOffset(b, ScanFrom(b, 0));
    var x := Session(SendAll(), 1, k => k < n);
    ImportSavesAfter(x, b, n);
    posts := [x.post];
    ResumedOnce(SendAll(), 1, b, x.post);
  }

  lemma BadOffsetIsInexact(process: string -> Effect, b: string, h: History)
    requires !h.done && !Boundary(b, h.offset)
    ensures !Exact(process, b, h)
  {
  }

  /** That holds exactly for the bundles none of whose lines, except perhaps the last, ends in a
      carriage return. */
  lemma ExactlyOnceIff(b: string)
    ensures AlwaysExact(b) <==> PlainBeforeLast(ScanFrom(b, 0))
  {
    if PlainBeforeLast(ScanFrom(b, 0)) {
      PlainIsExact(b);
    } else {
      var posts := StrippedSavesBadOffset(b);
      BadOffsetIsInexact(SendAll(), b, Resumed(SendAll(), 1, b, posts));
    }
  }

  // ---- What then happens ----

  /** Four lines with carriage returns, each sent as a chunk of its own. */
  const CRLF: string := "x\r\nx\r\nx\r\nx\r\n"

  const SENT: Effect := Effect(NOTHING, Some(Sent("x", 1)))

  function OnlyX(): string -> Effect { line => if line == "x" then SENT else Effect(NOTHING.Skip(), None) }

  function Accepting(n: nat): Session { Session(OnlyX(), 1, k => k < n) }

  lemma CrlfLine(p: nat)
    requires p == 0 || p == 3 || p == 6 || p == 9
    ensures LineFrom(CRLF, p) == Line("x", true, p + 3) && Fits(CRLF, p)
  {
    assert CRLF[p + 1] == '\r' && CRLF[p + 2] == '\n';
    assert LineEnd(CRLF, p) == p + 2;
    assert CRLF[p..p + 1] == "x";
  }

  predicate AllX(s: Scan) { !s.tooLong && forall i :: 0 <= i < |s.lines| ==> s.lines[i].text == "x" }

  lemma CrlfScan()
    ensures AllX(ScanFrom(CRLF, 0)) && |ScanFrom(CRLF, 0).lines| == 4
    ensures AllX(ScanFrom(CRLF, 6)) && |ScanFrom(CRLF, 6).lines| == 2
  {
    CrlfLine(9);
    assert ScanFrom(CRLF, 12) == Scan([], false);
    assert AllX(ScanFrom(CRLF, 9)) && |ScanFrom(CRLF, 9).lines| == 1;
    CrlfLine(6);
    assert AllX(ScanFrom(CRLF, 6)) && |ScanFrom(CRLF, 6).lines| == 2;
    CrlfLine(3);
    assert AllX(ScanFrom(CRLF, 3)) && |ScanFrom(CRLF, 3).lines| == 3;
    CrlfLine(0);
  }

  /** `n` accepted chunks. */
  function Copies(n: nat): seq<string> { seq(n, i => "x\n") }

  /** `s` has had `i` lines accepted, one chunk each. */
  ghost predicate Sending(s: Stream, offset: nat, i: nat) {
    s.chunk == "" && s.current == s.committed == offset + 2 * i && s.bodies == Copies(i)
  }

  /** A run over lines like these stops at the chunk that the remote rejects. */
  lemma {:induction false} SendsUpTo(x: Session, scan: Scan, offset: nat, i: nat, n: nat, s: Stream)
    requires x == Accepting(n) && AllX(scan) && i <= n && i <= |scan.lines| && Sending(s, offset, i)
    ensures var f := Run(s, x, scan, Effects(OnlyX(), scan.lines), i);
            if n < |scan.lines| then !f.ok && f.stream.bodies == Copies(n) && f.stream.committed == offset + 2 * n
            else f.ok && f.stream.bodies == Copies(|scan.lines|)
    decreases |scan.lines| - i
  {
    if i < |scan.lines| {
      var es := Effects(OnlyX(), scan.lines);
      assert es[i] == SENT && |scan.lines[i].text| == 1;
      var t := Take(s, 1, es[i]);
      assert t.chunk == "x\n" && |t.chunk| == 2;
      if i < n {
        var f := Feed(s, x, 1, es[i]);
        assert f.stream.bodies == Copies(i) + ["x\n"] == Copies(i + 1);
        SendsUpTo(x, scan, offset, i + 1, n, f.stream);
      }
    }
  }

  lemma {:induction false} CopiesLength(n: nat)
    ensures |Flatten(Copies(n))| == 2 * n
  {
    if n > 0 {
      assert Copies(n)[1..] == Copies(n - 1);
      CopiesLength(n - 1);
    }
  }

  lemma ResumedTwice(process: string -> Effect, maxChunk: nat, b: string, p: nat -> bool, q: nat -> bool)
    ensures var h := Continued(History("", 0, false), Import(Session(process, maxChunk, p), b, 0));
            Resumed(process, maxChunk, b, [p, q]) ==
            if h.done then h else Continued(h, Import(Session(process, maxChunk, q), b, h.offset))
  {
    assert [p, q][..1] == [p];
    ResumedOnce(process, maxChunk, b, p);
  }

  lemma ImportSends(b: string, offset: nat, n: nat, m: nat)
    requires AllX(ScanFrom(b, offset)) && m == |ScanFrom(b, offset).lines|
    ensures var f := Import(Accepting(n), b, offset);
            if n < m then !f.ok && f.stream.bodies == Copies(n) && f.stream.committed == offset + 2 * n
            else f.ok && f.stream.bodies == Copies(m)
  {
    assert Sending(Opened(offset), offset, 0) by { assert Copies(0) == []; }
    SendsUpTo(Accepting(n), ScanFrom(b, offset), offset, 0, n, Opened(offset));
  }

  /** Four lines, of which the remote takes three and then fails once; the offset it saves is
      that of a scan that finds two lines. */
  lemma TwoRunsSend(b: string)
    requires AllX(ScanFrom(b, 0)) && |ScanFrom(b, 0).lines| == 4
    requires AllX(ScanFrom(b, 6)) && |ScanFrom(b, 6).lines| == 2
    ensures var h := Resumed(OnlyX(), 1, b, [Accepting(3).post, Accepting(9).post]);
            h.done && h.sent == "" + Flatten(Copies(3)) + Flatten(Copies(2))
  {
    ImportSends(b, 0, 3, 4);
    ImportSends(b, 6, 9, 2);
    ResumedTwice(OnlyX(), 1, b, Accepting(3).post, Accepting(9).post);
  }

  lemma WantsAll(b: string, m: nat)
    requires AllX(ScanFrom(b, 0)) && |ScanFrom(b, 0).lines| == m
    ensures Wanted(OnlyX(), b, 0) == Flatten(Copies(m))
  {
    ImportSends(b, 0, m, m);
    ImportDone(Accepting(m), b, 0);
  }

  /** The remote takes three of the four lines and then fails once; the resumed run succeeds,
      and the remote has five lines. */
  lemma CarriageReturnsDuplicateLines()
    ensures var h := Resumed(OnlyX(), 1, CRLF, [Accepting(3).post, Accepting(9).post]);
            h.done && |h.sent| == 10 && |Wanted(OnlyX(), CRLF, 0)| == 8
  {
    CrlfScan();
    TwoRunsSend(CRLF);
    WantsAll(CRLF, 4);
    CopiesLength(3);
    CopiesLength(2);
    CopiesLength(4);
  }
}
