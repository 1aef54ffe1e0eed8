/** streamImport of internal/importer/server/server.go: it packs the encoded lines of a bundle
    into chunks, posts them, and remembers up to where the remote has accepted them. */
module BundleStream {
  import opened Domain
  import opened ImportLines
  import opened BundleScanner

  /** One run of streamImport: what it does with a line, the chunk size, and for each chunk,
      counted from 0, whether the remote accepts it. */
  datatype Session = Session(process: string -> Effect, maxChunk: nat, post: nat -> bool)

  /** What streamImport does with a line. */
  function Process(codec: Codec, settings: Settings): string -> Effect { line => ImportLine(codec, settings, line) }

  /** The variables of streamImport. `bodies` are the accepted chunks. */
  datatype Stream = Stream(
    current: nat, committed: nat,
    chunk: string, chunkPoints: nat, chunkEnd: nat,
    counters: Counters, points: nat, bytes: nat,
    bodies: seq<string>)

  function Opened(offset: nat): Stream { Stream(offset, offset, "", 0, 0, NOTHING, 0, 0, []) }

  /** `stream.committed` is ProcessedBytes, the offset a later run resumes from. */
  datatype Finish = Finish(stream: Stream, ok: bool)

  /** commitChunk. */
  function Commit(s: Stream, post: nat -> bool): Finish {
    if s.chunk == "" then Finish(s, true)
    else if !post(|s.bodies|) then Finish(s, false)
    else
      Finish(s.(bytes := s.bytes + |s.chunk|, points := s.points + s.chunkPoints, committed := s.chunkEnd,
                bodies := s.bodies + [s.chunk], chunk := "", chunkPoints := 0), true)
  }

  function TextOf(e: Effect): string { if e.sent.None? then "" else e.sent.value.text + "\n" }

  /** One scanned line of `length` characters, up to the test of the chunk size. */
  function Take(s: Stream, length: nat, e: Effect): Stream {
    var counted := s.(current := s.current + length + 1, counters := s.counters.Plus(e.counters));
    match e.sent
    case None => counted
    case Some(sent) =>
      counted.(chunk := s.chunk + TextOf(e), chunkPoints := s.chunkPoints + sent.points, chunkEnd := counted.current)
  }

  function Feed(s: Stream, x: Session, length: nat, e: Effect): Finish {
    var t := Take(s, length, e);
    if e.sent.Some? && |t.chunk| >= x.maxChunk then Commit(t, x.post) else Finish(t, true)
  }

  /** The loop over the lines `lines[i..]`, which have the effects `es[i..]`, and what follows it. */
  function Run(s: Stream, x: Session, scan: Scan, es: seq<Effect>, i: nat): Finish
    requires i <= |scan.lines| == |es|
    decreases |es| - i
  {
    if i == |es| then if scan.tooLong then Finish(s, false) else Commit(s, x.post)
    else
      var f := Feed(s, x, |scan.lines[i].text|, es[i]);
      if !f.ok then f else Run(f.stream, x, scan, es, i + 1)
  }

  function Effects(process: string -> Effect, lines: seq<Line>): (es: seq<Effect>)
    ensures |es| == |lines|
  {
    seq(|lines|, i requires 0 <= i < |lines| => process(lines[i].text))
  }

  function Import(x: Session, b: string, offset: nat): Finish {
    var scan := ScanFrom(b, offset);
    Run(Opened(offset), x, scan, Effects(x.process, scan.lines), 0)
  }

  /** streamImport with its captured variables as fields. */
  class BundleImport {
    const codec: Codec
    const settings: Settings
    const post: nat -> bool
    var current: nat
    var committed: nat
    var chunk: string
    var chunkPoints: nat
    var chunkEnd: nat
    var counters: Counters
    var points: nat
    var bytes: nat
    var bodies: seq<string>

    constructor (codec: Codec, settings: Settings, post: nat -> bool, startOffset: nat)
      ensures View() == Opened(startOffset)
      ensures this.codec == codec && this.settings == settings && this.post == post
    {
      this.codec, this.settings, this.post := codec, settings, post;
      current, committed := startOffset, startOffset;
      chunk, chunkPoints, chunkEnd := "", 0, 0;
      counters, points, bytes, bodies := NOTHING, 0, 0, [];
    }

    function ToSession(): Session { Session(Process(codec, settings), settings.maxChunk, post) }

    function View(): Stream
      reads this
    {
      Stream(current, committed, chunk, chunkPoints, chunkEnd, counters, points, bytes, bodies)
    }

    method CommitChunk() returns (ok: bool)
      modifies this
      ensures Finish(View(), ok) == Commit(old(View()), post)
    {
      if chunk == "" {
        return true;
      }
      if !post(|bodies|) {
        return false;
      }
      bytes := bytes + |chunk|;
      points := points + chunkPoints;
      committed := chunkEnd;
      bodies := bodies + [chunk];
      chunk, chunkPoints := "", 0;
      return true;
    }

    /** The body of the loop for one line, whose decoding and filtering gave `e`. */
    method ProcessLine(line: string, e: Effect) returns (ok: bool)
      modifies this
      ensures Finish(View(), ok) == Feed(old(View()), ToSession(), |line|, e)
    {
      current := current + |line| + 1;
      counters := counters.Plus(e.counters);
      if e.sent.None? {
        return true;
      }
      chunk := chunk + (e.sent.value.text + "\n");
      chunkPoints := chunkPoints + e.sent.value.points;
      chunkEnd := current;
      if |chunk| >= settings.maxChunk {
        ok := CommitChunk();
        return;
      }
      return true;
    }

    method StreamImport(b: string) returns (ok: bool)
      requires View() == Opened(current)
      modifies this
      ensures Finish(View(), ok) == Import(ToSession(), b, old(current))
    {
      var position := current;
      ghost var scan := ScanFrom(b, position);
      ghost var es := Effects(ToSession().process, scan.lines);
      ghost var i := 0;
      assert scan.lines[0..] == scan.lines;
      while position < |b| && Fits(b, position)
        invariant i <= |scan.lines| && IsRest(b, position, scan, i)
        invariant Run(View(), ToSession(), scan, es, i) == Import(ToSession(), b, old(current))
        decreases |b| - position
      {
        var line := LineFrom(b, position);
        ScanStep(b, position, scan, i);
        var e := DecodeAndFilter(codec, settings, line.text);
        var fed := ProcessLine(line.text, e);
        if !fed {
          return false;
        }
        position := line.next;
        i := i + 1;
      }
      ScanStep(b, position, scan, i);
      if position < |b| {
        return false;
      }
      ok := CommitChunk();
    }
  }

  // ---- What a run sends ----

  /** What the remote is to get for lines `a` to `b - 1`. */
  function Body(es: seq<Effect>, a: nat, b: nat): string
    requires b <= |es|
  {
    if a >= b then "" else Body(es, a, b - 1) + TextOf(es[b - 1])
  }

  function CountersOf(es: seq<Effect>, n: nat): Counters
    requires n <= |es|
  {
    if n == 0 then NOTHING else CountersOf(es, n - 1).Plus(es[n - 1].counters)
  }

  function PointsOf(es: seq<Effect>, n: nat): nat
    requires n <= |es|
  {
    if n == 0 then 0 else PointsOf(es, n - 1) + if es[n - 1].sent.None? then 0 else es[n - 1].sent.value.points
  }

  lemma {:induction false} BodyJoins(es: seq<Effect>, a: nat, b: nat, c: nat)
    requires a <= b <= c <= |es|
    ensures Body(es, a, b) + Body(es, b, c) == Body(es, a, c)
  {
    if b < c { BodyJoins(es, a, b, c - 1); }
  }

  /** A run that started at `offset` has read `i` lines; the remote has those before line `c`,
      and the chunk holds the ones up to line `e`. */
  ghost predicate Reached(lines: seq<Line>, es: seq<Effect>, offset: nat, i: nat, c: nat, e: nat, s: Stream)
    requires |es| == |lines|
  {
    && c <= e <= i <= |lines|
    && s.current == offset + Claimed(lines, i)
    && s.committed == offset + Claimed(lines, c)
    && Flatten(s.bodies) == Body(es, 0, c) && s.bytes == |Flatten(s.bodies)|
    && s.chunk == Body(es, c, e) && Body(es, e, i) == ""
    && (if s.chunk == "" then c == e else s.chunkEnd == offset + Claimed(lines, e))
    && s.counters == CountersOf(es, i)
    && s.points == PointsOf(es, c) && s.points + s.chunkPoints == PointsOf(es, e) == PointsOf(es, i)
  }

  lemma CommitReaches(post: nat -> bool, lines: seq<Line>, es: seq<Effect>, offset: nat, i: nat, c: nat, e: nat,
                      s: Stream)
    requires |es| == |lines| && Reached(lines, es, offset, i, c, e, s)
    ensures var f := Commit(s, post);
            Reached(lines, es, offset, i, if f.ok then e else c, e, f.stream) && (f.ok ==> f.stream.chunk == "")
  {
    if s.chunk != "" && post(|s.bodies|) {
      FlattenSnoc(s.bodies, s.chunk);
      BodyJoins(es, 0, c, e);
    }
  }

  lemma SkipReaches(lines: seq<Line>, es: seq<Effect>, offset: nat, i: nat, c: nat, e: nat, s: Stream)
    requires |es| == |lines| && i < |lines| && es[i].sent.None? && Reached(lines, es, offset, i, c, e, s)
    ensures Reached(lines, es, offset, i + 1, c, e, Take(s, |lines[i].text|, es[i]))
  {
    assert Body(es, e, i + 1) == "";
  }

  lemma SendReaches(lines: seq<Line>, es: seq<Effect>, offset: nat, i: nat, c: nat, e: nat, s: Stream)
    requires |es| == |lines| && i < |lines| && es[i].sent.Some? && Reached(lines, es, offset, i, c, e, s)
    ensures Reached(lines, es, offset, i + 1, c, i + 1, Take(s, |lines[i].text|, es[i]))
  {
    BodyJoins(es, c, e, i);
    var text := TextOf(es[i]);
    assert Body(es, c, i) == s.chunk && |text| > 0;
    assert Body(es, c, i + 1) == s.chunk + text;
  }

  /** What a run leaves behind that started at `offset`: the remote has exactly the lines
      before `d`, and the saved offset is the importer's offset after them. */
  ghost predicate Sends(lines: seq<Line>, es: seq<Effect>, offset: nat, d: nat, f: Finish)
    requires |es| == |lines|
  {
    && d <= |lines|
    && Flatten(f.stream.bodies) == Body(es, 0, d) && f.stream.bytes == |Flatten(f.stream.bodies)|
    && f.stream.committed == offset + Claimed(lines, d)
    && f.stream.points == PointsOf(es, d)
    && (f.ok ==> Flatten(f.stream.bodies) == Body(es, 0, |lines|) && f.stream.points == PointsOf(es, |lines|)
                 && f.stream.counters == CountersOf(es, |lines|))
  }

  /** A run that fails without meeting a line that is too long has not sent all lines. */
  ghost predicate StopsEarly(scan: Scan, d: nat, f: Finish) { !f.ok && !scan.tooLong ==> d < |scan.lines| }

  /** After one more line, whether or not it made a chunk go out, and whether or not that was
      accepted. */
  lemma FeedReaches(x: Session, lines: seq<Line>, es: seq<Effect>, offset: nat, i: nat, c: nat, e: nat, s: Stream)
    returns (d: nat, g: nat)
    requires |es| == |lines| && i < |lines| && Reached(lines, es, offset, i, c, e, s)
    ensures var f := Feed(s, x, |lines[i].text|, es[i]);
            Reached(lines, es, offset, i + 1, d, g, f.stream) && (!f.ok ==> d < g)
  {
    d, g := c, e;
    if es[i].sent.Some? {
      g := i + 1;
      var t := Take(s, |lines[i].text|, es[i]);
      SendReaches(lines, es, offset, i, c, e, s);
      if |t.chunk| >= x.maxChunk {
        CommitReaches(x.post, lines, es, offset, i + 1, c, g, t);
        d := if Commit(t, x.post).ok then g else c;
      }
    } else {
      SkipReaches(lines, es, offset, i, c, e, s);
    }
  }

  /** After the last line. */
  lemma EndSends(x: Session, scan: Scan, es: seq<Effect>, offset: nat, c: nat, e: nat, s: Stream)
    requires |es| == |scan.lines| && Reached(scan.lines, es, offset, |es|, c, e, s)
    ensures var f := Commit(s, x.post);
            Sends(scan.lines, es, offset, if f.ok then e else c, f) && (!f.ok ==> c < |scan.lines|)
  {
    CommitReaches(x.post, scan.lines, es, offset, |es|, c, e, s);
    BodyJoins(es, 0, e, |es|);
  }

  lemma StopSends(lines: seq<Line>, es: seq<Effect>, offset: nat, i: nat, c: nat, e: nat, s: Stream)
    requires |es| == |lines| && Reached(lines, es, offset, i, c, e, s)
    ensures Sends(lines, es, offset, c, Finish(s, false))
  {
  }

  lemma {:induction false} RunSends(x: Session, scan: Scan, es: seq<Effect>, offset: nat, i: nat, c: nat, e: nat,
                                    s: Stream)
    returns (d: nat)
    requires |es| == |scan.lines| && Reached(scan.lines, es, offset, i, c, e, s)
    ensures Sends(scan.lines, es, offset, d, Run(s, x, scan, es, i)) && StopsEarly(scan, d, Run(s, x, scan, es, i))
    ensures Run(s, x, scan, es, i).ok ==> !scan.tooLong
    decreases |es| - i
  {
    if i < |es| {
      var g: nat;
      d, g := FeedReaches(x, scan.lines, es, offset, i, c, e, s);
      var f := Feed(s, x, |scan.lines[i].text|, es[i]);
      if f.ok {
        d := RunSends(x, scan, es, offset, i + 1, d, g, f.stream);
      } else {
        StopSends(scan.lines, es, offset, i + 1, d, g, f.stream);
      }
    } else if scan.tooLong {
      d := c;
      StopSends(scan.lines, es, offset, i, c, e, s);
    } else {
      d := if Commit(s, x.post).ok then e else c;
      EndSends(x, scan, es, offset, c, e, s);
    }
  }

  /** What the remote is to get for the bundle from `offset` on. */
  function Wanted(process: string -> Effect, b: string, offset: nat): string {
    Encoded(process, ScanFrom(b, offset).lines)
  }

  function Encoded(process: string -> Effect, lines: seq<Line>): string {
    Body(Effects(process, lines), 0, |lines|)
  }

  /** One run: whatever the remote rejects and wherever the bundle breaks off, what it accepted
      is what the lines up to the saved offset encode to, in order, each once. */
  lemma ImportSendsPrefix(x: Session, b: string, offset: nat) returns (d: nat)
    ensures var lines := ScanFrom(b, offset).lines;
            Sends(lines, Effects(x.process, lines), offset, d, Import(x, b, offset))
    ensures StopsEarly(ScanFrom(b, offset), d, Import(x, b, offset))
  {
    var scan := ScanFrom(b, offset);
    d := RunSends(x, scan, Effects(x.process, scan.lines), offset, 0, 0, 0, Opened(offset));
  }

  /** A run that succeeds has sent everything from its start on. */
  lemma ImportDone(x: Session, b: string, offset: nat)
    requires Import(x, b, offset).ok
    ensures !ScanFrom(b, offset).tooLong && Flatten(Import(x, b, offset).stream.bodies) == Wanted(x.process, b, offset)
  {
    var scan := ScanFrom(b, offset);
    var d := RunSends(x, scan, Effects(x.process, scan.lines), offset, 0, 0, 0, Opened(offset));
  }

  // ---- Resumed runs ----

  /** What all runs of an import have sent together, and where the next one would start. */
  datatype History = History(sent: string, offset: nat, done: bool)

  function Continued(h: History, f: Finish): History {
    History(h.sent + Flatten(f.stream.bodies), f.stream.committed, f.ok)
  }

  /** The runs of an import, each with the remote's decisions; there is none after a success. */
  function Resumed(process: string -> Effect, maxChunk: nat, b: string, posts: seq<nat -> bool>): History {
    if |posts| == 0 then History("", 0, false)
    else
      var h := Resumed(process, maxChunk, b, posts[..|posts| - 1]);
      if h.done then h else Continued(h, Import(Session(process, maxChunk, posts[|posts| - 1]), b, h.offset))
  }

  /** Exactly once: an import that has succeeded, and is not resumed, has sent what the bundle
      encodes to; of any other, what was sent and what a resume would send make that up, and the
      resume would start at a line boundary. */
  ghost predicate Exact(process: string -> Effect, b: string, h: History) {
    if h.done then h.sent == Wanted(process, b, 0)
    else Boundary(b, h.offset) && h.sent + Wanted(process, b, h.offset) == Wanted(process, b, 0)
  }

  lemma {:induction false} BodyOfRest(es: seq<Effect>, n: nat, k: nat)
    requires n <= k <= |es|
    ensures Body(es[n..], 0, k - n) == Body(es, n, k)
  {
    if n < k {
      BodyOfRest(es, n, k - 1);
      assert es[n..][k - n - 1] == es[k - 1];
    }
  }

  lemma EncodedRest(process: string -> Effect, lines: seq<Line>, d: nat)
    requires d <= |lines|
    ensures Body(Effects(process, lines), 0, d) + Encoded(process, lines[d..]) == Encoded(process, lines)
  {
    var es := Effects(process, lines);
    assert Effects(process, lines[d..]) == es[d..];
    BodyOfRest(es, d, |lines|);
    BodyJoins(es, 0, d, |lines|);
  }

  /** One run moves what it sends from what is wanted to what the remote has, unless it has
      sent all that was wanted. */
  ghost predicate Moves(process: string -> Effect, b: string, offset: nat, f: Finish) {
    if f.ok then Flatten(f.stream.bodies) == Wanted(process, b, offset)
    else
      && Flatten(f.stream.bodies) + Wanted(process, b, f.stream.committed) == Wanted(process, b, offset)
      && (Boundary(b, offset) ==> Boundary(b, f.stream.committed))
      && PlainBeforeLast(ScanFrom(b, f.stream.committed))
  }

  lemma ImportMoves(x: Session, b: string, offset: nat)
    requires PlainBeforeLast(ScanFrom(b, offset))
    ensures Moves(x.process, b, offset, Import(x, b, offset))
  {
    var f, s := Import(x, b, offset), ScanFrom(b, offset);
    if f.ok {
      ImportDone(x, b, offset);
    } else {
      var d := ImportSendsPrefix(x, b, offset);
      ResumeFindsRest(b, offset, d, s, f.stream.committed);
      SendsMoves(x.process, b, offset, d, f, s);
    }
  }

  lemma SendsMoves(process: string -> Effect, b: string, offset: nat, d: nat, f: Finish, s: Scan)
    requires s == ScanFrom(b, offset) && Sends(s.lines, Effects(process, s.lines), offset, d, f)
    requires Resumes(b, offset, f.stream.committed, s, d) && PlainBeforeLast(s) && !f.ok
    ensures Moves(process, b, offset, f)
  {
    EncodedRest(process, s.lines, d);
    var rest := ScanFrom(b, f.stream.committed);
    assert rest.lines == s.lines[d..];
  }

  lemma ImportNotBack(x: Session, b: string, offset: nat)
    ensures offset <= Import(x, b, offset).stream.committed
  {
    var d := ImportSendsPrefix(x, b, offset);
  }

  lemma ContinuedExact(process: string -> Effect, b: string, h: History, f: Finish)
    requires !h.done && Exact(process, b, h) && Moves(process, b, h.offset, f)
    ensures Exact(process, b, Continued(h, f))
  {
    if !f.ok {
      Regroup(h.sent, Flatten(f.stream.bodies), Wanted(process, b, f.stream.committed), Wanted(process, b, h.offset));
    }
  }

  lemma Regroup(sent: string, bodies: string, rest: string, wanted: string)
    requires bodies + rest == wanted
    ensures (sent + bodies) + rest == sent + wanted
  {
  }

  /** Whatever the remote rejects, no run takes the saved offset back. */
  lemma ResumedNotBack(process: string -> Effect, maxChunk: nat, b: string, posts: seq<nat -> bool>)
    requires |posts| > 0
    ensures Resumed(process, maxChunk, b, posts[..|posts| - 1]).offset <= Resumed(process, maxChunk, b, posts).offset
  {
    var h := Resumed(process, maxChunk, b, posts[..|posts| - 1]);
    if !h.done { ImportNotBack(Session(process, maxChunk, posts[|posts| - 1]), b, h.offset); }
  }

  /** For a bundle no line of which, except perhaps the last, ends in a carriage return, the
      history is exact across any number of rejected posts and resumes with the same settings. */
  lemma {:induction false} ResumedExactlyOnce(process: string -> Effect, maxChunk: nat, b: string,
                                              posts: seq<nat -> bool>)
    requires PlainBeforeLast(ScanFrom(b, 0))
    ensures var h := Resumed(process, maxChunk, b, posts);
            Exact(process, b, h) && (!h.done ==> PlainBeforeLast(ScanFrom(b, h.offset)))
  {
    if |posts| > 0 {
      ResumedExactlyOnce(process, maxChunk, b, posts[..|posts| - 1]);
      var h := Resumed(process, maxChunk, b, posts[..|posts| - 1]);
      var x := Session(process, maxChunk, posts[|posts| - 1]);
      if !h.done {
        ImportMoves(x, b, h.offset);
        ContinuedExact(process, b, h, Import(x, b, h.offset));
      }
    }
  }

  // ---- The size of a chunk ----

  /** No accepted chunk is longer than the limit by more than a line, and every one but perhaps the
      last is at least as long as the limit; the chunk at hand is shorter. */
  ghost predicate Sized(s: Stream, maxChunk: nat, longest: nat) {
    && |s.chunk| < maxChunk
    && forall k :: 0 <= k < |s.bodies| ==> maxChunk <= |s.bodies[k]| < maxChunk + longest
  }

  ghost predicate SizedAtEnd(s: Stream, maxChunk: nat, longest: nat) {
    && (forall k :: 0 <= k < |s.bodies| ==> 0 < |s.bodies[k]| < maxChunk + longest)
    && (forall k :: 0 <= k < |s.bodies| - 1 ==> maxChunk <= |s.bodies[k]|)
  }

  lemma {:induction false} RunKeepsSize(s: Stream, x: Session, scan: Scan, es: seq<Effect>, i: nat, longest: nat)
    requires i <= |scan.lines| == |es| && x.maxChunk > 0 && longest > 0
    requires Sized(s, x.maxChunk, longest) && forall k :: 0 <= k < |es| ==> |TextOf(es[k])| <= longest
    ensures SizedAtEnd(Run(s, x, scan, es, i).stream, x.maxChunk, longest)
    decreases |es| - i
  {
    if i < |es| {
      var f := Feed(s, x, |scan.lines[i].text|, es[i]);
      if f.ok { RunKeepsSize(f.stream, x, scan, es, i + 1, longest); }
    }
  }

  predicate LinesFit(process: string -> Effect, lines: seq<Line>, longest: nat) {
    forall k :: 0 <= k < |lines| ==> |TextOf(process(lines[k].text))| <= longest
  }

  lemma EffectsFit(process: string -> Effect, lines: seq<Line>, longest: nat)
    requires LinesFit(process, lines, longest)
    ensures forall k :: 0 <= k < |lines| ==> |TextOf(Effects(process, lines)[k])| <= longest
  {
  }

  /** So it is for every run of an import, if no encoded line is longer than `longest`. */
  lemma ChunksAreSized(x: Session, b: string, offset: nat, longest: nat)
    requires x.maxChunk > 0 && longest > 0 && LinesFit(x.process, ScanFrom(b, offset).lines, longest)
    ensures SizedAtEnd(Import(x, b, offset).stream, x.maxChunk, longest)
  {
    var scan := ScanFrom(b, offset);
    EffectsFit(x.process, scan.lines, longest);
    RunKeepsSize(Opened(offset), x, scan, Effects(x.process, scan.lines), 0, longest);
  }
}
