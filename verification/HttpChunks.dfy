/** The chunked transfer coding of section 3.6.1 of RFC 2616, and bodies of known length. */
module HttpChunks {
  import opened HttpBytes
  import opened HttpSwitch
  import opened HttpStream
  import opened HttpFeed

  /** The line before a chunk: a size in hexadecimal digits and what follows it up to the line's end. */
  datatype Size = Size(digits: string, params: string)

  datatype Chunk = Chunk(size: Size, data: string)

  function HexValue(s: string): int {
    if s == [] then 0 else HexValue(s[..|s| - 1]) * 16 + Unhex(s[|s| - 1])
  }

  predicate IsHex(s: string) {
    forall i :: 0 <= i < |s| ==> Unhex(s[i]) != -1
  }

  predicate IsSize(z: Size, n: nat) {
    z.digits != [] && IsHex(z.digits) && HexValue(z.digits) == n
    && (z.params != [] ==> z.params[0] == ';' || z.params[0] == ' ') && forall i ::
      0 <= i < |z.params| ==> z.params[i] != CR
  }

  function Line(z: Size): string {
    z.digits + z.params + [CR, LF]
  }

  predicate IsChunk(c: Chunk) {
    c.data != [] && IsSize(c.size, |c.data|) && |Line(c.size)| <= MAX_HEADER_SIZE
  }

  function Encoded(c: Chunk): string {
    Line(c.size) + (c.data + [CR, LF])
  }

  function AllEncoded(chunks: seq<Chunk>): string {
    if chunks == [] then [] else AllEncoded(chunks[..|chunks| - 1]) + Encoded(chunks[|chunks| - 1])
  }

  function Content(chunks: seq<Chunk>): string {
    if chunks == [] then [] else Content(chunks[..|chunks| - 1]) + chunks[|chunks| - 1].data
  }

  // ---- the size line ----

  lemma {:induction false} HexIsNat(s: string)
    requires IsHex(s)
    ensures HexValue(s) >= 0
  {
    if s != [] {
      HexIsNat(s[..|s| - 1]);
      assert Unhex(s[|s| - 1]) != -1;
    }
  }

  /** The parser in the middle of a size line. */
  function Sizing(p: Parser, s: State, nread: nat, n: int): Parser {
    p.(state := s, nread := nread, m := p.m.(contentLength := n))
  }

  /** The characters of a size line make no callbacks. */
  lemma SizeByte(v: View, ch: char, p: Parser)
    requires v.p.m.flags.chunked && v.p.nread < MAX_HEADER_SIZE
    requires v.p.state.ChunkSizeStart? || v.p.state.ChunkSize? || v.p.state.ChunkParameters?
        || v.p.state.ChunkSizeAlmostDone?
    requires ReadSize(v.p.(nread := v.p.nread + 1), ch) == On(p, []) && Open(p.state) == Shut
    ensures Feed(v, ch) == Going(View(p, v.seen))
  {
    hide ReadSize, Open, StartOfEither, ResponseLine, Method, UrlStart, InUrl, RequestVersion, Headers, BodyChars,
        Expect;
  }

  lemma FirstDigit(v: View, ch: char)
    requires Ready(v) && v.p.state.ChunkSizeStart? && Unhex(ch) != -1
    ensures Feed(v, ch) == Going(View(Sizing(v.p, ChunkSize, 1, Unhex(ch)), v.seen))
  {
    hide Feed;
    SizeByte(v, ch, Sizing(v.p, ChunkSize, 1, Unhex(ch)));
  }

  lemma NextDigit(v: View, ch: char)
    requires v.p.state.ChunkSize? && v.p.m.flags.chunked && v.p.nread < MAX_HEADER_SIZE && Unhex(ch) != -1
    ensures Feed(v, ch) == Going(View(Sizing(v.p, ChunkSize, v.p.nread + 1, v.p.m.contentLength * 16 + Unhex(ch)),
        v.seen))
  {
    hide Feed;
    SizeByte(v, ch, Sizing(v.p, ChunkSize, v.p.nread + 1, v.p.m.contentLength * 16 + Unhex(ch)));
  }

  lemma {:induction false} FedDigits(v: View, s: string)
    requires Ready(v) && v.p.state.ChunkSizeStart? && s != [] && IsHex(s) && |s| <= MAX_HEADER_SIZE
    ensures Fed(v, s) == Going(View(Sizing(v.p, ChunkSize, |s|, HexValue(s)), v.seen))
  {
    hide Feed;
    var n := |s| - 1;
    var a := s[..n];
    assert Unhex(s[n]) != -1;
    if a == [] {
      FirstDigit(v, s[0]);
      assert s == [s[0]];
      FedOne(v, s[0]);
    } else {
      FedDigits(v, a);
      assert Ready(v);
      NextDigit(Fed(v, a).v, s[n]);
    }
  }

  lemma NextParam(v: View, ch: char)
    requires v.p.state.ChunkSize? || v.p.state.ChunkParameters?
    requires v.p.m.flags.chunked && v.p.nread < MAX_HEADER_SIZE && ch != CR
    requires v.p.state.ChunkSize? ==> ch == ';' || ch == ' '
    ensures Feed(v, ch) == Going(View(Sizing(v.p, ChunkParameters, v.p.nread + 1, v.p.m.contentLength), v.seen))
  {
    hide Feed;
    SizeByte(v, ch, Sizing(v.p, ChunkParameters, v.p.nread + 1, v.p.m.contentLength));
  }

  lemma {:induction false} FedParams(v: View, s: string)
    requires v.p.state.ChunkSize? && v.p.m.flags.chunked && v.p.nread + |s| <= MAX_HEADER_SIZE
    requires (s != [] ==> s[0] == ';' || s[0] == ' ') && forall i :: 0 <= i < |s| ==> s[i] != CR
    ensures Fed(v, s) == Going(View(Sizing(v.p, if s == [] then ChunkSize
        else ChunkParameters, v.p.nread + |s|, v.p.m.contentLength), v.seen))
  {
    hide Feed;
    if s != [] {
      FedParams(v, s[..|s| - 1]);
      NextParam(Fed(v, s[..|s| - 1]).v, s[|s| - 1]);
    }
  }

  lemma SizeCr(v: View)
    requires (v.p.state.ChunkSize? || v.p.state.ChunkParameters?) && v.p.m.flags.chunked && v.p.nread < MAX_HEADER_SIZE
    ensures Feed(v, CR) == Going(View(Sizing(v.p, ChunkSizeAlmostDone, v.p.nread + 1, v.p.m.contentLength), v.seen))
  {
    hide Feed;
    SizeByte(v, CR, Sizing(v.p, ChunkSizeAlmostDone, v.p.nread + 1, v.p.m.contentLength));
  }

  function Sized(p: Parser, n: nat): Parser {
    var f := if n == 0 then p.m.flags.(trailing := true) else p.m.flags;
    p.(state := if n == 0 then HeaderFieldStart else ChunkData, nread := 0, m := p.m.(contentLength := n, flags := f))
  }

  lemma SizeLf(v: View)
    requires v.p.state.ChunkSizeAlmostDone? && v.p.m.flags.chunked && v.p.nread < MAX_HEADER_SIZE
        && v.p.m.contentLength >= 0
    ensures Feed(v, LF) == Going(View(Sized(v.p, v.p.m.contentLength), v.seen))
  {
    hide Feed;
    SizeByte(v, LF, Sized(v.p, v.p.m.contentLength));
  }

  lemma FedTwo(v: View, a: char, b: char)
    ensures Fed(v, [a, b]) == match Feed(v, a) case Going(w) => Later(Feed(w, b), 1) case o => o
  {
    hide Feed, Fed;
    FedOn(v, [a], [b]);
    assert [a] + [b] == [a, b];
    FedOne(v, a);
    if Feed(v, a).Going? {
      FedOne(Feed(v, a).v, b);
    }
  }

  lemma FedTo(v: View, a: string, w: View, b: string)
    requires Fed(v, a) == Going(w)
    ensures Fed(v, a + b) == Later(Fed(w, b), |a|)
  {
    FedOn(v, a, b);
  }

  lemma SizingIs(p: Parser, s: State, nread: nat, n: int)
    ensures var q := Sizing(p, s, nread, n);
            q.state == s && q.nread == nread && q.m.contentLength == n && q.m.flags == p.m.flags
    ensures forall s', nread', n' :: Sizing(Sizing(p, s, nread, n), s', nread', n') == Sizing(p, s', nread', n')
    ensures forall n': nat :: Sized(Sizing(p, s, nread, n), n') == Sized(p, n')
  {
  }

  /** A size line that is not too long. */
  lemma FedLine(v: View, z: Size, n: nat)
    requires Ready(v) && v.p.state.ChunkSizeStart? && IsSize(z, n) && |Line(z)| <= MAX_HEADER_SIZE
    ensures Fed(v, Line(z)) == Going(View(Sized(v.p, n), v.seen))
  {
    hide Feed, Fed, Sizing, Sized, Ready, HexValue;
    ChunkedNow(v);
    var k := |z.digits|;
    var v1 := View(Sizing(v.p, ChunkSize, k, n), v.seen);
    FedDigits(v, z.digits);
    SizingIs(v.p, ChunkSize, k, n);
    FedParams(v1, z.params);
    FedTo(v, z.digits, v1, z.params);
    var s2 := if z.params == [] then ChunkSize else ChunkParameters;
    var v2 := View(Sizing(v.p, s2, k + |z.params|, n), v.seen);
    SizingIs(v.p, s2, k + |z.params|, n);
    SizeCr(v2);
    var v3 := View(Sizing(v.p, ChunkSizeAlmostDone, k + |z.params| + 1, n), v.seen);
    SizingIs(v.p, ChunkSizeAlmostDone, k + |z.params| + 1, n);
    SizeLf(v3);
    FedTwo(v2, CR, LF);
    FedTo(v, z.digits + z.params, v2, [CR, LF]);
  }

  lemma ChunkedNow(v: View)
    requires Ready(v) && InChunks(v.p.state)
    ensures v.p.m.flags.chunked
  {
  }

  // ---- chunks ----

  /** Between two chunks. */
  function Between(p: Parser): Parser {
    p.(m := p.m.(contentLength := 0))
  }

  lemma SizedReady(v: View, n: nat)
    requires Ready(v) && v.p.state.ChunkSizeStart?
    ensures Ready(View(Sized(v.p, n), v.seen))
  {
  }

  lemma FedChunkData(v: View, data: string)
    requires Ready(v) && v.p.state.ChunkData? && v.p.m.contentLength == |data|
    ensures Fed(v, data) == Going(View(Between(v.p).(state := ChunkDataAlmostDone), Add(v.seen, Data(Body, data))))
  {
    hide Fed, Ready;
    AllTaken(v, |data|);
    TakenAtOnce(v, data, |data|);
    ChunkTaken(v, data[0], |data|);
  }

  lemma AllTaken(v: View, n: nat)
    requires Ready(v) && v.p.state.ChunkData? && v.p.m.contentLength == n
    ensures n > 0 && ToRead(v.p, n) == n
  {
  }

  lemma ChunkTaken(v: View, ch: char, n: nat)
    requires Ready(v) && v.p.state.ChunkData? && v.p.m.contentLength == n
    ensures Byte(v.p, ch, n) == On(Between(v.p).(state := ChunkDataAlmostDone), [])
  {
  }

  lemma FedChunkEnd(v: View)
    requires v.p.state.ChunkDataAlmostDone? && v.p.m.flags.chunked
    ensures Fed(v, [CR, LF]) == Going(View(v.p.(state := ChunkSizeStart), v.seen))
  {
    hide Fed, StartOfEither, ResponseLine, Method, UrlStart, InUrl, RequestVersion, Headers, BodyChars, ReadSize;
    FedTwo(v, CR, LF);
  }

  lemma FedChunk(v: View, c: Chunk)
    requires Ready(v) && v.p.state.ChunkSizeStart? && IsChunk(c)
    ensures Fed(v, Encoded(c)) == Going(View(Between(v.p), Add(v.seen, Data(Body, c.data))))
  {
    hide Fed, Ready, IsSize, Line;
    ChunkedNow(v);
    var n := |c.data|;
    var v1 := View(Sized(v.p, n), v.seen);
    FedLine(v, c.size, n);
    SizedReady(v, n);
    FedChunkData(v1, c.data);
    var v2 := View(Between(v1.p).(state := ChunkDataAlmostDone), Add(v.seen, Data(Body, c.data)));
    FedChunkEnd(v2);
    FedTo(v1, c.data, v2, [CR, LF]);
    FedTo(v, Line(c.size), v1, c.data + [CR, LF]);
    BackBetween(v);
  }

  lemma BackBetween(v: View)
    requires Ready(v) && v.p.state.ChunkSizeStart?
    ensures v.p.nread == 0
        && forall n: nat :: n > 0 ==> Between(Sized(v.p, n)).(state := ChunkSizeStart) == Between(v.p)
  {
  }

  lemma BetweenReady(v: View, seen: seq<Event>)
    requires Ready(v) && v.p.state.ChunkSizeStart?
    ensures Ready(View(Between(v.p), seen)) && Between(Between(v.p)) == Between(v.p)
  {
  }

  /** on_body is given the chunks' contents and nothing else. */
  lemma {:induction false} FedChunks(v: View, chunks: seq<Chunk>)
    requires Ready(v) && v.p.state.ChunkSizeStart? && forall i :: 0 <= i < |chunks| ==> IsChunk(chunks[i])
    ensures Fed(v, AllEncoded(chunks))
        == Going(View(if chunks == [] then v.p else Between(v.p), Handed(v.seen, Content(chunks))))
    ensures chunks != [] ==> Content(chunks) != []
  {
    hide Fed, Ready, IsSize, Line, Between;
    if chunks == [] {
      FedNothing(v);
    } else {
      var n := |chunks| - 1;
      var c := chunks[n];
      assert IsChunk(c);
      FedChunks(v, chunks[..n]);
      var w := Fed(v, AllEncoded(chunks[..n])).v;
      BetweenReady(v, w.seen);
      NeverAborts(v, AllEncoded(chunks[..n]));
      BetweenState(v.p);
      FedChunk(w, c);
      FedTo(v, AllEncoded(chunks[..n]), w, Encoded(c));
      if n > 0 {
        AddJoins(v.seen, Body, Content(chunks[..n]), c.data);
      } else {
        assert chunks[..n] == [] && Content([]) == [];
        assert [] + c.data == c.data;
      }
    }
  }

  lemma BetweenState(p: Parser)
    ensures Between(p).state == p.state
  {
  }

  lemma FedNothing(v: View)
    ensures Fed(v, []) == Going(v)
  {
  }

  // ---- the whole body ----

  /** The parser behind a chunked message. */
  function Finished(m: Meta): Meta {
    m.(contentLength := 0, flags := m.flags.(trailing := true))
  }

  lemma LastCr(v: View)
    requires v.p.state.HeaderFieldStart? && v.p.nread == 0
    ensures Feed(v, CR) == Going(View(v.p.(state := HeadersAlmostDone, nread := 1), v.seen))
  {
  }

  lemma LastLf(v: View)
    requires v.p.state.HeadersAlmostDone? && v.p.nread == 1 && v.p.m.flags.trailing
    ensures Feed(v, LF) == Going(View(v.p.(state := NewMessage(v.p.m), nread := 2),
        Add(v.seen, MessageComplete(v.p.m))))
  {
    hide StartOfEither, ResponseLine, Method, UrlStart, InUrl, RequestVersion, BodyChars, FieldStart, InField,
        ValueStart, InValue, Add;
    assert Open(NewMessage(v.p.m)) == Shut;
    PerformedOne(v.seen, Tell(MessageComplete(v.p.m)));
    assert [] + [Tell(MessageComplete(v.p.m))] == [Tell(MessageComplete(v.p.m))];
  }

  /** The coding of any chunks is read back as their contents, and the message is complete once, at its end. */
  lemma ChunkedBody(v: View, chunks: seq<Chunk>, last: Size)
    requires Ready(v) && v.p.state.ChunkSizeStart? && forall i :: 0 <= i < |chunks| ==> IsChunk(chunks[i])
    requires IsSize(last, 0) && |Line(last)| <= MAX_HEADER_SIZE
    ensures var m := Finished(v.p.m);
            Fed(v, AllEncoded(chunks) + (Line(last) + [CR, LF]))
            == Going(View(v.p.(state := NewMessage(m), nread := 2, m := m),
              Add(Handed(v.seen, Content(chunks)), MessageComplete(m))))
  {
    hide Fed, Ready, IsSize, Line, Feed, Content, AllEncoded, Handed, Add, Between, Sized;
    var m := Finished(v.p.m);
    FedChunks(v, chunks);
    var w := Fed(v, AllEncoded(chunks)).v;
    NeverAborts(v, AllEncoded(chunks));
    BetweenState(v.p);
    FedLine(w, last, 0);
    SizedZero(v.p);
    var v1 := View(Sized(w.p, 0), w.seen);
    LastCr(v1);
    var v2 := View(v1.p.(state := HeadersAlmostDone, nread := 1), w.seen);
    LastLf(v2);
    FedTwo(v1, CR, LF);
    FedTo(w, Line(last), v1, [CR, LF]);
    FedTo(v, AllEncoded(chunks), w, Line(last) + [CR, LF]);
  }

  lemma SizedZero(p: Parser)
    ensures Sized(p, 0) == p.(state := HeaderFieldStart, nread := 0, m := Finished(p.m))
        && Sized(Between(p), 0) == Sized(p, 0)
  {
  }

  /** A body of known length ends with its last character. */
  lemma CountedBody(v: View, data: string)
    requires Ready(v) && v.p.state.BodyIdentity? && v.p.m.contentLength == |data|
    ensures var m := v.p.m.(contentLength := 0);
            Fed(v, data) == Going(View(v.p.(state := NewMessage(m), m := m),
              Add(Add(v.seen, Data(Body, data)), MessageComplete(m))))
  {
    hide Fed, Ready, Add;
    CountedTaken(v, |data|);
    TakenAtOnce(v, data, |data|);
    CountedLast(v, data[0], |data|);
    var m := v.p.m.(contentLength := 0);
    PerformedOne(Add(v.seen, Data(Body, data)), Tell(MessageComplete(m)));
  }

  lemma CountedTaken(v: View, n: nat)
    requires Ready(v) && v.p.state.BodyIdentity? && v.p.m.contentLength == n
    ensures n > 0 && ToRead(v.p, n) == n
  {
  }

  lemma CountedLast(v: View, ch: char, n: nat)
    requires Ready(v) && v.p.state.BodyIdentity? && v.p.m.contentLength == n
    ensures var m := v.p.m.(contentLength := 0);
            Byte(v.p, ch, n) == On(v.p.(state := NewMessage(m), m := m), [Tell(MessageComplete(m))])
  {
  }
}
