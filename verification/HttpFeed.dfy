/** The parser fed one character at a time, and why it does not matter how the characters arrive. */
module HttpFeed {
  import opened HttpBytes
  import opened HttpSwitch
  import opened HttpStream

  /** The parser and the callbacks made so far, adjacent pieces of one text joined. */
  datatype View = View(p: Parser, seen: seq<Event>)

  datatype Outcome =
    | Going(v: View)
    | Failed(error: Errno, at: nat)
    | Switched(at: nat)
    | Aborted(at: nat)

  // ---- one character ----

  /** In a buffer of one character nothing is between a mark and the current position. */
  function Performed(seen: seq<Event>, acts: seq<Act>): seq<Event>
    decreases |acts|
  {
    if acts == [] then seen
    else match acts[0]
      case Mark(part) => Performed(Add(seen, Data(part, [])), acts[1..])
      case Deliver(part) => Performed(Add(seen, Data(part, [])), acts[1..])
      case Tell(e) => Performed(Add(seen, e), acts[1..])
  }

  lemma PerformedOne(seen: seq<Event>, a: Act)
    ensures Performed(seen, [a]) == Add(seen, if a.Tell? then a.event else Data(a.part, []))
  {
    hide Add;
    var next := Add(seen, if a.Tell? then a.event else Data(a.part, []));
    assert [a][1..] == [];
    assert Performed(next, []) == next;
  }

  function Handed(seen: seq<Event>, body: string): seq<Event> {
    if body == [] then seen else Add(seen, Data(Body, body))
  }

  function Closed(seen: seq<Event>, open: Opened, text: string): seq<Event> {
    match open
    case Shut => seen
    case Text(part) => Add(seen, Data(part, text))
  }

  function Feed(v: View, ch: char): Outcome {
    match Byte(v.p, ch, 1)
    case On(p, acts) =>
      var seen := if ToRead(v.p, 1) > 0 then Add(v.seen, Data(Body, [ch])) else v.seen;
      Going(View(p, Closed(Performed(seen, acts), Open(p.state), [ch])))
    case Bad(_, _, e) => Failed(e, 0)
    case Leave(_, _) => Switched(0)
    case Abort => Aborted(0)
  }

  function Later(o: Outcome, n: nat): Outcome {
    match o
    case Going(_) => o
    case Failed(e, at) => Failed(e, at + n)
    case Switched(at) => Switched(at + n)
    case Aborted(at) => Aborted(at + n)
  }

  // ---- a stream ----

  function Fed(v: View, text: string): Outcome {
    if text == [] then Going(v)
    else
      var n := |text| - 1;
      match Fed(v, text[..n])
      case Going(w) => Later(Feed(w, text[n]), n)
      case Failed(e, at) => Failed(e, at)
      case Switched(at) => Switched(at)
      case Aborted(at) => Aborted(at)
  }

  /** A stream is fed piece by piece as it is fed at once. */
  lemma {:induction false} FedOn(v: View, a: string, b: string)
    ensures Fed(v, a + b) == match Fed(v, a) case Going(w) => Later(Fed(w, b), |a|) case o => o
    decreases |b|
  {
    hide Feed;
    if b == [] {
      assert a + b == a;
    } else {
      var n := |b| - 1;
      assert (a + b)[..|a| + n] == a + b[..n];
      FedOn(v, a, b[..n]);
    }
  }

  lemma FedOne(v: View, ch: char)
    ensures Fed(v, [ch]) == Feed(v, ch)
  {
    hide Feed;
    assert [ch][..0] == [];
    assert Fed(v, [ch][..0]) == Going(v);
  }

  lemma FedMore(v: View, text: string, n: nat, w: View, piece: string)
    requires n + |piece| <= |text| && text[n..n + |piece|] == piece && Fed(v, text[..n]) == Going(w)
    ensures Fed(v, text[..n + |piece|]) == Later(Fed(w, piece), n)
  {
    FedOn(v, text[..n], piece);
    assert text[..n + |piece|] == text[..n] + piece;
  }

  /** The rest of a stream that has ended changes nothing. */
  lemma FedEnded(v: View, text: string, n: nat)
    requires n <= |text| && !Fed(v, text[..n]).Going?
    ensures Fed(v, text) == Fed(v, text[..n])
  {
    FedOn(v, text[..n], text[n..]);
    assert text == text[..n] + text[n..];
  }

  // ---- what holds between pieces ----

  /** An open text has been begun. */
  ghost predicate Ready(v: View) {
    Sane(v.p) && (Open(v.p.state).Text? ==> Ends(v.seen, Open(v.p.state).part))
  }

  lemma FeedReady(v: View, ch: char)
    requires Ready(v)
    ensures !Feed(v, ch).Aborted? && (Feed(v, ch).Going? ==> Ready(Feed(v, ch).v))
    ensures Feed(v, ch).Failed? ==> Feed(v, ch).error != Fine
  {
    hide Sane, Legal, Byte;
    ByteKept(v.p, ch, 1);
  }

  /** No stream makes an assertion of the parser fail. */
  lemma {:induction false} NeverAborts(v: View, text: string)
    requires Ready(v)
    ensures !Fed(v, text).Aborted? && (Fed(v, text).Going? ==> Ready(Fed(v, text).v))
    ensures Fed(v, text).Failed? ==> Fed(v, text).error != Fine
  {
    hide Feed, Ready;
    if text != [] {
      var n := |text| - 1;
      NeverAborts(v, text[..n]);
      if Fed(v, text[..n]).Going? {
        FeedReady(Fed(v, text[..n]).v, text[n]);
      }
    }
  }

  // ---- bodies are taken at once ----

  predicate Takes(s: State) {
    s.BodyIdentity? || s.BodyIdentityEof? || s.ChunkData?
  }

  lemma SameRest(p: Parser, ch: char, rest: nat)
    requires !Takes(p.state)
    ensures Byte(p, ch, rest) == Byte(p, ch, 1) && ToRead(p, rest) == 0
  {
    hide StartOfEither, ResponseLine, Method, UrlStart, InUrl, RequestVersion, Headers, ReadSize, Expect;
  }

  /** A body character that is not the last. */
  lemma FeedBody(v: View, ch: char)
    requires Ready(v) && Takes(v.p.state) && (v.p.state.BodyIdentityEof? || v.p.m.contentLength > 1)
    ensures Feed(v, ch) == Going(View(Less(v.p, 1), Add(v.seen, Data(Body, [ch]))))
  {
  }

  function Less(p: Parser, n: int): Parser {
    if p.state.BodyIdentityEof? then p else p.(m := p.m.(contentLength := p.m.contentLength - n))
  }

  lemma LessReady(v: View, n: nat, seen: seq<Event>)
    requires Ready(v) && Takes(v.p.state) && (v.p.state.BodyIdentityEof? || v.p.m.contentLength > n)
    ensures Ready(View(Less(v.p, n), seen)) && Less(v.p, n).state == v.p.state
  {
  }

  lemma {:induction false} FedBody(v: View, text: string)
    requires Ready(v) && Takes(v.p.state) && (v.p.state.BodyIdentityEof? || v.p.m.contentLength > |text|)
    ensures Fed(v, text) == Going(View(Less(v.p, |text|), Handed(v.seen, text)))
  {
    hide Ready, Feed;
    if text != [] {
      var n := |text| - 1;
      var a := text[..n];
      FedBody(v, a);
      var w := View(Less(v.p, n), Handed(v.seen, a));
      LessReady(v, n, w.seen);
      FeedBody(w, text[n]);
      assert text == a + [text[n]];
      if a != [] {
        AddJoins(v.seen, Body, a, [text[n]]);
      }
    }
  }

  /** What on_body is given at once is what it would be given character by character. */
  lemma TakenAtOnce(v: View, text: string, rest: nat)
    requires Ready(v) && Takes(v.p.state) && text != [] && |text| == ToRead(v.p, rest)
    ensures Byte(v.p, text[0], rest).On?
    ensures var next := Byte(v.p, text[0], rest);
            Open(next.p.state) == Shut
            && Fed(v, text) == Going(View(next.p, Performed(Add(v.seen, Data(Body, text)), next.acts)))
  {
    hide Ready, Feed, Byte, Handed;
    var k := |text| - 1;
    var a := text[..k];
    HandedIs(v.seen, text);
    HandedIs(v.seen, a);
    if v.p.state.BodyIdentityEof? || v.p.m.contentLength > |text| {
      FedBody(v, text);
      ShortTake(v, text[0], rest);
    } else {
      FedBody(v, a);
      var w := View(Less(v.p, k), Handed(v.seen, a));
      LessReady(v, k, w.seen);
      LastTake(v, w, text[0], text[k], rest);
      assert text == a + [text[k]];
      if a != [] {
        AddJoins(v.seen, Body, a, [text[k]]);
      }
    }
  }

  lemma HandedIs(seen: seq<Event>, text: string)
    ensures Handed(seen, text) == if text == [] then seen else Add(seen, Data(Body, text))
  {
  }

  lemma ShortTake(v: View, ch: char, rest: nat)
    requires Ready(v) && Takes(v.p.state) && 0 < ToRead(v.p, rest)
        && (v.p.state.BodyIdentityEof? || v.p.m.contentLength > ToRead(v.p, rest))
    ensures Byte(v.p, ch, rest) == On(Less(v.p, ToRead(v.p, rest)), []) && Open(v.p.state) == Shut
  {
  }

  /** The last character of a counted body ends it, however many came with it. */
  lemma LastTake(v: View, w: View, ch: char, last: char, rest: nat)
    requires Ready(v) && Takes(v.p.state) && !v.p.state.BodyIdentityEof? && v.p.m.contentLength == ToRead(v.p, rest)
    requires w.p == Less(v.p, v.p.m.contentLength - 1)
    ensures Byte(v.p, ch, rest).On? && Open(Byte(v.p, ch, rest).p.state) == Shut
    ensures Feed(w, last) == Going(View(Byte(v.p, ch, rest).p,
        Performed(Add(w.seen, Data(Body, [last])), Byte(v.p, ch, rest).acts)))
  {
  }
}
