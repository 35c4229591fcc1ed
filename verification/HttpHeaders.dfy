/** Header lines, written out and read back. */
module HttpHeaders {
  import opened HttpBytes
  import opened HttpSwitch
  import opened HttpFeed
  import opened HttpNames

  // ---- one character and its callbacks ----

  lemma Quiet(v: View, ch: char, p: Parser)
    requires Byte(v.p, ch, 1) == On(p, []) && ToRead(v.p, 1) == 0 && Open(p.state) == Shut
    ensures Feed(v, ch) == Going(View(p, v.seen))
  {
    hide Byte;
  }

  lemma TextGoesOn(v: View, ch: char, p: Parser, part: Part)
    requires Byte(v.p, ch, 1) == On(p, []) && ToRead(v.p, 1) == 0 && Open(p.state) == Text(part)
    ensures Feed(v, ch) == Going(View(p, Add(v.seen, Data(part, [ch]))))
  {
    hide Byte, Add;
  }

  lemma TextStarts(v: View, ch: char, p: Parser, part: Part)
    requires Byte(v.p, ch, 1) == On(p, [Mark(part)]) && ToRead(v.p, 1) == 0 && Open(p.state) == Text(part)
    ensures Feed(v, ch) == Going(View(p, Add(v.seen, Data(part, [ch]))))
  {
    hide Byte, Add;
    PerformedOne(v.seen, Mark(part));
    AddJoins(v.seen, part, [], [ch]);
    assert [] + [ch] == [ch];
  }

  lemma TextEnds(v: View, ch: char, p: Parser, part: Part)
    requires Byte(v.p, ch, 1) == On(p, [Deliver(part)]) && ToRead(v.p, 1) == 0 && Open(p.state) == Shut
        && Ends(v.seen, part)
    ensures Feed(v, ch) == Going(View(p, v.seen))
  {
    hide Byte, Add;
    PerformedOne(v.seen, Deliver(part));
    AddNothing(v.seen, part);
  }

  lemma TextEmpty(v: View, ch: char, p: Parser, part: Part)
    requires Byte(v.p, ch, 1) == On(p, [Mark(part), Deliver(part)]) && ToRead(v.p, 1) == 0 && Open(p.state) == Shut
    ensures Feed(v, ch) == Going(View(p, Add(v.seen, Data(part, []))))
  {
    hide Byte, Add;
    var acts := [Mark(part), Deliver(part)];
    assert acts[1..] == [Deliver(part)];
    PerformedOne(Add(v.seen, Data(part, [])), Deliver(part));
    assert Performed(v.seen, acts) == Performed(Add(v.seen, Data(part, [])), acts[1..]);
    AddJoins(v.seen, part, [], []);
    var none: string := [];
    assert none + none == none;
  }

  lemma Told(v: View, ch: char, p: Parser, e: Event)
    requires Byte(v.p, ch, 1) == On(p, [Tell(e)]) && ToRead(v.p, 1) == 0 && Open(p.state) == Shut
    ensures Feed(v, ch) == Going(View(p, Add(v.seen, e)))
  {
    hide Byte, Add;
    PerformedOne(v.seen, Tell(e));
  }

  predicate InHeaders(s: State) {
    s.HeaderFieldStart? || s.HeaderField? || s.HeaderValueStart? || s.HeaderValue? || s.HeaderValueLws?
      || s.HeaderAlmostDone?
    || s.HeadersAlmostDone?
  }

  function Count(p: Parser): Parser {
    p.(nread := p.nread + 1)
  }

  lemma HeaderByte(p: Parser, ch: char)
    requires InHeaders(p.state) && p.nread < MAX_HEADER_SIZE
    ensures Byte(p, ch, 1) == Headers(Count(p), ch) && ToRead(p, 1) == 0
  {
    hide Headers, StartOfEither, ResponseLine, Method, UrlStart, InUrl, RequestVersion, HttpSwitch.Chunk, BodyChars;
  }

  lemma FedLast(v: View, text: string, w: View)
    requires text != [] && Fed(v, text[..|text| - 1]) == Going(w)
    ensures Fed(v, text) == Later(Feed(w, text[|text| - 1]), |text| - 1)
  {
    hide Feed;
  }

  lemma FedThen(v: View, a: string, w: View, b: string, u: View)
    requires Fed(v, a) == Going(w) && Fed(w, b) == Going(u)
    ensures Fed(v, a + b) == Going(u)
  {
    FedOn(v, a, b);
  }

  // ---- names ----

  function Tokens(name: string): string {
    seq(|name|, i requires 0 <= i < |name| => Token(name[i]))
  }

  lemma TokensMore(name: string)
    requires name != []
    ensures Tokens(name) == Tokens(name[..|name| - 1]) + [Token(name[|name| - 1])]
  {
  }

  predicate IsName(name: string) {
    name != [] && name[0] != ' ' && forall i :: 0 <= i < |name| ==> Token(name[i]) != '\0'
  }

  /** A header line may begin: behind the first line or behind another header. */
  predicate AtLine(p: Parser) {
    p.state.HeaderFieldStart? || p.state.HeaderValueLws?
  }

  lemma NameStart(v: View, ch: char) returns (w: View)
    requires AtLine(v.p) && v.p.nread < MAX_HEADER_SIZE && Token(ch) != '\0' && ch != ' '
    ensures Feed(v, ch) == Going(w) && w.p.state.HeaderField? && w.p.m == v.p.m && w.p.nread == v.p.nread + 1
    ensures Tracks([Token(ch)], w.p.header, w.p.index) && w.seen == Add(v.seen, Data(Field, [ch]))
  {
    hide Feed, Byte, Tracks, Token, Add;
    TokenIs(ch);
    NotTab(ch);
    HeaderByte(v.p, ch);
    FirstTracks(ch);
    var next := Headers(Count(v.p), ch);
    TextStarts(v, ch, next.p, Field);
    w := View(next.p, Add(v.seen, Data(Field, [ch])));
  }

  lemma NotTab(ch: char)
    requires Token(ch) != '\0'
    ensures ch != '\t'
  {
  }

  lemma NameChar(v: View, low: string, ch: char) returns (w: View)
    requires v.p.state.HeaderField? && v.p.nread < MAX_HEADER_SIZE && Token(ch) != '\0'
    requires low != [] && Tracks(low, v.p.header, v.p.index)
    ensures Feed(v, ch) == Going(w) && w.p.state.HeaderField? && w.p.m == v.p.m && w.p.nread == v.p.nread + 1
    ensures Tracks(low + [Token(ch)], w.p.header, w.p.index) && w.seen == Add(v.seen, Data(Field, [ch]))
  {
    hide Feed, Byte, Tracks, Token, Add, FieldChar;
    HeaderByte(v.p, ch);
    FieldTracks(Count(v.p), low, ch);
    var next := FieldChar(Count(v.p), ch, Token(ch));
    TextGoesOn(v, ch, next.p, Field);
    w := View(next.p, Add(v.seen, Data(Field, [ch])));
  }

  lemma {:induction false} FedName(v: View, name: string) returns (w: View)
    requires AtLine(v.p) && v.p.nread + |name| <= MAX_HEADER_SIZE && IsName(name)
    ensures Fed(v, name) == Going(w) && w.p.state.HeaderField? && w.p.m == v.p.m && w.p.nread == v.p.nread + |name|
    ensures Tracks(Tokens(name), w.p.header, w.p.index) && w.seen == Add(v.seen, Data(Field, name))
    decreases |name|
  {
    hide Feed, Fed, Tracks, Tokens, Add, Token;
    var n := |name| - 1;
    var a := name[..n];
    TokensMore(name);
    if n == 0 {
      w := NameStart(v, name[0]);
      assert name == [name[0]];
      FedOne(v, name[0]);
      NoTokens(a);
    } else {
      var u := FedName(v, a);
      TokensSize(a);
      w := NameChar(u, Tokens(a), name[n]);
      FedLast(v, name, u);
      AddJoins(v.seen, Field, a, [name[n]]);
      assert a + [name[n]] == name;
    }
  }

  lemma NoTokens(a: string)
    requires a == []
    ensures Tokens(a) == [] && forall c :: Tokens(a) + [c] == [c]
  {
  }

  lemma TokensSize(a: string)
    ensures |Tokens(a)| == |a|
  {
  }

  lemma Colon(v: View)
    requires v.p.state.HeaderField? && v.p.nread < MAX_HEADER_SIZE && Ends(v.seen, Field)
    ensures Feed(v, ':') == Going(View(Count(v.p).(state := HeaderValueStart), v.seen))
  {
    hide Feed, Byte, FieldChar;
    HeaderByte(v.p, ':');
    TextEnds(v, ':', Count(v.p).(state := HeaderValueStart), Field);
  }

  // ---- values ----

  predicate IsPad(pad: string) {
    forall i :: 0 <= i < |pad| ==> pad[i] == ' ' || pad[i] == '\t'
  }

  lemma {:induction false} FedPad(v: View, pad: string)
    requires v.p.state.HeaderValueStart? && v.p.nread + |pad| <= MAX_HEADER_SIZE && IsPad(pad)
    ensures Fed(v, pad) == Going(View(v.p.(nread := v.p.nread + |pad|), v.seen))
    decreases |pad|
  {
    hide Feed, Byte, FirstValueChar;
    if pad != [] {
      var n := |pad| - 1;
      FedPad(v, pad[..n]);
      var w := View(v.p.(nread := v.p.nread + n), v.seen);
      HeaderByte(w.p, pad[n]);
      Quiet(w, pad[n], v.p.(nread := v.p.nread + |pad|));
    }
  }

  function Folds(value: string): string {
    seq(|value|, i requires 0 <= i < |value| => Folded(value[i]))
  }

  lemma FoldsMore(value: string)
    requires value != []
    ensures Folds(value) == Folds(value[..|value| - 1]) + [Folded(value[|value| - 1])] && |Folds(value)| == |value|
  {
  }

  function Number(value: string): int {
    if value == [] then 0
    else
      var n := |value| - 1;
      if IsNum(value[n]) then Number(value[..n]) * 10 + Digit(value[n]) else Number(value[..n])
  }

  predicate IsNumber(value: string) {
    value != [] && IsNum(value[0]) && forall i :: 0 <= i < |value| ==> value[i] == ' ' || IsNum(value[i])
  }

  predicate IsValue(h: HeaderState, value: string) {
    (forall i :: 0 <= i < |value| ==> IsByte(value[i])) && (value != [] ==> value[0] != ' ' && value[0] != '\t')
    && (value != [] && h.ContentLength? ==> IsNumber(value))
  }

  /** The fields while a value is read. */
  function Valued(m: Meta, h: HeaderState, value: string): Meta {
    match h
    case Upgrade => m.(flags := m.flags.(upgrade := true))
    case ContentLength => m.(contentLength := Number(value))
    case _ => m
  }

  lemma ValueFirst(v: View, ch: char) returns (w: View)
    requires v.p.state.HeaderValueStart? && v.p.nread < MAX_HEADER_SIZE && IsByte(ch) && ch != ' ' && ch != '\t'
    requires v.p.header.ContentLength? ==> IsNum(ch)
    ensures Feed(v, ch) == Going(w) && w.p.state.HeaderValue? && w.p.nread == v.p.nread + 1
        && w.p.m == Valued(v.p.m, v.p.header, [ch])
    ensures ValueTracks(Known(v.p.header), [Folded(ch)], w.p.header, w.p.index)
        && w.seen == Add(v.seen, Data(Value, [ch]))
  {
    hide Feed, Byte, ValueTracks, Folded, Add, FirstValueChar;
    HeaderByte(v.p, ch);
    var p := Count(v.p).(state := HeaderValue, index := 0);
    FirstCharTracks(p, v.p.header, ch);
    var next := FirstValueChar(p, ch);
    TextStarts(v, ch, next.p, Value);
    w := View(next.p, Add(v.seen, Data(Value, [ch])));
    OneDigit(ch);
  }

  lemma OneDigit(ch: char)
    requires IsByte(ch)
    ensures IsNum(ch) ==> Number([ch]) == Digit(ch)
  {
    assert [ch][..0] == [];
  }

  lemma ValueNext(v: View, of: HeaderState, low: string, ch: char) returns (w: View)
    requires v.p.state.HeaderValue? && v.p.nread < MAX_HEADER_SIZE && IsByte(ch)
        && (of.ContentLength? ==> ch == ' ' || IsNum(ch))
    requires low != [] && ValueTracks(of, low, v.p.header, v.p.index)
    ensures Feed(v, ch) == Going(w) && w.p.state.HeaderValue? && w.p.nread == v.p.nread + 1
    ensures w.p.m == if of.ContentLength? && ch != ' '
        then v.p.m.(contentLength := v.p.m.contentLength * 10 + Digit(ch)) else v.p.m
    ensures ValueTracks(of, low + [Folded(ch)], w.p.header, w.p.index) && w.seen == Add(v.seen, Data(Value, [ch]))
  {
    hide Feed, Byte, ValueTracks, Folded, Add, ValueChar;
    HeaderByte(v.p, ch);
    CharTracks(Count(v.p), of, low, ch);
    var next := ValueChar(Count(v.p), ch);
    TextGoesOn(v, ch, next.p, Value);
    w := View(next.p, Add(v.seen, Data(Value, [ch])));
  }

  lemma KnownIs(h: HeaderState)
    ensures Known(h).ContentLength? <==> h.ContentLength?
    ensures Known(h).Upgrade? <==> h.Upgrade?
  {
  }

  lemma ValuedMore(m: Meta, h: HeaderState, value: string)
    requires value != [] && (h.ContentLength? ==> value[|value| - 1] == ' ' || IsNum(value[|value| - 1]))
    ensures var n := |value| - 1;
            var was := Valued(m, h, value[..n]);
            Valued(m, h, value)
            == if h.ContentLength? && value[n] != ' '
              then was.(contentLength := was.contentLength * 10 + Digit(value[n])) else was
  {
  }

  lemma {:induction false} FedValue(v: View, value: string) returns (w: View)
    requires v.p.state.HeaderValueStart? && v.p.nread + |value| <= MAX_HEADER_SIZE && value != []
        && IsValue(v.p.header, value)
    ensures Fed(v, value) == Going(w) && w.p.state.HeaderValue? && w.p.nread == v.p.nread + |value|
    ensures w.p.m == Valued(v.p.m, v.p.header, value)
    ensures ValueTracks(Known(v.p.header), Folds(value), w.p.header, w.p.index)
        && w.seen == Add(v.seen, Data(Value, value))
    decreases |value|
  {
    hide Feed, Fed, ValueTracks, Folds, Add, Folded, Known, Valued, IsByte;
    var n := |value| - 1;
    var a := value[..n];
    FoldsMore(value);
    KnownIs(v.p.header);
    assert IsByte(value[n]);
    if n == 0 {
      w := ValueFirst(v, value[0]);
      assert value == [value[0]];
      FedOne(v, value[0]);
      NoFolds(a);
    } else {
      var u := FedValue(v, a);
      FoldsMore(a);
      w := ValueNext(u, Known(v.p.header), Folds(a), value[n]);
      ValuedMore(v.p.m, v.p.header, value);
      FedLast(v, value, u);
      AddJoins(v.seen, Value, a, [value[n]]);
      assert a + [value[n]] == value;
    }
  }

  lemma NoFolds(a: string)
    requires a == []
    ensures forall c :: Folds(a) + [c] == [c]
  {
  }

  // ---- a header line ----

  datatype Header = Header(name: string, pad: string, value: string)

  predicate IsHeader(h: Header) {
    IsName(h.name) && IsPad(h.pad) && IsValue(Meaning(Tokens(h.name)), h.value)
  }

  function HeaderText(h: Header): string {
    h.name + ([':'] + (h.pad + (h.value + [CR, LF])))
  }

  /** What a header line means, by its name and value alone. */
  function Effect(m: Meta, h: Header): Meta {
    var kind := Meaning(Tokens(h.name));
    if h.value == [] then m
    else m.(flags := Flagged(kind, Folds(h.value), m.flags), contentLength := if kind.ContentLength?
      then Number(h.value) else m.contentLength)
  }

  lemma ValueCr(v: View)
    requires v.p.state.HeaderValue? && v.p.nread < MAX_HEADER_SIZE && Ends(v.seen, Value)
    ensures Feed(v, CR) == Going(View(Count(v.p).(state := HeaderAlmostDone), v.seen))
  {
    hide Feed, Byte, ValueChar;
    HeaderByte(v.p, CR);
    TextEnds(v, CR, Count(v.p).(state := HeaderAlmostDone), Value);
  }

  lemma EmptyCr(v: View)
    requires v.p.state.HeaderValueStart? && v.p.nread < MAX_HEADER_SIZE
    ensures Feed(v, CR) == Going(View(Count(v.p).(state := HeaderAlmostDone, header := General, index := 0),
        Add(v.seen, Data(Value, []))))
  {
    hide Feed, Byte, FirstValueChar;
    HeaderByte(v.p, CR);
    TextEmpty(v, CR, Count(v.p).(state := HeaderAlmostDone, header := General, index := 0), Value);
  }

  lemma LineLf(v: View)
    requires v.p.state.HeaderAlmostDone? && v.p.nread < MAX_HEADER_SIZE
    ensures Feed(v, LF) == Going(View(HeaderDone(Count(v.p)), v.seen))
  {
    hide Feed, Byte;
    HeaderByte(v.p, LF);
    Quiet(v, LF, HeaderDone(Count(v.p)));
  }

  lemma FedPair(v: View, a: char, w: View, b: char, u: View)
    requires Feed(v, a) == Going(w) && Feed(w, b) == Going(u)
    ensures Fed(v, [a, b]) == Going(u)
  {
    hide Feed, Fed;
    FedOne(v, a);
    FedOne(w, b);
    FedThen(v, [a], w, [b], u);
    assert [a] + [b] == [a, b];
  }

  lemma FedValueLine(v: View, h: Header) returns (w: View)
    requires v.p.state.HeaderValueStart? && v.p.nread + |h.value| + 2 <= MAX_HEADER_SIZE && IsHeader(h)
    requires Known(v.p.header) == Meaning(Tokens(h.name))
    ensures Fed(v, h.value + [CR, LF]) == Going(w) && w.p.state.HeaderValueLws?
        && w.p.nread == v.p.nread + |h.value| + 2
    ensures w.p.m == Effect(v.p.m, h) && w.seen == Add(v.seen, Data(Value, h.value))
  {
    hide Feed, Fed, ValueTracks, Folds, Add, Known, Meaning, Tokens, IsName, IsPad, IsValue, Flagged;
    var u: View;
    var u2: View;
    KnownIs(v.p.header);
    if h.value == [] {
      EmptyCr(v);
      u2 := View(Count(v.p).(state := HeaderAlmostDone, header := General, index := 0), Add(v.seen, Data(Value, [])));
      LineLf(u2);
      w := View(HeaderDone(Count(u2.p)), u2.seen);
      FedPair(v, CR, u2, LF, w);
      assert h.value + [CR, LF] == [CR, LF];
      DoneEmpty(Count(u2.p));
    } else {
      SameValue(v.p.header, Meaning(Tokens(h.name)), h.value);
      u := FedValue(v, h.value);
      AddJoins(v.seen, Value, h.value, []);
      ValueCr(u);
      u2 := View(Count(u.p).(state := HeaderAlmostDone), u.seen);
      LineLf(u2);
      w := View(HeaderDone(Count(u2.p)), u2.seen);
      FedPair(u, CR, u2, LF, w);
      FedThen(v, h.value, u, [CR, LF], w);
      FoldsMore(h.value);
      ValueTracksFlags(Known(v.p.header), Folds(h.value), u.p.header, u.p.index, Count(u2.p));
      DoneEffect(v.p.m, v.p.header, h, Count(u2.p));
    }
  }

  lemma SameValue(h: HeaderState, k: HeaderState, value: string)
    requires IsValue(k, value) && Known(h) == k
    ensures IsValue(h, value)
  {
  }

  lemma DoneEmpty(p: Parser)
    requires p.header.General?
    ensures HeaderDone(p) == p.(state := HeaderValueLws)
  {
  }

  lemma DoneEffect(m: Meta, h: HeaderState, line: Header, p: Parser)
    requires line.value != [] && Known(h) == Meaning(Tokens(line.name)) && p.m == Valued(m, h, line.value)
    requires HeaderDone(p).m.flags
        == Flagged(if Known(h).Upgrade? then General else Known(h), Folds(line.value), p.m.flags)
    ensures HeaderDone(p).m == Effect(m, line)
  {
    hide Folds, Names, Meaning, Tokens, Number;
  }

  lemma FedHeader(v: View, h: Header) returns (w: View)
    requires AtLine(v.p) && v.p.nread + |HeaderText(h)| <= MAX_HEADER_SIZE && IsHeader(h)
    ensures Fed(v, HeaderText(h)) == Going(w) && w.p.state.HeaderValueLws? && w.p.nread == v.p.nread + |HeaderText(h)|
    ensures w.p.m == Effect(v.p.m, h) && w.seen == Add(Add(v.seen, Data(Field, h.name)), Data(Value, h.value))
  {
    hide Feed, Fed, Tracks, Tokens, Meaning, Known, Effect, Add, IsValue;
    var u := FedName(v, h.name);
    TokensSize(h.name);
    TracksMeaning(Tokens(h.name), u.p.header, u.p.index);
    AddJoins(v.seen, Field, h.name, []);
    Colon(u);
    var u2 := View(Count(u.p).(state := HeaderValueStart), u.seen);
    FedOne(u, ':');
    FedPad(u2, h.pad);
    var u3 := View(u2.p.(nread := u2.p.nread + |h.pad|), u.seen);
    w := FedValueLine(u3, h);
    FedThen(u2, h.pad, u3, h.value + [CR, LF], w);
    FedThen(u, [':'], u2, h.pad + (h.value + [CR, LF]), w);
    FedThen(v, h.name, u, [':'] + (h.pad + (h.value + [CR, LF])), w);
  }

  // ---- all header lines ----

  function HeadersText(hs: seq<Header>): string {
    if hs == [] then [] else HeadersText(hs[..|hs| - 1]) + HeaderText(hs[|hs| - 1])
  }

  function Effects(m: Meta, hs: seq<Header>): Meta {
    if hs == [] then m else Effect(Effects(m, hs[..|hs| - 1]), hs[|hs| - 1])
  }

  function Lines(seen: seq<Event>, hs: seq<Header>): seq<Event> {
    if hs == [] then seen
    else
      var h := hs[|hs| - 1];
      Add(Add(Lines(seen, hs[..|hs| - 1]), Data(Field, h.name)), Data(Value, h.value))
  }

  lemma {:induction false} FedHeaders(v: View, hs: seq<Header>) returns (w: View)
    requires AtLine(v.p) && v.p.nread + |HeadersText(hs)| <= MAX_HEADER_SIZE
        && forall i :: 0 <= i < |hs| ==> IsHeader(hs[i])
    ensures Fed(v, HeadersText(hs)) == Going(w) && AtLine(w.p) && w.p.nread == v.p.nread + |HeadersText(hs)|
    ensures w.p.m == Effects(v.p.m, hs) && w.seen == Lines(v.seen, hs)
    decreases |hs|
  {
    hide Feed, Fed, Effect, Add, IsHeader, HeaderText;
    if hs == [] {
      w := v;
      FedNone(v);
    } else {
      var n := |hs| - 1;
      var u := FedHeaders(v, hs[..n]);
      assert IsHeader(hs[n]);
      w := FedHeader(u, hs[n]);
      FedThen(v, HeadersText(hs[..n]), u, HeaderText(hs[n]), w);
    }
  }

  lemma FedNone(v: View)
    ensures Fed(v, []) == Going(v)
  {
  }
}
