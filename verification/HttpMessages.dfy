/** Whole messages, written out and read back. */
module HttpMessages {
  import opened HttpBytes
  import opened HttpSwitch
  import opened HttpStream
  import opened HttpFeed
  import opened HttpNames
  import opened HttpHeaders
  import opened HttpChunks

  lemma Then(v: View, text: string, w: View, ch: char, u: View)
    requires Fed(v, text) == Going(w) && Feed(w, ch) == Going(u)
    ensures Fed(v, text + [ch]) == Going(u)
  {
    hide Feed, Fed;
    FedOne(w, ch);
    FedThen(v, text, w, [ch], u);
  }

  // ---- methods ----

  /** The method the parser takes v for when it has read i letters of it. */
  function Guess(v: Verb, i: nat): Verb {
    match v
    case Checkout => if i < 2 then Connect else v
    case Copy => if i < 3 then Connect else v
    case Mkactivity => if i < 3 then Mkcol else v
    case Move | Merge | Msearch => if i < 2 then Mkcol else v
    case Propfind | Put | Patch => if i < 2 then Post else v
    case Proppatch => if i < 2 then Post else if i < 5 then Propfind else v
    case Unsubscribe => if i < 3 then Unlock else v
    case _ => v
  }

  lemma FirstLetter(p: Parser, v: Verb)
    ensures MethodName(v) != []
    ensures MethodAssign(p, MethodName(v)[0])
        == On(p.(state := ReqMethod, index := 1, m := p.m.(verb := Guess(v, 1))), [Tell(MessageBegin)])
    ensures IsAlpha(MethodName(v)[0])
  {
  }

  /** No letter of a method's name leads away from it. */
  lemma NextLetter(p: Parser, v: Verb, i: nat)
    requires 1 <= i < |MethodName(v)| && p.index == i && p.m.verb == Guess(v, i)
    ensures Method(p, MethodName(v)[i]) == On(p.(index := i + 1, m := p.m.(verb := Guess(v, i + 1))), [])
  {
    hide OtherMethod;
    var g := MethodName(Guess(v, i));
    if i < |g| && g[i] == MethodName(v)[i] {
      SameLetter(v, i);
      LetterIs(v, i);
    } else {
      OtherLetter(p, v, i);
      LetterIs(v, i);
    }
  }

  lemma LetterIs(v: Verb, i: nat)
    requires i < |MethodName(v)|
    ensures MethodName(v)[i] != '\0' && MethodName(v)[i] != ' '
  {
  }

  lemma SameLetter(v: Verb, i: nat)
    requires 1 <= i < |MethodName(v)| && i < |MethodName(Guess(v, i))| && MethodName(Guess(v, i))[i] == MethodName(v)[i]
    ensures Guess(v, i + 1) == Guess(v, i)
  {
    match v {
      case Checkout | Move | Merge | Msearch =>
      case Copy | Mkactivity | Unsubscribe =>
      case Propfind | Put | Patch =>
      case Proppatch =>
      case _ =>
    }
  }

  lemma OtherLetter(p: Parser, v: Verb, i: nat)
    requires 1 <= i < |MethodName(v)| && p.index == i && p.m.verb == Guess(v, i)
    requires i >= |MethodName(Guess(v, i))| || MethodName(Guess(v, i))[i] != MethodName(v)[i]
    ensures OtherMethod(p, MethodName(v)[i]) == On(p.(index := i + 1, m := p.m.(verb := Guess(v, i + 1))), [])
  {
  }

  /** A request is being named. */
  function Naming(p: Parser, nread: nat, v: Verb, i: nat): Parser {
    p.(state := ReqMethod, index := i, nread := nread, m := Begun(p.m).(verb := Guess(v, i)))
  }

  lemma StartLetter(v: View, verb: Verb)
    requires v.p.state.StartReq? && v.p.nread < MAX_HEADER_SIZE
    ensures MethodName(verb) != []
    ensures Feed(v, MethodName(verb)[0]) == Going(View(Naming(v.p, v.p.nread + 1, verb, 1), Add(v.seen, MessageBegin)))
  {
    hide Feed, MethodAssign, MethodName, Guess, Add;
    FirstLetter(Count(v.p).(m := Begun(v.p.m)), verb);
    var ch := MethodName(verb)[0];
    NotCrLf(ch);
    Told(v, ch, Naming(v.p, v.p.nread + 1, verb, 1), MessageBegin);
  }

  lemma NotCrLf(ch: char)
    requires IsAlpha(ch)
    ensures ch != CR && ch != LF
  {
  }

  lemma MethodByte(p: Parser, ch: char)
    requires p.state.ReqMethod? && p.nread < MAX_HEADER_SIZE
    ensures Byte(p, ch, 1) == Method(Count(p), ch) && ToRead(p, 1) == 0
  {
    hide Headers, StartOfEither, ResponseLine, Method, UrlStart, InUrl, RequestVersion, HttpSwitch.Chunk, BodyChars;
  }

  lemma {:induction false} FedMethod(v: View, verb: Verb, i: nat)
    requires v.p.state.StartReq? && 1 <= i <= |MethodName(verb)| && v.p.nread + i <= MAX_HEADER_SIZE
    ensures Fed(v, MethodName(verb)[..i]) == Going(View(Naming(v.p, v.p.nread + i, verb, i), Add(v.seen, MessageBegin)))
    decreases i
  {
    hide Feed, Fed, Byte, MethodName, Guess, Add;
    var name := MethodName(verb);
    if i == 1 {
      StartLetter(v, verb);
      assert name[..1] == [name[0]];
      FedOne(v, name[0]);
    } else {
      FedMethod(v, verb, i - 1);
      var w := View(Naming(v.p, v.p.nread + i - 1, verb, i - 1), Add(v.seen, MessageBegin));
      MethodByte(w.p, name[i - 1]);
      NextLetter(Count(w.p), verb, i - 1);
      Quiet(w, name[i - 1], Naming(v.p, v.p.nread + i, verb, i));
      Then(v, name[..i - 1], w, name[i - 1], View(Naming(v.p, v.p.nread + i, verb, i), Add(v.seen, MessageBegin)));
      assert name[..i - 1] + [name[i - 1]] == name[..i];
    }
  }

  lemma MethodSpace(v: View, verb: Verb)
    requires v.p.state.ReqMethod? && v.p.nread < MAX_HEADER_SIZE && v.p.index == |MethodName(verb)|
        && v.p.m.verb == verb
    ensures Feed(v, ' ') == Going(View(Count(v.p).(state := ReqSpacesBeforeUrl, index := v.p.index + 1), v.seen))
  {
    hide Feed, Byte, OtherMethod;
    MethodByte(v.p, ' ');
    Quiet(v, ' ', Count(v.p).(state := ReqSpacesBeforeUrl, index := v.p.index + 1));
  }

  lemma GuessedRight(v: Verb)
    ensures Guess(v, |MethodName(v)|) == v
  {
  }

  // ---- urls ----

  predicate IsPath(url: string) {
    url != [] && (url[0] == '/' || url[0] == '*') && forall i :: 0 <= i < |url| ==> '!' <= url[i] <= '~'
  }

  predicate InPath(s: State) {
    s.ReqPath? || s.ReqQueryStart? || s.ReqQuery? || s.ReqFragmentStart? || s.ReqFragment?
  }

  lemma UrlByte(p: Parser, ch: char)
    requires (InPath(p.state) || p.state.ReqSpacesBeforeUrl?) && p.nread < MAX_HEADER_SIZE
    ensures Byte(p, ch, 1) == (if InPath(p.state) then InUrl(Count(p), ch) else UrlStart(Count(p), ch))
        && ToRead(p, 1) == 0
  {
    hide Headers, StartOfEither, ResponseLine, Method, UrlStart, InUrl, RequestVersion, HttpSwitch.Chunk, BodyChars;
  }

  lemma {:induction false} FedUrl(v: View, url: string) returns (w: View)
    requires v.p.state.ReqSpacesBeforeUrl? && IsPath(url) && v.p.nread + |url| <= MAX_HEADER_SIZE
    ensures Fed(v, url) == Going(w) && InPath(w.p.state) && w.p.nread == v.p.nread + |url| && w.p.m == v.p.m
    ensures w.seen == Add(v.seen, Data(Url, url))
    decreases |url|
  {
    hide Feed, Fed, Byte, Add;
    var n := |url| - 1;
    var a := url[..n];
    if n == 0 {
      UrlByte(v.p, url[0]);
      TextStarts(v, url[0], Count(v.p).(state := ReqPath), Url);
      w := View(Count(v.p).(state := ReqPath), Add(v.seen, Data(Url, url)));
      FedOne(v, url[0]);
      assert url == [url[0]];
    } else {
      var u := FedUrl(v, a);
      UrlByte(u.p, url[n]);
      UrlGoesOn(Count(u.p), url[n]);
      var next := InUrl(Count(u.p), url[n]);
      TextGoesOn(u, url[n], next.p, Url);
      w := View(next.p, Add(u.seen, Data(Url, [url[n]])));
      Then(v, a, u, url[n], w);
      AddJoins(v.seen, Url, a, [url[n]]);
      assert a + [url[n]] == url;
    }
  }

  lemma UrlGoesOn(p: Parser, ch: char)
    requires InPath(p.state) && '!' <= ch <= '~'
    ensures InUrl(p, ch).On? && InUrl(p, ch).acts == [] && InPath(InUrl(p, ch).p.state)
        && InUrl(p, ch).p == p.(state := InUrl(p, ch).p.state)
    ensures Open(InUrl(p, ch).p.state) == Text(Url)
  {
    hide UrlLine;
  }

  lemma UrlSpace(v: View)
    requires InPath(v.p.state) && v.p.nread < MAX_HEADER_SIZE && Ends(v.seen, Url)
    ensures Feed(v, ' ') == Going(View(Count(v.p).(state := ReqHttpStart), v.seen))
  {
    hide Feed, Byte;
    UrlByte(v.p, ' ');
    TextEnds(v, ' ', Count(v.p).(state := ReqHttpStart), Url);
  }

  // ---- versions ----

  predicate InVersion(s: State) {
    s.ReqHttpStart? || s.ReqHttpH? || s.ReqHttpHT? || s.ReqHttpHTT? || s.ReqHttpHTTP? || s.ReqFirstMajor? || s.ReqMajor?
    || s.ReqFirstMinor? || s.ReqMinor? || s.ReqLineAlmostDone?
  }

  lemma VersionByte(v: View, ch: char, p: Parser)
    requires InVersion(v.p.state) && v.p.nread < MAX_HEADER_SIZE && RequestVersion(Count(v.p), ch) == On(p, [])
        && Open(p.state) == Shut
    ensures Feed(v, ch) == Going(View(p, v.seen))
  {
    hide Feed, Headers, StartOfEither, ResponseLine, Method, UrlStart, InUrl, RequestVersion, HttpSwitch.Chunk,
        BodyChars, Open;
    Quiet(v, ch, p);
  }

  function VersionText(major: char, minor: char): string {
    "HTTP/" + [major, '.', minor]
  }

  function Behind(v: View, k: nat, s: State, m: Meta): View {
    View(v.p.(state := s, nread := v.p.nread + k, m := m), v.seen)
  }

  lemma BehindIs(v: View, k: nat, s: State, m: Meta)
    ensures Behind(v, k, s, m).p.state == s && Behind(v, k, s, m).p.nread == v.p.nread + k
        && Behind(v, k, s, m).p.m == m
    ensures forall s', m' :: Behind(Behind(v, k, s, m), 1, s', m') == Behind(v, k + 1, s', m')
  {
  }

  /** The letters before a version. */
  lemma WordStep(v: View)
    requires v.p.nread < MAX_HEADER_SIZE
    ensures v.p.state.ReqHttpStart? ==> Feed(v, 'H') == Going(Behind(v, 1, ReqHttpH, v.p.m))
    ensures v.p.state.ReqHttpH? ==> Feed(v, 'T') == Going(Behind(v, 1, ReqHttpHT, v.p.m))
    ensures v.p.state.ReqHttpHT? ==> Feed(v, 'T') == Going(Behind(v, 1, ReqHttpHTT, v.p.m))
    ensures v.p.state.ReqHttpHTT? ==> Feed(v, 'P') == Going(Behind(v, 1, ReqHttpHTTP, v.p.m))
    ensures v.p.state.ReqHttpHTTP? ==> Feed(v, '/') == Going(Behind(v, 1, ReqFirstMajor, v.p.m))
  {
    hide Feed;
    match v.p.state {
      case ReqHttpStart => VersionByte(v, 'H', Behind(v, 1, ReqHttpH, v.p.m).p);
      case ReqHttpH => VersionByte(v, 'T', Behind(v, 1, ReqHttpHT, v.p.m).p);
      case ReqHttpHT => VersionByte(v, 'T', Behind(v, 1, ReqHttpHTT, v.p.m).p);
      case ReqHttpHTT => VersionByte(v, 'P', Behind(v, 1, ReqHttpHTTP, v.p.m).p);
      case ReqHttpHTTP => VersionByte(v, '/', Behind(v, 1, ReqFirstMajor, v.p.m).p);
      case _ =>
    }
  }

  lemma MajorStep(v: View, major: char)
    requires v.p.nread < MAX_HEADER_SIZE && v.p.state.ReqFirstMajor? && '1' <= major <= '9'
    ensures Feed(v, major) == Going(Behind(v, 1, ReqMajor, v.p.m.(major := Digit(major))))
  {
    hide Feed;
    VersionByte(v, major, Behind(v, 1, ReqMajor, v.p.m.(major := Digit(major))).p);
  }

  lemma DotStep(v: View)
    requires v.p.nread < MAX_HEADER_SIZE && v.p.state.ReqMajor?
    ensures Feed(v, '.') == Going(Behind(v, 1, ReqFirstMinor, v.p.m))
  {
    hide Feed;
    VersionByte(v, '.', Behind(v, 1, ReqFirstMinor, v.p.m).p);
  }

  lemma MinorStep(v: View, minor: char)
    requires v.p.nread < MAX_HEADER_SIZE && v.p.state.ReqFirstMinor? && IsNum(minor)
    ensures Feed(v, minor) == Going(Behind(v, 1, ReqMinor, v.p.m.(minor := Digit(minor))))
  {
    hide Feed;
    VersionByte(v, minor, Behind(v, 1, ReqMinor, v.p.m.(minor := Digit(minor))).p);
  }

  lemma LineStep(v: View)
    requires v.p.nread < MAX_HEADER_SIZE
    ensures v.p.state.ReqMinor? ==> Feed(v, CR) == Going(Behind(v, 1, ReqLineAlmostDone, v.p.m))
    ensures v.p.state.ReqLineAlmostDone? ==> Feed(v, LF) == Going(Behind(v, 1, HeaderFieldStart, v.p.m))
  {
    hide Feed;
    match v.p.state {
      case ReqMinor => VersionByte(v, CR, Behind(v, 1, ReqLineAlmostDone, v.p.m).p);
      case ReqLineAlmostDone => VersionByte(v, LF, Behind(v, 1, HeaderFieldStart, v.p.m).p);
      case _ =>
    }
  }

  lemma FedWord(v: View)
    requires v.p.state.ReqHttpStart? && v.p.nread + 5 <= MAX_HEADER_SIZE
    ensures Fed(v, "HTTP/") == Going(Behind(v, 5, ReqFirstMajor, v.p.m))
  {
    hide Feed, Fed, Behind;
    var m := v.p.m;
    WordStep(v);
    FedOne(v, 'H');
    var w1 := Behind(v, 1, ReqHttpH, m);
    BehindIs(v, 1, ReqHttpH, m);
    WordStep(w1);
    var w2 := Behind(v, 2, ReqHttpHT, m);
    BehindIs(v, 2, ReqHttpHT, m);
    Then(v, "H", w1, 'T', w2);
    WordStep(w2);
    var w3 := Behind(v, 3, ReqHttpHTT, m);
    BehindIs(v, 3, ReqHttpHTT, m);
    Then(v, "H" + "T", w2, 'T', w3);
    WordStep(w3);
    var w4 := Behind(v, 4, ReqHttpHTTP, m);
    BehindIs(v, 4, ReqHttpHTTP, m);
    Then(v, "H" + "T" + "T", w3, 'P', w4);
    WordStep(w4);
    Then(v, "H" + "T" + "T" + "P", w4, '/', Behind(v, 5, ReqFirstMajor, m));
    assert "H" + "T" + "T" + "P" + "/" == "HTTP/";
  }

  lemma FedNumbers(v: View, major: char, minor: char)
    requires v.p.state.ReqFirstMajor? && v.p.nread + 5 <= MAX_HEADER_SIZE && '1' <= major <= '9' && IsNum(minor)
    ensures Fed(v, [major, '.', minor, CR, LF])
        == Going(Behind(v, 5, HeaderFieldStart, v.p.m.(major := Digit(major), minor := Digit(minor))))
  {
    hide Feed, Fed, Behind;
    var m1 := v.p.m.(major := Digit(major));
    var m2 := m1.(minor := Digit(minor));
    MajorStep(v, major);
    FedOne(v, major);
    var w1 := Behind(v, 1, ReqMajor, m1);
    BehindIs(v, 1, ReqMajor, m1);
    DotStep(w1);
    var w2 := Behind(v, 2, ReqFirstMinor, m1);
    BehindIs(v, 2, ReqFirstMinor, m1);
    Then(v, [major], w1, '.', w2);
    MinorStep(w2, minor);
    var w3 := Behind(v, 3, ReqMinor, m2);
    BehindIs(v, 3, ReqMinor, m2);
    Then(v, [major] + ['.'], w2, minor, w3);
    LineStep(w3);
    var w4 := Behind(v, 4, ReqLineAlmostDone, m2);
    BehindIs(v, 4, ReqLineAlmostDone, m2);
    Then(v, [major] + ['.'] + [minor], w3, CR, w4);
    LineStep(w4);
    Then(v, [major] + ['.'] + [minor] + [CR], w4, LF, Behind(v, 5, HeaderFieldStart, m2));
    assert [major] + ['.'] + [minor] + [CR] + [LF] == [major, '.', minor, CR, LF];
  }

  /** The version and the end of the line. */
  lemma FedVersion(v: View, major: char, minor: char) returns (w: View)
    requires v.p.state.ReqHttpStart? && v.p.nread + 10 <= MAX_HEADER_SIZE && '1' <= major <= '9' && IsNum(minor)
    ensures Fed(v, VersionText(major, minor) + [CR, LF]) == Going(w) && w.seen == v.seen
    ensures w.p == v.p.(state := HeaderFieldStart, nread := v.p.nread + 10,
        m := v.p.m.(major := Digit(major), minor := Digit(minor)))
  {
    hide Feed, Fed;
    var u := Behind(v, 5, ReqFirstMajor, v.p.m);
    FedWord(v);
    FedNumbers(u, major, minor);
    w := Behind(u, 5, HeaderFieldStart, v.p.m.(major := Digit(major), minor := Digit(minor)));
    FedThen(v, "HTTP/", u, [major, '.', minor, CR, LF], w);
    assert "HTTP/" + [major, '.', minor, CR, LF] == VersionText(major, minor) + [CR, LF];
  }

  // ---- request lines ----

  datatype RequestLine = RequestLine(verb: Verb, url: string, major: char, minor: char)

  predicate IsRequestLine(r: RequestLine) {
    IsPath(r.url) && '1' <= r.major <= '9' && IsNum(r.minor)
  }

  function RequestText(r: RequestLine): string {
    MethodName(r.verb) + ([' '] + (r.url + ([' '] + (VersionText(r.major, r.minor) + [CR, LF]))))
  }

  function Requested(m: Meta, r: RequestLine): Meta
    requires IsRequestLine(r)
  {
    Begun(m).(verb := r.verb, major := Digit(r.major), minor := Digit(r.minor))
  }

  lemma FedRequestLine(v: View, r: RequestLine) returns (w: View)
    requires v.p.state.StartReq? && IsRequestLine(r) && v.p.nread + |RequestText(r)| <= MAX_HEADER_SIZE
    ensures Fed(v, RequestText(r)) == Going(w) && w.p.state.HeaderFieldStart?
        && w.p.nread == v.p.nread + |RequestText(r)|
    ensures w.p.m == Requested(v.p.m, r) && w.seen == Add(Add(v.seen, MessageBegin), Data(Url, r.url))
  {
    hide Feed, Fed, Byte, Add, MethodName, Guess, IsPath;
    var name := MethodName(r.verb);
    NamesAreLong(r.verb);
    FedMethod(v, r.verb, |name|);
    assert name[..|name|] == name;
    GuessedRight(r.verb);
    var w1 := View(Naming(v.p, v.p.nread + |name|, r.verb, |name|), Add(v.seen, MessageBegin));
    MethodSpace(w1, r.verb);
    var w2 := View(Count(w1.p).(state := ReqSpacesBeforeUrl, index := w1.p.index + 1), w1.seen);
    FedOne(w1, ' ');
    var w3 := FedUrl(w2, r.url);
    AddJoins(w2.seen, Url, r.url, []);
    UrlSpace(w3);
    var w4 := View(Count(w3.p).(state := ReqHttpStart), w3.seen);
    FedOne(w3, ' ');
    w := FedVersion(w4, r.major, r.minor);
    var end := VersionText(r.major, r.minor) + [CR, LF];
    FedThen(w3, [' '], w4, end, w);
    FedThen(w2, r.url, w3, [' '] + end, w);
    FedThen(w1, [' '], w2, r.url + ([' '] + end), w);
    FedThen(v, name, w1, [' '] + (r.url + ([' '] + end)), w);
  }

  // ---- the end of the headers ----

  datatype Content = Nothing | Counted(data: string) | Chunks(chunks: seq<Chunk>, last: Size)

  /** Section 4.4 of RFC 2616: how long the body of a message with these fields is. */
  predicate Suits(m: Meta, body: Content) {
    if m.skips then body.Nothing? else
    match body
    case Chunks(chunks, last) =>
      m.flags.chunked && IsSize(last, 0) && |Line(last)| <= MAX_HEADER_SIZE && forall i ::
        0 <= i < |chunks| ==> IsChunk(chunks[i])
    case Counted(data) => !m.flags.chunked && data != [] && m.contentLength == |data|
    case Nothing => !m.flags.chunked
                    && (m.contentLength == 0 || (m.contentLength < 0 && (m.kind == Request || KeepsAlive(m))))
  }

  function BodyText(body: Content): string {
    match body
    case Nothing => []
    case Counted(data) => data
    case Chunks(chunks, last) => AllEncoded(chunks) + (Line(last) + [CR, LF])
  }

  function BodyOf(body: Content): string {
    match body
    case Nothing => []
    case Counted(data) => data
    case Chunks(chunks, _) => HttpChunks.Content(chunks)
  }

  /** The message's fields at its end. */
  function AtEnd(m: Meta, body: Content): Meta {
    match body
    case Nothing => if m.skips then m.(flags := m.flags.(skipBody := true)) else m
    case Counted(_) => m.(contentLength := 0)
    case Chunks(_, _) => Finished(m)
  }

  /** The message does not hand the connection over to another protocol. */
  predicate Ordinary(m: Meta) {
    !m.flags.upgrade && m.verb != Connect
  }

  /** No body has been announced or skipped yet. */
  predicate Fresh(m: Meta) {
    !m.upgrade && !m.flags.skipBody && !m.flags.trailing
  }

  lemma {:induction false} EffectsFresh(m: Meta, hs: seq<Header>)
    requires Fresh(m)
    ensures Fresh(Effects(m, hs)) && Effects(m, hs).skips == m.skips
    decreases |hs|
  {
    hide Effect;
    if hs != [] {
      EffectsFresh(m, hs[..|hs| - 1]);
      EffectFresh(Effects(m, hs[..|hs| - 1]), hs[|hs| - 1]);
    }
  }

  lemma EffectFresh(m: Meta, h: Header)
    requires Fresh(m)
    ensures Fresh(Effect(m, h)) && Effect(m, h).skips == m.skips
  {
    hide Names, Meaning, Tokens, Folds, Number;
  }

  lemma EndCr(v: View)
    requires AtLine(v.p) && v.p.nread < MAX_HEADER_SIZE
    ensures Feed(v, CR) == Going(View(Count(v.p).(state := HeadersAlmostDone), v.seen))
  {
    hide Feed, Byte, HeadersDone, Token;
    HeaderByte(v.p, CR);
    Quiet(v, CR, Count(v.p).(state := HeadersAlmostDone));
  }

  lemma EndLf(v: View, body: Content) returns (w: View)
    requires v.p.state.HeadersAlmostDone? && v.p.nread < MAX_HEADER_SIZE && Ordinary(v.p.m) && Fresh(v.p.m)
        && Suits(v.p.m, body)
    ensures Feed(v, LF) == Going(w) && w.p.nread == 0 && w.p.index == v.p.index
    ensures w.p.m == if body.Nothing? then AtEnd(v.p.m, body) else v.p.m
    ensures body.Nothing? ==> w.p.state == NewMessage(AtEnd(v.p.m, body))
                              && w.seen == Add(Add(v.seen, HeadersComplete(v.p.m)), MessageComplete(AtEnd(v.p.m, body)))
    ensures body.Counted? ==> w.p.state.BodyIdentity? && w.seen == Add(v.seen, HeadersComplete(v.p.m))
    ensures body.Chunks? ==> w.p.state.ChunkSizeStart? && w.seen == Add(v.seen, HeadersComplete(v.p.m))
  {
    hide Feed, Byte, Add, IsSize, IsChunk, KeepsAlive;
    HeaderByte(v.p, LF);
    var m, m' := v.p.m, AtEnd(v.p.m, body);
    var q := v.p.(nread := 0);
    var told := Tell(HeadersComplete(m));
    if body.Nothing? {
      assert [told] + [Tell(MessageComplete(m'))] == [told, Tell(MessageComplete(m'))];
      w := View(q.(state := NewMessage(m'), m := m'), Add(Add(v.seen, HeadersComplete(m)), MessageComplete(m')));
      ToldTwice(v, LF, w.p, HeadersComplete(m), MessageComplete(m'));
    } else {
      w := View(q.(state := if body.Chunks? then ChunkSizeStart else BodyIdentity), Add(v.seen, HeadersComplete(m)));
      Told(v, LF, w.p, HeadersComplete(m));
    }
  }

  /** The end of the headers when another protocol follows. */
  lemma EndSwitches(v: View)
    requires v.p.state.HeadersAlmostDone? && v.p.nread < MAX_HEADER_SIZE && !Ordinary(v.p.m) && Fresh(v.p.m)
    ensures Feed(v, LF) == Switched(0)
  {
    hide Byte, Add, KeepsAlive;
    HeaderByte(v.p, LF);
  }

  lemma ToldTwice(v: View, ch: char, p: Parser, e: Event, f: Event)
    requires Byte(v.p, ch, 1) == On(p, [Tell(e), Tell(f)]) && ToRead(v.p, 1) == 0 && Open(p.state) == Shut
    ensures Feed(v, ch) == Going(View(p, Add(Add(v.seen, e), f)))
  {
    hide Byte, Add;
    assert [Tell(e), Tell(f)][1..] == [Tell(f)];
    PerformedOne(Add(v.seen, e), Tell(f));
  }

  // ---- messages ----

  /** The callbacks from the end of the headers on. */
  function Ended(seen: seq<Event>, m: Meta, body: Content): seq<Event> {
    Add(Handed(Add(seen, HeadersComplete(m)), BodyOf(body)), MessageComplete(AtEnd(m, body)))
  }

  lemma FedBodyOf(v: View, body: Content) returns (w: View)
    requires Ready(v) && !body.Nothing? && Suits(v.p.m, body) && !v.p.m.skips
    requires v.p.state == if body.Chunks? then ChunkSizeStart else BodyIdentity
    ensures Fed(v, BodyText(body)) == Going(w) && w.p.m == AtEnd(v.p.m, body)
        && w.p.state == NewMessage(AtEnd(v.p.m, body))
    ensures w.seen == Add(Handed(v.seen, BodyOf(body)), MessageComplete(AtEnd(v.p.m, body)))
  {
    hide Fed, Ready, Add, IsSize, IsChunk, Line, AllEncoded, HttpChunks.Content, NewMessage;
    match body {
      case Counted(data) => CountedBody(v, data);
      case Chunks(chunks, last) => ChunkedBody(v, chunks, last);
    }
    w := Fed(v, BodyText(body)).v;
  }

  /** Behind the first line: header lines, an empty line and a body of the length they announce. */
  lemma FedRest(v: View, hs: seq<Header>, body: Content) returns (w: View)
    requires Ready(v) && AtLine(v.p) && v.p.nread + |HeadersText(hs)| + 2 <= MAX_HEADER_SIZE
        && forall i :: 0 <= i < |hs| ==> IsHeader(hs[i])
    requires Fresh(v.p.m) && Ordinary(Effects(v.p.m, hs)) && Suits(Effects(v.p.m, hs), body)
    ensures Fed(v, HeadersText(hs) + ([CR, LF] + BodyText(body))) == Going(w)
    ensures var m := Effects(v.p.m, hs);
            w.p.m == AtEnd(m, body) && w.p.state == NewMessage(AtEnd(m, body))
              && w.seen == Ended(Lines(v.seen, hs), m, body)
  {
    hide Feed, Fed, Ready, Add, IsHeader, HeadersText, Effects, Lines, Ordinary, Fresh, NewMessage, BodyText, IsSize,
        IsChunk, KeepsAlive;
    EffectsFresh(v.p.m, hs);
    var u := FedHeaders(v, hs);
    EndCr(u);
    var u1 := View(Count(u.p).(state := HeadersAlmostDone), u.seen);
    var u2 := EndLf(u1, body);
    FedPair(u, CR, u1, LF, u2);
    FedThen(v, HeadersText(hs), u, [CR, LF], u2);
    if body.Nothing? {
      w := u2;
      NoText(u2);
    } else {
      NeverAborts(v, HeadersText(hs) + [CR, LF]);
      w := FedBodyOf(u2, body);
    }
    FedThen(u, [CR, LF], u2, BodyText(body), w);
    FedThen(v, HeadersText(hs), u, [CR, LF] + BodyText(body), w);
  }

  lemma NoText(v: View)
    ensures Fed(v, BodyText(Nothing)) == Going(v) && Handed(v.seen, BodyOf(Nothing)) == v.seen
    ensures forall seen :: Handed(seen, BodyOf(Nothing)) == seen
  {
  }

  /** Behind the first line, when another protocol follows: the parser leaves with the last line feed, whatever
      follows. */
  lemma RestSwitches(v: View, hs: seq<Header>, more: string)
    requires Ready(v) && AtLine(v.p) && v.p.nread + |HeadersText(hs)| + 2 <= MAX_HEADER_SIZE
        && forall i :: 0 <= i < |hs| ==> IsHeader(hs[i])
    requires Fresh(v.p.m) && !Ordinary(Effects(v.p.m, hs))
    ensures Fed(v, HeadersText(hs) + ([CR, LF] + more)) == Switched(|HeadersText(hs)| + 1)
  {
    hide Feed, Fed, Ready, Add, IsHeader, HeadersText, Effects, Lines, Ordinary, Fresh;
    EffectsFresh(v.p.m, hs);
    var u := FedHeaders(v, hs);
    EndCr(u);
    var u1 := View(Count(u.p).(state := HeadersAlmostDone), u.seen);
    EndSwitches(u1);
    FedTwo(u, CR, LF);
    FedOn(u, [CR, LF], more);
    FedOn(v, HeadersText(hs), [CR, LF] + more);
  }

  lemma RequestedFresh(m: Meta, r: RequestLine)
    requires IsRequestLine(r) && !m.upgrade
    ensures Fresh(Requested(m, r)) && Requested(m, r).skips == m.skips
  {
  }

  /** A request written out is read back: its method, url, version, header fields and body, in this order, each once. */
  lemma RequestRoundTrip(v: View, r: RequestLine, hs: seq<Header>, body: Content) returns (w: View)
    requires Ready(v) && v.p.state.StartReq? && v.p.m.kind == Request && IsRequestLine(r)
        && forall i :: 0 <= i < |hs| ==> IsHeader(hs[i])
    requires v.p.nread + |RequestText(r)| + |HeadersText(hs)| + 2 <= MAX_HEADER_SIZE
    requires var m := Effects(Requested(v.p.m, r), hs); Ordinary(m) && Suits(m, body)
    ensures Fed(v, RequestText(r) + (HeadersText(hs) + ([CR, LF] + BodyText(body)))) == Going(w)
    ensures var m := Effects(Requested(v.p.m, r), hs);
            w.p.m == AtEnd(m, body) && w.p.state == NewMessage(AtEnd(m, body))
            && w.seen == Ended(Lines(Add(Add(v.seen, MessageBegin), Data(Url, r.url)), hs), m, body)
  {
    hide Feed, Fed, Ready, Add, IsHeader, HeadersText, Effects, Lines, Ordinary, Suits, NewMessage, BodyText,
        RequestText, IsRequestLine, Requested, Ended, AtEnd, Fresh;
    NotSwitched(v);
    RequestedFresh(v.p.m, r);
    var u := FedRequestLine(v, r);
    NeverAborts(v, RequestText(r));
    w := FedRest(u, hs, body);
    FedThen(v, RequestText(r), u, HeadersText(hs) + ([CR, LF] + BodyText(body)), w);
  }

  lemma NotSwitched(v: View)
    requires Ready(v)
    ensures !v.p.m.upgrade
  {
  }

  /** A request with the method CONNECT or an Upgrade header ends the parser's work at the end of its headers, whatever
      follows. */
  lemma RequestSwitches(v: View, r: RequestLine, hs: seq<Header>, more: string)
    requires Ready(v) && v.p.state.StartReq? && v.p.m.kind == Request && IsRequestLine(r)
        && forall i :: 0 <= i < |hs| ==> IsHeader(hs[i])
    requires v.p.nread + |RequestText(r)| + |HeadersText(hs)| + 2 <= MAX_HEADER_SIZE
        && !Ordinary(Effects(Requested(v.p.m, r), hs))
    ensures Fed(v, RequestText(r) + (HeadersText(hs) + ([CR, LF] + more)))
        == Switched(|RequestText(r)| + |HeadersText(hs)| + 1)
  {
    hide Feed, Fed, Ready, Add, IsHeader, HeadersText, Effects, Ordinary, RequestText, IsRequestLine, Requested, Fresh;
    NotSwitched(v);
    RequestedFresh(v.p.m, r);
    var u := FedRequestLine(v, r);
    NeverAborts(v, RequestText(r));
    RestSwitches(u, hs, more);
    FedOn(v, RequestText(r), HeadersText(hs) + ([CR, LF] + more));
  }
}
