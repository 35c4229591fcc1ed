/** What the parser does with one character, state by state.  Body states take as many characters as they can. */
module HttpSwitch {
  import opened HttpBytes

  datatype Act =
    | Mark(part: Part)
    | Deliver(part: Part)
    | Tell(event: Event)

  /** On: go on.  Bad: the error exit.  Leave: the exit for another protocol.
      Abort: a C assertion fails. */
  datatype Next =
    | On(p: Parser, acts: seq<Act>)
    | Bad(m: Meta, acts: seq<Act>, error: Errno)
    | Leave(m: Meta, acts: seq<Act>)
    | Abort

  function Go(p: Parser, s: State): Next {
    On(p.(state := s), [])
  }

  function Fail(p: Parser, e: Errno): Next {
    Bad(p.m, [], e)
  }

  function Expect(p: Parser, ok: bool, s: State): Next {
    if ok then Go(p, s) else Fail(p, Strict)
  }

  predicate KeepsAlive(m: Meta) {
    if m.major > 0 && m.minor > 0 then !m.flags.close else m.flags.keepAlive
  }

  function NewMessage(m: Meta): State {
    if !KeepsAlive(m) then Dead else if m.kind == Request then StartReq else StartRes
  }

  function MessageDone(p: Parser, acts: seq<Act>): Next {
    On(p.(state := NewMessage(p.m)), acts + [Tell(MessageComplete(p.m))])
  }

  function Begun(m: Meta): Meta {
    m.(flags := NO_FLAGS, contentLength := -1)
  }

  // ---- first line of a response ----

  function ResponseLine(p: Parser, ch: char): Next {
    var m := p.m;
    match p.state
    case StartRes =>
      if ch == 'H' then On(p.(state := ResH, m := Begun(m)), [Tell(MessageBegin)])
      else if ch == CR || ch == LF then On(p.(m := Begun(m)), [Tell(MessageBegin)])
      else Bad(Begun(m), [Tell(MessageBegin)], InvalidConstant)
    case ResH => Expect(p, ch == 'T', ResHT)
    case ResHT => Expect(p, ch == 'T', ResHTT)
    case ResHTT => Expect(p, ch == 'P', ResHTTP)
    case ResHTTP => Expect(p, ch == '/', ResFirstMajor)
    case ResFirstMajor => FirstMajor(p, ch, ResMajor)
    case ResMajor => MajorDigit(p, ch, ResFirstMinor)
    case ResFirstMinor => FirstMinor(p, ch, ResMinor)
    case ResMinor => if ch == ' ' then Go(p, ResFirstStatus) else MinorDigit(p, ch)
    case ResFirstStatus =>
      if IsNum(ch) then On(p.(state := ResStatusCode, m := m.(status := Digit(ch))), [])
      else if ch == ' ' then Go(p, p.state)
      else Fail(p, InvalidStatus)
    case ResStatusCode =>
      if IsNum(ch) then
        var m' := m.(status := m.status * 10 + Digit(ch));
        if m'.status > 999 then Bad(m', [], InvalidStatus) else On(p.(m := m'), [])
      else if ch == ' ' then Go(p, ResStatus)
      else if ch == CR then Go(p, ResLineAlmostDone)
      else if ch == LF then Go(p, HeaderFieldStart)
      else Fail(p, InvalidStatus)
    case ResStatus =>
      if ch == CR then Go(p, ResLineAlmostDone) else if ch == LF then Go(p, HeaderFieldStart) else Go(p, p.state)
    case _ => Expect(p, ch == LF, HeaderFieldStart)
  }

  function FirstMajor(p: Parser, ch: char, then_: State): Next {
    if '1' <= ch <= '9' then On(p.(state := then_, m := p.m.(major := Digit(ch))), []) else Fail(p, InvalidVersion)
  }

  function MajorDigit(p: Parser, ch: char, dot: State): Next {
    if ch == '.' then Go(p, dot)
    else if !IsNum(ch) then Fail(p, InvalidVersion)
    else
      var m := p.m.(major := p.m.major * 10 + Digit(ch));
      if m.major > 999 then Bad(m, [], InvalidVersion) else On(p.(m := m), [])
  }

  function FirstMinor(p: Parser, ch: char, then_: State): Next {
    if IsNum(ch) then On(p.(state := then_, m := p.m.(minor := Digit(ch))), []) else Fail(p, InvalidVersion)
  }

  function MinorDigit(p: Parser, ch: char): Next {
    if !IsNum(ch) then Fail(p, InvalidVersion)
    else
      var m := p.m.(minor := p.m.minor * 10 + Digit(ch));
      if m.minor > 999 then Bad(m, [], InvalidVersion) else On(p.(m := m), [])
  }

  // ---- first line of a request ----

  function MethodAssign(p: Parser, ch: char): Next {
    var guess := (v: Verb) => On(p.(state := ReqMethod, index := 1, m := p.m.(verb := v)), [Tell(MessageBegin)]);
    match ch
    case 'C' => guess(Connect) case 'D' =>
                guess(Delete) case 'G' => guess(Get) case 'H' => guess(Head) case 'L' => guess(Lock)
    case 'M' => guess(Mkcol) case 'N' =>
                guess(Notify) case 'O' => guess(Options) case 'P' => guess(Post) case 'R' => guess(Report)
    case 'S' => guess(Subscribe) case 'T' => guess(Trace) case 'U' => guess(Unlock)
    case _ => Bad(p.m.(verb := Delete), [Tell(MessageBegin)], InvalidMethod)
  }

  function StartOfEither(p: Parser, ch: char): Next {
    match p.state
    case StartReqOrRes =>
      if ch == CR || ch == LF then Go(p, p.state)
      else if ch == 'H' then On(p.(state := ResOrRespH, m := Begun(p.m)), [Tell(MessageBegin)])
      else MethodAssign(p.(m := Begun(p.m).(kind := Request)), ch)
    case ResOrRespH =>
      if ch == 'T' then On(p.(state := ResHT, m := p.m.(kind := Response)), [])
      else if ch == 'E' then On(p.(state := ReqMethod, index := 2, m := p.m.(kind := Request, verb := Head)), [])
      else Fail(p, InvalidConstant)
    case _ =>
      if ch == CR || ch == LF then Go(p, p.state)
      else if IsAlpha(ch) then MethodAssign(p.(m := Begun(p.m)), ch)
      else Bad(Begun(p.m), [Tell(MessageBegin)], InvalidMethod)
  }

  function OtherMethod(p: Parser, ch: char): Next {
    var other := (v: Verb) => On(p.(index := p.index + 1, m := p.m.(verb := v)), []);
    var i := p.index;
    if p.m.verb == Connect then
      if i == 1 && ch == 'H' then other(Checkout) else if i == 2 && ch == 'P' then other(Copy) else Fail(p, Unknown)
    else if p.m.verb == Mkcol then
      if i == 1 && ch == 'O' then other(Move)
      else if i == 1 && ch == 'E' then other(Merge)
      else if i == 1 && ch == '-' then other(Msearch)
      else if i == 2 && ch == 'A' then other(Mkactivity)
      else Fail(p, Unknown)
    else if i == 1 && p.m.verb == Post then
      if ch == 'R' then other(Propfind) else if ch == 'U' then other(Put) else if ch == 'A' then other(Patch)
        else Fail(p, Unknown)
    else if i == 2 && p.m.verb == Unlock && ch == 'S' then other(Unsubscribe)
    else if i == 4 && p.m.verb == Propfind && ch == 'P' then other(Proppatch)
    else Fail(p, InvalidMethod)
  }

  function Method(p: Parser, ch: char): Next {
    var want := CharAt(MethodName(p.m.verb), p.index);
    if ch == '\0' then Fail(p, InvalidMethod)
    else if ch == ' ' && want == '\0' then On(p.(state := ReqSpacesBeforeUrl, index := p.index + 1), [])
    else if ch == want then On(p.(index := p.index + 1), [])
    else OtherMethod(p, ch)
  }

  function UrlEnd(p: Parser, s: State): Next {
    On(p.(state := s), [Deliver(Url)])
  }

  /** The end of a request line that names no version. */
  function OldEnd(p: Parser, s: State): Next {
    On(p.(state := s, m := p.m.(major := 0, minor := 9)), [Deliver(Url)])
  }

  function UrlLine(p: Parser, ch: char, e: Errno): Next {
    if ch == ' ' then UrlEnd(p, ReqHttpStart)
    else if ch == CR then OldEnd(p, ReqLineAlmostDone)
    else if ch == LF then OldEnd(p, HeaderFieldStart)
    else Fail(p, e)
  }

  function UrlStart(p: Parser, ch: char): Next {
    if ch == ' ' then Go(p, p.state)
    else if ch == '/' || ch == '*' then On(p.(state := ReqPath), [Mark(Url)])
    else if IsAlpha(ch) || (p.m.verb == Connect && IsNum(ch)) then
      On(p.(state := if p.m.verb == Connect then ReqHost else ReqSchema), [Mark(Url)])
    else Fail(p, InvalidUrl)
  }

  function InUrl(p: Parser, ch: char): Next {
    match p.state
    case ReqSchema => if IsAlpha(ch) then Go(p, p.state) else if ch == ':' then Go(p, ReqSchemaSlash)
                      else Fail(p, InvalidUrl)
    case ReqSchemaSlash => Expect(p, ch == '/', ReqSchemaSlashSlash)
    case ReqSchemaSlashSlash => Expect(p, ch == '/', ReqHost)
    case ReqHost =>
      if IsHostChar(ch) then Go(p, p.state)
      else if ch == ':' then Go(p, ReqPort)
      else if ch == '/' then Go(p, ReqPath)
      else if ch == ' ' then UrlEnd(p, ReqHttpStart)
      else if ch == '?' then Go(p, ReqQueryStart)
      else Fail(p, InvalidHost)
    case ReqPort =>
      if IsNum(ch) then Go(p, p.state)
      else if ch == '/' then Go(p, ReqPath)
      else if ch == ' ' then UrlEnd(p, ReqHttpStart)
      else if ch == '?' then Go(p, ReqQueryStart)
      else Fail(p, InvalidPort)
    case ReqPath =>
      if IsUrlChar(ch) then Go(p, p.state)
      else if ch == '?' then Go(p, ReqQueryStart)
      else if ch == '#' then Go(p, ReqFragmentStart)
      else UrlLine(p, ch, InvalidPath)
    case ReqQueryStart =>
      if IsUrlChar(ch) then Go(p, ReqQuery)
      else if ch == '?' then Go(p, p.state)
      else if ch == '#' then Go(p, ReqFragmentStart)
      else UrlLine(p, ch, InvalidQueryString)
    case ReqQuery =>
      if IsUrlChar(ch) || ch == '?' then Go(p, p.state)
      else if ch == '#' then Go(p, ReqFragmentStart)
      else UrlLine(p, ch, InvalidQueryString)
    case ReqFragmentStart =>
      if IsUrlChar(ch) || ch == '?' then Go(p, ReqFragment)
      else if ch == '#' then Go(p, p.state)
      else UrlLine(p, ch, InvalidFragment)
    case _ =>
      if IsUrlChar(ch) || ch == '?' || ch == '#' then Go(p, p.state) else UrlLine(p, ch, InvalidFragment)
  }

  function RequestVersion(p: Parser, ch: char): Next {
    match p.state
    case ReqHttpStart => if ch == 'H' then Go(p, ReqHttpH) else if ch == ' ' then Go(p, p.state)
                         else Fail(p, InvalidConstant)
    case ReqHttpH => Expect(p, ch == 'T', ReqHttpHT)
    case ReqHttpHT => Expect(p, ch == 'T', ReqHttpHTT)
    case ReqHttpHTT => Expect(p, ch == 'P', ReqHttpHTTP)
    case ReqHttpHTTP => Expect(p, ch == '/', ReqFirstMajor)
    case ReqFirstMajor => FirstMajor(p, ch, ReqMajor)
    case ReqMajor => MajorDigit(p, ch, ReqFirstMinor)
    case ReqFirstMinor => FirstMinor(p, ch, ReqMinor)
    case ReqMinor =>
      if ch == CR then Go(p, ReqLineAlmostDone) else if ch == LF then Go(p, HeaderFieldStart) else MinorDigit(p, ch)
    case _ => if ch == LF then Go(p, HeaderFieldStart) else Fail(p, LfExpected)
  }

  // ---- headers ----

  function FieldStart(p: Parser, ch: char): Next {
    var c := Token(ch);
    if ch == CR then Go(p, HeadersAlmostDone)
    else if ch == LF then HeadersDone(p.(state := HeadersAlmostDone), ch)
    else if c == '\0' then Fail(p, InvalidHeaderToken)
    else
      var h := match c case 'c' => C case 'p' => MatchingProxyConnection case 't' => MatchingTransferEncoding
                       case 'u' => MatchingUpgrade case _ => General;
      On(p.(state := HeaderField, index := 0, header := h), [Mark(Field)])
  }

  /** One more character of a name or value that is compared with a known one. */
  function Matching(p: Parser, c: char, name: string, whole: HeaderState): Parser {
    var i := p.index + 1;
    p.(index := i, header := if i > |name| || c != CharAt(name, i) then General else if i == |name| - 1 then whole
      else p.header)
  }

  /** The field name goes on with token character c; nothing when the assertion on the header state fails. */
  function FieldChar(p: Parser, ch: char, c: char): Next {
    var more := (h: HeaderState) => On(p.(index := p.index + 1, header := h), []);
    match p.header
    case General => On(p, [])
    case C => more(if c == 'o' then CO else General)
    case CO => more(if c == 'n' then CON else General)
    case CON => more(if c == 'n' then MatchingConnection else if c == 't' then MatchingContentLength else General)
    case MatchingConnection => On(Matching(p, c, "connection", Connection), [])
    case MatchingProxyConnection => On(Matching(p, c, "proxy-connection", Connection), [])
    case MatchingContentLength => On(Matching(p, c, "content-length", ContentLength), [])
    case MatchingTransferEncoding => On(Matching(p, c, "transfer-encoding", TransferEncoding), [])
    case MatchingUpgrade => On(Matching(p, c, "upgrade", Upgrade), [])
    case Connection | ContentLength | TransferEncoding | Upgrade =>
        On(if ch != ' ' then p.(header := General) else p, [])
    case _ => Abort
  }

  function InField(p: Parser, ch: char): Next {
    var c := Token(ch);
    if c != '\0' then FieldChar(p, ch, c)
    else if ch == ':' then On(p.(state := HeaderValueStart), [Deliver(Field)])
    else if ch == CR then On(p.(state := HeaderAlmostDone), [Deliver(Field)])
    else if ch == LF then On(p.(state := HeaderFieldStart), [Deliver(Field)])
    else Fail(p, InvalidHeaderToken)
  }

  function FirstValueChar(p: Parser, ch: char): Next {
    var c := Lower(ch);
    var go := (h: HeaderState) => On(p.(header := h), [Mark(Value)]);
    match p.header
    case Upgrade => On(p.(header := General, m := p.m.(flags := p.m.flags.(upgrade := true))), [Mark(Value)])
    case TransferEncoding => go(if c == 'c' then MatchingChunked else General)
    case ContentLength =>
      if IsNum(ch) then On(p.(m := p.m.(contentLength := Digit(ch))), [Mark(Value)]) else Fail(p, InvalidContentLength)
    case Connection => go(if c == 'k' then MatchingKeepAlive else if c == 'c' then MatchingClose else General)
    case _ => go(General)
  }

  function ValueStart(p: Parser, ch: char): Next {
    var p' := p.(state := HeaderValue, index := 0);
    if ch == ' ' || ch == '\t' then Go(p, p.state)
    else if ch == CR then On(p'.(state := HeaderAlmostDone, header := General), [Mark(Value), Deliver(Value)])
    else if ch == LF then On(p'.(state := HeaderFieldStart), [Mark(Value), Deliver(Value)])
    else FirstValueChar(p', ch)
  }

  function ValueChar(p: Parser, ch: char): Next {
    var c := Lower(ch);
    match p.header
    case General => On(p, [])
    case Connection | TransferEncoding => Abort
    case ContentLength =>
      if ch == ' ' then On(p, [])
      else if IsNum(ch) then On(p.(m := p.m.(contentLength := p.m.contentLength * 10 + Digit(ch))), [])
      else Fail(p, InvalidContentLength)
    case MatchingChunked => On(Matching(p, c, "chunked", Chunked), [])
    case MatchingKeepAlive => On(Matching(p, c, "keep-alive", KeepAlive), [])
    case MatchingClose => On(Matching(p, c, "close", Close), [])
    case Chunked | KeepAlive | Close => On(if ch != ' ' then p.(header := General) else p, [])
    case _ => On(p.(header := General), [])
  }

  function HeaderDone(p: Parser): Parser {
    var f := p.m.flags;
    var f' := match p.header case KeepAlive => f.(keepAlive := true) case Close => f.(close := true)
                             case Chunked => f.(chunked := true) case _ => f;
    p.(state := HeaderValueLws, m := p.m.(flags := f'))
  }

  function InValue(p: Parser, ch: char): Next {
    if ch == CR then On(p.(state := HeaderAlmostDone), [Deliver(Value)])
    else if ch == LF then On(HeaderDone(p), [Deliver(Value)])
    else ValueChar(p, ch)
  }

  function HeadersDone(p: Parser, ch: char): Next {
    if ch != LF then Fail(p, Strict)
    else if p.m.flags.trailing then MessageDone(p, [])
    else
      var m0 := p.m.(upgrade := p.m.upgrade || p.m.flags.upgrade || p.m.verb == Connect);
      var m := if m0.skips then m0.(flags := m0.flags.(skipBody := true)) else m0;
      var q := p.(nread := 0, m := m);
      var told := [Tell(HeadersComplete(m0))];
      if m.upgrade then Leave(m, told + [Tell(MessageComplete(m))])
      else if m.flags.skipBody then MessageDone(q, told)
      else if m.flags.chunked then On(q.(state := ChunkSizeStart), told)
      else if m.contentLength == 0 then MessageDone(q, told)
      else if m.contentLength > 0 then On(q.(state := BodyIdentity), told)
      else if m.kind == Request || KeepsAlive(m) then MessageDone(q, told)
      else On(q.(state := BodyIdentityEof), told)
  }

  function Headers(p: Parser, ch: char): Next {
    match p.state
    case HeaderFieldStart => FieldStart(p, ch)
    case HeaderField => InField(p, ch)
    case HeaderValueStart => ValueStart(p, ch)
    case HeaderValue => InValue(p, ch)
    case HeaderAlmostDone => if ch != LF then Fail(p, Strict) else On(HeaderDone(p), [])
    case HeaderValueLws =>
      if ch == ' ' || ch == '\t' then Go(p, HeaderValueStart) else FieldStart(p.(state := HeaderFieldStart), ch)
    case _ => HeadersDone(p, ch)
  }

  // ---- bodies ----

  function Min(a: int, b: int): int {
    if a < b then a else b
  }

  /** How many of the rest characters in the buffer are handed to on_body at once. */
  function ToRead(p: Parser, rest: nat): int {
    match p.state
    case BodyIdentity | ChunkData => Min(rest, p.m.contentLength)
    case BodyIdentityEof => rest
    case _ => 0
  }

  function ReadSize(p: Parser, ch: char): Next {
    var x := Unhex(ch);
    match p.state
    case ChunkSizeStart =>
      if p.nread != 1 then Abort
      else if x == -1 then Fail(p, InvalidChunkSize)
      else On(p.(state := ChunkSize, m := p.m.(contentLength := x)), [])
    case ChunkSize =>
      if ch == CR then Go(p, ChunkSizeAlmostDone)
      else if x != -1 then On(p.(m := p.m.(contentLength := p.m.contentLength * 16 + x)), [])
      else if ch == ';' || ch == ' ' then Go(p, ChunkParameters)
      else Fail(p, InvalidChunkSize)
    case ChunkParameters => Go(p, if ch == CR then ChunkSizeAlmostDone else p.state)
    case _ =>
      if ch != LF then Fail(p, Strict)
      else if p.m.contentLength == 0 then
        On(p.(nread := 0, state := HeaderFieldStart, m := p.m.(flags := p.m.flags.(trailing := true))), [])
      else On(p.(nread := 0, state := ChunkData), [])
  }

  /** rest characters are left in the buffer. */
  function Chunk(p: Parser, ch: char, rest: nat): Next {
    if !p.m.flags.chunked then Abort
    else match p.state
      case ChunkData =>
        var n := ToRead(p, rest);
        On(p.(state := if n == p.m.contentLength then ChunkDataAlmostDone else p.state,
              m := p.m.(contentLength := p.m.contentLength - n)), [])
      case ChunkDataAlmostDone => Expect(p, ch == CR, ChunkDataDone)
      case ChunkDataDone => Expect(p, ch == LF, ChunkSizeStart)
      case _ => ReadSize(p, ch)
  }

  function BodyChars(p: Parser, rest: nat): Next {
    match p.state
    case BodyIdentity =>
      var n := ToRead(p, rest);
      var m := p.m.(contentLength := p.m.contentLength - n);
      if n <= 0 then On(p, [])
      else if m.contentLength == 0 then On(p.(state := NewMessage(m), m := m), [Tell(MessageComplete(m))])
      else On(p.(m := m), [])
    case _ => On(p, [])
  }

  // ---- all of them ----

  function Switch(p: Parser, ch: char, rest: nat): Next {
    match p.state
    case Dead => Fail(p, ClosedConnection)
    case StartReqOrRes | ResOrRespH | StartReq => StartOfEither(p, ch)
    case StartRes | ResH | ResHT | ResHTT | ResHTTP | ResFirstMajor | ResMajor | ResFirstMinor | ResMinor
        | ResFirstStatus | ResStatusCode
       | ResStatus | ResLineAlmostDone => ResponseLine(p, ch)
    case ReqMethod => Method(p, ch)
    case ReqSpacesBeforeUrl => UrlStart(p, ch)
    case ReqSchema | ReqSchemaSlash | ReqSchemaSlashSlash | ReqHost | ReqPort | ReqPath | ReqQueryStart | ReqQuery
        | ReqFragmentStart
       | ReqFragment => InUrl(p, ch)
    case ReqHttpStart | ReqHttpH | ReqHttpHT | ReqHttpHTT | ReqHttpHTTP | ReqFirstMajor | ReqMajor | ReqFirstMinor
        | ReqMinor
       | ReqLineAlmostDone => RequestVersion(p, ch)
    case HeaderFieldStart | HeaderField | HeaderValueStart | HeaderValue | HeaderValueLws | HeaderAlmostDone
        | HeadersAlmostDone =>
      Headers(p, ch)
    case ChunkSizeStart | ChunkSize | ChunkParameters | ChunkSizeAlmostDone | ChunkData | ChunkDataAlmostDone
        | ChunkDataDone =>
      Chunk(p, ch, rest)
    case BodyIdentity | BodyIdentityEof => BodyChars(p, rest)
  }

  /** Header characters are counted first. */
  function Byte(p: Parser, ch: char, rest: nat): Next {
    if !ParsingHeader(p.state) then Switch(p, ch, rest)
    else if p.nread + 1 > MAX_HEADER_SIZE then Fail(p, HeaderOverflow)
    else Switch(p.(nread := p.nread + 1), ch, rest)
  }
}
