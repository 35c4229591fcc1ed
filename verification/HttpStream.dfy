/** The parser as a reader of single characters: what every character keeps, what a stream of characters does, and
    why taking a piece of a body at once is the same as taking it character by character. */
module HttpStream {
  import opened HttpBytes
  import opened HttpSwitch

  // ---- what holds between characters ----

  /** The names a header state is in the middle of. */
  function Matched(h: HeaderState): string {
    match h
    case MatchingConnection => "connection"
    case MatchingProxyConnection => "proxy-connection"
    case MatchingContentLength => "content-length"
    case MatchingTransferEncoding => "transfer-encoding"
    case MatchingUpgrade => "upgrade"
    case MatchingChunked => "chunked"
    case MatchingKeepAlive => "keep-alive"
    case MatchingClose => "close"
    case _ => ""
  }

  predicate InName(h: HeaderState, i: nat) {
    if Matched(h) == "" then i <= 17 else i + 2 <= |Matched(h)|
  }

  predicate FieldState(h: HeaderState) {
    h.General? || h.C? || h.CO? || h.CON? || h.MatchingConnection? || h.MatchingProxyConnection?
      || h.MatchingContentLength?
    || h.MatchingTransferEncoding? || h.MatchingUpgrade? || h.Connection? || h.ContentLength? || h.TransferEncoding?
      || h.Upgrade?
  }

  predicate ValueState(h: HeaderState) {
    h.General? || h.ContentLength? || h.MatchingChunked? || h.MatchingKeepAlive? || h.MatchingClose? || h.Chunked?
      || h.KeepAlive?
    || h.Close?
  }

  predicate NameSane(p: Parser) {
    (p.state.HeaderField? ==> FieldState(p.header) && InName(p.header, p.index)
                              && (p.header.C? ==> p.index == 0) && (p.header.CO? ==> p.index == 1)
                                && (p.header.CON? ==> p.index == 2))
    && (p.state.HeaderValue? ==> ValueState(p.header) && InName(p.header, p.index))
    && (p.state.ReqMethod? ==> p.index <= |MethodName(p.m.verb)|)
  }

  predicate InChunks(s: State) {
    s.ChunkSizeStart? || s.ChunkSize? || s.ChunkParameters? || s.ChunkSizeAlmostDone? || s.ChunkData?
      || s.ChunkDataAlmostDone?
    || s.ChunkDataDone?
  }

  predicate BodySane(p: Parser) {
    (p.state.BodyIdentity? || p.state.ChunkData? ==> p.m.contentLength > 0)
    && (p.state.ChunkSize? || p.state.ChunkParameters? || p.state.ChunkSizeAlmostDone? ==> p.m.contentLength >= 0)
    && (InChunks(p.state) ==> p.m.flags.chunked)
    && (p.state.ChunkSizeStart? || p.state.ChunkData? || p.state.ChunkDataAlmostDone? || p.state.ChunkDataDone?
      ==> p.nread == 0)
  }

  predicate Sane(p: Parser) {
    p.index <= 255 && p.nread <= MAX_HEADER_SIZE && !p.m.upgrade && NameSane(p) && BodySane(p)
  }

  /** The parser's fields when a header character has been counted. */
  predicate Counted(p: Parser) {
    p.index <= 255 && p.nread <= MAX_HEADER_SIZE && !p.m.upgrade && NameSane(p)
    && (if ParsingHeader(p.state) then BodySane(p.(nread := 0)) && (p.state.ChunkSizeStart? ==> p.nread == 1)
      else BodySane(p))
  }

  predicate Kept(p: Parser, n: Next) {
    match n
    case On(p', acts) => Sane(p') && p'.m.skips == p.m.skips && Legal(Open(p.state), acts, Open(p'.state))
    case Bad(m, acts, e) => e != Fine && !m.upgrade && Telling(acts)
    case Leave(m, acts) => m.upgrade && Telling(acts)
    case Abort => false
  }

  // ---- marks and callbacks ----

  /** The marks that are set change only as the source's MARK and CALLBACK do, and end as the next state wants them. */
  predicate Legal(open: Opened, acts: seq<Act>, end: Opened)
    decreases |acts|
  {
    if acts == [] then open == end
    else match acts[0]
      case Mark(part) => part != Body && open == Shut && Legal(Text(part), acts[1..], end)
      case Deliver(part) => open == Text(part) && Legal(Shut, acts[1..], end)
      case Tell(e) => !e.Data? && open == Shut && Legal(open, acts[1..], end)
  }

  predicate Telling(acts: seq<Act>) {
    forall i :: 0 <= i < |acts| ==> acts[i].Tell? && !acts[i].event.Data?
  }

  lemma LegalNone(open: Opened)
    ensures Legal(open, [], open)
  {
  }

  lemma LegalOne(open: Opened, a: Act, end: Opened)
    requires match a
             case Mark(part) => part != Body && open == Shut && end == Text(part)
             case Deliver(part) => open == Text(part) && end == Shut
             case Tell(e) => !e.Data? && open == Shut && end == Shut
    ensures Legal(open, [a], end)
  {
    assert [a][1..] == [];
  }

  lemma LegalTwo(open: Opened, a: Act, b: Act, mid: Opened, end: Opened)
    requires Legal(open, [a], mid) && Legal(mid, [b], end)
    ensures Legal(open, [a, b], end)
  {
    assert [a][1..] == [] && [a, b][1..] == [b];
  }

  // ---- every character keeps it ----

  /** States whose fields need no care. */
  predicate Plain(s: State) {
    !(s.HeaderField? || s.HeaderValue? || s.ReqMethod? || InChunks(s) || s.BodyIdentity?)
  }

  predicate Bounded(p: Parser) {
    p.index <= 255 && p.nread <= MAX_HEADER_SIZE && !p.m.upgrade
  }

  lemma PlainIsSane(p: Parser)
    requires Plain(p.state) && Bounded(p)
    ensures Sane(p)
  {
  }

  lemma GoKept(p: Parser, s: State)
    requires Plain(s) && Bounded(p) && Open(s) == Open(p.state)
    ensures Kept(p, Go(p, s)) && Kept(p, Expect(p, true, s))
  {
    hide Sane;
    PlainIsSane(p.(state := s));
  }

  lemma FailKept(p: Parser, e: Errno)
    requires Bounded(p) && e != Fine
    ensures Kept(p, Fail(p, e))
  {
  }

  lemma StrictKept(p: Parser, s: State)
    requires Bounded(p)
    ensures Kept(p, Expect(p, false, s))
  {
  }

  lemma ActKept(p: Parser, p': Parser, a: Act)
    requires Plain(p'.state) && Bounded(p') && p'.m.skips == p.m.skips && Legal(Open(p.state), [a], Open(p'.state))
    ensures Kept(p, On(p', [a]))
  {
    hide Sane, Legal;
    PlainIsSane(p');
  }

  lemma NamesAreLong(v: Verb)
    ensures 3 <= |MethodName(v)| <= 11
  {
  }

  // ---- first lines ----

  lemma MethodSane(p: Parser)
    requires p.state.ReqMethod? && Bounded(p) && p.index <= |MethodName(p.m.verb)|
    ensures Sane(p)
  {
  }

  lemma AssignKept(p: Parser, q: Parser, ch: char)
    requires Bounded(q) && q.m.skips == p.m.skips && Open(p.state) == Shut
    ensures Kept(p, MethodAssign(q, ch))
  {
    hide Sane, Legal;
    LegalOne(Shut, Tell(MessageBegin), Shut);
    match MethodAssign(q, ch) {
      case On(p', _) =>
        NamesAreLong(p'.m.verb);
        MethodSane(p');
      case _ =>
    }
  }

  lemma StartsKept(p: Parser, ch: char)
    requires Bounded(p) && (p.state.StartReqOrRes? || p.state.ResOrRespH? || p.state.StartReq?)
    ensures Kept(p, StartOfEither(p, ch))
  {
    hide Sane, Legal, MethodAssign;
    LegalNone(Shut);
    LegalOne(Shut, Tell(MessageBegin), Shut);
    AssignKept(p, p.(m := Begun(p.m).(kind := Request)), ch);
    AssignKept(p, p.(m := Begun(p.m)), ch);
    match StartOfEither(p, ch) {
      case On(p', _) =>
        NamesAreLong(p'.m.verb);
        if Plain(p'.state) && Bounded(p') { PlainIsSane(p'); }
        if p'.state.ReqMethod? && p'.index == 2 && Bounded(p') { MethodSane(p'); }
      case _ =>
    }
  }

  lemma ResponseKept(p: Parser, ch: char)
    requires Bounded(p) && !p.state.ReqMethod? && Plain(p.state) && Open(p.state) == Shut
    ensures Kept(p, ResponseLine(p, ch))
  {
    hide Sane, Legal;
    LegalNone(Shut);
    LegalOne(Shut, Tell(MessageBegin), Shut);
    match ResponseLine(p, ch) {
      case On(p', _) => PlainIsSane(p');
      case _ =>
    }
  }

  lemma OtherKept(p: Parser, ch: char)
    requires Bounded(p) && p.state.ReqMethod? && p.index <= |MethodName(p.m.verb)|
    ensures Kept(p, OtherMethod(p, ch))
  {
    hide Sane, Legal;
    LegalNone(Shut);
    match OtherMethod(p, ch) {
      case On(p', _) =>
        NamesAreLong(p'.m.verb);
        MethodSane(p');
      case _ =>
    }
  }

  lemma MethodKept(p: Parser, ch: char)
    requires Bounded(p) && p.state.ReqMethod? && p.index <= |MethodName(p.m.verb)|
    ensures Kept(p, Method(p, ch))
  {
    hide Sane, Legal, OtherMethod;
    LegalNone(Shut);
    NamesAreLong(p.m.verb);
    OtherKept(p, ch);
    var want := CharAt(MethodName(p.m.verb), p.index);
    if ch == ' ' && want == '\0' {
      PlainIsSane(p.(state := ReqSpacesBeforeUrl, index := p.index + 1));
    } else if ch == want && ch != '\0' {
      MethodSane(p.(index := p.index + 1));
    }
  }

  lemma UrlStartKept(p: Parser, ch: char)
    requires Bounded(p) && p.state.ReqSpacesBeforeUrl?
    ensures Kept(p, UrlStart(p, ch))
  {
    hide Sane, Legal;
    LegalNone(Shut);
    LegalOne(Shut, Mark(Url), Text(Url));
    match UrlStart(p, ch) {
      case On(p', _) => PlainIsSane(p');
      case _ =>
    }
  }

  lemma UrlEndKept(p: Parser, s: State)
    requires Bounded(p) && Open(p.state) == Text(Url) && Plain(s) && Open(s) == Shut
    ensures Kept(p, UrlEnd(p, s)) && Kept(p, OldEnd(p, s))
  {
    hide Kept, Sane, Legal;
    LegalOne(Text(Url), Deliver(Url), Shut);
    ActKept(p, UrlEnd(p, s).p, Deliver(Url));
    ActKept(p, OldEnd(p, s).p, Deliver(Url));
  }

  lemma UrlLineKept(p: Parser, ch: char, e: Errno)
    requires Bounded(p) && Open(p.state) == Text(Url) && e != Fine
    ensures Kept(p, UrlLine(p, ch, e))
  {
    hide Kept, UrlEnd, OldEnd, Fail;
    UrlEndKept(p, ReqHttpStart);
    UrlEndKept(p, ReqLineAlmostDone);
    UrlEndKept(p, HeaderFieldStart);
    FailKept(p, e);
  }

  lemma UrlKept(p: Parser, ch: char)
    requires Bounded(p) && Open(p.state) == Text(Url)
    ensures Kept(p, InUrl(p, ch))
  {
    hide Kept, Go, Expect, Fail, UrlEnd, UrlLine, IsUrlChar, IsHostChar;
    match p.state {
      case ReqSchema =>
        GoKept(p, ReqSchema);
        GoKept(p, ReqSchemaSlash);
        FailKept(p, InvalidUrl);
      case ReqSchemaSlash =>
        GoKept(p, ReqSchemaSlashSlash);
        StrictKept(p, ReqSchemaSlashSlash);
      case ReqSchemaSlashSlash =>
        GoKept(p, ReqHost);
        StrictKept(p, ReqHost);
      case ReqHost =>
        AuthorityKept(p);
        FailKept(p, InvalidHost);
      case ReqPort =>
        AuthorityKept(p);
        FailKept(p, InvalidPort);
      case _ => RestOfUrlKept(p, ch);
    }
  }

  lemma AuthorityKept(p: Parser)
    requires Bounded(p) && Open(p.state) == Text(Url)
    ensures Kept(p, Go(p, ReqHost)) && Kept(p, Go(p, ReqPort)) && Kept(p, Go(p, ReqPath))
        && Kept(p, UrlEnd(p, ReqHttpStart))
    ensures Kept(p, Go(p, ReqQueryStart))
  {
    hide Kept, Go, UrlEnd;
    GoKept(p, ReqHost);
    GoKept(p, ReqPort);
    GoKept(p, ReqPath);
    GoKept(p, ReqQueryStart);
    UrlEndKept(p, ReqHttpStart);
  }

  lemma RestOfUrlKept(p: Parser, ch: char)
    requires Bounded(p) && Open(p.state) == Text(Url)
    requires p.state.ReqPath? || p.state.ReqQueryStart? || p.state.ReqQuery? || p.state.ReqFragmentStart?
        || p.state.ReqFragment?
    ensures Kept(p, InUrl(p, ch))
  {
    hide Kept, Go, UrlLine, IsUrlChar;
    GoKept(p, p.state);
    GoKept(p, ReqQueryStart);
    GoKept(p, ReqQuery);
    GoKept(p, ReqFragmentStart);
    GoKept(p, ReqFragment);
    UrlLineKept(p, ch, InvalidPath);
    UrlLineKept(p, ch, InvalidQueryString);
    UrlLineKept(p, ch, InvalidFragment);
  }

  lemma VersionKept(p: Parser, ch: char)
    requires Bounded(p) && Plain(p.state) && Open(p.state) == Shut
    ensures Kept(p, RequestVersion(p, ch))
  {
    hide Sane, Legal;
    LegalNone(Shut);
    match RequestVersion(p, ch) {
      case On(p', _) => PlainIsSane(p');
      case _ =>
    }
  }

  // ---- headers ----

  lemma NameIsSane(p: Parser)
    requires Bounded(p) && (p.state.HeaderField? || p.state.HeaderValue?) && NameSane(p)
    ensures Sane(p)
  {
  }

  lemma BodyIsSane(p: Parser)
    requires Bounded(p) && (InChunks(p.state) || p.state.BodyIdentity?) && BodySane(p)
    ensures Sane(p)
  {
  }

  lemma HeadersDoneKept(p: Parser, q: Parser, ch: char)
    requires Bounded(q) && q.m.skips == p.m.skips && Plain(q.state) && Open(p.state) == Shut && Open(q.state) == Shut
    ensures Kept(p, HeadersDone(q, ch))
  {
    hide Sane, Legal;
    match HeadersDone(q, ch) {
      case On(p', acts) =>
        if Plain(p'.state) { PlainIsSane(p'); } else { BodyIsSane(p'); }
        LegalOne(Shut, acts[0], Shut);
        if |acts| == 2 {
          LegalOne(Shut, acts[1], Shut);
          LegalTwo(Shut, acts[0], acts[1], Shut, Shut);
          assert acts == [acts[0], acts[1]];
        } else {
          assert acts == [acts[0]];
        }
      case _ =>
    }
  }

  lemma FieldStartKept(p: Parser, q: Parser, ch: char)
    requires Bounded(q) && q.m.skips == p.m.skips && Plain(q.state) && Open(p.state) == Shut && Open(q.state) == Shut
    ensures Kept(p, FieldStart(q, ch))
  {
    hide Sane, Legal, HeadersDone;
    LegalNone(Shut);
    LegalOne(Shut, Mark(Field), Text(Field));
    HeadersDoneKept(p, q.(state := HeadersAlmostDone), ch);
    if ch == CR {
      PlainIsSane(q.(state := HeadersAlmostDone));
    } else if ch != LF && Token(ch) != '\0' {
      NameIsSane(FieldStart(q, ch).p);
    }
  }

  lemma MatchingKept(p: Parser, c: char, name: string, whole: HeaderState)
    requires Bounded(p) && (p.state.HeaderField? || p.state.HeaderValue?) && NameSane(p) && Matched(p.header) == name
        && 5 <= |name| <= 17
    requires Matched(whole) == "" && !whole.C? && !whole.CO? && !whole.CON? && c != '\0'
    requires if p.state.HeaderField? then FieldState(whole) else ValueState(whole)
    ensures Sane(Matching(p, c, name, whole)) && Matching(p, c, name, whole).state == p.state
        && Matching(p, c, name, whole).m == p.m
  {
    NameIsSane(Matching(p, c, name, whole));
  }

  /** A name or value goes on. */
  lemma TextKept(p: Parser, q: Parser)
    requires Sane(q) && q.state == p.state && q.m.skips == p.m.skips
    ensures Kept(p, On(q, []))
  {
    hide Sane;
  }

  lemma FieldCharKept(p: Parser, ch: char, c: char)
    requires Bounded(p) && p.state.HeaderField? && NameSane(p) && c != '\0'
    ensures Kept(p, FieldChar(p, ch, c))
  {
    hide Kept, Sane, Legal, Matching;
    match p.header {
      case MatchingConnection =>
          MatchingKept(p, c, "connection", Connection); TextKept(p, Matching(p, c, "connection", Connection));
      case MatchingProxyConnection =>
        MatchingKept(p, c, "proxy-connection", Connection);
        TextKept(p, Matching(p, c, "proxy-connection", Connection));
      case MatchingContentLength =>
        MatchingKept(p, c, "content-length", ContentLength);
        TextKept(p, Matching(p, c, "content-length", ContentLength));
      case MatchingTransferEncoding =>
        MatchingKept(p, c, "transfer-encoding", TransferEncoding);
        TextKept(p, Matching(p, c, "transfer-encoding", TransferEncoding));
      case MatchingUpgrade => MatchingKept(p, c, "upgrade", Upgrade); TextKept(p, Matching(p, c, "upgrade", Upgrade));
      case _ => OtherFieldKept(p, ch, c);
    }
  }

  lemma OtherFieldKept(p: Parser, ch: char, c: char)
    requires Bounded(p) && p.state.HeaderField? && NameSane(p) && Matched(p.header) == ""
    ensures Kept(p, FieldChar(p, ch, c))
  {
    hide Kept, Sane, Legal, Matching;
    match FieldChar(p, ch, c) {
      case On(q, _) =>
        NameIsSane(q);
        TextKept(p, q);
      case _ =>
    }
  }

  lemma FieldKept(p: Parser, ch: char)
    requires Bounded(p) && p.state.HeaderField? && NameSane(p)
    ensures Kept(p, InField(p, ch))
  {
    hide Kept, Legal, FieldChar, Fail, NameSane, Token;
    if Token(ch) != '\0' {
      FieldCharKept(p, ch, Token(ch));
    } else {
      LegalOne(Text(Field), Deliver(Field), Shut);
      ActKept(p, p.(state := HeaderValueStart), Deliver(Field));
      ActKept(p, p.(state := HeaderAlmostDone), Deliver(Field));
      ActKept(p, p.(state := HeaderFieldStart), Deliver(Field));
      FailKept(p, InvalidHeaderToken);
    }
  }

  lemma FirstValueKept(p: Parser, q: Parser, ch: char)
    requires Bounded(q) && q.m.skips == p.m.skips && Open(p.state) == Shut && q.state.HeaderValue? && q.index == 0
    ensures Kept(p, FirstValueChar(q, ch))
  {
    hide Sane, Legal;
    LegalOne(Shut, Mark(Value), Text(Value));
    match FirstValueChar(q, ch) {
      case On(p', _) => NameIsSane(p');
      case _ =>
    }
  }

  lemma ValueStartKept(p: Parser, ch: char)
    requires Bounded(p) && p.state.HeaderValueStart?
    ensures Kept(p, ValueStart(p, ch))
  {
    hide Sane, Legal, FirstValueChar;
    LegalNone(Shut);
    LegalOne(Shut, Mark(Value), Text(Value));
    LegalOne(Text(Value), Deliver(Value), Shut);
    LegalTwo(Shut, Mark(Value), Deliver(Value), Text(Value), Shut);
    FirstValueKept(p, p.(state := HeaderValue, index := 0), ch);
    if ch == ' ' || ch == '\t' || ch == CR || ch == LF {
      PlainIsSane(ValueStart(p, ch).p);
    }
  }

  lemma LowerIsSome(c: char)
    ensures Lower(c) != '\0'
  {
  }

  lemma ValueCharKept(p: Parser, ch: char)
    requires Bounded(p) && p.state.HeaderValue? && NameSane(p) && ch != CR
    ensures Kept(p, ValueChar(p, ch))
  {
    hide Kept, Sane, Legal, Matching, Lower;
    LowerIsSome(ch);
    match p.header {
      case MatchingChunked => MatchingKept(p, Lower(ch), "chunked", Chunked);
                              TextKept(p, Matching(p, Lower(ch), "chunked", Chunked));
      case MatchingKeepAlive =>
        MatchingKept(p, Lower(ch), "keep-alive", KeepAlive);
        TextKept(p, Matching(p, Lower(ch), "keep-alive", KeepAlive));
      case MatchingClose => MatchingKept(p, Lower(ch), "close", Close);
                            TextKept(p, Matching(p, Lower(ch), "close", Close));
      case _ => OtherValueKept(p, ch);
    }
  }

  lemma OtherValueKept(p: Parser, ch: char)
    requires Bounded(p) && p.state.HeaderValue? && NameSane(p) && Matched(p.header) == ""
    ensures Kept(p, ValueChar(p, ch))
  {
    hide Kept, Sane, Legal, Matching, Lower;
    FailKept(p, InvalidContentLength);
    match ValueChar(p, ch) {
      case On(q, _) =>
        NameIsSane(q);
        TextKept(p, q);
      case _ =>
    }
  }

  lemma ValueKept(p: Parser, ch: char)
    requires Bounded(p) && p.state.HeaderValue? && NameSane(p)
    ensures Kept(p, InValue(p, ch))
  {
    hide Sane, Legal, ValueChar;
    LegalOne(Text(Value), Deliver(Value), Shut);
    if ch == CR || ch == LF {
      PlainIsSane(InValue(p, ch).p);
    } else {
      ValueCharKept(p, ch);
    }
  }

  lemma HeadersKept(p: Parser, ch: char)
    requires Counted(p) && !p.state.ChunkSizeStart?
    requires p.state.HeaderFieldStart? || p.state.HeaderField? || p.state.HeaderValueStart? || p.state.HeaderValue?
             || p.state.HeaderValueLws? || p.state.HeaderAlmostDone? || p.state.HeadersAlmostDone?
    ensures Kept(p, Headers(p, ch))
  {
    hide Sane, Legal, NameSane, BodySane, FieldStart, InField, ValueStart, InValue, HeadersDone;
    LegalNone(Shut);
    match p.state {
      case HeaderFieldStart => FieldStartKept(p, p, ch);
      case HeaderField => FieldKept(p, ch);
      case HeaderValueStart => ValueStartKept(p, ch);
      case HeaderValue => ValueKept(p, ch);
      case HeaderAlmostDone => PlainIsSane(HeaderDone(p));
      case HeaderValueLws =>
        PlainIsSane(p.(state := HeaderValueStart));
        FieldStartKept(p, p.(state := HeaderFieldStart), ch);
      case _ => HeadersDoneKept(p, p, ch);
    }
  }

  // ---- bodies ----

  lemma ReadSizeKept(p: Parser, ch: char)
    requires Counted(p) && (p.state.ChunkSizeStart? || p.state.ChunkSize? || p.state.ChunkParameters?
        || p.state.ChunkSizeAlmostDone?)
    ensures Kept(p, ReadSize(p, ch))
  {
    hide Sane, Legal;
    LegalNone(Shut);
    match ReadSize(p, ch) {
      case On(p', _) => if Plain(p'.state) { PlainIsSane(p'); } else { BodyIsSane(p'); }
      case _ =>
    }
  }

  lemma ChunkKept(p: Parser, ch: char, rest: nat)
    requires Counted(p) && InChunks(p.state)
    ensures Kept(p, Chunk(p, ch, rest))
  {
    hide Sane, Legal, ReadSize;
    if p.state.ChunkData? || p.state.ChunkDataAlmostDone? || p.state.ChunkDataDone? {
      LegalNone(Shut);
      match Chunk(p, ch, rest) {
        case On(p', acts) =>
          BodyIsSane(p');
        case _ =>
      }
    } else {
      ReadSizeKept(p, ch);
    }
  }

  lemma BodyKept(p: Parser, rest: nat)
    requires Counted(p) && (p.state.BodyIdentity? || p.state.BodyIdentityEof?)
    ensures Kept(p, BodyChars(p, rest))
  {
    hide Sane, Legal;
    LegalNone(Shut);
    match BodyChars(p, rest) {
      case On(p', acts) =>
        if Plain(p'.state) { PlainIsSane(p'); } else { BodyIsSane(p'); }
        if acts != [] {
          LegalOne(Shut, acts[0], Shut);
          assert acts == [acts[0]];
        }
      case _ =>
    }
  }

  lemma SwitchKept(p: Parser, ch: char, rest: nat)
    requires Counted(p)
    ensures Kept(p, Switch(p, ch, rest))
  {
    hide Sane, Legal, BodySane, StartOfEither, ResponseLine, Method, UrlStart, InUrl, RequestVersion, Headers, Chunk,
        BodyChars;
    match p.state {
      case Dead =>
      case StartReqOrRes | ResOrRespH | StartReq => StartsKept(p, ch);
      case StartRes | ResH | ResHT | ResHTT | ResHTTP | ResFirstMajor | ResMajor | ResFirstMinor | ResMinor
          | ResFirstStatus
         | ResStatusCode | ResStatus | ResLineAlmostDone => ResponseKept(p, ch);
      case ReqMethod => MethodKept(p, ch);
      case ReqSpacesBeforeUrl => UrlStartKept(p, ch);
      case ReqSchema | ReqSchemaSlash | ReqSchemaSlashSlash | ReqHost | ReqPort | ReqPath | ReqQueryStart | ReqQuery
          | ReqFragmentStart
         | ReqFragment => UrlKept(p, ch);
      case ReqHttpStart | ReqHttpH | ReqHttpHT | ReqHttpHTT | ReqHttpHTTP | ReqFirstMajor | ReqMajor | ReqFirstMinor
          | ReqMinor
         | ReqLineAlmostDone => VersionKept(p, ch);
      case HeaderFieldStart | HeaderField | HeaderValueStart | HeaderValue | HeaderValueLws | HeaderAlmostDone
          | HeadersAlmostDone =>
        HeadersKept(p, ch);
      case ChunkSizeStart | ChunkSize | ChunkParameters | ChunkSizeAlmostDone | ChunkData | ChunkDataAlmostDone
          | ChunkDataDone =>
        ChunkKept(p, ch, rest);
      case BodyIdentity | BodyIdentityEof => BodyKept(p, rest);
    }
  }

  /** No assertion fails, the saved index and count fit their fields, and marks are set exactly where texts are open. */
  lemma ByteKept(p: Parser, ch: char, rest: nat)
    requires Sane(p)
    ensures Kept(p, Byte(p, ch, rest))
  {
    hide Legal, Switch, NameSane;
    if ParsingHeader(p.state) {
      if p.nread + 1 <= MAX_HEADER_SIZE {
        var q := p.(nread := p.nread + 1);
        NameAnyCount(p, q.nread);
        SwitchKept(q, ch, rest);
      }
    } else {
      SwitchKept(p, ch, rest);
    }
  }

  lemma NameAnyCount(p: Parser, n: nat)
    ensures NameSane(p.(nread := n)) == NameSane(p)
  {
  }
}
