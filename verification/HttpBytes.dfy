/** The HTTP parser's data: states, fields, callbacks, and the classes of characters it tells apart.
    A char stands for one byte of the stream. */
module HttpBytes {

  datatype State =
    | Dead | StartReqOrRes | ResOrRespH | StartRes | ResH | ResHT | ResHTT | ResHTTP | ResFirstMajor | ResMajor
      | ResFirstMinor
    | ResMinor | ResFirstStatus | ResStatusCode | ResStatus | ResLineAlmostDone
    | StartReq | ReqMethod | ReqSpacesBeforeUrl | ReqSchema | ReqSchemaSlash | ReqSchemaSlashSlash | ReqHost | ReqPort
      | ReqPath
    | ReqQueryStart | ReqQuery | ReqFragmentStart | ReqFragment | ReqHttpStart | ReqHttpH | ReqHttpHT | ReqHttpHTT
      | ReqHttpHTTP
    | ReqFirstMajor | ReqMajor | ReqFirstMinor | ReqMinor | ReqLineAlmostDone
    | HeaderFieldStart | HeaderField | HeaderValueStart | HeaderValue | HeaderValueLws | HeaderAlmostDone
    | ChunkSizeStart | ChunkSize | ChunkParameters | ChunkSizeAlmostDone | HeadersAlmostDone
    | ChunkData | ChunkDataAlmostDone | ChunkDataDone | BodyIdentity | BodyIdentityEof

  datatype HeaderState =
    | General | C | CO | CON
    | MatchingConnection | MatchingProxyConnection | MatchingContentLength | MatchingTransferEncoding | MatchingUpgrade
    | Connection | ContentLength | TransferEncoding | Upgrade
    | MatchingChunked | MatchingKeepAlive | MatchingClose
    | Chunked | KeepAlive | Close

  datatype Kind = Request | Response | Both

  datatype Verb =
    | Delete | Get | Head | Post | Put | Connect | Options | Trace | Copy | Lock | Mkcol | Move | Propfind | Proppatch
      | Unlock
    | Report | Mkactivity | Checkout | Merge | Msearch | Notify | Subscribe | Unsubscribe | Patch

  datatype Errno =
    | Fine | InvalidEofState | HeaderOverflow | ClosedConnection | InvalidVersion | InvalidStatus | InvalidMethod
      | InvalidUrl
    | InvalidHost | InvalidPort | InvalidPath | InvalidQueryString | InvalidFragment | LfExpected | InvalidHeaderToken
    | InvalidContentLength | InvalidChunkSize | InvalidConstant | Strict | Unknown

  datatype Flags = Flags(chunked: bool, keepAlive: bool, close: bool, trailing: bool, upgrade: bool, skipBody: bool)

  const NO_FLAGS := Flags(false, false, false, false, false, false)

  /** What the parser writes at once and callbacks can read.  skips is what on_headers_complete answers. */
  datatype Meta = Meta(kind: Kind, flags: Flags, contentLength: int, major: nat, minor: nat, status: nat, verb: Verb,
    upgrade: bool,
                       skips: bool)

  datatype Parser = Parser(state: State, header: HeaderState, index: nat, nread: nat, m: Meta)

  datatype Part = Url | Field | Value | Body

  /** The text that is being collected, if any. */
  datatype Opened = Shut | Text(part: Part)

  /** One call of a callback. */
  datatype Event =
    | MessageBegin
    | HeadersComplete(m: Meta)
    | MessageComplete(m: Meta)
    | Data(part: Part, text: string)

  const MAX_HEADER_SIZE: nat := 80 * 1024

  // ---- characters ----

  const CR: char := '\r'
  const LF: char := '\n'

  predicate IsNum(c: char) {
    '0' <= c <= '9'
  }

  predicate IsAlpha(c: char) {
    'a' <= c <= 'z' || 'A' <= c <= 'Z'
  }

  /** c | 0x20 */
  function Lower(c: char): char {
    var n := c as int % 256;
    if n / 32 % 2 == 0 then (n + 32) as char else n as char
  }

  predicate IsHostChar(c: char) {
    IsAlpha(c) || IsNum(c) || c == '.' || c == '-'
  }

  predicate IsUrlChar(c: char) {
    '!' <= c <= '~' && c != '#' && c != '?'
  }

  predicate IsToken(c: char) {
    ' ' <= c <= '\'' || c == '*' || c == '+' || '-' <= c <= '9' || IsAlpha(c) || '^' <= c <= '`' || '|' <= c <= '~'
  }

  /** The lower-case form of a token character; 0 for the others. */
  function Token(c: char): char {
    if !IsToken(c) then '\0' else if 'A' <= c <= 'Z' then (c as int + 32) as char else c
  }

  function Unhex(c: char): int {
    if '0' <= c <= '9' then c as int - '0' as int
    else if 'A' <= c <= 'F' then c as int - 'A' as int + 10
    else if 'a' <= c <= 'f' then c as int - 'a' as int + 10
    else -1
  }

  function Digit(c: char): nat
    requires IsNum(c)
  {
    c as int - '0' as int
  }

  /** A C string's character, its terminator included. */
  function CharAt(s: string, i: nat): char {
    if i < |s| then s[i] else '\0'
  }

  function MethodName(v: Verb): string {
    match v
    case Delete => "DELETE" case Get => "GET" case Head => "HEAD" case Post => "POST" case Put => "PUT"
    case Connect => "CONNECT" case Options => "OPTIONS" case Trace => "TRACE" case Copy => "COPY" case Lock => "LOCK"
    case Mkcol => "MKCOL" case Move =>
                  "MOVE" case Propfind => "PROPFIND" case Proppatch => "PROPPATCH" case Unlock => "UNLOCK"
    case Report => "REPORT" case Mkactivity => "MKACTIVITY" case Checkout => "CHECKOUT" case Merge => "MERGE"
    case Msearch => "M-SEARCH" case Notify => "NOTIFY" case Subscribe => "SUBSCRIBE" case Unsubscribe => "UNSUBSCRIBE"
    case Patch => "PATCH"
  }

  predicate ParsingHeader(s: State) {
    !(s.ChunkData? || s.ChunkDataAlmostDone? || s.ChunkDataDone? || s.BodyIdentity? || s.BodyIdentityEof?)
  }

  /** The callback whose text is being collected in a state. */
  function Open(s: State): Opened {
    match s
    case HeaderField => Text(Field)
    case HeaderValue => Text(Value)
    case ReqPath | ReqSchema | ReqSchemaSlash | ReqSchemaSlashSlash | ReqPort | ReqQueryStart | ReqQuery | ReqHost
        | ReqFragmentStart
       | ReqFragment => Text(Url)
    case _ => Shut
  }

  // ---- callbacks, with adjacent pieces of the same text joined ----

  function Add(seen: seq<Event>, e: Event): seq<Event> {
    if seen != [] && e.Data? && seen[|seen| - 1].Data? && seen[|seen| - 1].part == e.part then
      seen[..|seen| - 1] + [Data(e.part, seen[|seen| - 1].text + e.text)]
    else seen + [e]
  }

  function Merged(log: seq<Event>): seq<Event> {
    if log == [] then [] else Add(Merged(log[..|log| - 1]), log[|log| - 1])
  }

  predicate Ends(seen: seq<Event>, part: Part) {
    seen != [] && seen[|seen| - 1].Data? && seen[|seen| - 1].part == part
  }

  lemma MergedMore(log: seq<Event>, e: Event)
    ensures Merged(log + [e]) == Add(Merged(log), e)
  {
    assert (log + [e])[..|log|] == log;
  }

  lemma AddJoins(seen: seq<Event>, part: Part, a: string, b: string)
    ensures Add(Add(seen, Data(part, a)), Data(part, b)) == Add(seen, Data(part, a + b))
    ensures Ends(Add(seen, Data(part, a)), part)
  {
    if Ends(seen, part) {
      var t := seen[|seen| - 1].text;
      assert t + a + b == t + (a + b);
    }
  }

  lemma AddNothing(seen: seq<Event>, part: Part)
    requires Ends(seen, part)
    ensures Add(seen, Data(part, [])) == seen
  {
    var t := seen[|seen| - 1].text;
    assert t + [] == t;
  }
}
