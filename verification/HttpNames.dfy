/** Header names and values are compared with the known ones while they are read; here is what the comparison finds. */
module HttpNames {
  import opened HttpBytes
  import opened HttpSwitch

  function Padded(known: string, i: nat): char {
    if i < |known| then known[i] else ' '
  }

  /** As far as it goes, low is the known name, and spaces behind it. */
  predicate Fits(low: string, known: string) {
    forall i :: 0 <= i < |low| ==> low[i] == Padded(known, i)
  }

  /** low is the known name, perhaps with spaces behind it. */
  predicate Names(low: string, known: string) {
    |low| >= |known| && Fits(low, known)
  }

  lemma FitsMore(low: string, c: char, known: string)
    ensures Fits(low + [c], known) <==> Fits(low, known) && c == Padded(known, |low|)
  {
    if Fits(low + [c], known) {
      forall i | 0 <= i < |low| ensures low[i] == Padded(known, i) {
        assert (low + [c])[i] == low[i];
      }
      assert (low + [c])[|low|] == c;
    }
  }

  lemma Apart(low: string, known: string, other: string, k: nat)
    requires Fits(low, known) && k < |low| && Padded(known, k) != Padded(other, k)
    ensures !Fits(low, other)
  {
    assert low[k] == Padded(known, k);
  }

  const CONNECTION := "connection"
  const PROXY_CONNECTION := "proxy-connection"
  const CONTENT_LENGTH := "content-length"
  const TRANSFER_ENCODING := "transfer-encoding"
  const UPGRADE := "upgrade"

  predicate Unknown5(low: string) {
    !Fits(low, CONNECTION) && !Fits(low, PROXY_CONNECTION) && !Fits(low, CONTENT_LENGTH)
      && !Fits(low, TRANSFER_ENCODING) && !Fits(low, UPGRADE)
  }

  /** What the header state says of the part of a name that has been read. */
  predicate Tracks(low: string, h: HeaderState, i: nat) {
    match h
    case General => Unknown5(low)
    case C => low == "c" && i == 0
    case CO => low == "co" && i == 1
    case CON => low == "con" && i == 2
    case MatchingConnection => Midway(low, i, CONNECTION, 4)
    case MatchingProxyConnection => Midway(low, i, PROXY_CONNECTION, 1)
    case MatchingContentLength => Midway(low, i, CONTENT_LENGTH, 4)
    case MatchingTransferEncoding => Midway(low, i, TRANSFER_ENCODING, 1)
    case MatchingUpgrade => Midway(low, i, UPGRADE, 1)
    case Connection => Names(low, CONNECTION) || Names(low, PROXY_CONNECTION)
    case ContentLength => Names(low, CONTENT_LENGTH)
    case TransferEncoding => Names(low, TRANSFER_ENCODING)
    case Upgrade => Names(low, UPGRADE)
    case _ => false
  }

  predicate Midway(low: string, i: nat, known: string, least: nat) {
    Fits(low, known) && |low| == i + 1 && least <= |low| < |known|
  }

  /** The header a name stands for, whatever its case. */
  function Meaning(low: string): HeaderState {
    if Names(low, CONNECTION) || Names(low, PROXY_CONNECTION) then Connection
    else if Names(low, CONTENT_LENGTH) then ContentLength
    else if Names(low, TRANSFER_ENCODING) then TransferEncoding
    else if Names(low, UPGRADE) then Upgrade
    else General
  }

  /** What a value's first character makes of the header state. */
  function Known(h: HeaderState): HeaderState {
    if h.Connection? || h.ContentLength? || h.TransferEncoding? || h.Upgrade? then h else General
  }

  lemma StartsApart(low: string, known: string)
    requires low != [] && Fits(low, known)
    requires known == CONNECTION || known == PROXY_CONNECTION || known == CONTENT_LENGTH || known == TRANSFER_ENCODING
        || known == UPGRADE
    ensures known != CONNECTION && known != CONTENT_LENGTH ==> !Fits(low, CONNECTION) && !Fits(low, CONTENT_LENGTH)
    ensures known != PROXY_CONNECTION ==> !Fits(low, PROXY_CONNECTION)
    ensures known != TRANSFER_ENCODING ==> !Fits(low, TRANSFER_ENCODING)
    ensures known != UPGRADE ==> !Fits(low, UPGRADE)
    ensures |low| >= 4 && known == CONNECTION ==> !Fits(low, CONTENT_LENGTH)
    ensures |low| >= 4 && known == CONTENT_LENGTH ==> !Fits(low, CONNECTION)
  {
    assert low[0] == Padded(known, 0);
    if |low| >= 4 {
      assert low[3] == Padded(known, 3);
    }
  }

  /** The parser's comparison ends where comparing whole names would. */
  lemma TracksMeaning(low: string, h: HeaderState, i: nat)
    requires low != [] && Tracks(low, h, i)
    ensures Known(h) == Meaning(low)
  {
    hide Fits;
    match h {
      case MatchingConnection => StartsApart(low, CONNECTION);
      case MatchingProxyConnection => StartsApart(low, PROXY_CONNECTION);
      case MatchingContentLength => StartsApart(low, CONTENT_LENGTH);
      case MatchingTransferEncoding => StartsApart(low, TRANSFER_ENCODING);
      case MatchingUpgrade => StartsApart(low, UPGRADE);
      case ContentLength => StartsApart(low, CONTENT_LENGTH);
      case TransferEncoding => StartsApart(low, TRANSFER_ENCODING);
      case Upgrade => StartsApart(low, UPGRADE);
      case _ =>
    }
  }

  // ---- one more character ----

  lemma UnknownMore(low: string, c: char)
    requires Unknown5(low)
    ensures Unknown5(low + [c])
  {
    hide Fits;
    FitsMore(low, c, CONNECTION);
    FitsMore(low, c, PROXY_CONNECTION);
    FitsMore(low, c, CONTENT_LENGTH);
    FitsMore(low, c, TRANSFER_ENCODING);
    FitsMore(low, c, UPGRADE);
  }

  /** A name that leaves the known one it followed is unknown. */
  lemma LeavesKnown(low: string, c: char, known: string)
    requires low != [] && Fits(low, known) && c != Padded(known, |low|)
    requires known == CONNECTION || known == CONTENT_LENGTH ==> |low| >= 4
    requires known == CONNECTION || known == PROXY_CONNECTION || known == CONTENT_LENGTH || known == TRANSFER_ENCODING
        || known == UPGRADE
    ensures Unknown5(low + [c])
  {
    hide Fits;
    StartsApart(low, known);
    FitsMore(low, c, CONNECTION);
    FitsMore(low, c, PROXY_CONNECTION);
    FitsMore(low, c, CONTENT_LENGTH);
    FitsMore(low, c, TRANSFER_ENCODING);
    FitsMore(low, c, UPGRADE);
  }

  lemma MatchingTracks(p: Parser, low: string, c: char, known: string, whole: HeaderState, least: nat)
    requires c != '\0' && least >= 1 && Midway(low, p.index, known, least)
    requires known == CONNECTION || known == CONTENT_LENGTH ==> least == 4
    requires known == CONNECTION || known == PROXY_CONNECTION || known == CONTENT_LENGTH || known == TRANSFER_ENCODING
        || known == UPGRADE
    ensures var q := Matching(p, c, known, whole);
            q.state == p.state && q.m == p.m && q.nread == p.nread
            && if c != known[|low|] then q.header == General && Unknown5(low + [c])
               else if |low| + 1 == |known| then q.header == whole && Names(low + [c], known)
               else q.header == p.header && Midway(low + [c], q.index, known, least)
  {
    hide Fits;
    FitsMore(low, c, known);
    if c != known[|low|] {
      LeavesKnown(low, c, known);
    }
  }

  lemma WholeTracks(low: string, c: char, known: string)
    requires Names(low, known)
    requires known == CONNECTION || known == PROXY_CONNECTION || known == CONTENT_LENGTH || known == TRANSFER_ENCODING
        || known == UPGRADE
    ensures if c == ' ' then Names(low + [c], known) else Unknown5(low + [c])
  {
    hide Fits;
    FitsMore(low, c, known);
    if c != ' ' {
      LeavesKnown(low, c, known);
    }
  }

  lemma ConTracks(low: string, c: char)
    requires low == "c" || low == "co" || low == "con"
    ensures low == "c" ==> if c == 'o' then low + [c] == "co" else Unknown5(low + [c])
    ensures low == "co" ==> if c == 'n' then low + [c] == "con" else Unknown5(low + [c])
    ensures low == "con" ==> if c == 'n' then Midway(low + [c], 3, CONNECTION, 4) else if c == 't'
                             then Midway(low + [c], 3, CONTENT_LENGTH, 4)
                             else Unknown5(low + [c])
  {
    var s := low + [c];
    assert s[0] == 'c' && s[|low|] == c;
    if low == "con" {
      assert s[1] == 'o' && s[2] == 'n';
    }
  }

  lemma FieldTracks(p: Parser, low: string, ch: char)
    requires low != [] && Tracks(low, p.header, p.index) && Token(ch) != '\0'
    ensures FieldChar(p, ch, Token(ch)).On? && FieldChar(p, ch, Token(ch)).acts == []
    ensures var q := FieldChar(p, ch, Token(ch)).p;
            q.state == p.state && q.m == p.m && q.nread == p.nread && Tracks(low + [Token(ch)], q.header, q.index)
  {
    hide Fits, Names, Unknown5, Midway, Matching, Token;
    var c := Token(ch);
    TokenIs(ch);
    match p.header {
      case General => UnknownMore(low, c);
      case C | CO | CON => ConTracks(low, c);
      case MatchingConnection => MatchingTracks(p, low, c, CONNECTION, Connection, 4);
      case MatchingProxyConnection => MatchingTracks(p, low, c, PROXY_CONNECTION, Connection, 1);
      case MatchingContentLength => MatchingTracks(p, low, c, CONTENT_LENGTH, ContentLength, 4);
      case MatchingTransferEncoding => MatchingTracks(p, low, c, TRANSFER_ENCODING, TransferEncoding, 1);
      case MatchingUpgrade => MatchingTracks(p, low, c, UPGRADE, Upgrade, 1);
      case Connection => if Names(low, CONNECTION) { WholeTracks(low, c, CONNECTION); }
                         else { WholeTracks(low, c, PROXY_CONNECTION); }
      case ContentLength => WholeTracks(low, c, CONTENT_LENGTH);
      case TransferEncoding => WholeTracks(low, c, TRANSFER_ENCODING);
      case Upgrade => WholeTracks(low, c, UPGRADE);
      case _ =>
    }
  }

  lemma TokenIs(ch: char)
    ensures Token(ch) != '\0' ==> (Token(ch) == ' ' <==> ch == ' ') && ch != ':' && ch != CR && ch != LF
  {
  }

  /** The first character of a name. */
  lemma FirstTracks(ch: char)
    requires Token(ch) != '\0'
    ensures var c := Token(ch);
            Tracks([c], match c case 'c' => C case 'p' => MatchingProxyConnection case 't' => MatchingTransferEncoding
                                case 'u' => MatchingUpgrade case _ => General, 0)
  {
    var c := Token(ch);
    assert [c][0] == c;
  }

  // ---- values ----

  const CHUNKED := "chunked"
  const KEEP_ALIVE := "keep-alive"
  const CLOSE := "close"

  /** What the header state says of the part of a value that has been read, for the header it belongs to. */
  predicate ValueTracks(of: HeaderState, low: string, h: HeaderState, i: nat) {
    match h
    case General => (of.TransferEncoding? ==> !Fits(low, CHUNKED))
                    && (of.Connection? ==> !Fits(low, KEEP_ALIVE) && !Fits(low, CLOSE))
                    && !of.ContentLength?
    case MatchingChunked => of.TransferEncoding? && Midway(low, i, CHUNKED, 1)
    case MatchingKeepAlive => of.Connection? && Midway(low, i, KEEP_ALIVE, 1)
    case MatchingClose => of.Connection? && Midway(low, i, CLOSE, 1)
    case Chunked => of.TransferEncoding? && Names(low, CHUNKED)
    case KeepAlive => of.Connection? && Names(low, KEEP_ALIVE)
    case Close => of.Connection? && Names(low, CLOSE)
    case ContentLength => of.ContentLength?
    case _ => false
  }

  /** The flags a header line sets. */
  function Flagged(of: HeaderState, low: string, f: Flags): Flags {
    match of
    case TransferEncoding => if Names(low, CHUNKED) then f.(chunked := true) else f
    case Connection => if Names(low, KEEP_ALIVE) then f.(keepAlive := true) else if Names(low, CLOSE)
                       then f.(close := true) else f
    case Upgrade => f.(upgrade := true)
    case _ => f
  }

  lemma ValueApart(low: string)
    requires low != []
    ensures !(Fits(low, KEEP_ALIVE) && Fits(low, CLOSE))
  {
    if Fits(low, KEEP_ALIVE) {
      Apart(low, KEEP_ALIVE, CLOSE, 0);
    }
  }

  lemma ValueTracksFlags(of: HeaderState, low: string, h: HeaderState, i: nat, p: Parser)
    requires low != [] && ValueTracks(of, low, h, i) && p.header == h
    ensures HeaderDone(p).m.flags == Flagged(if of.Upgrade? then General else of, low, p.m.flags)
  {
    hide Fits;
    ValueApart(low);
  }

  /** A letter whatever its case. */
  function Folded(ch: char): char {
    if 'A' <= ch <= 'Z' then (ch as int + 32) as char else ch
  }

  predicate Plainly(known: string) {
    forall i :: 0 <= i < |known| ==> 'a' <= known[i] <= 'z' || known[i] == '-'
  }

  /** Setting one bit folds the case of every byte that matters. */
  lemma LowerFolds(ch: char, x: char)
    requires ch as int < 256 && ch != CR && ('a' <= x <= 'z' || x == '-')
    ensures Lower(ch) == x <==> Folded(ch) == x
  {
  }

  lemma ValueMatching(p: Parser, low: string, ch: char, known: string, whole: HeaderState)
    requires ch as int < 256 && ch != CR && Midway(low, p.index, known, 1) && Plainly(known)
    ensures var q := Matching(p, Lower(ch), known, whole);
            q.state == p.state && q.m == p.m && q.nread == p.nread
            && if Folded(ch) != known[|low|] then q.header == General && !Fits(low + [Folded(ch)], known)
               else if |low| + 1 == |known| then q.header == whole && Names(low + [Folded(ch)], known)
               else q.header == p.header && Midway(low + [Folded(ch)], q.index, known, 1)
  {
    hide Fits, Lower, Folded;
    FitsMore(low, Folded(ch), known);
    LowerFolds(ch, known[|low|]);
  }

  lemma ValueWhole(low: string, ch: char, known: string)
    requires Names(low, known)
    ensures if ch == ' ' then Names(low + [Folded(ch)], known) else !Fits(low + [Folded(ch)], known)
  {
    hide Fits;
    FitsMore(low, Folded(ch), known);
  }

  predicate IsByte(ch: char) {
    ch as int < 256 && ch != CR && ch != LF
  }

  /** One more character of a value. */
  lemma CharTracks(p: Parser, of: HeaderState, low: string, ch: char)
    requires low != [] && ValueTracks(of, low, p.header, p.index) && IsByte(ch)
    requires of.ContentLength? ==> ch == ' ' || IsNum(ch)
    ensures ValueChar(p, ch).On? && ValueChar(p, ch).acts == []
    ensures var q := ValueChar(p, ch).p;
            q.state == p.state && q.nread == p.nread && ValueTracks(of, low + [Folded(ch)], q.header, q.index)
            && q.m == if of.ContentLength? && ch != ' ' then p.m.(contentLength := p.m.contentLength * 10 + Digit(ch))
              else p.m
  {
    hide Fits, Names, Midway, Matching, Lower, Folded;
    var c := Folded(ch);
    ValueApart(low);
    FitsMore(low, c, CHUNKED);
    FitsMore(low, c, KEEP_ALIVE);
    FitsMore(low, c, CLOSE);
    match p.header {
      case MatchingChunked => ValueMatching(p, low, ch, CHUNKED, Chunked);
      case MatchingKeepAlive =>
        ValueMatching(p, low, ch, KEEP_ALIVE, KeepAlive);
        MidwayFits(low, p.index, KEEP_ALIVE, 1);
      case MatchingClose =>
        ValueMatching(p, low, ch, CLOSE, Close);
        MidwayFits(low, p.index, CLOSE, 1);
      case Chunked => ValueWhole(low, ch, CHUNKED);
      case KeepAlive => ValueWhole(low, ch, KEEP_ALIVE); NamesFits(low, KEEP_ALIVE);
      case Close => ValueWhole(low, ch, CLOSE); NamesFits(low, CLOSE);
      case _ =>
    }
  }

  lemma MidwayFits(low: string, i: nat, known: string, least: nat)
    requires Midway(low, i, known, least)
    ensures Fits(low, known)
  {
  }

  lemma NamesFits(low: string, known: string)
    requires Names(low, known)
    ensures Fits(low, known)
  {
  }

  /** The first character of a value. */
  lemma FirstCharTracks(p: Parser, h: HeaderState, ch: char)
    requires p.header == h && p.index == 0 && IsByte(ch) && (h.ContentLength? ==> IsNum(ch))
    ensures FirstValueChar(p, ch).On? && FirstValueChar(p, ch).acts == [Mark(Value)]
    ensures var q := FirstValueChar(p, ch).p;
            q.state == p.state && q.nread == p.nread && ValueTracks(Known(h), [Folded(ch)], q.header, q.index)
            && q.m == (match h
                       case Upgrade => p.m.(flags := p.m.flags.(upgrade := true))
                       case ContentLength => p.m.(contentLength := Digit(ch))
                       case _ => p.m)
  {
    hide Lower, Folded;
    var low := [Folded(ch)];
    LowerFolds(ch, 'c');
    LowerFolds(ch, 'k');
    assert low[0] == Folded(ch);
  }
}
