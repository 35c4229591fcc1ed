/** http_parser_execute: a buffer is read in one loop, texts are remembered by where they start and handed over when
    they or the buffer end, and bodies are handed over as they come. */
module HttpParser {
  import opened HttpBytes
  import opened HttpSwitch
  import opened HttpStream
  import opened HttpFeed

  /** Where the open texts start; -1 is the source's null pointer. */
  datatype Marks = Marks(url: int, field: int, value: int)

  const NO_MARKS := Marks(-1, -1, -1)

  function At(marks: Marks, part: Part): int {
    match part
    case Url => marks.url
    case Field => marks.field
    case Value => marks.value
    case Body => -1
  }

  function SetMark(marks: Marks, part: Part, p: int): Marks {
    match part
    case Url => marks.(url := p)
    case Field => marks.(field := p)
    case Value => marks.(value := p)
    case Body => marks
  }

  function Entry(s: State): Marks {
    match Open(s)
    case Shut => NO_MARKS
    case Text(part) => SetMark(NO_MARKS, part, 0)
  }

  predicate Fit(marks: Marks, open: Opened, p: nat) {
    match open
    case Shut => marks == NO_MARKS
    case Text(part) => part != Body && 0 <= At(marks, part) <= p && marks == SetMark(NO_MARKS, part, At(marks, part))
  }

  /** The callbacks that have been made or are due for what has been read. */
  function Due(log: seq<Event>, open: Opened, marks: Marks, data: string, p: nat): seq<Event>
    requires Fit(marks, open, p) && p <= |data|
  {
    match open
    case Shut => Merged(log)
    case Text(part) => Add(Merged(log), Data(part, data[At(marks, part)..p]))
  }

  lemma MarkedDue(log: seq<Event>, marks: Marks, data: string, p: nat, part: Part)
    requires Fit(marks, Shut, p) && p <= |data| && part != Body
    ensures Fit(SetMark(marks, part, p), Text(part), p)
    ensures Due(log, Text(part), SetMark(marks, part, p), data, p)
        == Add(Due(log, Shut, marks, data, p), Data(part, []))
  {
    assert data[p..p] == [];
  }

  lemma DeliveredDue(log: seq<Event>, marks: Marks, data: string, p: nat, part: Part)
    requires Fit(marks, Text(part), p) && p <= |data|
    ensures Fit(SetMark(marks, part, -1), Shut, p)
    ensures var text := data[At(marks, part)..p];
            Due(log + [Data(part, text)], Shut, SetMark(marks, part, -1), data, p)
              == Due(log, Text(part), marks, data, p)
            && Due(log, Text(part), marks, data, p) == Add(Due(log, Text(part), marks, data, p), Data(part, []))
            && Ends(Due(log, Text(part), marks, data, p), part)
  {
    var text := data[At(marks, part)..p];
    MergedMore(log, Data(part, text));
    AddJoins(Merged(log), part, text, []);
    AddNothing(Due(log, Text(part), marks, data, p), part);
  }

  lemma ReadDue(log: seq<Event>, open: Opened, marks: Marks, data: string, p: nat)
    requires Fit(marks, open, p) && p < |data|
    ensures Fit(marks, open, p + 1)
    ensures Due(log, open, marks, data, p + 1) == Closed(Due(log, open, marks, data, p), open, [data[p]])
  {
    if open.Text? {
      var i := At(marks, open.part);
      assert data[i..p + 1] == data[i..p] + [data[p]];
      AddJoins(Merged(log), open.part, data[i..p], [data[p]]);
    }
  }

  /** A new buffer starts with an empty piece of the text that is open. */
  lemma EntryDue(v: View, log: seq<Event>, data: string)
    requires Ready(v) && v.seen == Merged(log)
    ensures Fit(Entry(v.p.state), Open(v.p.state), 0)
    ensures Due(log, Open(v.p.state), Entry(v.p.state), data, 0) == v.seen
  {
    hide Sane;
    var open := Open(v.p.state);
    if open.Text? {
      assert open.part != Body;
      assert data[0..0] == [];
      AddNothing(v.seen, open.part);
    }
  }

  /** Marks are set and texts delivered only as Legal allows. */
  lemma LegalStep(open: Opened, acts: seq<Act>, end: Opened)
    requires Legal(open, acts, end)
    ensures acts == [] ==> open == end
    ensures acts != [] ==> match acts[0]
                           case Mark(part) => part != Body && open == Shut && Legal(Text(part), acts[1..], end)
                           case Deliver(part) => open == Text(part) && Legal(Shut, acts[1..], end)
                           case Tell(e) => !e.Data? && open == Shut && Legal(Shut, acts[1..], end)
  {
  }

  class HttpParser {
    var state: State
    var header: HeaderState
    var index: nat
    var nread: nat
    var m: Meta
    var errno: Errno
    var log: seq<Event>

    function Now(): Parser
      reads this
    {
      Parser(state, header, index, nread, m)
    }

    ghost function Seen(): View
      reads this
    {
      View(Now(), Merged(log))
    }

    /** The saved index is one byte, the saved count four. */
    ghost predicate Valid()
      reads this
    {
      index < 0x100 && nread < 0x1_0000_0000 && (errno == Fine && !m.upgrade ==> Ready(Seen()))
    }

    /** http_parser_init; the fields it leaves alone may hold anything. */
    constructor (kind: Kind, header: HeaderState, index: nat, m: Meta)
      requires index < 0x100
      ensures Valid() && errno == Fine && !this.m.upgrade && log == [] && nread == 0 && this.m.kind == kind
          && this.m.skips == m.skips
      ensures state == (if kind == Request then StartReq else if kind == Response then StartRes else StartReqOrRes)
    {
      state := if kind == Request then StartReq else if kind == Response then StartRes else StartReqOrRes;
      this.header, this.index, nread := header, index, 0;
      this.m := m.(kind := kind, upgrade := false, flags := NO_FLAGS, verb := Delete);
      errno, log := Fine, [];
    }

    /** CALLBACK(part) */
    method Callback(part: Part, marks: Marks, data: string, p: nat) returns (marks': Marks)
      requires p <= |data| && At(marks, part) <= p
      modifies this`log
      ensures if At(marks, part) < 0 then log == old(log) && marks' == marks
              else log == old(log) + [Data(part, data[At(marks, part)..p])] && marks' == SetMark(marks, part, -1)
    {
      marks' := marks;
      if At(marks, part) >= 0 {
        log := log + [Data(part, data[At(marks, part)..p])];
        marks' := SetMark(marks, part, -1);
      }
    }

    /** The marks and callbacks of one character. */
    method Perform(acts: seq<Act>, marks: Marks, data: string, p: nat, ghost open: Opened, ghost end: Opened)
        returns (marks': Marks)
      requires p <= |data| && Fit(marks, open, p) && Legal(open, acts, end)
      modifies this`log
      ensures Fit(marks', end, p)
          && Due(log, end, marks', data, p) == Performed(Due(old(log), open, marks, data, p), acts)
    {
      hide Legal, Due, Fit, Merged;
      marks' := marks;
      ghost var now := open;
      var i := 0;
      ghost var first := Due(log, open, marks, data, p);
      assert acts[0..] == acts;
      while i < |acts|
        invariant i <= |acts| && Fit(marks', now, p) && Legal(now, acts[i..], end)
        invariant Performed(Due(log, now, marks', data, p), acts[i..]) == Performed(first, acts)
      {
        LegalStep(now, acts[i..], end);
        assert acts[i..][1..] == acts[i + 1..];
        match acts[i] {
          case Mark(part) =>
            MarkedDue(log, marks', data, p, part);
            marks' := SetMark(marks', part, p);
            now := Text(part);
          case Deliver(part) =>
            DeliveredDue(log, marks', data, p, part);
            FitIs(marks', now, p);
            marks' := Callback(part, marks', data, p);
            now := Shut;
          case Tell(e) =>
            ToldDue(log, marks', data, p, e);
            log := log + [e];
        }
        i := i + 1;
      }
      LegalStep(now, acts[i..], end);
    }

    /** A read of no characters says that the stream has ended. */
    method AtEof() returns (n: nat)
      requires Valid() && errno == Fine && !m.upgrade
      modifies this`log, this`errno
      ensures Valid()
      ensures state == BodyIdentityEof ==> n == 0 && errno == Fine && log == old(log) + [MessageComplete(m)]
      ensures state == Dead || state == StartReqOrRes || state == StartRes || state == StartReq
          ==> n == 0 && errno == Fine && log == old(log)
      ensures state !in {BodyIdentityEof, Dead, StartReqOrRes, StartRes, StartReq}
          ==> n == 1 && errno == InvalidEofState && log == old(log)
    {
      match state {
        case BodyIdentityEof =>
          log := log + [MessageComplete(m)];
          n := 0;
        case Dead | StartReqOrRes | StartRes | StartReq =>
          n := 0;
        case _ =>
          errno := InvalidEofState;
          n := 1;
      }
    }

    /** One round of the loop: a character, or a piece of a body. */
    method Round(data: string, p: nat, l: Parser, marks: Marks, ghost v: View)
        returns (going: bool, l': Parser, marks': Marks, p': nat)
      requires Reading(v, data, p, l, marks, log) && p < |data| && m == l.m && !m.upgrade && errno == Fine
      modifies this`log, this`m, this`errno
      ensures going ==> Reading(v, data, p', l', marks', log) && p < p' && m == l'.m && !m.upgrade && errno == Fine
      ensures !going ==> match Fed(v, data)
                         case Failed(e, at) => p' == at && errno == e && e != Fine
                         case Switched(at) => p' == at + 1 && errno == Fine && m.upgrade
                         case _ => false
    {
      hide Sane, Ready, Due, Fit, Fed, Byte, Open, Merged, ToRead, Reading;
      var toRead := ToRead(l, |data| - p);
      var next := Byte(l, data[p], |data| - p);
      ghost var before := log;
      BeforeStep(v, data, p, l, marks, log);
      l', marks' := l, marks;
      if toRead > 0 {
        log := log + [Data(Body, data[p..p + toRead])];
      }
      match next {
        case On(q, acts) =>
          marks' := Perform(acts, marks, data, p, Open(l.state), Open(q.state));
          Step(v, data, p, l, marks, before, marks', log);
          going, l', m := true, q, q.m;
          p' := if toRead > 0 then p + toRead else p + 1;
        case Bad(m', acts, e) =>
          BadStep(v, data, p, l, marks, before);
          log := log + Told(acts);
          going, m, errno, p' := false, m', e, p;
        case Leave(m', acts) =>
          BadStep(v, data, p, l, marks, before);
          log := log + Told(acts);
          going, m, p' := false, m', p + 1;
      }
    }

    /** The loop over a buffer: it does what feeding the buffer's characters one by one does. */
    method Read(data: string) returns (n: nat)
      requires Valid() && errno == Fine && !m.upgrade && data != []
      modifies this
      ensures Valid()
      ensures match Fed(old(Seen()), data)
              case Going(v) => n == |data| && errno == Fine && Seen() == v && !m.upgrade
              case Failed(e, at) => n == at && errno == e && e != Fine
              case Switched(at) => n == at + 1 && errno == Fine && m.upgrade
              case Aborted(_) => false
    {
      hide Sane, Ready, Due, Fit, Fed, Byte, Entry, Open, Merged, ToRead, Reading, Called;
      ghost var v := Seen();
      var l := Now();
      var marks := Entry(state);
      var p := 0;
      Starts(v, data, log);
      while p < |data|
        invariant p <= |data| && Reading(v, data, p, l, marks, log) && m == l.m && !m.upgrade
        invariant errno == Fine && index < 0x100 && nread < 0x1_0000_0000
      {
        var going, l', marks', p' := Round(data, p, l, marks, v);
        if !going {
          return p';
        }
        MarksBelow(v, data, p', l', marks', log);
        l, marks, p := l', marks', p';
      }
      ghost var before := log;
      MarksBelow(v, data, p, l, marks, log);
      CallAll(marks, data);
      AllCalled(v, data, l, marks, before, log);
      state, header, index, nread := l.state, l.header, l.index % 0x100, l.nread % 0x1_0000_0000;
      n := |data|;
    }

    /** The callbacks at the end of the buffer. */
    method CallAll(marks: Marks, data: string)
      requires marks.url <= |data| && marks.field <= |data| && marks.value <= |data|
      modifies this`log
      ensures log == Called(Called(Called(old(log), marks, Field, data), marks, Value, data), marks, Url, data)
    {
      var rest := Callback(Field, marks, data, |data|);
      rest := Callback(Value, rest, data, |data|);
      rest := Callback(Url, rest, data, |data|);
    }

    method Execute(data: string) returns (n: nat)
      requires Valid() && (errno == Fine ==> !m.upgrade)
      modifies this
      ensures Valid()
      ensures old(errno) != Fine ==> n == 0 && errno == old(errno) && Seen() == old(Seen())
      ensures old(errno) == Fine && data != [] ==>
                match Fed(old(Seen()), data)
                case Going(v) => n == |data| && errno == Fine && Seen() == v && !m.upgrade
                case Failed(e, at) => n == at && errno == e && e != Fine
                case Switched(at) => n == at + 1 && errno == Fine && m.upgrade
                case Aborted(_) => false
    {
      if errno != Fine {
        return 0;
      }
      if data == [] {
        n := AtEof();
      } else {
        n := Read(data);
      }
    }
  }

  function Told(acts: seq<Act>): seq<Event>
    decreases |acts|
  {
    if acts == [] then [] else (if acts[0].Tell? then [acts[0].event] else []) + Told(acts[1..])
  }

  lemma FitIs(marks: Marks, open: Opened, p: nat)
    requires Fit(marks, open, p)
    ensures open.Text? ==> 0 <= At(marks, open.part) <= p
    ensures open.Shut? ==> marks == NO_MARKS
  {
  }

  lemma ToldDue(log: seq<Event>, marks: Marks, data: string, p: nat, e: Event)
    requires Fit(marks, Shut, p) && p <= |data|
    ensures Due(log + [e], Shut, marks, data, p) == Add(Due(log, Shut, marks, data, p), e)
  {
    MergedMore(log, e);
  }

  // ---- the loop ----

  /** After p characters of the buffer. */
  ghost predicate Reading(v: View, data: string, p: nat, l: Parser, marks: Marks, log: seq<Event>) {
    p <= |data| && Fit(marks, Open(l.state), p) && Ready(v)
    && Ready(View(l, Due(log, Open(l.state), marks, data, p)))
    && Fed(v, data[..p]) == Going(View(l, Due(log, Open(l.state), marks, data, p)))
  }

  lemma Starts(v: View, data: string, log: seq<Event>)
    requires Ready(v) && v.seen == Merged(log)
    ensures Reading(v, data, 0, v.p, Entry(v.p.state), log)
  {
    hide Ready, Merged, Fit, Due, Entry;
    EntryDue(v, log, data);
    assert data[..0] == [];
  }

  lemma BeforeStep(v: View, data: string, p: nat, l: Parser, marks: Marks, log: seq<Event>)
    requires Reading(v, data, p, l, marks, log) && p < |data|
    ensures var toRead := ToRead(l, |data| - p);
            var next := Byte(l, data[p], |data| - p);
            !next.Abort? && 0 <= toRead <= |data| - p
            && Fit(marks, Open(l.state), p)
            && (next.On? ==> Legal(Open(l.state), next.acts, Open(next.p.state)) && !next.p.m.upgrade)
            && (next.Bad? ==> next.error != Fine && !next.m.upgrade && toRead == 0)
            && (next.Leave? ==> next.m.upgrade && toRead == 0)
  {
    hide Sane, Byte, Legal, Fit, Due, Fed;
    ByteKept(l, data[p], |data| - p);
    SaneIs(l);
    if Byte(l, data[p], |data| - p).On? {
      SaneIs(Byte(l, data[p], |data| - p).p);
    }
    if Takes(l.state) {
      TakesOn(l, data[p], |data| - p);
    }
  }

  lemma SaneIs(l: Parser)
    requires Sane(l)
    ensures l.index < 0x100 && l.nread < 0x1_0000_0000 && !l.m.upgrade
    ensures l.state.BodyIdentity? || l.state.ChunkData? ==> l.m.contentLength > 0
  {
  }

  lemma TakesOn(l: Parser, ch: char, rest: nat)
    requires Sane(l) && Takes(l.state)
    ensures Byte(l, ch, rest).On? && Open(l.state) == Shut
  {
  }

  /** One round of the loop is what feeding its characters does. */
  lemma Step(v: View, data: string, p: nat, l: Parser, marks: Marks, before: seq<Event>, marks': Marks, log: seq<Event>)
    requires Reading(v, data, p, l, marks, before) && p < |data|
    requires Byte(l, data[p], |data| - p).On? && ToRead(l, |data| - p) <= |data| - p
    requires var n := ToRead(l, |data| - p);
             var next := Byte(l, data[p], |data| - p);
             var told := if n > 0 then before + [Data(Body, data[p..p + n])] else before;
             Fit(marks', Open(next.p.state), p) && Fit(marks, Open(l.state), p)
             && Due(log, Open(next.p.state), marks', data, p)
               == Performed(Due(told, Open(l.state), marks, data, p), next.acts)
    ensures var n := ToRead(l, |data| - p);
            Reading(v, data, if n > 0 then p + n else p + 1, Byte(l, data[p], |data| - p).p, marks', log)
  {
    hide Sane, Byte, Due, Fit, Fed, Performed, Ready;
    var n := ToRead(l, |data| - p);
    var next := Byte(l, data[p], |data| - p);
    var seen := Due(before, Open(l.state), marks, data, p);
    var w := View(l, seen);
    if n > 0 {
      var text := data[p..p + n];
      TakesOn'(l, |data| - p);
      ToldDue(before, marks, data, p, Data(Body, text));
      TakenAtOnce(w, text, |data| - p);
      FedMore(v, data, p, w, text);
      ShutDue(log, marks', data, p, p + n);
      NeverAborts(w, text);
    } else {
      NoTake(l, |data| - p, w);
      SameRest(l, data[p], |data| - p);
      FeedIs(w, data[p]);
      FedOne(w, data[p]);
      FedMore(v, data, p, w, [data[p]]);
      ReadDue(log, Open(next.p.state), marks', data, p);
      FeedReady(w, data[p]);
    }
  }

  lemma TakesOn'(l: Parser, rest: nat)
    requires ToRead(l, rest) > 0
    ensures Takes(l.state) && Open(l.state) == Shut
  {
  }

  lemma NoTake(l: Parser, rest: nat, w: View)
    requires ToRead(l, rest) <= 0 && rest > 0 && Ready(w) && w.p == l
    ensures !Takes(l.state)
  {
  }

  lemma ShutDue(log: seq<Event>, marks: Marks, data: string, p: nat, q: nat)
    requires Fit(marks, Shut, p) && p <= |data| && q <= |data|
    ensures Fit(marks, Shut, q) && Due(log, Shut, marks, data, p) == Due(log, Shut, marks, data, q)
  {
  }

  lemma FeedIs(w: View, ch: char)
    requires !Takes(w.p.state) && Byte(w.p, ch, 1).On?
    ensures var next := Byte(w.p, ch, 1);
            Feed(w, ch) == Going(View(next.p, Closed(Performed(w.seen, next.acts), Open(next.p.state), [ch])))
  {
    hide Byte, Performed, Closed;
  }

  lemma FeedEnds(w: View, ch: char)
    ensures Byte(w.p, ch, 1).Bad? ==> Feed(w, ch) == Failed(Byte(w.p, ch, 1).error, 0)
    ensures Byte(w.p, ch, 1).Leave? ==> Feed(w, ch) == Switched(0)
  {
    hide Byte, Performed, Closed;
  }

  lemma BadStep(v: View, data: string, p: nat, l: Parser, marks: Marks, log: seq<Event>)
    requires Reading(v, data, p, l, marks, log) && p < |data| && !Byte(l, data[p], |data| - p).On?
        && !Byte(l, data[p], |data| - p).Abort?
    ensures var next := Byte(l, data[p], |data| - p);
            Fed(v, data) == if next.Bad? then Failed(next.error, p) else Switched(p)
  {
    hide Sane, Byte, Due, Fit, Fed, Ready;
    var w := View(l, Due(log, Open(l.state), marks, data, p));
    if Takes(l.state) {
      ReadyIs(w);
      TakesOn(l, data[p], |data| - p);
    }
    SameRest(l, data[p], |data| - p);
    FeedEnds(w, data[p]);
    FedOne(w, data[p]);
    FedMore(v, data, p, w, [data[p]]);
    FedEnded(v, data, p + 1);
  }

  lemma ReadyIs(w: View)
    requires Ready(w)
    ensures Sane(w.p)
  {
  }

  lemma MarksBelow(v: View, data: string, p: nat, l: Parser, marks: Marks, log: seq<Event>)
    requires Reading(v, data, p, l, marks, log)
    ensures marks.url <= p && marks.field <= p && marks.value <= p && p <= |data|
  {
    hide Ready, Due, Fed;
  }

  /** At the end of the buffer the open text is handed over. */
  lemma AllCalled(v: View, data: string, l: Parser, marks: Marks, before: seq<Event>, log: seq<Event>)
    requires Reading(v, data, |data|, l, marks, before)
    requires var a := Called(before, marks, Field, data);
             var b := Called(a, marks, Value, data);
             log == Called(b, marks, Url, data)
    ensures Fed(v, data) == Going(View(l, Merged(log))) && Ready(View(l, Merged(log)))
    ensures l.index < 0x100 && l.nread < 0x1_0000_0000
  {
    hide Sane, Due, Fed, Ready, Merged;
    assert data[..|data|] == data;
    var open := Open(l.state);
    ReadyIs(View(l, Due(before, open, marks, data, |data|)));
    SaneIs(l);
    match open {
      case Shut => ShutIs(before, marks, data);
      case Text(part) => DeliveredDue(before, marks, data, |data|, part); ShutIs(log, SetMark(marks, part, -1), data);
    }
  }

  lemma ShutIs(log: seq<Event>, marks: Marks, data: string)
    requires Fit(marks, Shut, |data|)
    ensures Due(log, Shut, marks, data, |data|) == Merged(log)
  {
  }

  /** CALLBACK(part) at the end of the buffer. */
  function Called(log: seq<Event>, marks: Marks, part: Part, data: string): seq<Event> {
    if 0 <= At(marks, part) <= |data| then log + [Data(part, data[At(marks, part)..|data|])] else log
  }
}
