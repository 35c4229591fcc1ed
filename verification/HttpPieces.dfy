/** However a stream is cut into buffers, the parser ends up the same and makes the same callbacks, up to where texts
    are cut. */
module HttpPieces {
  import opened HttpBytes
  import opened HttpFeed
  import opened HttpParser

  function Joined(pieces: seq<string>): string {
    if pieces == [] then [] else Joined(pieces[..|pieces| - 1]) + pieces[|pieces| - 1]
  }

  lemma JoinedMore(pieces: seq<string>, i: nat)
    requires i < |pieces|
    ensures Joined(pieces[..i + 1]) == Joined(pieces[..i]) + pieces[i]
  {
    assert pieces[..i + 1][..i] == pieces[..i];
  }

  lemma {:induction false} JoinedPrefix(pieces: seq<string>, i: nat)
    requires i <= |pieces|
    ensures |Joined(pieces[..i])| <= |Joined(pieces)| && Joined(pieces)[..|Joined(pieces[..i])|] == Joined(pieces[..i])
    decreases |pieces| - i
  {
    if i == |pieces| {
      assert pieces[..i] == pieces;
    } else {
      JoinedPrefix(pieces, i + 1);
      JoinedMore(pieces, i);
    }
  }

  /** What has become of the stream once the buffers so far have been read. */
  ghost predicate Reached(o: Outcome, total: nat, errno: Errno, upgrade: bool, now: View, length: nat) {
    match o
    case Going(v) => total == length && errno == Fine && !upgrade && now == v
    case Failed(e, at) => total == at && errno == e && e != Fine
    case Switched(at) => total == at + 1 && errno == Fine && upgrade
    case Aborted(_) => false
  }

  lemma ReachedMore(v: View, pieces: seq<string>, i: nat, total: nat, w: View, n: nat, errno: Errno, upgrade: bool,
      now: View)
    requires i < |pieces| && Reached(Fed(v, Joined(pieces[..i])), total, Fine, false, w, |Joined(pieces[..i])|)
    requires Reached(Fed(w, pieces[i]), n, errno, upgrade, now, |pieces[i]|)
    ensures Reached(Fed(v, Joined(pieces[..i + 1])), total + n, errno, upgrade, now, |Joined(pieces[..i + 1])|)
  {
    hide Fed, Joined;
    JoinedMore(pieces, i);
    FedOn(v, Joined(pieces[..i]), pieces[i]);
  }

  lemma ReachedEnd(v: View, pieces: seq<string>, i: nat, total: nat, errno: Errno, upgrade: bool, now: View)
    requires i <= |pieces| && Reached(Fed(v, Joined(pieces[..i])), total, errno, upgrade, now, |Joined(pieces[..i])|)
    requires i == |pieces| || errno != Fine || upgrade
    ensures Reached(Fed(v, Joined(pieces)), total, errno, upgrade, now, |Joined(pieces)|)
  {
    hide Fed, Joined;
    JoinedPrefix(pieces, i);
    assert pieces[..|pieces|] == pieces;
    if i < |pieces| {
      FedEnded(v, Joined(pieces), |Joined(pieces[..i])|);
    }
  }

  /** A connection's reads: every buffer as it arrives, until an error or another protocol. */
  method ReadPieces(parser: HttpParser, pieces: seq<string>) returns (total: nat)
    requires parser.Valid() && parser.errno == Fine && !parser.m.upgrade
        && forall i :: 0 <= i < |pieces| ==> pieces[i] != []
    modifies parser
    ensures parser.Valid()
    ensures Reached(Fed(old(parser.Seen()), Joined(pieces)), total, parser.errno, parser.m.upgrade, parser.Seen(),
        |Joined(pieces)|)
  {
    hide Fed, Joined;
    ghost var v := parser.Seen();
    total := 0;
    var i := 0;
    NoPieces(v, pieces);
    while i < |pieces| && parser.errno == Fine && !parser.m.upgrade
      invariant i <= |pieces| && parser.Valid()
      invariant Reached(Fed(v, Joined(pieces[..i])), total, parser.errno, parser.m.upgrade, parser.Seen(),
          |Joined(pieces[..i])|)
    {
      ghost var w := parser.Seen();
      var n := parser.Execute(pieces[i]);
      ReachedMore(v, pieces, i, total, w, n, parser.errno, parser.m.upgrade, parser.Seen());
      total := total + n;
      i := i + 1;
    }
    ReachedEnd(v, pieces, i, total, parser.errno, parser.m.upgrade, parser.Seen());
  }

  lemma NoPieces(v: View, pieces: seq<string>)
    ensures Reached(Fed(v, Joined(pieces[..0])), 0, Fine, false, v, |Joined(pieces[..0])|)
  {
  }

  /** Two parsers in the same state, one given the stream at once and one in pieces, cannot be told apart. */
  method Compare(whole: HttpParser, cut: HttpParser, pieces: seq<string>) returns (n: nat, total: nat)
    requires whole != cut && whole.Valid() && cut.Valid() && whole.Seen() == cut.Seen() && whole.errno == Fine
        && cut.errno == Fine
    requires !whole.m.upgrade && !cut.m.upgrade && Joined(pieces) != []
        && forall i :: 0 <= i < |pieces| ==> pieces[i] != []
    modifies whole, cut
    ensures n == total && whole.errno == cut.errno
    ensures whole.errno == Fine ==> whole.m.upgrade == cut.m.upgrade
    ensures whole.errno == Fine && !whole.m.upgrade ==> whole.Now() == cut.Now() && Merged(whole.log) == Merged(cut.log)
  {
    hide Fed, Joined;
    n := whole.Execute(Joined(pieces));
    total := ReadPieces(cut, pieces);
  }
}
