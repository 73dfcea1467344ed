/** What the renderer is told about its sockets, and that none of its opens is lost. */
module SocketNotices {
  import opened Texts
  import opened BridgeRelay
  import opened BridgeRuns
  import opened SocketProxy
  import opened SocketRuns
  import opened SocketExact

  // ----- every notice -----

  predicate ToldMoves(p: Proxy, e: ProxyEvent, n: Notice) {
    StepProxy(p, e).told[n] == p.told[n] + Due(p, e, n)
  }

  lemma ClosingsCount(current: map<SocketId, Socket>, n: Notice)
    ensures multiset(Closings(current))[n]
            == if n.ClosedTo? && n.which.Some? && MapsTo(current, n.id, n.which.value) then 1 else 0
  {
    assert n in Closings(current) <==>
           n.ClosedTo? && n.which.Some? && MapsTo(current, n.id, n.which.value);
  }

  lemma {:induction false} RefusalsCount(ids: seq<SocketId>, n: Notice)
    ensures Refusals(ids)[n] == if n.ClosedTo? && n.which.None? then multiset(ids)[n.id] else 0
  {
    if ids != [] {
      assert ids == [ids[0]] + ids[1..];
      RefusalsCount(ids[1..], n);
    }
  }

  lemma TokenTold(p: Proxy, token: Option<string>, n: Notice)
    ensures SetToken(p, token).told[n]
            == p.told[n] + if token != p.token && n.ClosedTo? && n.which.Some?
                              && MapsTo(p.current, n.id, n.which.value) then 1 else 0
    ensures SetToken(p, token).pending == p.pending
  {
    ClosingsCount(p.current, n);
  }

  lemma LoginTold(p: Proxy, token: string, n: Notice)
    ensures ToldMoves(p, LoggedIn(token), n)
  {
    TokenTold(p, Some(token), n);
    var q := SetToken(p, Some(token));
    OpenAllBesides(q.(pending := []), q.pending);
  }

  lemma UnlinkTold(p: Proxy, n: Notice)
    requires p.token.None? ==> p.current == map[]
    ensures ToldMoves(p, Unlinked, n)
  {
    TokenTold(p, None, n);
    RefusalsCount(p.pending, n);
  }

  lemma OpenTellsNothing(p: Proxy, id: SocketId)
    ensures OpenSocket(p, id).told == p.told && OpenSocket(p, id).pending == p.pending
  {
  }

  lemma AskTold(p: Proxy, id: SocketId, n: Notice)
    requires |p.pending| <= OPEN_QUEUE_MAX
    ensures ToldMoves(p, OpenAsked(id), n)
  {
    if Usable(p.token) { OpenTellsNothing(p, id); }
  }

  lemma OpenTold(p: Proxy, s: Socket, n: Notice)
    requires s < |p.socks| && p.socks[s].state.Connecting? ==> InForce(p, s)
    ensures ToldMoves(p, SockOpen(s), n)
  {
  }

  lemma EndTold(p: Proxy, s: Socket, n: Notice)
    requires forall id :: id in p.current ==> EntryOk(p.token, p.socks, id, p.current[id])
    ensures ToldMoves(p, SockClose(s), n)
  {
    if n.ClosedTo? && n.id in p.current { assert EntryOk(p.token, p.socks, n.id, p.current[n.id]); }
  }

  lemma FailTold(p: Proxy, s: Socket, n: Notice)
    requires s < |p.socks| ==> (InForce(p, s) <==> Mapped(p, p.socks[s].id) == Some(s))
    requires forall id :: id in p.current ==> EntryOk(p.token, p.socks, id, p.current[id])
    ensures ToldMoves(p, SockError(s), n)
  {
    if n.FailedTo? && n.id in p.current { assert EntryOk(p.token, p.socks, n.id, p.current[n.id]); }
  }

  lemma TextTold(p: Proxy, s: Socket, m: Message, n: Notice)
    requires s < |p.socks| ==> (InForce(p, s) <==> Mapped(p, p.socks[s].id) == Some(s))
    requires forall id :: id in p.current ==> EntryOk(p.token, p.socks, id, p.current[id])
    ensures ToldMoves(p, SockMessage(s, m), n)
  {
    if n.TextTo? && n.id in p.current { assert EntryOk(p.token, p.socks, n.id, p.current[n.id]); }
  }

  lemma QuietTold(p: Proxy, e: ProxyEvent, n: Notice)
    requires e.SendAsked? || e.CloseAsked? || e.SockEnding? || e.GameTurned? || e.Callback? || e.BeforeQuit?
             || e.WillQuit?
    ensures ToldMoves(p, e, n)
  {
    match e {
      case SendAsked(_, _) =>
      case CloseAsked(_) =>
      case SockEnding(_) =>
      case GameTurned(_) =>
      case Callback(_) =>
      case BeforeQuit =>
      case WillQuit =>
    }
  }

  /** Notice by notice, over every event: an open is told when the socket is taken,
      a failure and a text when it is in place, the close of a socket when its end
      or a change of account takes it from its id, a refusal to the oldest of too
      many waiting opens and to all of them when the account goes; each as often as
      that happens, and never otherwise. */
  lemma NoticesExactly(p: Proxy, e: ProxyEvent, n: Notice)
    requires Tidy(p) && Sensible(p, e)
    ensures ToldMoves(p, e, n)
  {
    match e {
      case LoggedIn(token) => LoginTold(p, token, n);
      case Unlinked =>
        if p.token.None? { NoTokenNoSockets(p.socks, p.current); }
        UnlinkTold(p, n);
      case OpenAsked(id) => AskTold(p, id, n);
      case SockOpen(s) =>
        if s < |p.socks| { AliveInForce(p, s); }
        OpenTold(p, s, n);
      case SockClose(s) => EndTold(p, s, n);
      case SockError(s) =>
        if s < |p.socks| { AliveInForce(p, s); }
        FailTold(p, s, n);
      case SockMessage(s, m) =>
        if s < |p.socks| { AliveInForce(p, s); }
        TextTold(p, s, m, n);
      case _ => QuietTold(p, e, n);
    }
  }

  // ----- the waiting opens -----

  /** An open the renderer asked for, and one it took back while it waited. */
  function Asks(e: ProxyEvent, id: SocketId): nat {
    if e == OpenAsked(id) then 1 else 0
  }

  function Withdraws(p: Proxy, e: ProxyEvent, id: SocketId): nat {
    if e == CloseAsked(id) && id in p.pending then 1 else 0
  }

  /** What comes in or waited is opened, refused, taken back or waits. */
  predicate QueueMoves(p: Proxy, e: ProxyEvent, id: SocketId) {
    Asks(e, id) + multiset(p.pending)[id]
    == multiset(Opens(p, e))[id] + Due(p, e, ClosedTo(id, None)) + Withdraws(p, e, id)
       + multiset(StepProxy(p, e).pending)[id]
  }

  lemma {:induction false} WithoutFirstCounts(ids: seq<SocketId>, gone: SocketId, id: SocketId)
    ensures multiset(WithoutFirst(ids, gone))[id] == multiset(ids)[id] - (if id == gone && id in ids then 1 else 0)
  {
    if ids != [] {
      assert ids == [ids[0]] + ids[1..];
      if ids[0] != gone { WithoutFirstCounts(ids[1..], gone, id); }
    }
  }

  lemma AskQueues(p: Proxy, asked: SocketId, id: SocketId)
    requires |p.pending| <= OPEN_QUEUE_MAX
    ensures QueueMoves(p, OpenAsked(asked), id)
  {
    if Usable(p.token) {
      OpenTellsNothing(p, asked);
    } else if |p.pending| >= OPEN_QUEUE_MAX {
      assert p.pending == [p.pending[0]] + p.pending[1..];
    }
  }

  lemma LoginQueues(p: Proxy, token: string, id: SocketId)
    requires token != "" && (p.token.Some? ==> p.pending == [])
    ensures QueueMoves(p, LoggedIn(token), id)
  {
    TokenTold(p, Some(token), ClosedTo(id, None));
    var q := SetToken(p, Some(token));
    OpenAllBesides(q.(pending := []), q.pending);
  }

  lemma UnlinkQueues(p: Proxy, id: SocketId)
    ensures QueueMoves(p, Unlinked, id)
  {
  }

  lemma CloseQueues(p: Proxy, closed: SocketId, id: SocketId)
    ensures QueueMoves(p, CloseAsked(closed), id)
  {
    WithoutFirstCounts(p.pending, closed, id);
  }

  lemma NetQueues(p: Proxy, e: ProxyEvent, id: SocketId)
    requires e.SockOpen? || e.SockEnding? || e.SockClose? || e.WillQuit?
    ensures QueueMoves(p, e, id)
  {
    match e {
      case SockOpen(_) =>
      case SockEnding(_) =>
      case SockClose(_) =>
      case WillQuit =>
    }
  }

  lemma TalkQueues(p: Proxy, e: ProxyEvent, id: SocketId)
    requires IsTalk(e)
    ensures QueueMoves(p, e, id)
  {
    TalkKeeps(p, e);
  }

  lemma QueueExactly(p: Proxy, e: ProxyEvent, id: SocketId)
    requires Tidy(p) && Sensible(p, e)
    ensures QueueMoves(p, e, id)
  {
    match e {
      case LoggedIn(token) => LoginQueues(p, token, id);
      case Unlinked => UnlinkQueues(p, id);
      case OpenAsked(asked) => AskQueues(p, asked, id);
      case CloseAsked(closed) => CloseQueues(p, closed, id);
      case SockOpen(_) => NetQueues(p, e, id);
      case SockEnding(_) => NetQueues(p, e, id);
      case SockClose(_) => NetQueues(p, e, id);
      case WillQuit => NetQueues(p, e, id);
      case _ => TalkQueues(p, e, id);
    }
  }

  /** The waiting opens keep their order: the last eight asked for stay, and taking
      one back leaves the others as they are. */
  lemma {:induction false} QueueKeepsOrder(ids: seq<SocketId>, id: SocketId)
    ensures id !in ids ==> WithoutFirst(ids, id) == ids
    ensures id in ids ==> exists k: nat :: TakenOut(ids, id, k, WithoutFirst(ids, id))
  {
    if ids != [] {
      if ids[0] == id {
        assert TakenOut(ids, id, 0, WithoutFirst(ids, id));
      } else {
        QueueKeepsOrder(ids[1..], id);
        if id in ids {
          var k: nat :| TakenOut(ids[1..], id, k, WithoutFirst(ids[1..], id));
          assert ids[..k + 1] == [ids[0]] + ids[1..][..k] && ids[k + 2..] == ids[1..][k + 1..];
          assert TakenOut(ids, id, k + 1, WithoutFirst(ids, id));
        }
      }
    }
  }

  /** Place k held the first id, and only that place is gone. */
  predicate TakenOut(ids: seq<SocketId>, id: SocketId, k: nat, left: seq<SocketId>) {
    k < |ids| && ids[k] == id && id !in ids[..k] && left == ids[..k] + ids[k + 1..]
  }

  // ----- no open is lost -----

  /** Sockets ever made for the id. */
  function MadeCount(socks: seq<Sock>, id: SocketId): nat {
    if socks == [] then 0 else
    MadeCount(socks[..|socks| - 1], id) + if socks[|socks| - 1].id == id then 1 else 0
  }

  function AskedCount(es: seq<ProxyEvent>, id: SocketId): nat {
    if es == [] then 0 else Asks(es[0], id) + AskedCount(es[1..], id)
  }

  function WithdrawnCount(p: Proxy, es: seq<ProxyEvent>, id: SocketId): nat
    decreases es
  {
    if es == [] then 0 else Withdraws(p, es[0], id) + WithdrawnCount(StepProxy(p, es[0]), es[1..], id)
  }

  predicate SameIds(a: seq<Sock>, b: seq<Sock>) {
    |a| <= |b| && forall s :: 0 <= s < |a| ==> a[s].id == b[s].id
  }

  lemma {:induction false} MadeGrows(a: seq<Sock>, b: seq<Sock>, ids: seq<SocketId>, id: SocketId)
    requires SameIds(a, b) && |b| == |a| + |ids|
    requires forall i :: 0 <= i < |ids| ==> b[|a| + i].id == ids[i]
    ensures MadeCount(b, id) == MadeCount(a, id) + multiset(ids)[id]
    decreases |b|
  {
    if ids != [] {
      var most := ids[..|ids| - 1];
      MadeGrows(a, b[..|b| - 1], most, id);
      assert ids == most + [ids[|ids| - 1]];
    } else if a != [] {
      MadeGrows(a[..|a| - 1], b[..|b| - 1], [], id);
    }
  }

  lemma OldIdsStay(p: Proxy, e: ProxyEvent)
    requires Tidy(p) && Sensible(p, e) && |p.socks| <= |StepProxy(p, e).socks|
    ensures SameIds(p.socks, StepProxy(p, e).socks)
  {
    forall s: Socket | s < |p.socks| ensures StepProxy(p, e).socks[s].id == p.socks[s].id {
      SocketsExactly(p, e, s);
    }
  }

  lemma NewIdsCount(socks: seq<Sock>, q: Proxy, ids: seq<SocketId>, id: SocketId)
    requires SameIds(socks, q.socks) && MadeFor(q, |socks|, ids)
    ensures MadeCount(q.socks, id) == MadeCount(socks, id) + multiset(ids)[id]
  {
    forall i: nat | i < |ids| ensures q.socks[|socks| + i].id == ids[i] {
      assert MadeAt(q, |socks|, ids, i);
    }
    MadeGrows(socks, q.socks, ids, id);
  }

  lemma MadeMoves(p: Proxy, e: ProxyEvent, id: SocketId)
    requires Tidy(p) && Sensible(p, e)
    ensures MadeCount(StepProxy(p, e).socks, id) == MadeCount(p.socks, id) + multiset(Opens(p, e))[id]
  {
    OpensExactly(p, e);
    OldIdsStay(p, e);
    NewIdsCount(p.socks, StepProxy(p, e), Opens(p, e), id);
  }

  lemma {:induction false} AccountedFrom(p: Proxy, es: seq<ProxyEvent>, id: SocketId)
    requires Tidy(p) && LegalRun(p, es)
    ensures var q := RunProxy(p, es);
            AskedCount(es, id) + MadeCount(p.socks, id) + p.told[ClosedTo(id, None)] + multiset(p.pending)[id]
            == MadeCount(q.socks, id) + q.told[ClosedTo(id, None)] + multiset(q.pending)[id]
               + WithdrawnCount(p, es, id)
    decreases es
  {
    if es != [] {
      QueueExactly(p, es[0], id);
      MadeMoves(p, es[0], id);
      NoticesExactly(p, es[0], ClosedTo(id, None));
      TidyKept(p, es[0]);
      AccountedFrom(StepProxy(p, es[0]), es[1..], id);
    }
  }

  /** No open is lost, over every run: each one asked for made a socket of its own,
      was refused, was taken back while it waited, or is still waiting. */
  lemma OpensAreAccounted(environment: Option<string>, es: seq<ProxyEvent>, id: SocketId)
    requires LegalRun(NewProxy(environment), es)
    ensures var p := RunProxy(NewProxy(environment), es);
            AskedCount(es, id)
            == MadeCount(p.socks, id) + p.told[ClosedTo(id, None)] + multiset(p.pending)[id]
               + WithdrawnCount(NewProxy(environment), es, id)
  {
    NewProxyOk(environment);
    AccountedFrom(NewProxy(environment), es, id);
  }
}
