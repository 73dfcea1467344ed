/** The proxied sockets seen one by one: what each event means for one socket, one
    renderer id, one notice and one waiting open. */
module SocketExact {
  import opened Texts
  import opened Snapshots
  import opened ExportCursors
  import opened BridgeRelay
  import opened BridgeRuns
  import opened SocketProxy
  import opened SocketRuns

  /** A socket that is connecting or live is the one its id maps to: nothing is
      ever left open behind the map. */
  predicate NoneStray(socks: seq<Sock>, current: map<SocketId, Socket>) {
    forall s: Socket :: s < |socks| && Alive(socks[s]) ==> MapsTo(current, socks[s].id, s)
  }

  predicate Alive(k: Sock) {
    k.state.Connecting? || k.state.Live?
  }

  predicate MapsTo(current: map<SocketId, Socket>, id: SocketId, s: Socket) {
    id in current && current[id] == s
  }

  ghost predicate Tidy(p: Proxy) {
    ProxyOk(p) && NoneStray(p.socks, p.current)
  }

  // ----- what an event means -----

  /** The account changes. */
  predicate Reauths(p: Proxy, e: ProxyEvent) {
    || (e.LoggedIn? && p.token != Some(e.token))
    || (e.Unlinked? && p.token.Some?)
  }

  /** For a socket: it ends when the network says so, begins to close when its
      account, its place or the app goes, and goes live when it opens. */
  function StateAfter(p: Proxy, e: ProxyEvent, s: Socket): SockState
    requires s < |p.socks|
  {
    var k := p.socks[s];
    if k.state.Ended? || e == SockClose(s) then Ended
    else if k.state.Closing? || Reauths(p, e) || e == SockEnding(s) || e.WillQuit?
            || (e.OpenAsked? && e.id == k.id && Usable(p.token)) || e == CloseAsked(k.id)
            || (e == SockOpen(s) && k.state.Connecting? && p.quitting) then Closing
    else if e == SockOpen(s) then Live
    else k.state
  }

  /** For a notice: how often the event tells it. */
  function Due(p: Proxy, e: ProxyEvent, n: Notice): nat {
    match n
    case ClosedTo(id, Some(s)) => if Mapped(p, id) == Some(s) && (Reauths(p, e) || e == SockClose(s)) then 1 else 0
    case ClosedTo(id, None) =>
      if e.Unlinked? then multiset(p.pending)[id]
      else if e.OpenAsked? && !Usable(p.token) && |p.pending| == 8 && p.pending[0] == id then 1 else 0
    case OpenedTo(id, s) =>
      if e == SockOpen(s) && s < |p.socks| && p.socks[s] == Sock(id, p.token, Connecting) && !p.quitting then 1 else 0
    case FailedTo(id, s) => if e == SockError(s) && Mapped(p, id) == Some(s) then 1 else 0
    case TextTo(id, s, text) => if e == SockMessage(s, Plain(text)) && Mapped(p, id) == Some(s) then 1 else 0
  }

  /** For a renderer id other than at a login: the socket it maps to. */
  function MappedAfter(p: Proxy, e: ProxyEvent, id: SocketId): Option<Socket> {
    if Reauths(p, e) then None
    else if e == OpenAsked(id) && Usable(p.token) then Some(|p.socks|)
    else if e == CloseAsked(id) then None
    else if e.SockClose? && Mapped(p, id) == Some(e.s) then None
    else Mapped(p, id)
  }

  /** The sockets that an event makes, for these ids in this order: each later one
      takes the place of an earlier one for the same id. */
  predicate MadeFor(p: Proxy, base: nat, ids: seq<SocketId>) {
    && |p.socks| == base + |ids|
    && forall i :: 0 <= i < |ids| ==> MadeAt(p, base, ids, i)
  }

  predicate MadeAt(p: Proxy, base: nat, ids: seq<SocketId>, i: nat)
    requires i < |ids|
  {
    MadeAs(p, base + i, ids[i], ids[i] in ids[i + 1..])
  }

  predicate MadeAs(p: Proxy, s: Socket, id: SocketId, again: bool) {
    && s < |p.socks|
    && p.socks[s] == Sock(id, p.token, if again then Closing else Connecting)
    && (!again ==> Mapped(p, id) == Some(s) && id in p.buffers && p.buffers[id] == [])
  }

  // ----- opening one after the other -----

  predicate Placed(socks: seq<Sock>, current: map<SocketId, Socket>) {
    forall id :: id in current ==> current[id] < |socks| && socks[current[id]].id == id
  }

  /** What a run of opens leaves alone. */
  predicate Besides(p: Proxy, q: Proxy) {
    q.token == p.token && q.told == p.told && q.quitting == p.quitting && q.pending == p.pending
  }

  lemma {:induction false} OpenAllBesides(p: Proxy, ids: seq<SocketId>)
    ensures Besides(p, OpenAll(p, ids)) && |OpenAll(p, ids).socks| == |p.socks| + |ids|
    decreases ids
  {
    if ids != [] { OpenAllBesides(OpenSocket(p, ids[0]), ids[1..]); }
  }

  /** One open, seen from a socket there was before, and from the new one. */
  predicate OpenSeen(p: Proxy, q: Proxy, id: SocketId, s: Socket) {
    && |q.socks| == |p.socks| + 1 && q.socks[|p.socks|] == Sock(id, p.token, Connecting)
    && q.current == p.current[id := |p.socks|] && q.buffers == p.buffers[id := []]
    && (s < |p.socks| ==> q.socks[s] == if Mapped(p, id) == Some(s) then ShutOne(p.socks[s]) else p.socks[s])
  }

  lemma OpenIsSeen(p: Proxy, id: SocketId, s: Socket)
    ensures OpenSeen(p, OpenSocket(p, id), id, s)
  {
  }

  lemma OpenPlaced(p: Proxy, id: SocketId)
    requires Placed(p.socks, p.current)
    ensures Placed(OpenSocket(p, id).socks, OpenSocket(p, id).current)
  {
  }

  lemma {:induction false} OpenAllOther(p: Proxy, ids: seq<SocketId>, id: SocketId)
    requires id !in ids
    ensures var q := OpenAll(p, ids);
            && Mapped(q, id) == Mapped(p, id) && (id in q.buffers <==> id in p.buffers)
            && (id in p.buffers ==> q.buffers[id] == p.buffers[id])
    decreases ids
  {
    if ids != [] { OpenAllOther(OpenSocket(p, ids[0]), ids[1..], id); }
  }

  lemma {:induction false} OpenAllBefore(p: Proxy, ids: seq<SocketId>, s: Socket)
    requires s < |p.socks| && Placed(p.socks, p.current)
    ensures var (q, id) := (OpenAll(p, ids), p.socks[s].id);
            && s < |q.socks|
            && q.socks[s] == if id in ids && Mapped(p, id) == Some(s) then ShutOne(p.socks[s]) else p.socks[s]
    decreases ids
  {
    if ids != [] {
      OpenPlaced(p, ids[0]);
      OpenIsSeen(p, ids[0], s);
      BeforeFrom(p, OpenSocket(p, ids[0]), ids, s);
    }
  }

  lemma {:induction false} BeforeFrom(p: Proxy, next: Proxy, ids: seq<SocketId>, s: Socket)
    requires ids != [] && s < |p.socks| && Placed(p.socks, p.current)
    requires OpenSeen(p, next, ids[0], s) && Placed(next.socks, next.current)
    ensures var (q, id) := (OpenAll(next, ids[1..]), p.socks[s].id);
            && s < |q.socks|
            && q.socks[s] == if id in ids && Mapped(p, id) == Some(s) then ShutOne(p.socks[s]) else p.socks[s]
    decreases ids, 0
  {
    OpenAllBefore(next, ids[1..], s);
  }

  lemma {:induction false} OpenAllMakes(p: Proxy, ids: seq<SocketId>, i: nat)
    requires i < |ids| && Placed(p.socks, p.current)
    ensures MadeAs(OpenAll(p, ids), |p.socks| + i, ids[i], ids[i] in ids[i + 1..])
    decreases ids
  {
    var next := OpenSocket(p, ids[0]);
    OpenPlaced(p, ids[0]);
    OpenIsSeen(p, ids[0], |p.socks|);
    OpenAllBesides(next, ids[1..]);
    if i == 0 {
      MakesFirst(next, ids, |p.socks|);
    } else {
      OpenAllMakes(next, ids[1..], i - 1);
      assert ids[1..][i - 1] == ids[i] && ids[1..][i..] == ids[i + 1..];
    }
  }

  lemma MakesFirst(next: Proxy, ids: seq<SocketId>, s: Socket)
    requires ids != [] && s < |next.socks| && next.socks[s] == Sock(ids[0], next.token, Connecting)
    requires Placed(next.socks, next.current) && Mapped(next, ids[0]) == Some(s)
    requires ids[0] in next.buffers && next.buffers[ids[0]] == []
    ensures MadeAs(OpenAll(next, ids[1..]), s, ids[0], ids[0] in ids[1..])
  {
    OpenAllBesides(next, ids[1..]);
    OpenAllBefore(next, ids[1..], s);
    if ids[0] !in ids[1..] { OpenAllOther(next, ids[1..], ids[0]); }
  }

  // ----- one socket -----

  lemma ValuesAre(token: Option<string>, socks: seq<Sock>, current: map<SocketId, Socket>, s: Socket)
    requires MappedOk(token, socks, current) && s < |socks|
    ensures s in current.Values <==> MapsTo(current, socks[s].id, s)
  {
    if s in current.Values {
      var id :| id in current && current[id] == s;
      assert EntryOk(token, socks, id, s);
    }
  }

  lemma MappedPlaced(token: Option<string>, socks: seq<Sock>, current: map<SocketId, Socket>)
    requires MappedOk(token, socks, current)
    ensures Placed(socks, current)
  {
    forall id | id in current ensures current[id] < |socks| && socks[current[id]].id == id {
      assert EntryOk(token, socks, id, current[id]);
    }
  }

  /** A socket that does not map to its id is closing or ended already. */
  lemma StrayIsShut(p: Proxy, s: Socket)
    requires NoneStray(p.socks, p.current) && s < |p.socks| && Mapped(p, p.socks[s].id) != Some(s)
    ensures ShutOne(p.socks[s]) == p.socks[s]
  {
  }

  lemma TokenState(p: Proxy, token: Option<string>, s: Socket)
    requires Tidy(p) && s < |p.socks|
    ensures var q := SetToken(p, token);
            && |q.socks| == |p.socks|
            && q.socks[s] == if token == p.token then p.socks[s] else ShutOne(p.socks[s])
  {
    ValuesAre(p.token, p.socks, p.current, s);
    if Mapped(p, p.socks[s].id) != Some(s) { StrayIsShut(p, s); }
  }

  lemma LoginState(p: Proxy, token: string, s: Socket)
    requires Tidy(p) && s < |p.socks| && token != ""
    ensures var q := Login(p, token);
            && s < |q.socks|
            && q.socks[s] == if p.token == Some(token) then p.socks[s] else ShutOne(p.socks[s])
  {
    TokenState(p, Some(token), s);
    SetTokenOk(p, Some(token));
    var q := SetToken(p, Some(token));
    MappedPlaced(q.token, q.socks, q.current);
    OpenAllBesides(q.(pending := []), q.pending);
    OpenAllBefore(q.(pending := []), q.pending, s);
  }

  lemma UnlinkState(p: Proxy, s: Socket)
    requires Tidy(p) && s < |p.socks|
    ensures var q := Unlink(p);
            && s < |q.socks|
            && q.socks[s] == if p.token.None? then p.socks[s] else ShutOne(p.socks[s])
  {
    TokenState(p, None, s);
    SetTokenOk(p, None);
    var q := SetToken(p, None);
    NoTokenNoSockets(q.socks, q.current);
    assert q.current.Values == {};
  }

  /** Closing what an id maps to closes what carries the id: the others are shut. */
  predicate OwnShut(p: Proxy, id: SocketId, s: Socket)
    requires s < |p.socks|
  {
    (if Mapped(p, id) == Some(s) then ShutOne(p.socks[s]) else p.socks[s])
    == (if p.socks[s].id == id then ShutOne(p.socks[s]) else p.socks[s])
  }

  lemma OwnState(p: Proxy, id: SocketId, s: Socket)
    requires Tidy(p) && s < |p.socks|
    ensures OwnShut(p, id, s)
  {
    if id in p.current { assert EntryOk(p.token, p.socks, id, p.current[id]); }
    if p.socks[s].id == id && Mapped(p, id) != Some(s) { StrayIsShut(p, s); }
  }

  lemma QuitState(p: Proxy, s: Socket)
    requires Tidy(p) && s < |p.socks|
    ensures var q := StepProxy(p, WillQuit);
            s < |q.socks| && q.socks[s] == ShutOne(p.socks[s])
  {
    ValuesAre(p.token, p.socks, p.current, s);
    if Mapped(p, p.socks[s].id) != Some(s) { StrayIsShut(p, s); }
  }

  lemma AliveInForce(p: Proxy, s: Socket)
    requires Tidy(p) && s < |p.socks|
    ensures InForce(p, s) <==> Mapped(p, p.socks[s].id) == Some(s)
    ensures Alive(p.socks[s]) ==> InForce(p, s)
  {
    if Mapped(p, p.socks[s].id) == Some(s) { assert EntryOk(p.token, p.socks, p.socks[s].id, s); }
    if Alive(p.socks[s]) { assert MapsTo(p.current, p.socks[s].id, s); }
  }

  lemma OpenState(p: Proxy, o: Socket, s: Socket)
    requires s < |p.socks| && (o < |p.socks| && Alive(p.socks[o]) ==> InForce(p, o))
    ensures var q := Connected(p, o);
            && |q.socks| == |p.socks|
            && q.socks[s] == p.socks[s].(state := StateAfter(p, SockOpen(o), s))
  {
  }

  predicate StateMoves(p: Proxy, e: ProxyEvent, s: Socket)
    requires s < |p.socks|
  {
    var q := StepProxy(p, e);
    s < |q.socks| && q.socks[s] == p.socks[s].(state := StateAfter(p, e, s))
  }

  lemma LoginMoves(p: Proxy, token: string, s: Socket)
    requires Tidy(p) && s < |p.socks| && token != ""
    ensures StateMoves(p, LoggedIn(token), s)
  {
    LoginState(p, token, s);
  }

  lemma UnlinkMoves(p: Proxy, s: Socket)
    requires Tidy(p) && s < |p.socks|
    ensures StateMoves(p, Unlinked, s)
  {
    UnlinkState(p, s);
  }

  lemma OpenAskMoves(p: Proxy, id: SocketId, s: Socket)
    requires s < |p.socks| && OwnShut(p, id, s)
    ensures StateMoves(p, OpenAsked(id), s)
  {
    if Usable(p.token) { OpenIsSeen(p, id, s); }
  }

  lemma CloseAskMoves(p: Proxy, id: SocketId, s: Socket)
    requires s < |p.socks| && OwnShut(p, id, s)
    ensures StateMoves(p, CloseAsked(id), s)
  {
  }

  lemma OpenMoves(p: Proxy, o: Socket, s: Socket)
    requires Tidy(p) && s < |p.socks|
    ensures StateMoves(p, SockOpen(o), s)
  {
    if o < |p.socks| { AliveInForce(p, o); }
    OpenState(p, o, s);
  }

  lemma WillQuitMoves(p: Proxy, s: Socket)
    requires Tidy(p) && s < |p.socks|
    ensures StateMoves(p, WillQuit, s)
  {
    QuitState(p, s);
  }

  /** What concerns no socket's life. */
  predicate IsTalk(e: ProxyEvent) {
    e.SendAsked? || e.SockMessage? || e.SockError? || e.GameTurned? || e.Callback? || e.BeforeQuit?
  }

  lemma TalkKeeps(p: Proxy, e: ProxyEvent)
    requires IsTalk(e)
    ensures var q := StepProxy(p, e); q.socks == p.socks && q.current == p.current && q.pending == p.pending
  {
    match e {
      case SendAsked(id, m) =>
      case SockMessage(o, m) =>
      case SockError(o) =>
      case GameTurned(_) =>
      case Callback(_) =>
      case BeforeQuit =>
    }
  }

  lemma TalkMoves(p: Proxy, e: ProxyEvent, s: Socket)
    requires s < |p.socks| && IsTalk(e)
    ensures StateMoves(p, e, s)
  {
    TalkKeeps(p, e);
    assert StateAfter(p, e, s) == p.socks[s].state;
  }

  lemma EndingMoves(p: Proxy, o: Socket, s: Socket)
    requires s < |p.socks|
    ensures StateMoves(p, SockEnding(o), s)
  {
  }

  lemma EndedMoves(p: Proxy, o: Socket, s: Socket)
    requires s < |p.socks|
    ensures StateMoves(p, SockClose(o), s)
  {
  }

  /** Socket by socket, over every event: its state moves exactly as it should, and
      nothing else about it ever changes. */
  lemma SocketsExactly(p: Proxy, e: ProxyEvent, s: Socket)
    requires Tidy(p) && Sensible(p, e) && s < |p.socks|
    ensures StateMoves(p, e, s)
  {
    match e {
      case LoggedIn(token) => LoginMoves(p, token, s);
      case Unlinked => UnlinkMoves(p, s);
      case OpenAsked(id) =>
        OwnState(p, id, s);
        OpenAskMoves(p, id, s);
      case CloseAsked(id) =>
        OwnState(p, id, s);
        CloseAskMoves(p, id, s);
      case SockOpen(o) => OpenMoves(p, o, s);
      case WillQuit => WillQuitMoves(p, s);
      case SockEnding(o) => EndingMoves(p, o, s);
      case SockClose(o) => EndedMoves(p, o, s);
      case _ => TalkMoves(p, e, s);
    }
  }

  // ----- one renderer id -----

  lemma OpenAllMade(p: Proxy, ids: seq<SocketId>)
    requires Placed(p.socks, p.current)
    ensures MadeFor(OpenAll(p, ids), |p.socks|, ids)
  {
    OpenAllBesides(p, ids);
    forall i | 0 <= i < |ids| ensures MadeAt(OpenAll(p, ids), |p.socks|, ids, i) {
      OpenAllMakes(p, ids, i);
    }
  }

  /** A login that changes the account opens every waiting id, in order, for the
      new account, and leaves no other id a socket. */
  lemma LoginMaps(p: Proxy, token: string, id: SocketId)
    requires Tidy(p) && token != "" && p.token != Some(token)
    ensures var q := Login(p, token);
            && MadeFor(q, |p.socks|, p.pending) && q.token == Some(token) && q.pending == []
            && (id !in p.pending ==> Mapped(q, id).None?)
  {
    var q := SetToken(p, Some(token)).(pending := []);
    OpenAllMade(q, p.pending);
    OpenAllBesides(q, p.pending);
    if id !in p.pending { OpenAllOther(q, p.pending, id); }
  }

  predicate MapMoves(p: Proxy, e: ProxyEvent, id: SocketId) {
    Mapped(StepProxy(p, e), id) == MappedAfter(p, e, id)
  }

  lemma NoTokenMaps(p: Proxy, id: SocketId)
    requires Tidy(p)
    ensures p.token.None? ==> Mapped(p, id).None?
  {
    if p.token.None? { NoTokenNoSockets(p.socks, p.current); }
  }

  lemma UnlinkMaps(p: Proxy, id: SocketId)
    requires p.token.None? ==> Mapped(p, id).None?
    ensures MapMoves(p, Unlinked, id)
  {
  }

  lemma SameLoginMaps(p: Proxy, token: string, id: SocketId)
    requires p.token == Some(token) && p.pending == []
    ensures MapMoves(p, LoggedIn(token), id)
  {
  }

  lemma CloseMaps(p: Proxy, s: Socket, id: SocketId)
    requires id in p.current ==> EntryOk(p.token, p.socks, id, p.current[id])
    ensures MapMoves(p, SockClose(s), id)
  {
  }

  lemma TalkMaps(p: Proxy, e: ProxyEvent, id: SocketId)
    requires IsTalk(e)
    ensures MapMoves(p, e, id)
  {
    TalkKeeps(p, e);
  }

  lemma AskMaps(p: Proxy, o: SocketId, id: SocketId)
    ensures MapMoves(p, OpenAsked(o), id) && MapMoves(p, CloseAsked(o), id)
  {
  }

  lemma NetMaps(p: Proxy, s: Socket, id: SocketId)
    ensures MapMoves(p, SockOpen(s), id) && MapMoves(p, SockEnding(s), id) && MapMoves(p, WillQuit, id)
  {
  }

  /** The id's socket, over every event but a login that changes the account: an
      open gives it a new one, and only a change of account, its close or the end
      of the socket takes it away. */
  lemma MapExactly(p: Proxy, e: ProxyEvent, id: SocketId)
    requires Tidy(p) && Sensible(p, e) && !(e.LoggedIn? && Reauths(p, e))
    ensures MapMoves(p, e, id)
  {
    match e {
      case LoggedIn(token) => SameLoginMaps(p, token, id);
      case Unlinked =>
        NoTokenMaps(p, id);
        UnlinkMaps(p, id);
      case SockClose(s) => CloseMaps(p, s, id);
      case OpenAsked(o) => AskMaps(p, o, id);
      case CloseAsked(o) => AskMaps(p, o, id);
      case SockOpen(s) => NetMaps(p, s, id);
      case SockEnding(s) => NetMaps(p, s, id);
      case WillQuit => NetMaps(p, 0, id);
      case _ => TalkMaps(p, e, id);
    }
  }

  // ----- new sockets -----

  /** The ids an event makes sockets for, in order. */
  function Opens(p: Proxy, e: ProxyEvent): seq<SocketId> {
    if e.OpenAsked? && Usable(p.token) then [e.id]
    else if e.LoggedIn? && Reauths(p, e) then p.pending else []
  }

  predicate OpensMade(p: Proxy, e: ProxyEvent) {
    MadeFor(StepProxy(p, e), |p.socks|, Opens(p, e))
  }

  lemma AskMade(p: Proxy, id: SocketId)
    ensures OpensMade(p, OpenAsked(id))
  {
    if Usable(p.token) {
      OpenIsSeen(p, id, 0);
      assert [id][1..] == [];
    }
  }

  lemma LoginMade(p: Proxy, token: string)
    requires Tidy(p) && token != ""
    ensures OpensMade(p, LoggedIn(token))
  {
    if p.token != Some(token) { LoginMaps(p, token, 0); } else { assert p.pending == []; }
  }

  lemma RestMade(p: Proxy, e: ProxyEvent)
    requires e.Unlinked? || e.CloseAsked? || e.SockOpen? || e.SockEnding? || e.SockClose? || e.WillQuit?
    ensures OpensMade(p, e)
  {
    match e {
      case Unlinked =>
      case CloseAsked(_) =>
      case SockOpen(_) =>
      case SockEnding(_) =>
      case SockClose(_) =>
      case WillQuit =>
    }
  }

  /** Sockets are made for the ids an event opens and for nothing else, each for the
      account of the moment, with an empty buffer. */
  lemma OpensExactly(p: Proxy, e: ProxyEvent)
    requires Tidy(p) && Sensible(p, e)
    ensures OpensMade(p, e)
  {
    match e {
      case LoggedIn(token) => LoginMade(p, token);
      case OpenAsked(id) => AskMade(p, id);
      case SendAsked(_, _) => TalkKeeps(p, e);
      case SockMessage(_, _) => TalkKeeps(p, e);
      case SockError(_) => TalkKeeps(p, e);
      case GameTurned(_) => TalkKeeps(p, e);
      case Callback(_) => TalkKeeps(p, e);
      case BeforeQuit => TalkKeeps(p, e);
      case _ => RestMade(p, e);
    }
  }

  // ----- nothing is left open behind the map -----

  lemma AliveFrom(p: Proxy, q: Proxy, e: ProxyEvent, s: Socket)
    requires s < |q.socks| && Alive(q.socks[s]) && NoneStray(p.socks, p.current)
    requires s < |p.socks| ==>
               && q.socks[s] == p.socks[s].(state := StateAfter(p, e, s))
               && (Reauths(p, e) || Mapped(q, p.socks[s].id) == MappedAfter(p, e, p.socks[s].id))
    requires MadeFor(q, |p.socks|, Opens(p, e))
    ensures MapsTo(q.current, q.socks[s].id, s)
  {
    if s < |p.socks| {
      assert MapsTo(p.current, p.socks[s].id, s);
    } else {
      var (ids, i) := (Opens(p, e), s - |p.socks|);
      assert MadeAt(q, |p.socks|, ids, i);
    }
  }

  lemma AliveStaysMapped(p: Proxy, e: ProxyEvent, s: Socket)
    requires Tidy(p) && Sensible(p, e)
    requires s < |StepProxy(p, e).socks| && Alive(StepProxy(p, e).socks[s])
    ensures MapsTo(StepProxy(p, e).current, StepProxy(p, e).socks[s].id, s)
  {
    OpensExactly(p, e);
    if s < |p.socks| {
      SocketsExactly(p, e, s);
      if !Reauths(p, e) { MapExactly(p, e, p.socks[s].id); }
    }
    AliveFrom(p, StepProxy(p, e), e, s);
  }

  lemma TidyKept(p: Proxy, e: ProxyEvent)
    requires Tidy(p) && Sensible(p, e)
    ensures Tidy(StepProxy(p, e))
  {
    StepProxyOk(p, e);
    var q := StepProxy(p, e);
    forall s: Socket | s < |q.socks| && Alive(q.socks[s]) ensures MapsTo(q.current, q.socks[s].id, s) {
      AliveStaysMapped(p, e, s);
    }
  }

  lemma {:induction false} TidyRun(p: Proxy, es: seq<ProxyEvent>)
    requires Tidy(p) && LegalRun(p, es)
    ensures Tidy(RunProxy(p, es))
    decreases es
  {
    if es != [] {
      TidyKept(p, es[0]);
      TidyRun(StepProxy(p, es[0]), es[1..]);
    }
  }

  /** Over every run no socket is left behind: one that is connecting or live is
      the one its id maps to, made for the account of the moment. */
  lemma NoSocketLeaks(environment: Option<string>, es: seq<ProxyEvent>, s: Socket)
    requires LegalRun(NewProxy(environment), es)
    ensures Tidy(RunProxy(NewProxy(environment), es))
    ensures var p := RunProxy(NewProxy(environment), es);
            s < |p.socks| && Alive(p.socks[s]) ==> MapsTo(p.current, p.socks[s].id, s) && p.socks[s].token == p.token
  {
    NewProxyOk(environment);
    TidyRun(NewProxy(environment), es);
    var p := RunProxy(NewProxy(environment), es);
    if s < |p.socks| { AliveInForce(p, s); }
  }
}
