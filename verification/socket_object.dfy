/** The main process's socket handlers over its own variables, proved against
    the steps of the model. */
module SocketObject {
  import opened Texts
  import opened Snapshots
  import opened ExportCursors
  import opened BridgeRelay
  import opened BridgeRuns
  import opened SocketProxy

  class SocketHandlers {
    const bridge: LocalBridgeRelay
    var sessionToken: Option<string>
    var socks: seq<Sock>
    var relaySockets: map<SocketId, Socket>
    var relaySendBuffers: map<SocketId, seq<Message>>
    var pendingWsOpens: seq<SocketId>
    var isQuitting: bool
    var told: multiset<Notice>

    ghost function View(): Proxy
      reads this, bridge
    {
      Proxy(sessionToken, bridge.View(), socks, relaySockets, relaySendBuffers, pendingWsOpens, isQuitting, told)
    }

    constructor (environment: Option<string>)
      ensures View() == NewProxy(environment) && fresh(bridge)
    {
      bridge := new LocalBridgeRelay(environment);
      sessionToken, socks, relaySockets, relaySendBuffers := None, [], map[], map[];
      pendingWsOpens, isQuitting, told := [], false, multiset{};
    }

    /** Closes the sockets one by one. */
    method CloseEach(which: set<Socket>)
      modifies this`socks, bridge`open
      ensures View() == CloseSocks(old(View()), which)
    {
      var s := 0;
      while s < |socks|
        modifies this`socks
        invariant s <= |socks| == |old(socks)|
        invariant forall t :: 0 <= t < s ==> socks[t] == if t in which then ShutOne(old(socks)[t]) else old(socks)[t]
        invariant forall t :: s <= t < |socks| ==> socks[t] == old(socks)[t]
      {
        if s in which && (socks[s].state.Connecting? || socks[s].state.Live?) {
          socks := socks[s := socks[s].(state := Closing)];
        }
        s := s + 1;
      }
      assert socks == Shut(old(socks), which);
      bridge.open := bridge.open - which;
    }

    // The bridge's part of a handler, on its own.

    method BridgeAuth(token: Option<string>)
      modifies bridge
      ensures bridge.View() == StepRelay(old(bridge.View()), Auth(token))
    {
      bridge.ChangeAuth(token);
    }

    method BridgeUp(id: SocketId, s: Socket, token: Option<string>)
      modifies bridge
      ensures bridge.View() == StepRelay(old(bridge.View()), Up(id, s, token))
    {
      bridge.open := bridge.open + {s};
      var _ := bridge.SocketOpened(id, s, token);
    }

    method BridgeGone(id: SocketId, s: Socket)
      modifies bridge
      ensures bridge.View() == StepRelay(StepRelay(old(bridge.View()), Down({s})), Gone(id, s))
    {
      bridge.open := bridge.open - {s};
      bridge.SocketClosed(id, s);
    }

    method SetSessionToken(token: Option<string>)
      modifies this`sessionToken, this`socks, this`relaySockets, this`relaySendBuffers, this`told, bridge
      ensures View() == SetToken(old(View()), token)
    {
      if sessionToken == token { return; }
      BridgeAuth(token);
      sessionToken := token;
      assert View() == old(View()).(relay := StepRelay(old(bridge.View()), Auth(token)), token := token);
      CloseEach(relaySockets.Values);
      told := told + multiset(Closings(relaySockets));
      relaySockets, relaySendBuffers := map[], map[];
    }

    method ReleaseSocket(id: SocketId)
      modifies this`socks, bridge
      ensures View() == Release(old(View()), id)
    {
      if id in relaySockets {
        bridge.SocketClosed(id, relaySockets[id]);
        CloseEach({relaySockets[id]});
      }
    }

    method OpenRelaySocket(id: SocketId)
      modifies this`socks, this`relaySockets, this`relaySendBuffers, bridge
      ensures View() == OpenSocket(old(View()), id)
    {
      ReleaseSocket(id);
      relaySockets := relaySockets[id := |socks|];
      relaySendBuffers := relaySendBuffers[id := []];
      socks := socks + [Sock(id, sessionToken, Connecting)];
    }

    method FlushPendingWsOpens()
      modifies this`socks, this`relaySockets, this`relaySendBuffers, this`pendingWsOpens, bridge
      ensures View() == OpenAll(old(View()).(pending := []), old(View()).pending)
    {
      ghost var goal := OpenAll(View().(pending := []), pendingWsOpens);
      while pendingWsOpens != []
        invariant OpenAll(View().(pending := []), pendingWsOpens) == goal
        decreases |pendingWsOpens|
      {
        var id := pendingWsOpens[0];
        ghost var before := View();
        pendingWsOpens := pendingWsOpens[1..];
        OpenRelaySocket(id);
        OpenIgnoresPending(before, before.pending[1..], id);
      }
    }

    method LogIn(token: string)
      modifies this, bridge
      ensures View() == Login(old(View()), token)
    {
      SetSessionToken(Some(token));
      FlushPendingWsOpens();
    }

    method RefusePending()
      modifies this`told, this`pendingWsOpens
      ensures told == old(told) + Refusals(old(pendingWsOpens)) && pendingWsOpens == []
    {
      while pendingWsOpens != []
        invariant told + Refusals(pendingWsOpens) == old(told) + Refusals(old(pendingWsOpens))
        decreases |pendingWsOpens|
      {
        told := told + multiset{ClosedTo(pendingWsOpens[0], None)};
        pendingWsOpens := pendingWsOpens[1..];
      }
    }

    method FinishUnlink()
      modifies this, bridge
      ensures View() == Unlink(old(View()))
    {
      SetSessionToken(None);
      RefusePending();
      CloseEach(relaySockets.Values);
      relaySockets, relaySendBuffers := map[], map[];
    }

    method OnIpcOpen(id: SocketId)
      modifies this, bridge
      ensures View() == AskOpen(old(View()), id)
    {
      if sessionToken.None? || sessionToken.value == "" {
        if |pendingWsOpens| >= OPEN_QUEUE_MAX {
          // The one that waited longest gives way.
          told := told + multiset{ClosedTo(pendingWsOpens[0], None)};
          pendingWsOpens := pendingWsOpens[1..];
        }
        pendingWsOpens := pendingWsOpens + [id];
        return;
      }
      OpenRelaySocket(id);
    }

    method OnIpcSend(id: SocketId, data: Message)
      modifies this`relaySendBuffers, bridge`log
      ensures View() == AskSend(old(View()), id, data)
    {
      if id !in relaySockets || relaySockets[id] >= |socks| { return; }
      var s := relaySockets[id];
      var routed := bridge.RouteOut(id, s, data);
      if routed.None? { return; }
      if socks[s].state.Live? {
        if s in bridge.open { bridge.log := bridge.log + [Wire(s, RendererFrame(routed.value))]; }
      } else if socks[s].state.Connecting? && id in relaySendBuffers {
        var buffer := relaySendBuffers[id];
        if |buffer| >= SEND_BUF_MAX { buffer := buffer[1..]; }
        relaySendBuffers := relaySendBuffers[id := buffer + [routed.value]];
      }
    }

    method OnIpcClose(id: SocketId)
      modifies this, bridge
      ensures View() == AskClose(old(View()), id)
    {
      pendingWsOpens := WithoutFirst(pendingWsOpens, id);
      ReleaseSocket(id);
      relaySockets, relaySendBuffers := relaySockets - {id}, relaySendBuffers - {id};
    }

    method FlushBuffer(id: SocketId, s: Socket, buffer: seq<Message>)
      modifies bridge`log
      ensures bridge.View() == Flush(old(bridge.View()), id, s, buffer)
    {
      ghost var start := bridge.View();
      var k := 0;
      while k < |buffer|
        invariant k <= |buffer|
        invariant Flush(bridge.View(), id, s, buffer[k..]) == Flush(start, id, s, buffer)
      {
        var routed := bridge.RouteOut(id, s, buffer[k]);
        if routed.Some? && s in bridge.open {
          bridge.log := bridge.log + [Wire(s, RendererFrame(routed.value))];
        }
        k := k + 1;
      }
    }

    method OnSockOpen(s: Socket)
      requires s < |socks| && socks[s].state.Connecting?
      modifies this, bridge
      ensures View() == Connected(old(View()), s)
    {
      var id, token := socks[s].id, socks[s].token;
      socks := socks[s := socks[s].(state := Live)];
      if id !in relaySockets || relaySockets[id] != s || token != sessionToken || isQuitting {
        CloseEach({s});
        return;
      }
      BridgeUp(id, s, token);
      var buffer := if id in relaySendBuffers then relaySendBuffers[id] else [];
      relaySendBuffers := relaySendBuffers - {id};
      FlushBuffer(id, s, buffer);
      told := told + multiset{OpenedTo(id, s)};
    }

    method OnSockMessage(s: Socket, data: Message)
      modifies this`told, bridge`binding, bridge`log
      ensures View() == Received(old(View()), s, data)
    {
      if s >= |socks| || socks[s].id !in relaySockets || relaySockets[socks[s].id] != s
         || socks[s].token != sessionToken { return; }
      var id := socks[s].id;
      match data {
        case Plain(text) => told := told + multiset{TextTo(id, s, text)};
        case Framed(f) =>
          var passes := bridge.RouteIn(id, s, f);
          if passes { bridge.log := bridge.log + [Forwarded(id, s, f)]; }
      }
    }

    method OnSockClose(s: Socket)
      requires s < |socks| && !socks[s].state.Ended?
      modifies this, bridge
      ensures View() == Dropped(old(View()), s)
    {
      var id := socks[s].id;
      socks := socks[s := socks[s].(state := Ended)];
      BridgeGone(id, s);
      if id !in relaySockets || relaySockets[id] != s { return; }
      relaySockets, relaySendBuffers := relaySockets - {id}, relaySendBuffers - {id};
      told := told + multiset{ClosedTo(id, Some(s))};
    }

    method OnBeforeQuit()
      modifies this`isQuitting, bridge
      ensures View() == StepProxy(old(View()), BeforeQuit)
    {
      isQuitting := true;
      bridge.Quit();
    }
  }

  /** Opening a socket neither reads nor changes the queue of waiting opens. */
  lemma OpenIgnoresPending(p: Proxy, rest: seq<SocketId>, id: SocketId)
    ensures OpenSocket(p.(pending := rest), id).(pending := []) == OpenSocket(p.(pending := []), id)
  {
  }
}
