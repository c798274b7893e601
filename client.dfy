/** The RPC client multiplexer of src/js/client.test.ts (`Client`) and of
    its older copy client.test.ts (`LegacyClient`). Each call waits for the
    socket to open, takes the counter as its `messageId`, advances the
    counter (back to 0 at the capacity), sends the request and adds a
    listener that resolves the call with the first inbound frame carrying
    that `messageId`, then removes itself.

    A call is named by its position among all calls made on the client
    (0, 1, 2, ...). The listeners are kept in the order they were added,
    which is the order the socket runs them in. */
module RpcClient {
  import opened Wire
  import Ids

  const DEFAULT_MAX_CONNECTIONS: int := 500
  const DEFAULT_MAX_WAITING_MESSAGES: int := 100

  /** A call waiting for the socket to open. */
  datatype Pending = Pending(call: nat, req: map<string, Json>)
  /** A registered listener: the call it resolves and the id it waits for. */
  datatype Waiter = Waiter(call: nat, messageId: int)
  /** A resolved call and the response it resolved with. */
  datatype Resolution = Resolution(call: nat, response: Json)

  /** The client's secret (only a non-empty one is kept) and its capacity. */
  datatype ClientConfig = ClientConfig(secret: Option<string>, cap: int)

  datatype ClientState = ClientState(
    ready: bool,
    counter: int,
    calls: nat,
    deferred: seq<Pending>,
    listeners: seq<Waiter>,
    // every frame handed to `ws.send`; the socket discards sends once it
    // is closing or closed, so this is not the list of frames delivered
    sent: seq<Json>,
    resolved: seq<Resolution>)

  const Initial: ClientState := ClientState(false, 0, 0, [], [], [], [])

  /** The secret the constructor keeps: `if (secret) this.secret = secret`. */
  function KeptSecret(secret: Option<string>): Option<string> {
    if secret.Some? && secret.value != "" then secret else None
  }

  /** The frame a call sends: `{secret, messageId, ...req}` or
      `{messageId, ...req}`; fields of the request come last and win. */
  function Request(secret: Option<string>, messageId: int, req: map<string, Json>): Json {
    JObj((if secret.Some? then map["secret" := JStr(secret.value)] else map[])
         + map["messageId" := JNum(messageId)] + req)
  }

  /** The listener's test: `Object.hasOwn(data, "messageId") &&
      data.messageId === messageId`. A frame that is not JSON, or is JSON
      null, makes the listener throw, so it matches nothing either. */
  predicate Matches(f: Frame, messageId: int) {
    f.Data? && f.j.JObj? && "messageId" in f.j.fields && f.j.fields["messageId"] == JNum(messageId)
  }

  /** One call once the socket is open: send with the counter's id, advance
      the counter, wait for the answer. */
  function Issue(cfg: ClientConfig, s: ClientState, p: Pending): ClientState {
    s.(counter := Ids.NextId(s.counter, cfg.cap),
       sent := s.sent + [Request(cfg.secret, s.counter, p.req)],
       listeners := s.listeners + [Waiter(p.call, s.counter)])
  }

  /** Several calls issued one after the other. */
  function IssueAll(cfg: ClientConfig, s: ClientState, ps: seq<Pending>): ClientState
    decreases |ps|
  {
    if ps == [] then s else Issue(cfg, IssueAll(cfg, s, ps[..|ps| - 1]), ps[|ps| - 1])
  }

  /** `call(req)`: before the socket opens the call only waits. */
  function CallStep(cfg: ClientConfig, s: ClientState, req: map<string, Json>): ClientState {
    var p := Pending(s.calls, req);
    if s.ready then Issue(cfg, s.(calls := s.calls + 1), p)
    else s.(calls := s.calls + 1, deferred := s.deferred + [p])
  }

  /** Several calls made one after the other. */
  function Calls(cfg: ClientConfig, s: ClientState, reqs: seq<map<string, Json>>): ClientState
    decreases |reqs|
  {
    if reqs == [] then s else CallStep(cfg, Calls(cfg, s, reqs[..|reqs| - 1]), reqs[|reqs| - 1])
  }

  /** The `open` event resolves `ready`, and the waiting calls go out in the
      order they were made. */
  function OpenStep(cfg: ClientConfig, s: ClientState): ClientState {
    if s.ready then s else IssueAll(cfg, s.(ready := true, deferred := []), s.deferred)
  }

  /** The calls an inbound frame resolves, in listener order. */
  function Matched(ls: seq<Waiter>, f: Frame): seq<Resolution>
    decreases |ls|
  {
    if ls == [] then []
    else Matched(ls[..|ls| - 1], f)
         + (if Matches(f, ls[|ls| - 1].messageId) then [Resolution(ls[|ls| - 1].call, f.j)] else [])
  }

  /** The listeners that stay registered after an inbound frame. */
  function Unmatched(ls: seq<Waiter>, f: Frame): seq<Waiter>
    decreases |ls|
  {
    if ls == [] then []
    else Unmatched(ls[..|ls| - 1], f) + (if Matches(f, ls[|ls| - 1].messageId) then [] else [ls[|ls| - 1]])
  }

  /** An inbound frame runs every listener: each matching one resolves its
      call with the frame and removes itself. */
  function FrameStep(s: ClientState, f: Frame): ClientState {
    s.(listeners := Unmatched(s.listeners, f), resolved := s.resolved + Matched(s.listeners, f))
  }

  /** `Client` of src/js/client.test.ts. */
  class Client {
    const url: string
    const secret: Option<string>
    const maxConnections: int
    var counter: int
    var ready: bool
    var calls: nat
    var deferred: seq<Pending>
    var listeners: seq<Waiter>
    var sent: seq<Json>
    var resolved: seq<Resolution>
    // set once `close()` has closed the socket; calls are not refused after
    // it, and their frames still go to `ws.send` (and so into `sent`)
    var closed: bool

    function Cfg(): ClientConfig
      reads this
    {
      ClientConfig(secret, maxConnections)
    }

    function State(): ClientState
      reads this
    {
      ClientState(ready, counter, calls, deferred, listeners, sent, resolved)
    }

    constructor (url: string, secret: Option<string> := None, maxConnections: int := DEFAULT_MAX_CONNECTIONS)
      ensures Cfg() == ClientConfig(KeptSecret(secret), maxConnections)
      ensures State() == Initial && !closed && this.url == url
    {
      this.url := url;
      ready := false;
      this.maxConnections := maxConnections;
      if secret.Some? && secret.value != "" {
        this.secret := secret;
      } else {
        this.secret := None;
      }
      counter := 0;
      calls := 0;
      deferred := [];
      listeners := [];
      sent := [];
      resolved := [];
      closed := false;
    }

    /** The body of `call` after `await this.ready`: take the id, advance the
        counter, send, add the listener. */
    method Send(p: Pending)
      modifies this
      ensures State() == Issue(Cfg(), old(State()), p) && closed == old(closed)
    {
      var messageId := counter;
      counter := counter + 1;
      if counter == maxConnections {
        counter := 0;
      }
      sent := sent + [Request(secret, messageId, p.req)];
      listeners := listeners + [Waiter(p.call, messageId)];
    }

    method Call(req: map<string, Json>)
      modifies this
      ensures State() == CallStep(Cfg(), old(State()), req) && closed == old(closed)
    {
      var p := Pending(calls, req);
      calls := calls + 1;
      if ready {
        Send(p);
      } else {
        deferred := deferred + [p];
      }
    }

    /** The socket opened: every call waiting on `ready` continues. */
    method OnOpen()
      modifies this
      ensures State() == OpenStep(Cfg(), old(State())) && closed == old(closed)
    {
      if ready {
        return;
      }
      var waiting := deferred;
      ready := true;
      deferred := [];
      ghost var start := State();
      for i := 0 to |waiting|
        invariant State() == IssueAll(Cfg(), start, waiting[..i]) && closed == old(closed)
      {
        assert waiting[..i + 1][..i] == waiting[..i];
        Send(waiting[i]);
      }
      assert waiting[..|waiting|] == waiting;
    }

    /** A `message` event: the listeners run in the order they were added. */
    method OnFrame(f: Frame)
      modifies this
      ensures State() == FrameStep(old(State()), f) && closed == old(closed)
    {
      var all := listeners;
      var kept: seq<Waiter> := [];
      for i := 0 to |all|
        invariant kept == Unmatched(all[..i], f)
        invariant resolved == old(resolved) + Matched(all[..i], f)
        invariant ready == old(ready) && counter == old(counter) && calls == old(calls)
        invariant deferred == old(deferred) && sent == old(sent) && closed == old(closed)
      {
        assert all[..i + 1][..i] == all[..i];
        if Matches(f, all[i].messageId) {
          resolved := resolved + [Resolution(all[i].call, f.j)];
        } else {
          kept := kept + [all[i]];
        }
      }
      assert all[..|all|] == all;
      listeners := kept;
    }

    method Close()
      modifies this
      ensures closed && State() == old(State())
    {
      closed := true;
    }
  }

  /** `Client` of client.test.ts: the same client, with a default capacity
      of 100, that advances its counter after sending. */
  class LegacyClient {
    const url: string
    const secret: Option<string>
    const maxWaitingMessages: int
    var lastMessageId: int
    var ready: bool
    var calls: nat
    var deferred: seq<Pending>
    var listeners: seq<Waiter>
    var sent: seq<Json>
    var resolved: seq<Resolution>
    // set once `close()` has closed the socket; calls are not refused after
    // it, and their frames still go to `ws.send` (and so into `sent`)
    var closed: bool

    function Cfg(): ClientConfig
      reads this
    {
      ClientConfig(secret, maxWaitingMessages)
    }

    function State(): ClientState
      reads this
    {
      ClientState(ready, lastMessageId, calls, deferred, listeners, sent, resolved)
    }

    constructor (url: string, secret: Option<string> := None, maxWaitingMessages: int := DEFAULT_MAX_WAITING_MESSAGES)
      ensures Cfg() == ClientConfig(KeptSecret(secret), maxWaitingMessages)
      ensures State() == Initial && !closed && this.url == url
    {
      this.url := url;
      ready := false;
      this.maxWaitingMessages := maxWaitingMessages;
      if secret.Some? && secret.value != "" {
        this.secret := secret;
      } else {
        this.secret := None;
      }
      lastMessageId := 0;
      calls := 0;
      deferred := [];
      listeners := [];
      sent := [];
      resolved := [];
      closed := false;
    }

    /** Take the id, send, then advance the counter and add the listener. */
    method Send(p: Pending)
      modifies this
      ensures State() == Issue(Cfg(), old(State()), p) && closed == old(closed)
    {
      var messageId := lastMessageId;
      sent := sent + [Request(secret, messageId, p.req)];
      lastMessageId := lastMessageId + 1;
      if lastMessageId == maxWaitingMessages {
        lastMessageId := 0;
      }
      listeners := listeners + [Waiter(p.call, messageId)];
    }

    method Call(req: map<string, Json>)
      modifies this
      ensures State() == CallStep(Cfg(), old(State()), req) && closed == old(closed)
    {
      var p := Pending(calls, req);
      calls := calls + 1;
      if ready {
        Send(p);
      } else {
        deferred := deferred + [p];
      }
    }

    method OnOpen()
      modifies this
      ensures State() == OpenStep(Cfg(), old(State())) && closed == old(closed)
    {
      if ready {
        return;
      }
      var waiting := deferred;
      ready := true;
      deferred := [];
      ghost var start := State();
      for i := 0 to |waiting|
        invariant State() == IssueAll(Cfg(), start, waiting[..i]) && closed == old(closed)
      {
        assert waiting[..i + 1][..i] == waiting[..i];
        Send(waiting[i]);
      }
      assert waiting[..|waiting|] == waiting;
    }

    method OnFrame(f: Frame)
      modifies this
      ensures State() == FrameStep(old(State()), f) && closed == old(closed)
    {
      var all := listeners;
      var kept: seq<Waiter> := [];
      for i := 0 to |all|
        invariant kept == Unmatched(all[..i], f)
        invariant resolved == old(resolved) + Matched(all[..i], f)
        invariant ready == old(ready) && lastMessageId == old(lastMessageId) && calls == old(calls)
        invariant deferred == old(deferred) && sent == old(sent) && closed == old(closed)
      {
        assert all[..i + 1][..i] == all[..i];
        if Matches(f, all[i].messageId) {
          resolved := resolved + [Resolution(all[i].call, f.j)];
        } else {
          kept := kept + [all[i]];
        }
      }
      assert all[..|all|] == all;
      listeners := kept;
    }

    method Close()
      modifies this
      ensures closed && State() == old(State())
    {
      closed := true;
    }
  }

  // ---------------------------------------------------------------------
  // Properties

  /** Calls made once the socket is open: when the counter stands at the
      id of call n, the k-th of the next calls is sent with the id of call
      n + k, and the counter ends at the id of call n + |reqs|. With
      `Ids.IdsCycle` this is the cycle 0, 1, ..., cap - 1, 0, ... */
  lemma ReadyCallsTakeSuccessiveIds(cfg: ClientConfig, s: ClientState, reqs: seq<map<string, Json>>, n: nat)
    requires s.ready && s.counter == Ids.IdAfter(n, cfg.cap)
    ensures var t := Calls(cfg, s, reqs);
      t.ready && t.counter == Ids.IdAfter(n + |reqs|, cfg.cap) &&
      |t.sent| == |s.sent| + |reqs| && t.sent[..|s.sent|] == s.sent &&
      forall k :: 0 <= k < |reqs| ==> t.sent[|s.sent| + k] == Request(cfg.secret, Ids.IdAfter(n + k, cfg.cap), reqs[k])
  {
    ReadyFrames(cfg, s, reqs, n);
    var t := Calls(cfg, s, reqs);
    var f := seq(|reqs|, k requires 0 <= k < |reqs| => Request(cfg.secret, Ids.IdAfter(n + k, cfg.cap), reqs[k]));
    assert t.sent == s.sent + f;
    assert t.sent[..|s.sent|] == s.sent;
    forall k | 0 <= k < |reqs|
      ensures t.sent[|s.sent| + k] == Request(cfg.secret, Ids.IdAfter(n + k, cfg.cap), reqs[k])
    {
      assert t.sent[|s.sent| + k] == f[k];
    }
  }

  /** The frames of `ReadyCallsTakeSuccessiveIds` as one sequence. */
  lemma {:induction false} ReadyFrames(cfg: ClientConfig, s: ClientState, reqs: seq<map<string, Json>>, n: nat)
    requires s.ready && s.counter == Ids.IdAfter(n, cfg.cap)
    ensures var t := Calls(cfg, s, reqs);
      t.ready && t.counter == Ids.IdAfter(n + |reqs|, cfg.cap) &&
      t.sent == s.sent + seq(|reqs|, k requires 0 <= k < |reqs| => Request(cfg.secret, Ids.IdAfter(n + k, cfg.cap), reqs[k]))
    decreases |reqs|
  {
    if reqs != [] {
      var init := reqs[..|reqs| - 1];
      ReadyFrames(cfg, s, init, n);
      var f0 := seq(|init|, k requires 0 <= k < |init| => Request(cfg.secret, Ids.IdAfter(n + k, cfg.cap), init[k]));
      var f := seq(|reqs|, k requires 0 <= k < |reqs| => Request(cfg.secret, Ids.IdAfter(n + k, cfg.cap), reqs[k]));
      assert f == f0 + [Request(cfg.secret, Ids.IdAfter(n + |init|, cfg.cap), reqs[|init|])];
    }
  }

  /** The same for calls that were waiting when the socket opened: they go
      out in the order they were made, with successive ids. */
  lemma DeferredCallsTakeSuccessiveIds(cfg: ClientConfig, s: ClientState, ps: seq<Pending>, n: nat)
    requires s.counter == Ids.IdAfter(n, cfg.cap)
    ensures var t := IssueAll(cfg, s, ps);
      t.ready == s.ready && t.deferred == s.deferred && t.calls == s.calls &&
      t.counter == Ids.IdAfter(n + |ps|, cfg.cap) &&
      |t.sent| == |s.sent| + |ps| && t.sent[..|s.sent|] == s.sent &&
      (forall k :: 0 <= k < |ps| ==> t.sent[|s.sent| + k] == Request(cfg.secret, Ids.IdAfter(n + k, cfg.cap), ps[k].req)) &&
      t.listeners == s.listeners + seq(|ps|, k requires 0 <= k < |ps| => Waiter(ps[k].call, Ids.IdAfter(n + k, cfg.cap)))
  {
    DeferredFrames(cfg, s, ps, n);
    DeferredListeners(cfg, s, ps, n);
    var t := IssueAll(cfg, s, ps);
    var f := seq(|ps|, k requires 0 <= k < |ps| => Request(cfg.secret, Ids.IdAfter(n + k, cfg.cap), ps[k].req));
    assert t.sent == s.sent + f;
    assert t.sent[..|s.sent|] == s.sent;
    forall k | 0 <= k < |ps|
      ensures t.sent[|s.sent| + k] == Request(cfg.secret, Ids.IdAfter(n + k, cfg.cap), ps[k].req)
    {
      assert t.sent[|s.sent| + k] == f[k];
    }
  }

  /** The frames of `DeferredCallsTakeSuccessiveIds` as one sequence, with
      the fields issuing leaves alone. */
  lemma {:induction false} DeferredFrames(cfg: ClientConfig, s: ClientState, ps: seq<Pending>, n: nat)
    requires s.counter == Ids.IdAfter(n, cfg.cap)
    ensures var t := IssueAll(cfg, s, ps);
      t.ready == s.ready && t.deferred == s.deferred && t.calls == s.calls &&
      t.counter == Ids.IdAfter(n + |ps|, cfg.cap) &&
      t.sent == s.sent + seq(|ps|, k requires 0 <= k < |ps| => Request(cfg.secret, Ids.IdAfter(n + k, cfg.cap), ps[k].req))
    decreases |ps|
  {
    if ps != [] {
      var init := ps[..|ps| - 1];
      DeferredFrames(cfg, s, init, n);
      var f0 := seq(|init|, k requires 0 <= k < |init| => Request(cfg.secret, Ids.IdAfter(n + k, cfg.cap), init[k].req));
      var f := seq(|ps|, k requires 0 <= k < |ps| => Request(cfg.secret, Ids.IdAfter(n + k, cfg.cap), ps[k].req));
      assert f == f0 + [Request(cfg.secret, Ids.IdAfter(n + |init|, cfg.cap), ps[|init|].req)];
    }
  }

  /** The listeners of `DeferredCallsTakeSuccessiveIds` as one sequence. */
  lemma {:induction false} DeferredListeners(cfg: ClientConfig, s: ClientState, ps: seq<Pending>, n: nat)
    requires s.counter == Ids.IdAfter(n, cfg.cap)
    ensures var t := IssueAll(cfg, s, ps);
      t.counter == Ids.IdAfter(n + |ps|, cfg.cap) &&
      t.listeners == s.listeners + seq(|ps|, k requires 0 <= k < |ps| => Waiter(ps[k].call, Ids.IdAfter(n + k, cfg.cap)))
    decreases |ps|
  {
    if ps != [] {
      var init := ps[..|ps| - 1];
      DeferredListeners(cfg, s, init, n);
      var w0 := seq(|init|, k requires 0 <= k < |init| => Waiter(init[k].call, Ids.IdAfter(n + k, cfg.cap)));
      var w := seq(|ps|, k requires 0 <= k < |ps| => Waiter(ps[k].call, Ids.IdAfter(n + k, cfg.cap)));
      assert w == w0 + [Waiter(ps[|init|].call, Ids.IdAfter(n + |init|, cfg.cap))];
    }
  }

  /** Before the socket opens a call sends nothing and registers no
      listener; it only waits. */
  lemma NothingSentBeforeReady(cfg: ClientConfig, s: ClientState, req: map<string, Json>)
    requires !s.ready
    ensures var t := CallStep(cfg, s, req);
      t.sent == s.sent && t.listeners == s.listeners && t.counter == s.counter &&
      t.deferred == s.deferred + [Pending(s.calls, req)]
  {
  }

  /** Opening sends exactly the waiting calls, in the order they were made,
      and leaves none waiting. */
  lemma OpenFlushesDeferred(cfg: ClientConfig, s: ClientState, n: nat)
    requires !s.ready && s.counter == Ids.IdAfter(n, cfg.cap)
    ensures var t := OpenStep(cfg, s);
      t.ready && t.deferred == [] && |t.sent| == |s.sent| + |s.deferred| &&
      forall k :: 0 <= k < |s.deferred| ==>
        t.sent[|s.sent| + k] == Request(cfg.secret, Ids.IdAfter(n + k, cfg.cap), s.deferred[k].req)
  {
    DeferredCallsTakeSuccessiveIds(cfg, s.(ready := true, deferred := []), s.deferred, n);
  }

  /** The sent frame carries `secret` exactly when the client kept one (for
      requests that have no `secret` field of their own), always carries
      the call's `messageId` unless the request overrides it, and carries
      every field of the request. */
  lemma RequestFields(secret: Option<string>, messageId: int, req: map<string, Json>)
    ensures var r := Request(secret, messageId, req);
      r.JObj? &&
      ("secret" !in req ==>
         ("secret" in r.fields <==> secret.Some?) && (secret.Some? ==> r.fields["secret"] == JStr(secret.value))) &&
      ("messageId" !in req ==> r.fields["messageId"] == JNum(messageId)) &&
      (forall k :: k in req ==> k in r.fields && r.fields[k] == req[k])
  {
  }

  /** An empty secret is not kept, so its frames carry none. */
  lemma EmptySecretNotSent(messageId: int, req: map<string, Json>)
    requires "secret" !in req
    ensures "secret" !in Request(KeptSecret(Some("")), messageId, req).fields
  {
  }

  /** A listener is removed exactly when the frame matches its id. */
  lemma {:induction false} UnmatchedExactly(ls: seq<Waiter>, f: Frame, w: Waiter)
    ensures w in Unmatched(ls, f) <==> w in ls && !Matches(f, w.messageId)
    decreases |ls|
  {
    if ls != [] {
      var init := ls[..|ls| - 1];
      UnmatchedExactly(init, f, w);
      assert ls == init + [ls[|ls| - 1]];
    }
  }

  /** A call is resolved exactly when one of its listeners matches, and
      then with the frame itself. */
  lemma {:induction false} MatchedExactly(ls: seq<Waiter>, f: Frame, r: Resolution)
    ensures r in Matched(ls, f) <==>
            f.Data? && r.response == f.j && exists w :: w in ls && w.call == r.call && Matches(f, w.messageId)
    decreases |ls|
  {
    if ls != [] {
      var init := ls[..|ls| - 1];
      var last := ls[|ls| - 1];
      MatchedExactly(init, f, r);
      assert ls == init + [last];
      if f.Data? && r.response == f.j && exists w :: w in ls && w.call == r.call && Matches(f, w.messageId) {
        var w :| w in ls && w.call == r.call && Matches(f, w.messageId);
        if w != last {
          assert w in init;
        }
      }
    }
  }

  /** A frame that no waiting call's id matches (a frame without
      `messageId`, one that is not JSON, a stale id) changes nothing. */
  lemma {:induction false} UnmatchedFrameIgnored(ls: seq<Waiter>, f: Frame)
    requires forall i :: 0 <= i < |ls| ==> !Matches(f, ls[i].messageId)
    ensures Unmatched(ls, f) == ls && Matched(ls, f) == []
    decreases |ls|
  {
    if ls != [] {
      UnmatchedFrameIgnored(ls[..|ls| - 1], f);
    }
  }

  /** After a frame, no listener for its id is left: each call resolves at
      most once. */
  lemma ResolvedCallsStopListening(s: ClientState, f: Frame, id: int)
    requires Matches(f, id)
    ensures forall w :: w in FrameStep(s, f).listeners ==> w.messageId != id
  {
    forall w | w in FrameStep(s, f).listeners
      ensures w.messageId != id
    {
      UnmatchedExactly(s.listeners, f, w);
    }
  }
}
