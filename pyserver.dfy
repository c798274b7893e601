/** The Python predecessor of the relay (main.py): `make_handler`'s
    per-socket handler and `make_payload`.

    Every socket runs the same handler. A frame equal to `init:<secret>`
    claims the Steam role for its socket; any other frame on the Steam
    socket is an answer to route back, and on any other socket a client
    request to forward. Internal ids count up to MAX_MESSAGE_ID and wrap
    to 0; unlike the Rust relay, routing an answer removes the table
    entries it used.

    Python's exceptions matter here: an exception nobody catches ends the
    socket's handler, and the server then closes that socket. The model
    records such sockets in `closed`; a closed socket handles no more
    frames, and sending to it raises. */
module PyServer {
  import opened Wire
  import Ids
  import PayloadTemplate

  const MAX_MESSAGE_ID: int := 100

  /** The parts of `Context` the handler reads but never writes. */
  datatype PyConfig = PyConfig(rpcSecret: string, apiSecrets: seq<string>)

  /** The parts of `Context` the handler updates, and what the sockets
      see. `reconnecting` is `Context.reconnecting`. */
  datatype PyState = PyState(
    steamSocket: Option<ConnId>,
    messageMap: map<int, ConnId>,
    idMap: map<int, Json>,
    lastMessageId: int,
    reconnecting: bool,
    closed: set<ConnId>,
    sent: seq<Delivery>)

  const Initial: PyState := PyState(None, map[], map[], 0, false, {}, [])

  predicate IsSubstring(p: string, t: string) {
    exists i :: 0 <= i <= |t| && IsPrefix(p, t[i..])
  }

  /** Python's `key in msg` for whatever `json.loads` returned: a key of a
      dict, an element of a list, a substring of a str. For a number, a
      bool or None the test raises TypeError (None here). */
  function PyHas(msg: Json, key: string): (r: Option<bool>)
    ensures r.None? <==> !(msg.JObj? || msg.JArr? || msg.JStr?)
    ensures msg.JObj? ==> r == Some(key in msg.fields)
  {
    match msg
    case JObj(fields) => Some(key in fields)
    case JArr(items) => Some(JStr(key) in items)
    case JStr(t) => Some(IsSubstring(key, t))
    case _ => None
  }

  /** How a JSON value behaves as a key of a dict whose keys are ints:
      numbers are themselves, `True` and `False` hash and compare as 1 and
      0, a str or None matches no key, a list or dict is unhashable and
      raises TypeError. */
  datatype PyKey = IntKey(k: int) | NoIntKey | Unhashable

  function KeyOf(v: Json): PyKey {
    match v
    case JNum(n) => IntKey(n)
    case JBool(b) => IntKey(if b then 1 else 0)
    case JStr(_) => NoIntKey
    case JNull => NoIntKey
    case JArr(_) => Unhashable
    case JObj(_) => Unhashable
  }

  /** An uncaught exception: the handler ends and the socket is closed.
      In main.py the `finally` of lines 256-263 runs on that same exit; here
      it is the separate step `OnClose` (or `OnCloseAsWritten`), which must
      follow for a crashed Steam socket to start a reconnection. */
  function Crash(s: PyState, conn: ConnId): PyState {
    s.(closed := s.closed + {conn})
  }

  /** `await socket.send(json.dumps({"success": False, "error": error}))`
      to the socket whose frame is being handled. */
  function Reply(s: PyState, conn: ConnId, error: string): PyState {
    s.(sent := s.sent + [Delivery(conn, Data(JObj(Failure(error))))])
  }

  /** The frame sent to Steam for a client request: the internal id, the
      Steam secret, the command, and `args` only when the client sent it. */
  function Outgoing(cfg: PyConfig, fields: map<string, Json>, id: int): map<string, Json>
    requires "command" in fields
  {
    map["messageId" := JNum(id), "secret" := JStr(cfg.rpcSecret), "command" := fields["command"]]
    + (if "args" in fields then map["args" := fields["args"]] else map[])
  }

  /** main.py:220-251. The id and the client's socket are recorded before
      anything can fail; a request that is not a dict then fails on
      `msg["messageId"]` or `msg["command"]`, and a send to a closed Steam
      socket raises ConnectionClosed. */
  function Forward(cfg: PyConfig, s: PyState, conn: ConnId, msg: Json): PyState
    requires s.steamSocket.Some? && PyHas(msg, "command") == Some(true)
  {
    var id := s.lastMessageId;
    var s1 := s.(lastMessageId := Ids.NextId(id, MAX_MESSAGE_ID), messageMap := s.messageMap[id := conn]);
    if !msg.JObj? then Crash(s1, conn)
    else
      var s2 := if "messageId" in msg.fields then s1.(idMap := s1.idMap[id := msg.fields["messageId"]]) else s1;
      if s.steamSocket.value in s.closed then Crash(s2, conn)
      else s2.(sent := s2.sent + [Delivery(s.steamSocket.value, Data(JObj(Outgoing(cfg, msg.fields, id))))])
  }

  /** What the checks of main.py:150-218 decide about a client frame. */
  datatype ClientOutcome = Dropped | Refused(error: string) | Forwarded

  function ClientCheck(cfg: PyConfig, s: PyState, f: Frame): (c: ClientOutcome)
    ensures c.Forwarded? ==> f.Data? && s.steamSocket.Some? && PyHas(f.j, "command") == Some(true)
  {
    if f.Undecodable? then Dropped
    else if f.Text? then Refused("Message is not valid JSON")
    else
      var msg := f.j;
      match PyHas(msg, "command")
      case None => Dropped
      case Some(false) => Refused("No command found")
      case Some(true) =>
        if |cfg.apiSecrets| > 0 && PyHas(msg, "secret") == Some(false) then Refused("A secret is required!")
        else if |cfg.apiSecrets| > 0 && !msg.JObj? then Dropped
        else if |cfg.apiSecrets| > 0 && (forall t :: t in cfg.apiSecrets ==> msg.fields["secret"] != JStr(t)) then
          Refused("Invalid secret! Are you a hacker?")
        else if s.steamSocket.None? then Refused("Not connected to Steam")
        else Forwarded
  }

  /** A frame on a socket other than the Steam socket (main.py:149-251):
      an uncaught exception closes the socket, a refusal is answered, and a
      request that passes every check is forwarded. */
  function ClientMessage(cfg: PyConfig, s: PyState, conn: ConnId, f: Frame): PyState {
    match ClientCheck(cfg, s, f)
    case Dropped => Crash(s, conn)
    case Refused(error) => Reply(s, conn, error)
    case Forwarded => Forward(cfg, s, conn, f.j)
  }

  /** The answer as the client gets it: `messageId` is the client's own id
      when one was recorded, and is removed otherwise. */
  function Restored(s: PyState, fields: map<string, Json>, k: int): map<string, Json> {
    if k in s.idMap then fields["messageId" := s.idMap[k]] else fields - {"messageId"}
  }

  /** main.py:134-148: both entries for the id are removed, and the answer
      is sent to the client; a closed client raises ConnectionClosed,
      which is caught. */
  function Route(s: PyState, fields: map<string, Json>, k: int): PyState
    requires k in s.messageMap
  {
    var client := s.messageMap[k];
    var s1 := s.(messageMap := s.messageMap - {k}, idMap := s.idMap - {k});
    if client in s.closed then s1
    else s1.(sent := s1.sent + [Delivery(client, Data(JObj(Restored(s, fields, k))))])
  }

  /** A frame on the Steam socket (main.py:123-148). */
  function SteamMessage(s: PyState, conn: ConnId, f: Frame): PyState {
    if !f.Data? then Crash(s, conn)
    else match PyHas(f.j, "messageId")
      case None => Crash(s, conn)
      case Some(false) => s
      case Some(true) =>
        if !f.j.JObj? then Crash(s, conn)
        else match KeyOf(f.j.fields["messageId"])
          case Unhashable => Crash(s, conn)
          case NoIntKey => s
          case IntKey(k) => if k in s.messageMap then Route(s, f.j.fields, k) else s
  }

  /** One frame on one socket, the body of `async for message in socket`,
      as main.py:109-117 evidently intends it (the corrected half of the
      main.py:115 finding). The correct `init:` frame is refused as a
      replay while a Steam socket is set and no reconnection is under way;
      otherwise its socket becomes the Steam socket and the reconnection,
      if any, is over. */
  function OnFrame(cfg: PyConfig, s: PyState, conn: ConnId, f: Frame): PyState {
    if conn in s.closed then s
    else if f == Text("init:" + cfg.rpcSecret) then
      if s.steamSocket.Some? && !s.reconnecting then s else s.(steamSocket := Some(conn), reconnecting := false)
    else if f.Text? && IsPrefix("init:", f.s) then s
    else if s.steamSocket == Some(conn) then SteamMessage(s, conn, f)
    else ClientMessage(cfg, s, conn, f)
  }

  /** The socket closes and its handler's `finally` runs, as
      main.py:256-263 evidently intends it: losing the Steam socket starts a
      reconnection, unless one is already under way. The reconnect task
      itself is not modelled. */
  function OnClose(s: PyState, conn: ConnId): PyState {
    if s.steamSocket == Some(conn) && !s.reconnecting then
      s.(closed := s.closed + {conn}, reconnecting := true)
    else s.(closed := s.closed + {conn})
  }

  /** Frame handling as written: `reconnecting = False` on main.py:115
      binds a local of the handler, so the init frame that ends a
      reconnection leaves the context's flag set. */
  function OnFrameAsWritten(cfg: PyConfig, s: PyState, conn: ConnId, f: Frame): PyState {
    if conn !in s.closed && f == Text("init:" + cfg.rpcSecret) && s.reconnecting then
      s.(steamSocket := Some(conn))
    else OnFrame(cfg, s, conn, f)
  }

  /** The `finally` as written: `reconnecting` and `closing` are locals of
      the handler, unbound at that point, so for the Steam socket the test
      on main.py:258 raises UnboundLocalError before anything is recorded
      or a reconnect is started. */
  function OnCloseAsWritten(s: PyState, conn: ConnId): PyState {
    s.(closed := s.closed + {conn})
  }

  // ---------------------------------------------------------------------
  // The handler as the source writes it.

  class Context {
    var steamSocket: Option<ConnId>
    var messageMap: map<int, ConnId>
    var idMap: map<int, Json>
    var lastMessageId: int
    var reconnecting: bool
    const rpcSecret: string
    const apiSecrets: seq<string>
    /** Sockets whose handler has ended. */
    var closed: set<ConnId>
    /** Frames written to sockets, in order. */
    var sent: seq<Delivery>

    function Cfg(): PyConfig {
      PyConfig(rpcSecret, apiSecrets)
    }

    function State(): PyState
      reads this
    {
      PyState(steamSocket, messageMap, idMap, lastMessageId, reconnecting, closed, sent)
    }

    /** `Context()` after `main` has set the secret and loaded the API
        secrets. */
    constructor (rpcSecret: string, apiSecrets: seq<string>)
      ensures Cfg() == PyConfig(rpcSecret, apiSecrets)
      ensures State() == Initial
    {
      this.rpcSecret := rpcSecret;
      this.apiSecrets := apiSecrets;
      steamSocket := None;
      messageMap := map[];
      idMap := map[];
      lastMessageId := 0;
      reconnecting := false;
      closed := {};
      sent := [];
    }

    method Send(to: ConnId, j: Json)
      modifies this
      ensures State() == old(State()).(sent := old(sent) + [Delivery(to, Data(j))])
    {
      sent := sent + [Delivery(to, Data(j))];
    }

    method HandleSteamMessage(conn: ConnId, f: Frame)
      modifies this
      ensures State() == SteamMessage(old(State()), conn, f)
    {
      if !f.Data? {
        closed := closed + {conn};
        return;
      }
      var msg := f.j;
      var has := PyHas(msg, "messageId");
      if has.None? || (has.value && !msg.JObj?) {
        closed := closed + {conn};
        return;
      }
      if !has.value {
        return;
      }
      var key := KeyOf(msg.fields["messageId"]);
      if key.Unhashable? {
        closed := closed + {conn};
        return;
      }
      if key.IntKey? && key.k in messageMap {
        var id := key.k;
        var client := messageMap[id];
        messageMap := messageMap - {id};
        var out := msg.fields;
        if id in idMap {
          out := out["messageId" := idMap[id]];
          idMap := idMap - {id};
        } else {
          out := out - {"messageId"};
        }
        if client !in closed {
          Send(client, JObj(out));
        }
      }
    }

    method HandleClientMessage(conn: ConnId, f: Frame)
      modifies this
      ensures State() == ClientMessage(Cfg(), old(State()), conn, f)
    {
      if f.Undecodable? {
        closed := closed + {conn};
        return;
      }
      if f.Text? {
        Send(conn, JObj(Failure("Message is not valid JSON")));
        return;
      }
      var msg := f.j;
      var hasCommand := PyHas(msg, "command");
      if hasCommand.None? {
        closed := closed + {conn};
        return;
      }
      if !hasCommand.value {
        Send(conn, JObj(Failure("No command found")));
        return;
      }
      if |apiSecrets| > 0 {
        if PyHas(msg, "secret") == Some(false) {
          Send(conn, JObj(Failure("A secret is required!")));
          return;
        }
        if !msg.JObj? {
          closed := closed + {conn};
          return;
        }
        if forall t :: t in apiSecrets ==> msg.fields["secret"] != JStr(t) {
          Send(conn, JObj(Failure("Invalid secret! Are you a hacker?")));
          return;
        }
      }
      if steamSocket.None? {
        Send(conn, JObj(Failure("Not connected to Steam")));
        return;
      }
      var id := lastMessageId;
      lastMessageId := lastMessageId + 1;
      if lastMessageId == MAX_MESSAGE_ID {
        lastMessageId := 0;
      }
      messageMap := messageMap[id := conn];
      if !msg.JObj? {
        closed := closed + {conn};
        return;
      }
      if "messageId" in msg.fields {
        idMap := idMap[id := msg.fields["messageId"]];
      }
      if steamSocket.value in closed {
        closed := closed + {conn};
        return;
      }
      Send(steamSocket.value, JObj(Outgoing(Cfg(), msg.fields, id)));
    }

    /** One frame, as `handler` treats it; `reconnecting = False` only
        binds a local, so the context's flag is left alone. */
    method Handle(conn: ConnId, f: Frame)
      modifies this
      ensures State() == OnFrameAsWritten(Cfg(), old(State()), conn, f)
    {
      if conn in closed {
        return;
      }
      if f == Text("init:" + rpcSecret) {
        if steamSocket.Some? && !reconnecting {
          // Replay attack blocked!
        } else {
          steamSocket := Some(conn);
        }
      } else if f.Text? && IsPrefix("init:", f.s) {
        // Received bad init message
      } else if steamSocket == Some(conn) {
        HandleSteamMessage(conn, f);
      } else {
        HandleClientMessage(conn, f);
      }
    }

    /** The socket closes. For the Steam socket the `finally` stops at the
        UnboundLocalError of main.py:258, so no reconnection is started and
        only the end of the socket is recorded. */
    method Disconnect(conn: ConnId)
      modifies this
      ensures State() == OnCloseAsWritten(old(State()), conn)
    {
      closed := closed + {conn};
    }
  }

  // ---------------------------------------------------------------------
  // Properties of the handler.

  /** The request passes the API-secret check: authentication is off (no
      API secrets), or the request's `secret` equals one of them. */
  predicate Authorized(cfg: PyConfig, m: map<string, Json>) {
    |cfg.apiSecrets| == 0 || ("secret" in m && exists t :: t in cfg.apiSecrets && m["secret"] == JStr(t))
  }

  /** Every recorded client id belongs to a pending request. */
  predicate TablesAligned(s: PyState) {
    s.idMap.Keys <= s.messageMap.Keys
  }

  /** While a Steam socket is set and no reconnection is under way, a
      correct `init:` frame is refused as a replay and changes nothing. */
  lemma ReplayBlocked(cfg: PyConfig, s: PyState, conn: ConnId)
    requires conn !in s.closed && s.steamSocket.Some? && !s.reconnecting
    ensures OnFrame(cfg, s, conn, Text("init:" + cfg.rpcSecret)) == s
  {
  }

  /** With no Steam socket (or while the context's flag is set) the
      correct `init:` frame makes its socket the Steam socket and changes
      nothing else as written; the corrected step also clears the flag,
      ending the reconnection. */
  lemma InitAccepted(cfg: PyConfig, s: PyState, conn: ConnId)
    requires conn !in s.closed && (s.steamSocket.None? || s.reconnecting)
    ensures OnFrameAsWritten(cfg, s, conn, Text("init:" + cfg.rpcSecret)) == s.(steamSocket := Some(conn))
    ensures OnFrame(cfg, s, conn, Text("init:" + cfg.rpcSecret)) == s.(steamSocket := Some(conn), reconnecting := false)
  {
  }

  /** An `init:` frame with any other secret is logged and changes no state. */
  lemma {:induction false} BadInitIgnored(cfg: PyConfig, s: PyState, conn: ConnId, rest: string)
    requires rest != cfg.rpcSecret
    ensures OnFrame(cfg, s, conn, Text("init:" + rest)) == s
  {
    assert ("init:" + rest)[..5] == "init:";
    assert ("init:" + rest)[5..] == rest;
    assert ("init:" + cfg.rpcSecret)[5..] == cfg.rpcSecret;
  }

  /** A client frame is checked in a fixed order, and each failed check
      gets its own reply and changes nothing else: not JSON, no `command`,
      then (only when API secrets exist) no `secret` or an unknown one, and
      last no Steam socket. A request passing all checks is forwarded. */
  lemma ClientChecksInOrder(cfg: PyConfig, s: PyState, conn: ConnId, t: string, m: map<string, Json>)
    requires conn !in s.closed && s.steamSocket != Some(conn)
    ensures !IsPrefix("init:", t) ==>
      OnFrame(cfg, s, conn, Text(t)) == Reply(s, conn, "Message is not valid JSON")
    ensures "command" !in m ==>
      OnFrame(cfg, s, conn, Data(JObj(m))) == Reply(s, conn, "No command found")
    ensures "command" in m && |cfg.apiSecrets| > 0 && "secret" !in m ==>
      OnFrame(cfg, s, conn, Data(JObj(m))) == Reply(s, conn, "A secret is required!")
    ensures "command" in m && "secret" in m && !Authorized(cfg, m) ==>
      OnFrame(cfg, s, conn, Data(JObj(m))) == Reply(s, conn, "Invalid secret! Are you a hacker?")
    ensures "command" in m && Authorized(cfg, m) && s.steamSocket.None? ==>
      OnFrame(cfg, s, conn, Data(JObj(m))) == Reply(s, conn, "Not connected to Steam")
    ensures "command" in m && Authorized(cfg, m) && s.steamSocket.Some? ==>
      OnFrame(cfg, s, conn, Data(JObj(m))) == Forward(cfg, s, conn, JObj(m))
  {
    if "command" in m && "secret" in m && !Authorized(cfg, m) {
      assert forall t :: t in cfg.apiSecrets ==> m["secret"] != JStr(t);
    }
  }

  /** Forwarding: the internal id is the counter, which moves on by one
      and wraps to 0 at MAX_MESSAGE_ID; the client's socket is recorded
      under it, and so is the client's `messageId` when it sent one. Steam
      receives the command with the internal id and the Steam secret, and
      `args` exactly when the client sent `args`. */
  lemma ForwardedRequest(cfg: PyConfig, s: PyState, conn: ConnId, m: map<string, Json>)
    requires s.steamSocket.Some? && s.steamSocket.value !in s.closed && "command" in m
    ensures var id := s.lastMessageId; var r := Forward(cfg, s, conn, JObj(m));
      r.lastMessageId == (if id + 1 == MAX_MESSAGE_ID then 0 else id + 1)
      && r.messageMap == s.messageMap[id := conn]
      && ("messageId" in m ==> r.idMap == s.idMap[id := m["messageId"]])
      && ("messageId" !in m ==> r.idMap == s.idMap)
      && |r.sent| == |s.sent| + 1 && r.sent[..|s.sent|] == s.sent
      && r.sent[|s.sent|].to == s.steamSocket.value && r.sent[|s.sent|].frame.Data?
      && r.steamSocket == s.steamSocket && r.closed == s.closed
      && (var out := r.sent[|s.sent|].frame.j;
          out.JObj?
          && out.fields["messageId"] == JNum(id) && out.fields["secret"] == JStr(cfg.rpcSecret)
          && out.fields["command"] == m["command"]
          && ("args" in out.fields <==> "args" in m)
          && ("args" in m ==> out.fields["args"] == m["args"])
          && out.fields.Keys <= {"messageId", "secret", "command", "args"})
  {
  }

  /** The tables, the counter, the Steam socket and the flag are as in s. */
  predicate SameTables(r: PyState, s: PyState) {
    r.messageMap == s.messageMap && r.idMap == s.idMap && r.lastMessageId == s.lastMessageId
    && r.steamSocket == s.steamSocket && r.reconnecting == s.reconnecting
  }

  /** A forwarded request takes the counter's id, records the client's
      socket under it and, at most, the client's own id. */
  lemma ForwardTables(cfg: PyConfig, s: PyState, conn: ConnId, msg: Json)
    requires s.steamSocket.Some? && PyHas(msg, "command") == Some(true)
    ensures var r := Forward(cfg, s, conn, msg);
      r.lastMessageId == Ids.NextId(s.lastMessageId, MAX_MESSAGE_ID)
      && r.messageMap == s.messageMap[s.lastMessageId := conn]
      && r.idMap.Keys <= s.idMap.Keys + {s.lastMessageId}
  {
  }

  /** A client frame leaves the tables alone unless it is forwarded. */
  lemma ClientShape(cfg: PyConfig, s: PyState, conn: ConnId, f: Frame)
    ensures SameTables(ClientMessage(cfg, s, conn, f), s)
            || (f.Data? && s.steamSocket.Some? && PyHas(f.j, "command") == Some(true)
                && ClientMessage(cfg, s, conn, f) == Forward(cfg, s, conn, f.j))
  {
  }

  /** A Steam frame leaves the tables alone unless it is routed. */
  lemma SteamShape(s: PyState, conn: ConnId, f: Frame)
    ensures SameTables(SteamMessage(s, conn, f), s)
            || (f.Data? && f.j.JObj? && "messageId" in f.j.fields
                && KeyOf(f.j.fields["messageId"]).IntKey? && KeyOf(f.j.fields["messageId"]).k in s.messageMap
                && SteamMessage(s, conn, f) == Route(s, f.j.fields, KeyOf(f.j.fields["messageId"]).k))
  {
  }

  /** A counter that starts in 0 .. MAX_MESSAGE_ID-1 stays there. */
  lemma CounterInRange(cfg: PyConfig, s: PyState, conn: ConnId, f: Frame)
    requires 0 <= s.lastMessageId < MAX_MESSAGE_ID
    ensures 0 <= OnFrame(cfg, s, conn, f).lastMessageId < MAX_MESSAGE_ID
    ensures 0 <= OnFrameAsWritten(cfg, s, conn, f).lastMessageId < MAX_MESSAGE_ID
  {
    if conn !in s.closed && f != Text("init:" + cfg.rpcSecret) && !(f.Text? && IsPrefix("init:", f.s)) {
      if s.steamSocket == Some(conn) {
        SteamShape(s, conn, f);
      } else {
        ClientShape(cfg, s, conn, f);
        if !SameTables(ClientMessage(cfg, s, conn, f), s) {
          ForwardTables(cfg, s, conn, f.j);
        }
      }
    }
  }

  /** An answer from Steam whose `messageId` is a pending internal id is
      routed: both table entries for that id are removed, and the client
      (if still open) gets Steam's fields with `messageId` replaced by its
      own id, or removed when it sent none. */
  lemma SteamAnswerRouted(cfg: PyConfig, s: PyState, steam: ConnId, fields: map<string, Json>, k: int)
    requires s.steamSocket == Some(steam) && steam !in s.closed
    requires "messageId" in fields && fields["messageId"] == JNum(k) && k in s.messageMap
    ensures var r := OnFrame(cfg, s, steam, Data(JObj(fields)));
      r.messageMap == s.messageMap - {k} && r.idMap == s.idMap - {k}
      && r.lastMessageId == s.lastMessageId && r.steamSocket == s.steamSocket && r.closed == s.closed
      && (s.messageMap[k] in s.closed ==> r.sent == s.sent)
      && (s.messageMap[k] !in s.closed ==>
            r.sent == s.sent + [Delivery(s.messageMap[k], Data(JObj(Restored(s, fields, k))))])
  {
  }

  /** What the client receives: Steam's fields, with `messageId` the
      client's own id when one was recorded, and absent otherwise. */
  lemma RestoredFields(s: PyState, fields: map<string, Json>, k: int)
    ensures var out := Restored(s, fields, k);
      ("messageId" in out <==> k in s.idMap)
      && (k in s.idMap ==> out["messageId"] == s.idMap[k])
      && (forall key :: key != "messageId" ==> (key in out <==> key in fields))
      && (forall key :: key != "messageId" && key in fields ==> out[key] == fields[key])
  {
  }

  /** A Steam answer without `messageId`, or with an id nobody waits for,
      is dropped; Steam text that is not JSON ends the Steam handler. */
  lemma SteamFramesDropped(cfg: PyConfig, s: PyState, steam: ConnId, fields: map<string, Json>, t: string)
    requires s.steamSocket == Some(steam) && steam !in s.closed
    ensures "messageId" !in fields ==> OnFrame(cfg, s, steam, Data(JObj(fields))) == s
    ensures "messageId" in fields && fields["messageId"].JNum? && fields["messageId"].n !in s.messageMap
            ==> OnFrame(cfg, s, steam, Data(JObj(fields))) == s
    ensures !IsPrefix("init:", t) ==> OnFrame(cfg, s, steam, Text(t)) == s.(closed := s.closed + {steam})
  {
  }

  /** Every step keeps the client-id table within the pending table. */
  lemma StepKeepsAligned(cfg: PyConfig, s: PyState, conn: ConnId, f: Frame)
    requires TablesAligned(s)
    ensures TablesAligned(OnFrame(cfg, s, conn, f))
    ensures TablesAligned(OnFrameAsWritten(cfg, s, conn, f))
    ensures TablesAligned(OnClose(s, conn))
    ensures TablesAligned(OnCloseAsWritten(s, conn))
  {
    if conn !in s.closed && f != Text("init:" + cfg.rpcSecret) && !(f.Text? && IsPrefix("init:", f.s)) {
      if s.steamSocket == Some(conn) {
        SteamShape(s, conn, f);
      } else {
        ClientShape(cfg, s, conn, f);
        if !SameTables(ClientMessage(cfg, s, conn, f), s) {
          ForwardTables(cfg, s, conn, f.j);
        }
      }
    }
  }

  /** The correlation round trip, with the tables cleaned up: a client's
      request carrying its own id is forwarded under a newcomer internal id;
      Steam's answer under that id reaches the same client with the
      client's id put back, and both tables return to what they were. */
  lemma CorrelationRoundTrip(cfg: PyConfig, s: PyState, conn: ConnId, steam: ConnId,
                             m: map<string, Json>, answer: map<string, Json>)
    requires TablesAligned(s) && s.lastMessageId !in s.messageMap
    requires s.steamSocket == Some(steam) && steam !in s.closed && conn !in s.closed && conn != steam
    requires "command" in m && "messageId" in m && Authorized(cfg, m)
    requires "messageId" in answer && answer["messageId"] == JNum(s.lastMessageId)
    ensures var s1 := OnFrame(cfg, s, conn, Data(JObj(m)));
      var s2 := OnFrame(cfg, s1, steam, Data(JObj(answer)));
      s2.sent == s1.sent + [Delivery(conn, Data(JObj(answer["messageId" := m["messageId"]])))]
      && s2.messageMap == s.messageMap && s2.idMap == s.idMap
  {
    var id := s.lastMessageId;
    ClientChecksInOrder(cfg, s, conn, "", m);
    var s1 := OnFrame(cfg, s, conn, Data(JObj(m)));
    ForwardedRequest(cfg, s, conn, m);
    SteamAnswerRouted(cfg, s1, steam, answer, id);
    assert id !in s.idMap;
    assert s1.messageMap - {id} == s.messageMap;
    assert s1.idMap - {id} == s.idMap;
  }

  /** As written, no frame and no disconnect changes the context's
      `reconnecting` flag. */
  lemma ReconnectingNeverSet(cfg: PyConfig, s: PyState, conn: ConnId, f: Frame)
    ensures OnFrameAsWritten(cfg, s, conn, f).reconnecting == s.reconnecting
    ensures OnCloseAsWritten(s, conn).reconnecting == s.reconnecting
  {
    if conn !in s.closed && f != Text("init:" + cfg.rpcSecret) && !(f.Text? && IsPrefix("init:", f.s)) {
      if s.steamSocket == Some(conn) {
        SteamKeepsFlag(s, conn, f);
      } else {
        ClientKeepsFlag(cfg, s, conn, f);
      }
    }
  }

  /** The context starts with `reconnecting` clear, and the handler as
      written never sets it. While the flag is clear the frame step as
      written is `OnFrame`, so the lemmas about `OnFrame` describe every
      step a `Context` takes. */
  lemma AsWrittenIsOnFrameWhileFlagClear(cfg: PyConfig, s: PyState, conn: ConnId, f: Frame)
    requires !s.reconnecting
    ensures OnFrameAsWritten(cfg, s, conn, f) == OnFrame(cfg, s, conn, f)
    ensures !OnFrameAsWritten(cfg, s, conn, f).reconnecting && !OnCloseAsWritten(s, conn).reconnecting
  {
    ReconnectingNeverSet(cfg, s, conn, f);
  }

  lemma SteamKeepsFlag(s: PyState, conn: ConnId, f: Frame)
    ensures SteamMessage(s, conn, f).reconnecting == s.reconnecting
  {
    if f.Data? && PyHas(f.j, "messageId") == Some(true) && f.j.JObj? {
      var key := KeyOf(f.j.fields["messageId"]);
      if key.IntKey? && key.k in s.messageMap {
        assert SteamMessage(s, conn, f) == Route(s, f.j.fields, key.k);
      }
    }
  }

  lemma ClientKeepsFlag(cfg: PyConfig, s: PyState, conn: ConnId, f: Frame)
    ensures ClientMessage(cfg, s, conn, f).reconnecting == s.reconnecting
  {
    var r := ClientMessage(cfg, s, conn, f);
    if f.Data? && PyHas(f.j, "command") == Some(true) && s.steamSocket.Some? {
      assert r == Forward(cfg, s, conn, f.j) || r.reconnecting == s.reconnecting;
    }
  }

  /** As written, losing the Steam socket is permanent: the re-sent
      `init:` frame of a new Steam socket is refused as a replay, and a
      client request is then sent to the closed socket, which raises and
      closes the client's socket with nothing delivered. */
  lemma SteamLossIsPermanent(cfg: PyConfig, s: PyState, steam: ConnId, newcomer: ConnId, client: ConnId,
                             m: map<string, Json>)
    requires s.steamSocket == Some(steam) && !s.reconnecting
    requires newcomer != steam && newcomer !in s.closed
    requires client != steam && client !in s.closed && "command" in m && Authorized(cfg, m)
    ensures var s1 := OnFrameAsWritten(cfg, OnCloseAsWritten(s, steam), newcomer, Text("init:" + cfg.rpcSecret));
      s1.steamSocket == Some(steam)
      && var s2 := OnFrameAsWritten(cfg, s1, client, Data(JObj(m)));
      client in s2.closed && s2.sent == s.sent
  {
    var s0 := OnCloseAsWritten(s, steam);
    ReplayBlocked(cfg, s0, newcomer);
    ClientChecksInOrder(cfg, s0, client, "", m);
  }

  /** Losing the Steam socket starts a reconnection, so the `init:` frame
      of the next Steam socket is accepted and ends it. */
  lemma SteamReconnects(cfg: PyConfig, s: PyState, steam: ConnId, newcomer: ConnId)
    requires s.steamSocket == Some(steam) && !s.reconnecting && newcomer != steam && newcomer !in s.closed
    ensures var s1 := OnFrame(cfg, OnClose(s, steam), newcomer, Text("init:" + cfg.rpcSecret));
      s1.steamSocket == Some(newcomer) && !s1.reconnecting
  {
  }

  // ---------------------------------------------------------------------
  // make_payload (main.py:268-283).

  /** Python's `str.replace(pat, v)`: every non-overlapping occurrence,
      scanning left to right. */
  function ReplaceAll(s: string, pat: string, v: string): string
    requires pat != []
    decreases |s|
  {
    if |s| < |pat| then s
    else if IsPrefix(pat, s) then v + ReplaceAll(s[|pat|..], pat, v)
    else [s[0]] + ReplaceAll(s[1..], pat, v)
  }

  /** One template line: `$PORT` first, then `$SECRET`, then `$REPLACE`,
      each over the output of the previous replacement. */
  function ProcessLine(line: string, port: int, secret: string, replace: bool): string {
    ReplaceAll(ReplaceAll(ReplaceAll(line, "$PORT", IntToString(port)), "$SECRET", secret),
               "$REPLACE", if replace then "true" else "false")
  }

  function Concat(parts: seq<string>): string {
    if parts == [] then "" else Concat(parts[..|parts| - 1]) + parts[|parts| - 1]
  }

  /** The payload text: the template's lines, each processed. A missing
      template file (None) gives the empty payload. */
  function Substituted(lines: Option<seq<string>>, port: int, secret: string, replace: bool): string {
    if lines.None? then ""
    else Concat(seq(|lines.value|, i requires 0 <= i < |lines.value| => ProcessLine(lines.value[i], port, secret, replace)))
  }

  method MakePayload(lines: Option<seq<string>>, port: int, rpcSecret: string, replace: bool)
    returns (payload: string)
    ensures payload == Substituted(lines, port, rpcSecret, replace)
  {
    if lines.None? {
      return "";
    }
    var ls := lines.value;
    ghost var done := seq(|ls|, i requires 0 <= i < |ls| => ProcessLine(ls[i], port, rpcSecret, replace));
    payload := "";
    var k := 0;
    while k < |ls|
      invariant 0 <= k <= |ls|
      invariant payload == Concat(done[..k])
    {
      payload := payload + ProcessLine(ls[k], port, rpcSecret, replace);
      assert done[..k + 1][..k] == done[..k];
      k := k + 1;
    }
    assert done[..|ls|] == done;
  }

  predicate NoDollar(s: string) {
    forall i :: 0 <= i < |s| ==> s[i] != '$'
  }

  /** Text without '$' holds no placeholder, so it is copied as it is and
      processing carries on after it. */
  lemma NoDollarTail(c: string)
    requires c != [] && NoDollar(c)
    ensures c[0] != '$' && NoDollar(c[1..])
  {
    assert forall i :: 0 <= i < |c[1..]| ==> c[1..][i] == c[i + 1];
  }

  /** A first character other than '$' starts no occurrence and is copied. */
  lemma ReplaceAllFirstCopied(t: string, pat: string, v: string)
    requires pat != [] && pat[0] == '$' && t != [] && t[0] != '$'
    ensures ReplaceAll(t, pat, v) == [t[0]] + ReplaceAll(t[1..], pat, v)
  {
    if |t| < |pat| {
      assert [t[0]] + t[1..] == t;
    } else {
      assert t[..|pat|][0] == t[0];
    }
  }

  lemma {:induction false} ReplaceAllSkipFree(c: string, b: string, pat: string, v: string)
    requires pat != [] && pat[0] == '$' && NoDollar(c)
    ensures ReplaceAll(c + b, pat, v) == c + ReplaceAll(b, pat, v)
  {
    var t := c + b;
    if c == [] {
      assert t == b;
    } else {
      NoDollarTail(c);
      assert t[0] == c[0];
      ReplaceAllFirstCopied(t, pat, v);
      assert t[1..] == c[1..] + b;
      ReplaceAllSkipFree(c[1..], b, pat, v);
      assert [c[0]] + c[1..] == c;
      assert [c[0]] + (c[1..] + ReplaceAll(b, pat, v)) == c + ReplaceAll(b, pat, v);
    }
  }

  /** Text without '$' is left alone. */
  lemma ReplaceAllNoDollar(s: string, pat: string, v: string)
    requires pat != [] && pat[0] == '$' && NoDollar(s)
    ensures ReplaceAll(s, pat, v) == s
  {
    ReplaceAllSkipFree(s, [], pat, v);
    assert s + [] == s;
  }

  /** An occurrence of the pattern preceded by '$'-free text is replaced,
      and processing carries on after it. */
  lemma ReplaceAllAt(a: string, pat: string, b: string, v: string)
    requires pat != [] && pat[0] == '$' && NoDollar(a)
    ensures ReplaceAll(a + pat + b, pat, v) == a + v + ReplaceAll(b, pat, v)
  {
    ReplaceAllSkipFree(a, pat + b, pat, v);
    assert a + pat + b == a + (pat + b);
    assert (pat + b)[..|pat|] == pat;
    assert (pat + b)[|pat|..] == b;
  }

  /** A different placeholder (one '$', then '$'-free text) at the front
      is copied, and processing carries on after it. */
  lemma ReplaceAllOtherMark(q: string, b: string, pat: string, v: string)
    requires pat != [] && pat[0] == '$' && q != [] && q[0] == '$' && NoDollar(q[1..])
    requires !IsPrefix(pat, q + b)
    ensures ReplaceAll(q + b, pat, v) == q + ReplaceAll(b, pat, v)
  {
    var t := q + b;
    if |t| < |pat| {
      assert ReplaceAll(t, pat, v) == t;
      assert ReplaceAll(b, pat, v) == b;
    } else {
      assert ReplaceAll(t, pat, v) == [t[0]] + ReplaceAll(t[1..], pat, v);
      assert t[0] == q[0];
      assert t[1..] == q[1..] + b;
      ReplaceAllSkipFree(q[1..], b, pat, v);
      assert [q[0]] + q[1..] == q;
      assert [q[0]] + (q[1..] + ReplaceAll(b, pat, v)) == q + ReplaceAll(b, pat, v);
    }
  }

  lemma MarksDiffer(b: string)
    ensures !IsPrefix("$PORT", "$SECRET" + b)
    ensures !IsPrefix("$PORT", "$REPLACE" + b)
    ensures !IsPrefix("$SECRET", "$REPLACE" + b)
  {
    assert ("$SECRET" + b)[1] == 'S';
    assert ("$REPLACE" + b)[1] == 'R';
  }

  lemma NoDollarJoin(x: string, y: string, z: string)
    requires NoDollar(x) && NoDollar(y) && NoDollar(z)
    ensures NoDollar(x + y) && NoDollar(x + y + z)
  {
    assert forall i :: 0 <= i < |x + y| ==> (x + y)[i] == if i < |x| then x[i] else y[i - |x|];
    assert forall i :: 0 <= i < |x + y + z| ==>
      (x + y + z)[i] == if i < |x + y| then (x + y)[i] else z[i - |x + y|];
  }

  lemma PortTextNoDollar(port: int)
    ensures NoDollar(IntToString(port))
  {
    if port < 0 {
      assert IntToString(port) == "-" + NatToString(-port);
    }
  }

  lemma LinePlain(a: string, port: int, secret: string, replace: bool)
    requires NoDollar(a)
    ensures ProcessLine(a, port, secret, replace) == a
  {
    ReplaceAllNoDollar(a, "$PORT", IntToString(port));
    ReplaceAllNoDollar(a, "$SECRET", secret);
    ReplaceAllNoDollar(a, "$REPLACE", if replace then "true" else "false");
  }

  lemma LinePort(a: string, b: string, port: int, secret: string, replace: bool)
    requires NoDollar(a) && NoDollar(b)
    ensures ProcessLine(a + "$PORT" + b, port, secret, replace) == a + IntToString(port) + b
  {
    var ps := IntToString(port);
    PortTextNoDollar(port);
    ReplaceAllAt(a, "$PORT", b, ps);
    ReplaceAllNoDollar(b, "$PORT", ps);
    NoDollarJoin(a, ps, b);
    ReplaceAllNoDollar(a + ps + b, "$SECRET", secret);
    ReplaceAllNoDollar(a + ps + b, "$REPLACE", if replace then "true" else "false");
  }

  lemma LineSecret(a: string, b: string, port: int, secret: string, replace: bool)
    requires NoDollar(a) && NoDollar(b) && NoDollar(secret)
    ensures ProcessLine(a + "$SECRET" + b, port, secret, replace) == a + secret + b
  {
    var ps := IntToString(port);
    MarksDiffer(b);
    ReplaceAllSkipFree(a, "$SECRET" + b, "$PORT", ps);
    ReplaceAllOtherMark("$SECRET", b, "$PORT", ps);
    ReplaceAllNoDollar(b, "$PORT", ps);
    assert a + "$SECRET" + b == a + ("$SECRET" + b);
    ReplaceAllAt(a, "$SECRET", b, secret);
    ReplaceAllNoDollar(b, "$SECRET", secret);
    NoDollarJoin(a, secret, b);
    ReplaceAllNoDollar(a + secret + b, "$REPLACE", if replace then "true" else "false");
  }

  lemma LineReplace(a: string, b: string, port: int, secret: string, replace: bool)
    requires NoDollar(a) && NoDollar(b)
    ensures ProcessLine(a + "$REPLACE" + b, port, secret, replace) == a + (if replace then "true" else "false") + b
  {
    var ps := IntToString(port);
    MarksDiffer(b);
    assert a + "$REPLACE" + b == a + ("$REPLACE" + b);
    ReplaceAllSkipFree(a, "$REPLACE" + b, "$PORT", ps);
    ReplaceAllOtherMark("$REPLACE", b, "$PORT", ps);
    ReplaceAllNoDollar(b, "$PORT", ps);
    ReplaceAllSkipFree(a, "$REPLACE" + b, "$SECRET", secret);
    ReplaceAllOtherMark("$REPLACE", b, "$SECRET", secret);
    ReplaceAllNoDollar(b, "$SECRET", secret);
    ReplaceAllAt(a, "$REPLACE", b, if replace then "true" else "false");
    ReplaceAllNoDollar(b, "$REPLACE", if replace then "true" else "false");
  }

  /** A line without placeholders comes out unchanged; a `$PORT`,
      `$SECRET` or `$REPLACE` between '$'-free text becomes the decimal
      port, the secret (when it is '$'-free) or "true"/"false". */
  lemma LinesReplaced(a: string, b: string, port: int, secret: string, replace: bool)
    requires NoDollar(a) && NoDollar(b) && NoDollar(secret)
    ensures ProcessLine(a + b, port, secret, replace) == a + b
    ensures ProcessLine(a + "$PORT" + b, port, secret, replace) == a + IntToString(port) + b
    ensures ProcessLine(a + "$SECRET" + b, port, secret, replace) == a + secret + b
    ensures ProcessLine(a + "$REPLACE" + b, port, secret, replace) == a + (if replace then "true" else "false") + b
  {
    NoDollarJoin(a, b, []);
    LinePlain(a + b, port, secret, replace);
    LinePort(a, b, port, secret, replace);
    LineSecret(a, b, port, secret, replace);
    LineReplace(a, b, port, secret, replace);
  }

  /** `pat` occurs somewhere in `s`. */
  predicate Occurs(pat: string, s: string)
    decreases |s|
  {
    |pat| <= |s| && (IsPrefix(pat, s) || (s != [] && Occurs(pat, s[1..])))
  }

  /** Text in which the pattern does not occur is left alone. */
  lemma {:induction false} ReplaceAllAbsent(s: string, pat: string, v: string)
    requires pat != [] && !Occurs(pat, s)
    ensures ReplaceAll(s, pat, v) == s
    decreases |s|
  {
    if |s| >= |pat| {
      ReplaceAllAbsent(s[1..], pat, v);
      assert [s[0]] + s[1..] == s;
    }
  }

  /** Every '$' of the line opens a `${` template-literal substitution. */
  predicate DollarsOpenBraces(line: string) {
    forall i :: 0 <= i < |line| && line[i] == '$' ==> i + 1 < |line| && line[i + 1] == '{'
  }

  /** A pattern made of '$' and a character other than '{' does not occur
      in such a line. */
  lemma {:induction false} NoMarkAmongBraces(line: string, pat: string)
    requires |pat| >= 2 && pat[0] == '$' && pat[1] != '{' && DollarsOpenBraces(line)
    ensures !Occurs(pat, line)
    decreases |line|
  {
    if |pat| <= |line| {
      assert line[0] == '$' ==> line[1] == '{';
      assert line[..|pat|][0] == line[0] && line[..|pat|][1] == line[1];
      var t := line[1..];
      assert forall i :: 0 <= i < |t| ==> t[i] == line[i + 1];
      NoMarkAmongBraces(t, pat);
    }
  }

  /** A line holding none of the three placeholders comes out unchanged;
      in particular every line whose '$'s all open `${` substitutions, as
      the template literals of the agent script do. */
  lemma LineWithoutPlaceholder(line: string, port: int, secret: string, replace: bool)
    requires !Occurs("$PORT", line) && !Occurs("$SECRET", line) && !Occurs("$REPLACE", line)
    ensures ProcessLine(line, port, secret, replace) == line
  {
    ReplaceAllAbsent(line, "$PORT", IntToString(port));
    ReplaceAllAbsent(line, "$SECRET", secret);
    ReplaceAllAbsent(line, "$REPLACE", if replace then "true" else "false");
  }

  lemma TemplateLiteralLineKept(line: string, port: int, secret: string, replace: bool)
    requires DollarsOpenBraces(line)
    ensures ProcessLine(line, port, secret, replace) == line
  {
    NoMarkAmongBraces(line, "$PORT");
    NoMarkAmongBraces(line, "$SECRET");
    NoMarkAmongBraces(line, "$REPLACE");
    LineWithoutPlaceholder(line, port, secret, replace);
  }

  /** A template line cut into pieces: plain text and placeholders. */
  datatype Piece = Plain(text: string) | PortMark | SecretMark | ReplaceMark

  /** The text of a piece in the template. */
  function Source(p: Piece): string {
    match p
    case Plain(t) => t
    case PortMark => "$PORT"
    case SecretMark => "$SECRET"
    case ReplaceMark => "$REPLACE"
  }

  /** The line the pieces make up in the template. */
  function Render(ps: seq<Piece>): string
    decreases |ps|
  {
    if ps == [] then "" else Source(ps[0]) + Render(ps[1..])
  }

  /** The line the pieces should make up in the payload: each placeholder
      stands for its value. */
  function Expand(ps: seq<Piece>, port: int, secret: string, replace: bool): string
    decreases |ps|
  {
    if ps == [] then ""
    else
      var head := match ps[0]
        case Plain(t) => t
        case PortMark => IntToString(port)
        case SecretMark => secret
        case ReplaceMark => if replace then "true" else "false";
      head + Expand(ps[1..], port, secret, replace)
  }

  /** The pieces after one replacement pass: each `m` becomes plain `v`. */
  function Subst(ps: seq<Piece>, m: Piece, v: string): seq<Piece>
    decreases |ps|
  {
    if ps == [] then [] else [if ps[0] == m then Plain(v) else ps[0]] + Subst(ps[1..], m, v)
  }

  /** The order of the passes: `$PORT`, `$SECRET`, `$REPLACE`. */
  function Rank(p: Piece): nat {
    match p
    case PortMark => 0
    case SecretMark => 1
    case ReplaceMark => 2
    case Plain(_) => 3
  }

  /** The pieces are ready for the pass over `m`: plain text is '$'-free and
      every placeholder left is `m` or one of a later pass. */
  predicate PassReady(ps: seq<Piece>, m: Piece)
    decreases |ps|
  {
    ps == [] || ((if ps[0].Plain? then NoDollar(ps[0].text) else Rank(ps[0]) >= Rank(m)) && PassReady(ps[1..], m))
  }

  lemma MarkShape(p: Piece)
    requires !p.Plain?
    ensures Source(p) != [] && Source(p)[0] == '$' && NoDollar(Source(p)[1..])
  {
  }

  /** One pass replaces its own placeholder and copies everything else. */
  lemma {:induction false} PassReplaces(ps: seq<Piece>, m: Piece, v: string)
    requires !m.Plain? && PassReady(ps, m)
    ensures ReplaceAll(Render(ps), Source(m), v) == Render(Subst(ps, m, v))
    decreases |ps|
  {
    var pat := Source(m);
    MarkShape(m);
    if ps == [] {
      assert Render(ps) == [];
    } else {
      var p := ps[0];
      var b := Render(ps[1..]);
      PassReplaces(ps[1..], m, v);
      assert Render(ps) == Source(p) + b;
      assert Subst(ps, m, v) == [if p == m then Plain(v) else p] + Subst(ps[1..], m, v);
      assert Render(Subst(ps, m, v)) == Source(if p == m then Plain(v) else p) + Render(Subst(ps[1..], m, v));
      if p.Plain? {
        ReplaceAllSkipFree(p.text, b, pat, v);
      } else if p == m {
        ReplaceAllAt([], pat, b, v);
        assert [] + pat + b == pat + b;
      } else {
        MarkShape(p);
        MarksDiffer(b);
        ReplaceAllOtherMark(Source(p), b, pat, v);
      }
    }
  }

  /** After the pass over `m` with '$'-free `v`, the pieces are ready for
      the next pass. */
  lemma {:induction false} SubstReady(ps: seq<Piece>, m: Piece, v: string, next: Piece)
    requires PassReady(ps, m) && NoDollar(v) && Rank(next) == Rank(m) + 1
    ensures PassReady(Subst(ps, m, v), next)
    decreases |ps|
  {
    if ps != [] {
      SubstReady(ps[1..], m, v, next);
      assert Subst(ps, m, v)[1..] == Subst(ps[1..], m, v);
    }
  }

  /** The three passes together give the expansion. */
  lemma {:induction false} SubstExpands(ps: seq<Piece>, port: int, secret: string, replace: bool)
    ensures Render(Subst(Subst(Subst(ps, PortMark, IntToString(port)), SecretMark, secret),
                         ReplaceMark, if replace then "true" else "false"))
            == Expand(ps, port, secret, replace)
    decreases |ps|
  {
    var r := if replace then "true" else "false";
    if ps != [] {
      SubstExpands(ps[1..], port, secret, replace);
      var s1 := Subst(ps, PortMark, IntToString(port));
      assert s1[1..] == Subst(ps[1..], PortMark, IntToString(port));
      var s2 := Subst(s1, SecretMark, secret);
      assert s2[1..] == Subst(s1[1..], SecretMark, secret);
      var s3 := Subst(s2, ReplaceMark, r);
      assert s3[1..] == Subst(s2[1..], ReplaceMark, r);
    }
  }

  lemma {:induction false} PlainsReady(ps: seq<Piece>)
    requires forall i :: 0 <= i < |ps| && ps[i].Plain? ==> NoDollar(ps[i].text)
    ensures PassReady(ps, PortMark)
    decreases |ps|
  {
    if ps != [] {
      assert forall i :: 0 <= i < |ps[1..]| ==> ps[1..][i] == ps[i + 1];
      PlainsReady(ps[1..]);
    }
  }

  /** A line of any number of placeholders between '$'-free text comes out
      with each placeholder replaced by its value, when the secret is
      '$'-free. */
  lemma PlaceholdersReplaced(ps: seq<Piece>, port: int, secret: string, replace: bool)
    requires forall i :: 0 <= i < |ps| && ps[i].Plain? ==> NoDollar(ps[i].text)
    requires NoDollar(secret)
    ensures ProcessLine(Render(ps), port, secret, replace) == Expand(ps, port, secret, replace)
  {
    var ps0 := IntToString(port);
    var r := if replace then "true" else "false";
    PortTextNoDollar(port);
    PlainsReady(ps);
    PassReplaces(ps, PortMark, ps0);
    var s1 := Subst(ps, PortMark, ps0);
    SubstReady(ps, PortMark, ps0, SecretMark);
    PassReplaces(s1, SecretMark, secret);
    var s2 := Subst(s1, SecretMark, secret);
    SubstReady(s1, SecretMark, secret, ReplaceMark);
    PassReplaces(s2, ReplaceMark, r);
    SubstExpands(ps, port, secret, replace);
  }

  /** Unlike the single pass of the Rust relay, the chained replacements
      rescan inserted text: a secret that reads "$REPLACE" is itself
      replaced by "true" or "false", whereas the Rust relay inserts it
      verbatim. */
  lemma ChainedReplaceRescans(port: int, replace: bool, rustPort: PayloadTemplate.u16)
    ensures ProcessLine("$SECRET", port, "$REPLACE", replace) == (if replace then "true" else "false")
    ensures PayloadTemplate.MakePayload("$SECRET", rustPort, replace, "$REPLACE") == "$REPLACE"
  {
    var r := if replace then "true" else "false";
    MarksDiffer([]);
    assert "$SECRET" + [] == "$SECRET";
    ReplaceAllOtherMark("$SECRET", [], "$PORT", IntToString(port));
    ReplaceAllAt([], "$SECRET", [], "$REPLACE");
    assert [] + "$SECRET" + [] == "$SECRET";
    ReplaceAllAt([], "$REPLACE", [], r);
    assert [] + "$REPLACE" + [] == "$REPLACE";
    PayloadTemplate.EachPlaceholderReplaced([], [], rustPort, replace, "$REPLACE");
  }
}
