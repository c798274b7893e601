/** The Rust relay server of src/server.rs. One `Context` is shared by every
    connection task. The first frame a connection sends decides its role: an
    `init:` frame while no Steam connection exists makes it the Steam peer,
    anything else is a client request. Client requests are re-numbered with
    a fresh internal id, stamped with the Steam secret and forwarded to the
    Steam peer; Steam's answers are routed back to the client that asked,
    with the client's own id restored.

    Each frame is handled as one atomic step. What a connection task keeps
    locally (whether it is the Steam task, and whether it has ended) is the
    `roles` map of the model; what the server writes to sockets is the
    `sent` sequence; the exit and init channels are the `exits` and `inits`
    sequences. */
module Relay {
  import opened Wire
  import opened RpcMessage
  import Ids

  /** Rust's `u64`, the range `serde_json::Value::as_u64` accepts. */
  const U64_LIMIT: int := 0x1_0000_0000_0000_0000

  /** The `[auth]` table of the configuration file (src/config.rs). */
  datatype AuthConfig = AuthConfig(enabled: bool, tokens: Option<seq<string>>)

  /** The immutable part of `Context`. */
  datatype Config = Config(steamSecret: string, authEnabled: bool, clientSecrets: Option<seq<string>>)

  /** What a connection task has become after its first frame. */
  datatype Role = SteamPeer | ClientPeer | Gone

  /** The mutable part of `Context`, plus what the connection tasks hold. */
  datatype RelayState = RelayState(
    connected: bool,
    steamTx: Option<ConnId>,
    lastMessageId: u32,
    senders: map<u32, ConnId>,
    ids: map<u32, u32>,
    roles: map<ConnId, Role>,
    sent: seq<Delivery>,
    exits: seq<bool>,
    inits: seq<bool>)

  /** How `serve` builds the context: authentication is on only when an
      `[auth]` table says so, and the token list is taken from it when
      present. */
  function MakeConfig(steamSecret: string, auth: Option<AuthConfig>): (c: Config)
    ensures c.steamSecret == steamSecret
    ensures c.authEnabled <==> auth.Some? && auth.value.enabled
    ensures c.clientSecrets == if auth.Some? then auth.value.tokens else None
  {
    Config(steamSecret, auth.Some? && auth.value.enabled, if auth.Some? then auth.value.tokens else None)
  }

  const Initial: RelayState := RelayState(false, None, 0, map[], map[], map[], [], [], [])

  /** `send_message(ws, {success: false, error})`. */
  function ErrorReply(conn: ConnId, error: string): Delivery {
    Delivery(conn, Data(JObj(Failure(error))))
  }

  /** `serde_json::from_str::<RpcRequest>` on the frame's text. Text that is
      not JSON never parses. */
  function ParseRequest(f: Frame): Decoded {
    if f.Data? then Deserialize(f.j) else Invalid
  }

  /** The request as it is sent on to Steam: the Steam secret replaces the
      client's, and the internal id replaces the client's id. */
  function Stamped(cfg: Config, req: RpcRequest, id: u32): RpcRequest {
    req.(secret := Some(cfg.steamSecret), messageId := Some(id))
  }

  /** The next value of `last_message_id` after `fetch_add(1)`, which wraps
      at 2^32. */
  function Bump(id: u32): (n: u32)
    ensures id + 1 < U32_LIMIT ==> n == id + 1
    ensures id + 1 == U32_LIMIT ==> n == 0
  {
    Ids.NextId(id, U32_LIMIT)
  }

  /** The forwarding common to the first frame (src/server.rs:177-197) and
      later frames (src/server.rs:325-348): take a fresh id, remember the
      client's id under it when there is one, remember the client's channel
      under it, and send the stamped request to Steam. */
  function Forward(cfg: Config, s: RelayState, conn: ConnId, req: RpcRequest): RelayState
    requires s.steamTx.Some?
  {
    var id := s.lastMessageId;
    s.(lastMessageId := Bump(id),
       ids := if req.messageId.Some? then s.ids[id := req.messageId.value] else s.ids,
       senders := s.senders[id := conn],
       sent := s.sent + [Delivery(s.steamTx.value, Data(Serialize(Stamped(cfg, req, id))))])
  }

  /** The connection ends after an error reply. */
  function Refuse(s: RelayState, conn: ConnId, error: string): RelayState {
    s.(sent := s.sent + [ErrorReply(conn, error)], roles := s.roles[conn := Gone])
  }

  /** The first frame of a connection (src/server.rs:112-222). */
  function FirstFrame(cfg: Config, s: RelayState, conn: ConnId, f: Frame): RelayState {
    if f.Undecodable? then s.(roles := s.roles[conn := Gone])
    else if !s.connected && f.Text? && IsPrefix("init:", f.s) then
      s.(connected := true, inits := s.inits + [true], steamTx := Some(conn),
         sent := s.sent + [Delivery(conn, Text("Ready"))], roles := s.roles[conn := SteamPeer])
    else if s.steamTx.None? then Refuse(s, conn, "Not connected to Steam")
    else match ParseRequest(f)
      case Invalid => Refuse(s, conn, "Message is not valid")
      case Decoded(req) =>
        if cfg.authEnabled && req.secret.None? then Refuse(s, conn, "A secret is required")
        // `client_secrets.as_ref().unwrap()` panics: the connection handler dies silently
        else if cfg.authEnabled && cfg.clientSecrets.None? then s.(roles := s.roles[conn := Gone])
        else if cfg.authEnabled && req.secret.value !in cfg.clientSecrets.value then
          Refuse(s, conn, "Wrong secret! Are you a hacker?")
        else Forward(cfg, s, conn, req).(roles := s.roles[conn := ClientPeer])
  }

  /** A later frame from a client (src/server.rs:230-243, 312-360). */
  function ClientFrame(cfg: Config, s: RelayState, conn: ConnId, f: Frame): RelayState {
    if f.Undecodable? then s
    else if s.steamTx.None? then s.(sent := s.sent + [ErrorReply(conn, "Not connected to Steam")])
    else match ParseRequest(f)
      case Invalid => s
      case Decoded(req) => Forward(cfg, s, conn, req)
  }

  /** `id.as_u64().map(|id| id as u32)`: a non-negative integer below 2^64,
      truncated to its low 32 bits. */
  function SteamId(fields: map<string, Json>): (id: Option<u32>)
    ensures id.Some? <==> "messageId" in fields && fields["messageId"].JNum?
                          && 0 <= fields["messageId"].n < U64_LIMIT
  {
    if "messageId" in fields && fields["messageId"].JNum? && 0 <= fields["messageId"].n < U64_LIMIT
    then Some(fields["messageId"].n % U32_LIMIT) else None
  }

  /** The answer as the client gets it: the internal id is removed, and the
      client's own id is put back when one was recorded. */
  function Restored(s: RelayState, fields: map<string, Json>, id: u32): map<string, Json> {
    var body := fields - {"messageId"};
    if id in s.ids then body["messageId" := JNum(s.ids[id])] else body
  }

  /** A later frame from Steam (src/server.rs:230-240, 362-408). The answer
      reaches the client only while that client's task is still running:
      the channel of an ended task has no receiver. */
  function SteamFrame(s: RelayState, f: Frame): RelayState {
    if f == Text("Terminate") then s.(exits := s.exits + [true])
    else if !f.Data? || !f.j.JObj? then s
    else match SteamId(f.j.fields)
      case None => s
      case Some(id) =>
        if id in s.senders && s.senders[id] in s.roles && s.roles[s.senders[id]] == ClientPeer then
          s.(sent := s.sent + [Delivery(s.senders[id], Data(JObj(Restored(s, f.j.fields, id))))])
        else s
  }

  /** One frame arriving on a connection, handed to the connection handler that owns it. */
  function Step(cfg: Config, s: RelayState, conn: ConnId, f: Frame): RelayState {
    if conn !in s.roles then FirstFrame(cfg, s, conn, f)
    else match s.roles[conn]
      case SteamPeer => if f.Undecodable? then s else SteamFrame(s, f)
      case ClientPeer => ClientFrame(cfg, s, conn, f)
      case Gone => s
  }

  /** A connection closes (src/server.rs:274-282). Only the Steam task
      cleans up: it clears `connected` and empties the Steam slot. Neither
      table is touched. */
  function Closed(s: RelayState, conn: ConnId): RelayState {
    if conn in s.roles && s.roles[conn] == SteamPeer then
      s.(connected := false, steamTx := None, roles := s.roles[conn := Gone])
    else if conn in s.roles then s.(roles := s.roles[conn := Gone])
    else s
  }

  /** The consistency the server keeps: `connected` is set exactly while a
      Steam channel is stored, that channel belongs to the one Steam task,
      every recorded client id has a recorded channel, and channels are
      those of client tasks. */
  ghost predicate Valid(s: RelayState) {
    (s.connected <==> s.steamTx.Some?)
    && (s.steamTx.Some? ==> s.steamTx.value in s.roles && s.roles[s.steamTx.value] == SteamPeer)
    && (forall c :: c in s.roles && s.roles[c] == SteamPeer ==> s.steamTx == Some(c))
    && s.ids.Keys <= s.senders.Keys
    && (forall k :: k in s.senders ==> s.senders[k] in s.roles && s.roles[s.senders[k]] != SteamPeer)
  }

  // ---------------------------------------------------------------------
  // The server as the source writes it: one object, mutated in place.

  class Context {
    var connected: bool
    var steamTx: Option<ConnId>
    var lastMessageId: u32
    var messageSenders: map<u32, ConnId>
    var messageIds: map<u32, u32>
    const steamSecret: string
    const authEnabled: bool
    const clientSecrets: Option<seq<string>>
    /** Per-connection task state (`is_steam`, and whether its handler ended). */
    var roles: map<ConnId, Role>
    /** Frames written to sockets, in order. */
    var sent: seq<Delivery>
    var exits: seq<bool>
    var inits: seq<bool>

    function Cfg(): Config {
      Config(steamSecret, authEnabled, clientSecrets)
    }

    function State(): RelayState
      reads this
    {
      RelayState(connected, steamTx, lastMessageId, messageSenders, messageIds, roles, sent, exits, inits)
    }

    /** `serve`'s initial context (src/server.rs:53-73). */
    constructor (steamSecret: string, auth: Option<AuthConfig>)
      ensures Cfg() == MakeConfig(steamSecret, auth)
      ensures State() == Initial
    {
      this.steamSecret := steamSecret;
      authEnabled := auth.Some? && auth.value.enabled;
      clientSecrets := if auth.Some? then auth.value.tokens else None;
      connected := false;
      steamTx := None;
      lastMessageId := 0;
      messageSenders := map[];
      messageIds := map[];
      roles := map[];
      sent := [];
      exits := [];
      inits := [];
    }

    method ForwardRequest(conn: ConnId, req: RpcRequest)
      requires steamTx.Some?
      modifies this
      ensures State() == Forward(Cfg(), old(State()), conn, req)
    {
      var messageId := lastMessageId;
      lastMessageId := Ids.NextId(lastMessageId, U32_LIMIT);
      if req.messageId.Some? {
        messageIds := messageIds[messageId := req.messageId.value];
      }
      var fwd := req.(secret := Some(steamSecret), messageId := Some(messageId));
      messageSenders := messageSenders[messageId := conn];
      sent := sent + [Delivery(steamTx.value, Data(Serialize(fwd)))];
    }

    method Reject(conn: ConnId, error: string)
      modifies this
      ensures State() == Refuse(old(State()), conn, error)
    {
      sent := sent + [ErrorReply(conn, error)];
      roles := roles[conn := Gone];
    }

    /** `handle_connection` up to the main loop. */
    method HandleFirstFrame(conn: ConnId, f: Frame)
      modifies this
      ensures State() == FirstFrame(Cfg(), old(State()), conn, f)
    {
      if f.Undecodable? {
        roles := roles[conn := Gone];
        return;
      }
      if !connected && f.Text? && IsPrefix("init:", f.s) {
        connected := true;
        inits := inits + [true];
        steamTx := Some(conn);
        sent := sent + [Delivery(conn, Text("Ready"))];
        roles := roles[conn := SteamPeer];
        return;
      }
      if steamTx.None? {
        Reject(conn, "Not connected to Steam");
        return;
      }
      var parsed := ParseRequest(f);
      if parsed.Invalid? {
        Reject(conn, "Message is not valid");
        return;
      }
      var req := parsed.req;
      if authEnabled {
        if req.secret.None? {
          Reject(conn, "A secret is required");
          return;
        }
        if clientSecrets.None? {
          roles := roles[conn := Gone];
          return;
        }
        if req.secret.value !in clientSecrets.value {
          Reject(conn, "Wrong secret! Are you a hacker?");
          return;
        }
      }
      var before := roles;
      ForwardRequest(conn, req);
      roles := before[conn := ClientPeer];
    }

    /** `handle_client_message`. */
    method HandleClientMessage(conn: ConnId, f: Frame)
      requires !f.Undecodable?
      modifies this
      ensures State() == ClientFrame(Cfg(), old(State()), conn, f)
    {
      if steamTx.None? {
        sent := sent + [ErrorReply(conn, "Not connected to Steam")];
        return;
      }
      var parsed := ParseRequest(f);
      if parsed.Decoded? {
        ForwardRequest(conn, parsed.req);
      }
    }

    /** `handle_steam_message`. */
    method HandleSteamMessage(f: Frame)
      modifies this
      ensures State() == SteamFrame(old(State()), f)
    {
      if f == Text("Terminate") {
        exits := exits + [true];
        return;
      }
      if !f.Data? || !f.j.JObj? {
        return;
      }
      var found := SteamId(f.j.fields);
      if found.None? {
        return;
      }
      var id := found.value;
      var req := f.j.fields - {"messageId"};
      if id in messageIds {
        req := req["messageId" := JNum(messageIds[id])];
      }
      if id in messageSenders && messageSenders[id] in roles && roles[messageSenders[id]] == ClientPeer {
        sent := sent + [Delivery(messageSenders[id], Data(JObj(req)))];
      }
    }

    /** The main loop's dispatch of one incoming frame. */
    method Receive(conn: ConnId, f: Frame)
      modifies this
      ensures State() == Step(Cfg(), old(State()), conn, f)
    {
      if conn !in roles {
        HandleFirstFrame(conn, f);
      } else if f.Undecodable? {
        // `into_text` failed: `continue`
      } else if roles[conn] == SteamPeer {
        HandleSteamMessage(f);
      } else if roles[conn] == ClientPeer {
        HandleClientMessage(conn, f);
      }
    }

    /** The loop ends; the Steam task runs the cleanup. */
    method Close(conn: ConnId)
      modifies this
      ensures State() == Closed(old(State()), conn)
    {
      if conn in roles {
        if roles[conn] == SteamPeer {
          connected := false;
          steamTx := None;
        }
        roles := roles[conn := Gone];
      }
    }
  }

  // ---------------------------------------------------------------------
  // Properties.

  /** The initial context is consistent, and every step keeps it so. */
  lemma InitialValid()
    ensures Valid(Initial)
  {
  }

  lemma ForwardKeepsValid(cfg: Config, s: RelayState, conn: ConnId, req: RpcRequest)
    requires Valid(s) && s.steamTx.Some?
    requires conn in s.roles && s.roles[conn] == ClientPeer
    ensures Valid(Forward(cfg, s, conn, req))
  {
  }

  lemma RefuseKeepsValid(s: RelayState, conn: ConnId, error: string)
    requires Valid(s) && conn !in s.roles
    ensures Valid(Refuse(s, conn, error))
    ensures Valid(s.(roles := s.roles[conn := Gone]))
  {
  }

  lemma InitKeepsValid(s: RelayState, conn: ConnId)
    requires Valid(s) && conn !in s.roles && !s.connected
    ensures Valid(s.(connected := true, inits := s.inits + [true], steamTx := Some(conn),
                     sent := s.sent + [Delivery(conn, Text("Ready"))], roles := s.roles[conn := SteamPeer]))
  {
  }

  lemma FirstFrameKeepsValid(cfg: Config, s: RelayState, conn: ConnId, f: Frame)
    requires Valid(s) && conn !in s.roles
    ensures Valid(FirstFrame(cfg, s, conn, f))
  {
    if f.Undecodable? {
      RefuseKeepsValid(s, conn, "");
    } else if !s.connected && f.Text? && IsPrefix("init:", f.s) {
      InitKeepsValid(s, conn);
    } else if s.steamTx.None? {
      RefuseKeepsValid(s, conn, "Not connected to Steam");
    } else if ParseRequest(f).Invalid? {
      RefuseKeepsValid(s, conn, "Message is not valid");
    } else {
      var req := ParseRequest(f).req;
      if cfg.authEnabled && req.secret.None? {
        RefuseKeepsValid(s, conn, "A secret is required");
      } else if cfg.authEnabled && cfg.clientSecrets.None? {
        RefuseKeepsValid(s, conn, "");
      } else if cfg.authEnabled && req.secret.value !in cfg.clientSecrets.value {
        RefuseKeepsValid(s, conn, "Wrong secret! Are you a hacker?");
      } else {
        var c := s.(roles := s.roles[conn := ClientPeer]);
        ForwardKeepsValid(cfg, c, conn, req);
        assert Forward(cfg, s, conn, req).(roles := s.roles[conn := ClientPeer]) == Forward(cfg, c, conn, req);
      }
    }
  }

  lemma StepKeepsValid(cfg: Config, s: RelayState, conn: ConnId, f: Frame)
    requires Valid(s)
    ensures Valid(Step(cfg, s, conn, f))
  {
    if conn !in s.roles {
      FirstFrameKeepsValid(cfg, s, conn, f);
    } else if s.roles[conn] == ClientPeer && !f.Undecodable? && s.steamTx.Some? && ParseRequest(f).Decoded? {
      ForwardKeepsValid(cfg, s, conn, ParseRequest(f).req);
    }
  }

  lemma ClosedKeepsValid(s: RelayState, conn: ConnId)
    requires Valid(s)
    ensures Valid(Closed(s, conn))
  {
  }

  /** Whether a client request may pass the first-frame check. */
  predicate Authorized(cfg: Config, req: RpcRequest) {
    !cfg.authEnabled
    || (req.secret.Some? && cfg.clientSecrets.Some? && req.secret.value in cfg.clientSecrets.value)
  }

  /** While no Steam peer is connected, the first frame starting with
      `init:` makes its connection the Steam peer, whatever follows the
      prefix: the Steam secret is not checked. The peer gets "Ready", the
      init channel is signalled, and the tables and counter are untouched. */
  lemma {:induction false} InitClaimsSteam(cfg: Config, s: RelayState, conn: ConnId, rest: string)
    requires conn !in s.roles && !s.connected
    ensures var r := FirstFrame(cfg, s, conn, Text("init:" + rest));
      r.connected && r.steamTx == Some(conn) && r.roles == s.roles[conn := SteamPeer]
      && r.sent == s.sent + [Delivery(conn, Text("Ready"))] && r.inits == s.inits + [true]
      && r.lastMessageId == s.lastMessageId && r.senders == s.senders && r.ids == s.ids
  {
    assert ("init:" + rest)[..5] == "init:";
  }

  /** Once a Steam peer is connected, an `init:` frame is an ordinary first
      frame: it is not JSON, so the connection is refused as invalid. */
  lemma InitWhileConnectedRefused(cfg: Config, s: RelayState, conn: ConnId, rest: string)
    requires Valid(s) && s.connected && conn !in s.roles
    ensures FirstFrame(cfg, s, conn, Text("init:" + rest)) == Refuse(s, conn, "Message is not valid")
  {
  }

  /** With no Steam channel, any other first frame is answered with
      "Not connected to Steam" and the connection ends; nothing else
      changes. */
  lemma FirstFrameWithoutSteam(cfg: Config, s: RelayState, conn: ConnId, f: Frame)
    requires conn !in s.roles && s.steamTx.None? && !f.Undecodable?
    requires s.connected || !(f.Text? && IsPrefix("init:", f.s))
    ensures var r := FirstFrame(cfg, s, conn, f);
      r.sent == s.sent + [ErrorReply(conn, "Not connected to Steam")] && r.roles == s.roles[conn := Gone]
      && r.lastMessageId == s.lastMessageId && r.senders == s.senders && r.ids == s.ids
      && r.connected == s.connected && r.steamTx == s.steamTx
  {
  }

  /** The first request of a client is forwarded exactly when it is
      authorised. With authentication on, a missing secret is answered with
      "A secret is required", a secret outside the token list with "Wrong
      secret! Are you a hacker?", and a missing token list ends the connection handler
      without a reply; in every refused case nothing reaches Steam, no id is
      taken and the connection ends. */
  lemma FirstRequestAuthenticated(cfg: Config, s: RelayState, conn: ConnId, j: Json)
    requires conn !in s.roles && s.steamTx.Some? && Deserialize(j).Decoded?
    ensures var req := Deserialize(j).req; var r := FirstFrame(cfg, s, conn, Data(j));
      (Authorized(cfg, req) ==>
        r == Forward(cfg, s, conn, req).(roles := s.roles[conn := ClientPeer]))
      && (!Authorized(cfg, req) ==>
        r.lastMessageId == s.lastMessageId && r.senders == s.senders && r.ids == s.ids
        && r.roles == s.roles[conn := Gone]
        && (req.secret.None? ==> r.sent == s.sent + [ErrorReply(conn, "A secret is required")])
        && (req.secret.Some? && cfg.clientSecrets.None? ==> r.sent == s.sent)
        && (req.secret.Some? && cfg.clientSecrets.Some? ==>
              r.sent == s.sent + [ErrorReply(conn, "Wrong secret! Are you a hacker?")]))
  {
  }

  /** A first frame that is not a request is answered with "Message is not
      valid" and the connection ends. */
  lemma FirstFrameInvalid(cfg: Config, s: RelayState, conn: ConnId, f: Frame)
    requires conn !in s.roles && s.steamTx.Some? && !f.Undecodable? && ParseRequest(f).Invalid?
    requires !(!s.connected && f.Text? && IsPrefix("init:", f.s))
    ensures FirstFrame(cfg, s, conn, f) == Refuse(s, conn, "Message is not valid")
  {
  }

  /** Forwarding takes the current counter value as the internal id and
      moves the counter on by one (wrapping at 2^32). Steam receives the
      request with the Steam secret and the internal id in place of the
      client's; the client's channel is recorded under the internal id, and
      the client's own id is recorded there only when the client sent one. */
  lemma ForwardRewrites(cfg: Config, s: RelayState, conn: ConnId, req: RpcRequest)
    requires s.steamTx.Some?
    ensures var id := s.lastMessageId; var r := Forward(cfg, s, conn, req);
      |r.sent| == |s.sent| + 1 && r.sent[..|s.sent|] == s.sent
      && r.sent[|s.sent|].to == s.steamTx.value && r.sent[|s.sent|].frame.Data?
      && r.sent[|s.sent|].frame.j == Serialize(RpcRequest(req.command, Some(cfg.steamSecret), Some(id), req.args))
      && (Borrowable(req.command) && Borrowable(cfg.steamSecret) ==>
            Deserialize(r.sent[|s.sent|].frame.j)
            == Decoded(RpcRequest(req.command, Some(cfg.steamSecret), Some(id), req.args)))
      && r.lastMessageId == Ids.NextId(id, U32_LIMIT)
      && r.senders == s.senders[id := conn]
      && (req.messageId.Some? ==> r.ids == s.ids[id := req.messageId.value])
      && (req.messageId.None? ==> r.ids == s.ids)
      && r.roles == s.roles && r.connected == s.connected && r.steamTx == s.steamTx
  {
    RoundTrip(Stamped(cfg, req, s.lastMessageId));
  }

  /** After the first frame nothing is authenticated: a client's later
      request is forwarded whatever secret it carries (or lacks), even with
      authentication on. A later frame that is not a request is dropped
      with no reply, and while no Steam channel exists a later frame gets
      "Not connected to Steam" but the connection stays open. */
  lemma LaterFramesUnchecked(cfg: Config, s: RelayState, conn: ConnId, f: Frame)
    requires conn in s.roles && s.roles[conn] == ClientPeer && !f.Undecodable?
    ensures s.steamTx.Some? && ParseRequest(f).Decoded? ==>
      Step(cfg, s, conn, f) == Forward(cfg, s, conn, ParseRequest(f).req)
    ensures s.steamTx.Some? && ParseRequest(f).Invalid? ==> Step(cfg, s, conn, f) == s
    ensures s.steamTx.None? ==>
      Step(cfg, s, conn, f) == s.(sent := s.sent + [ErrorReply(conn, "Not connected to Steam")])
  {
  }

  /** The answer a client receives for a Steam frame: every field but
      `messageId` is kept as Steam sent it; `messageId` is the client's own
      id when one was recorded under the internal id, and absent otherwise. */
  lemma RestoredFields(s: RelayState, fields: map<string, Json>, id: u32)
    ensures var out := Restored(s, fields, id);
      ("messageId" in out <==> id in s.ids)
      && (id in s.ids ==> out["messageId"] == JNum(s.ids[id]))
      && (forall k :: k != "messageId" ==> (k in out <==> k in fields))
      && (forall k :: k != "messageId" && k in fields ==> out[k] == fields[k])
  {
  }

  /** A Steam frame carrying a known internal id goes to the channel
      recorded under that id, provided that client is still connected.
      Routing removes nothing from either table. */
  lemma SteamAnswerRouted(s: RelayState, fields: map<string, Json>, id: u32)
    requires SteamId(fields) == Some(id)
    requires id in s.senders && s.senders[id] in s.roles && s.roles[s.senders[id]] == ClientPeer
    ensures var r := SteamFrame(s, Data(JObj(fields)));
      r.sent == s.sent + [Delivery(s.senders[id], Data(JObj(Restored(s, fields, id))))]
      && r.senders == s.senders && r.ids == s.ids && r.lastMessageId == s.lastMessageId
  {
  }

  /** "Terminate" from Steam signals exit and changes nothing else; a Steam
      frame that is not a JSON object, carries no usable `messageId`, or
      names an id with no live client, is dropped. */
  lemma SteamFramesDropped(s: RelayState, f: Frame)
    ensures f == Text("Terminate") ==> SteamFrame(s, f) == s.(exits := s.exits + [true])
    ensures f != Text("Terminate") && !(f.Data? && f.j.JObj?) ==> SteamFrame(s, f) == s
    ensures f.Data? && f.j.JObj? && SteamId(f.j.fields).None? ==> SteamFrame(s, f) == s
    ensures (f.Data? && f.j.JObj? && SteamId(f.j.fields).Some? && SteamId(f.j.fields).value !in s.senders)
            ==> SteamFrame(s, f) == s
  {
  }

  /** Only the low 32 bits of Steam's `messageId` are used: an id 2^32
      above an internal id routes like that internal id. */
  lemma TruncatedIdAliases(fields: map<string, Json>, id: u32)
    requires "messageId" in fields && fields["messageId"] == JNum(id + U32_LIMIT)
    ensures SteamId(fields) == Some(id)
  {
  }

  /** r's tables extend s's: keys are only added, and an entry only
      changes at the id the counter stood at. */
  predicate TablesExtend(s: RelayState, r: RelayState) {
    s.senders.Keys <= r.senders.Keys && s.ids.Keys <= r.ids.Keys
    && (forall k :: k in s.senders && k != s.lastMessageId ==> r.senders[k] == s.senders[k])
    && (forall k :: k in s.ids && k != s.lastMessageId ==> r.ids[k] == s.ids[k])
  }

  lemma ForwardExtends(cfg: Config, s: RelayState, conn: ConnId, req: RpcRequest)
    requires s.steamTx.Some?
    ensures TablesExtend(s, Forward(cfg, s, conn, req))
  {
  }

  /** The first-frame cases that forward nothing leave both tables alone. */
  lemma FirstFrameTablesKept(cfg: Config, s: RelayState, conn: ConnId, f: Frame)
    requires f.Undecodable? || (!s.connected && f.Text? && IsPrefix("init:", f.s)) || s.steamTx.None?
             || ParseRequest(f).Invalid? || !Authorized(cfg, ParseRequest(f).req)
    ensures FirstFrame(cfg, s, conn, f).senders == s.senders
    ensures FirstFrame(cfg, s, conn, f).ids == s.ids
  {
  }

  lemma FirstFrameExtends(cfg: Config, s: RelayState, conn: ConnId, f: Frame)
    ensures TablesExtend(s, FirstFrame(cfg, s, conn, f))
  {
    var p := ParseRequest(f);
    if !f.Undecodable? && !(!s.connected && f.Text? && IsPrefix("init:", f.s)) && s.steamTx.Some?
       && p.Decoded? && Authorized(cfg, p.req) {
      ForwardExtends(cfg, s, conn, p.req);
      assert FirstFrame(cfg, s, conn, f) == Forward(cfg, s, conn, p.req).(roles := s.roles[conn := ClientPeer]);
    } else {
      FirstFrameTablesKept(cfg, s, conn, f);
    }
  }

  /** Neither table is ever pruned: no step and no disconnect removes a
      key, and an entry only changes when the counter comes back round to
      its id. */
  lemma TablesOnlyGrow(cfg: Config, s: RelayState, conn: ConnId, f: Frame)
    ensures TablesExtend(s, Step(cfg, s, conn, f))
    ensures Closed(s, conn).senders == s.senders && Closed(s, conn).ids == s.ids
  {
    if conn !in s.roles {
      FirstFrameExtends(cfg, s, conn, f);
    } else if s.roles[conn] == ClientPeer && !f.Undecodable? && s.steamTx.Some? && ParseRequest(f).Decoded? {
      ForwardExtends(cfg, s, conn, ParseRequest(f).req);
    }
  }

  /** The correlation round trip: a client's request with its own id m is
      forwarded under internal id `s.lastMessageId`; when Steam answers with
      that internal id, the answer goes back to the same client with
      `messageId` m and the rest of Steam's fields unchanged. */
  lemma CorrelationRoundTrip(cfg: Config, s: RelayState, conn: ConnId, steam: ConnId, j: Json,
                             answer: map<string, Json>)
    requires Valid(s) && s.steamTx == Some(steam)
    requires conn in s.roles && s.roles[conn] == ClientPeer
    requires Deserialize(j).Decoded? && Deserialize(j).req.messageId.Some?
    requires "messageId" in answer && answer["messageId"] == JNum(s.lastMessageId)
    ensures var s1 := Step(cfg, s, conn, Data(j));
      var s2 := Step(cfg, s1, steam, Data(JObj(answer)));
      s2.sent == s1.sent + [Delivery(conn, Data(JObj((answer - {"messageId"})["messageId" := JNum(Deserialize(j).req.messageId.value)])))]
  {
    var id := s.lastMessageId;
    var s1 := Step(cfg, s, conn, Data(j));
    assert s1 == Forward(cfg, s, conn, Deserialize(j).req);
    assert SteamId(answer) == Some(id);
    SteamAnswerRouted(s1, answer, id);
  }

  /** When the Steam peer disconnects, `connected` is cleared and the
      Steam slot emptied, the tables are kept, and the next `init:` frame
      is accepted as the new Steam peer. */
  lemma SteamReconnects(cfg: Config, s: RelayState, steam: ConnId, conn: ConnId, rest: string)
    requires Valid(s) && s.steamTx == Some(steam) && conn !in s.roles
    ensures var r := Closed(s, steam);
      !r.connected && r.steamTx.None? && r.senders == s.senders && r.ids == s.ids
      && FirstFrame(cfg, r, conn, Text("init:" + rest)).steamTx == Some(conn)
  {
    var r := Closed(s, steam);
    assert conn !in r.roles;
    InitClaimsSteam(cfg, r, conn, rest);
  }
}
