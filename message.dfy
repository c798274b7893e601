/** The relay's request envelope (`RpcRequest` in src/message.rs) and the
    serialisation rules its derived serde implementation follows: fields are
    renamed to camelCase, `secret` and `messageId` are left out when they are
    None, `command` and `args` are required. */
module RpcMessage {
  import opened Wire

  const U32_LIMIT: int := 0x1_0000_0000

  /** Rust's `u32`. */
  type u32 = x: int | 0 <= x < U32_LIMIT

  datatype RpcRequest = RpcRequest(command: string, secret: Option<string>, messageId: Option<u32>, args: Json)

  /** A string serde_json can hand out as a borrowed `&str`: its JSON text
      needs no escape sequence, so it holds no '"', no '\\' and no control
      character. `serde_json::to_string` escapes exactly these. */
  predicate Borrowable(s: string) {
    forall i :: 0 <= i < |s| ==> s[i] != '"' && s[i] != '\\' && s[i] >= ' '
  }

  /** The strings of a request are all borrowable. */
  predicate BorrowableRequest(r: RpcRequest) {
    Borrowable(r.command) && (r.secret.Some? ==> Borrowable(r.secret.value))
  }

  /** Outcome of `serde_json::from_str::<RpcRequest>` on a JSON value. */
  datatype Decoded = Decoded(req: RpcRequest) | Invalid

  /** The serialised object: `command`, then `secret` and `messageId` when
      present, then `args`. */
  function Serialize(r: RpcRequest): (j: Json)
    ensures j.JObj?
    ensures "command" in j.fields && j.fields["command"] == JStr(r.command)
    ensures "args" in j.fields && j.fields["args"] == r.args
    ensures "secret" in j.fields <==> r.secret.Some?
    ensures "messageId" in j.fields <==> r.messageId.Some?
    ensures j.fields.Keys <= {"command", "secret", "messageId", "args"}
  {
    JObj(map["command" := JStr(r.command), "args" := r.args]
         + (if r.secret.Some? then map["secret" := JStr(r.secret.value)] else map[])
         + (if r.messageId.Some? then map["messageId" := JNum(r.messageId.value)] else map[]))
  }

  /** Reads an `Option<&str>` field: absent or null is None, a borrowable
      string is Some, anything else is an error (outer None). */
  function DecodeSecret(v: Option<Json>): Option<Option<string>> {
    match v
    case None => Some(None)
    case Some(JNull) => Some(None)
    case Some(JStr(s)) => if Borrowable(s) then Some(Some(s)) else None
    case Some(_) => None
  }

  /** Reads an `Option<u32>` field: absent or null is None, an integer in
      the u32 range is Some, anything else is an error (outer None). */
  function DecodeId(v: Option<Json>): Option<Option<u32>> {
    match v
    case None => Some(None)
    case Some(JNull) => Some(None)
    case Some(JNum(n)) => if 0 <= n < U32_LIMIT then Some(Some(n as u32)) else None
    case Some(_) => None
  }

  /** Builds the request from its four field values, or fails. */
  function Assemble(command: Json, secret: Option<Json>, messageId: Option<Json>, args: Json): Decoded {
    if command.JStr? && Borrowable(command.s) && DecodeSecret(secret).Some? && DecodeId(messageId).Some? then
      Decoded(RpcRequest(command.s, DecodeSecret(secret).value, DecodeId(messageId).value, args))
    else Invalid
  }

  /** serde's derived `Deserialize`: from an object (unknown keys ignored,
      `command` and `args` required) or from an array of exactly the four
      fields in declaration order. */
  function Deserialize(j: Json): (d: Decoded)
    ensures d.Decoded? ==> j.JObj? || j.JArr?
  {
    match j
    case JObj(m) =>
      if "command" in m && "args" in m then
        Assemble(m["command"], Get(j, "secret"), Get(j, "messageId"), m["args"])
      else Invalid
    case JArr(items) =>
      if |items| == 4 then Assemble(items[0], Some(items[1]), Some(items[2]), items[3]) else Invalid
    case _ => Invalid
  }

  /** Serialising a request and reading it back gives the same request
      exactly when its strings are borrowable; otherwise the text cannot be
      read back at all. */
  lemma RoundTrip(r: RpcRequest)
    ensures BorrowableRequest(r) ==> Deserialize(Serialize(r)) == Decoded(r)
    ensures !BorrowableRequest(r) ==> Deserialize(Serialize(r)) == Invalid
  {
    var j := Serialize(r);
    assert Get(j, "secret") == if r.secret.Some? then Some(JStr(r.secret.value)) else None;
    assert Get(j, "messageId") == if r.messageId.Some? then Some(JNum(r.messageId.value)) else None;
  }

  /** An object lacking `command` or `args` is not a request, whatever else
      it holds; and an object that is one has a string command. */
  lemma RequiredFields(m: map<string, Json>)
    ensures "command" !in m ==> Deserialize(JObj(m)) == Invalid
    ensures "args" !in m ==> Deserialize(JObj(m)) == Invalid
    ensures Deserialize(JObj(m)).Decoded? ==>
      "command" in m && m["command"] == JStr(Deserialize(JObj(m)).req.command) &&
      "args" in m && m["args"] == Deserialize(JObj(m)).req.args
  {
  }

  /** Absent and null optional fields both read as None; a command that
      is not borrowable makes the request unreadable either way. */
  lemma OptionalFieldsDefault(command: string, args: Json, extra: map<string, Json>)
    requires extra.Keys !! {"command", "args", "secret", "messageId"}
    ensures Deserialize(JObj(extra + map["command" := JStr(command), "args" := args]))
      == if Borrowable(command) then Decoded(RpcRequest(command, None, None, args)) else Invalid
    ensures Deserialize(JObj(extra + map["command" := JStr(command), "args" := args,
                                         "secret" := JNull, "messageId" := JNull]))
      == if Borrowable(command) then Decoded(RpcRequest(command, None, None, args)) else Invalid
  {
  }

  /** A command or a secret whose text needs an escape (a '"', a '\\' or a
      control character) makes the whole request unreadable, and every
      request read has borrowable strings. */
  lemma EscapedStringsRejected(m: map<string, Json>)
    ensures "command" in m && m["command"].JStr? && !Borrowable(m["command"].s) ==> Deserialize(JObj(m)) == Invalid
    ensures "secret" in m && m["secret"].JStr? && !Borrowable(m["secret"].s) ==> Deserialize(JObj(m)) == Invalid
    ensures Deserialize(JObj(m)).Decoded? ==> BorrowableRequest(Deserialize(JObj(m)).req)
  {
  }

  /** A `messageId` outside the u32 range, or one that is not a number,
      makes the whole request unreadable. */
  lemma BadIdRejected(m: map<string, Json>)
    requires "command" in m && "args" in m && "messageId" in m
    requires !m["messageId"].JNull?
    requires !(m["messageId"].JNum? && 0 <= m["messageId"].n < U32_LIMIT)
    ensures Deserialize(JObj(m)) == Invalid
  {
  }
}
