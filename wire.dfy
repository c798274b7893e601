/** Values that travel over the bridge's sockets, shared by every component:
    parsed JSON values, socket frames, and the JavaScript / Python conversions
    the components apply to them. Parsing JSON text itself is not modelled:
    a frame already carries its parsed value. */
module Wire {

  datatype Option<+T> = None | Some(value: T)

  /** Identity of one socket connection, as seen by a server. */
  type ConnId = nat

  /** A parsed JSON value. Numbers are integers; objects are key/value maps
      (the order of keys is not modelled). */
  datatype Json =
    | JNull
    | JBool(b: bool)
    | JNum(n: int)
    | JStr(s: string)
    | JArr(items: seq<Json>)
    | JObj(fields: map<string, Json>)

  /** One websocket message.
      Data: a text frame holding JSON text, already parsed.
      Text: a text frame that is not JSON ("Ready", "Terminate", "init:<secret>", garbage).
      Undecodable: a frame whose payload cannot be read as text. */
  datatype Frame = Undecodable | Text(s: string) | Data(j: Json)

  /** A frame handed to a connection: what a server sends, and to whom. */
  datatype Delivery = Delivery(to: ConnId, frame: Frame)

  predicate IsPrefix(p: string, s: string) {
    |p| <= |s| && s[..|p|] == p
  }

  /** `obj.key` on a JSON value: only objects have properties here; for every
      other value the property is undefined (None). */
  function Get(j: Json, key: string): Option<Json> {
    if j.JObj? && key in j.fields then Some(j.fields[key]) else None
  }

  /** JavaScript truthiness of a possibly undefined value. */
  predicate Truthy(v: Option<Json>) {
    match v
    case None => false
    case Some(JNull) => false
    case Some(JBool(b)) => b
    case Some(JNum(n)) => n != 0
    case Some(JStr(s)) => s != ""
    case Some(JArr(_)) => true
    case Some(JObj(_)) => true
  }

  /** JavaScript `v ?? d`: the default replaces undefined and null only. */
  function Coalesce(v: Option<Json>, d: Json): Json {
    match v
    case None => d
    case Some(JNull) => d
    case Some(x) => x
  }

  /** An object with `messageId` set to `id` when `id` is defined, then the
      given fields laid over it (`{messageId: id, ...fields}`; JSON.stringify
      drops an undefined `messageId`). */
  function WithId(id: Option<Json>, fields: map<string, Json>): Json {
    JObj((if id.Some? then map["messageId" := id.value] else map[]) + fields)
  }

  /** `{success: false, error: <text>}`. */
  function Failure(error: string): map<string, Json> {
    map["success" := JBool(false), "error" := JStr(error)]
  }

  function DigitChar(d: nat): char
    requires d < 10
  {
    ['0', '1', '2', '3', '4', '5', '6', '7', '8', '9'][d]
  }

  predicate IsDigits(s: string) {
    forall i :: 0 <= i < |s| ==> '0' <= s[i] <= '9'
  }

  /** Decimal notation of a natural number, as Rust's `to_string`, Python's
      `str` and JavaScript's `String` write it. */
  function NatToString(n: nat): (s: string)
    ensures |s| >= 1 && IsDigits(s)
  {
    if n < 10 then [DigitChar(n)] else NatToString(n / 10) + [DigitChar(n % 10)]
  }

  function IntToString(i: int): string {
    if i < 0 then "-" + NatToString(-i) else NatToString(i)
  }

  /** Reads a string of decimal digits back as a number. */
  function ParseNat(s: string): nat
    requires IsDigits(s)
  {
    if s == [] then 0 else ParseNat(s[..|s| - 1]) * 10 + (s[|s| - 1] as int - '0' as int)
  }

  /** Decimal notation is read back as the number it was written from. */
  lemma {:induction false} ParseNatToString(n: nat)
    ensures ParseNat(NatToString(n)) == n
  {
    var s := NatToString(n);
    if n >= 10 {
      ParseNatToString(n / 10);
      assert s[..|s| - 1] == NatToString(n / 10);
      assert s[|s| - 1] == DigitChar(n % 10);
    }
    assert s[|s| - 1] as int - '0' as int == n % 10 by {
      assert s[|s| - 1] == DigitChar(n % 10);
    }
  }

  function Join(parts: seq<string>, sep: string): string {
    if parts == [] then ""
    else if |parts| == 1 then parts[0]
    else parts[0] + sep + Join(parts[1..], sep)
  }

  /** JavaScript `String(v)`, which template literals and property-key
      coercion apply. Arrays join their elements with ","; null elements
      of an array become "". */
  function JsString(j: Json): string {
    match j
    case JNull => "null"
    case JBool(b) => if b then "true" else "false"
    case JNum(n) => IntToString(n)
    case JStr(s) => s
    case JArr(items) =>
      Join(seq(|items|, i requires 0 <= i < |items| => if items[i].JNull? then "" else JsString(items[i])), ",")
    case JObj(_) => "[object Object]"
  }

  /** How `Array.prototype.join` writes one element. */
  function JsElemString(j: Json): string {
    if j.JNull? then "" else JsString(j)
  }
}
