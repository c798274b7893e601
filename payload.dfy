/** `make_payload` of src/payload.rs: one left-to-right pass over the
    template that replaces every `$REPLACE`, `$SECRET` and `$PORT` (the
    regex `(\$REPLACE)|(\$SECRET)|(\$PORT)` under `replace_all`). */
module PayloadTemplate {
  import opened Wire

  /** Rust's `u16`, the type of the port. */
  type u16 = x: int | 0 <= x < 0x1_0000

  const ReplaceMark: string := "$REPLACE"
  const SecretMark: string := "$SECRET"
  const PortMark: string := "$PORT"

  /** `bool::to_string`. */
  function BoolText(b: bool): string {
    if b then "true" else "false"
  }

  /** A placeholder starts at position i of t. */
  predicate PlaceholderAt(t: string, i: nat)
    requires i <= |t|
  {
    IsPrefix(ReplaceMark, t[i..]) || IsPrefix(SecretMark, t[i..]) || IsPrefix(PortMark, t[i..])
  }

  predicate NoPlaceholder(t: string) {
    forall i :: 0 <= i < |t| ==> !PlaceholderAt(t, i)
  }

  /** The substituted template. At each position a placeholder that starts
      there is replaced and scanning resumes after it; any other character
      is copied. Replacement text is never scanned again. */
  function MakePayload(t: string, port: u16, replace: bool, secret: string): string
    decreases |t|
  {
    if t == [] then []
    else if IsPrefix(ReplaceMark, t) then BoolText(replace) + MakePayload(t[|ReplaceMark|..], port, replace, secret)
    else if IsPrefix(SecretMark, t) then secret + MakePayload(t[|SecretMark|..], port, replace, secret)
    else if IsPrefix(PortMark, t) then NatToString(port) + MakePayload(t[|PortMark|..], port, replace, secret)
    else [t[0]] + MakePayload(t[1..], port, replace, secret)
  }

  /** Text holding no placeholder comes back unchanged. */
  lemma {:induction false} NoPlaceholderUnchanged(t: string, port: u16, replace: bool, secret: string)
    requires NoPlaceholder(t)
    ensures MakePayload(t, port, replace, secret) == t
  {
    if t != [] {
      assert !PlaceholderAt(t, 0);
      assert t[0..] == t;
      forall i | 0 <= i < |t[1..]|
        ensures !PlaceholderAt(t[1..], i)
      {
        assert t[1..][i..] == t[i + 1..];
        assert !PlaceholderAt(t, i + 1);
      }
      NoPlaceholderUnchanged(t[1..], port, replace, secret);
    }
  }

  /** A placeholder that is a prefix of a + b, where b is empty or starts
      with '$', is already a prefix of a: the only '$' of a placeholder is
      its first character. */
  lemma MarkInsideLeft(m: string, a: string, b: string)
    requires m == ReplaceMark || m == SecretMark || m == PortMark
    requires a != [] && (b == [] || b[0] == '$')
    requires IsPrefix(m, a + b)
    ensures IsPrefix(m, a)
  {
    assert |a| >= |m| by {
      assert forall k :: 1 <= k < |m| ==> m[k] != '$';
      if b != [] {
        assert (a + b)[|a|] == '$';
      }
    }
    assert (a + b)[..|m|] == a[..|m|];
  }

  lemma PrefixExtends(m: string, a: string, b: string)
    ensures IsPrefix(m, a) ==> IsPrefix(m, a + b)
  {
    if IsPrefix(m, a) {
      assert (a + b)[..|m|] == a[..|m|];
    }
  }

  /** One step of the pass over a non-empty text: what it emits and how many
      characters it consumes. */
  function Step(t: string, port: u16, replace: bool, secret: string): (string, nat)
    requires t != []
  {
    if IsPrefix(ReplaceMark, t) then (BoolText(replace), |ReplaceMark|)
    else if IsPrefix(SecretMark, t) then (secret, |SecretMark|)
    else if IsPrefix(PortMark, t) then (NatToString(port), |PortMark|)
    else ([t[0]], 1)
  }

  lemma StepUnfolds(t: string, port: u16, replace: bool, secret: string)
    requires t != []
    ensures 1 <= Step(t, port, replace, secret).1 <= |t|
    ensures MakePayload(t, port, replace, secret)
         == Step(t, port, replace, secret).0 + MakePayload(t[Step(t, port, replace, secret).1..], port, replace, secret)
  {
  }

  /** The step taken at the start of a + b is the one taken at the start of
      a, when b is empty or starts with '$'. */
  lemma StepSplit(a: string, b: string, port: u16, replace: bool, secret: string)
    requires a != [] && (b == [] || b[0] == '$')
    ensures Step(a + b, port, replace, secret) == Step(a, port, replace, secret)
  {
    var t := a + b;
    PrefixExtends(ReplaceMark, a, b);
    PrefixExtends(SecretMark, a, b);
    PrefixExtends(PortMark, a, b);
    if IsPrefix(ReplaceMark, t) {
      MarkInsideLeft(ReplaceMark, a, b);
    } else if IsPrefix(SecretMark, t) {
      MarkInsideLeft(SecretMark, a, b);
    } else if IsPrefix(PortMark, t) {
      MarkInsideLeft(PortMark, a, b);
    }
  }

  /** Substitution splits at any point where a '$' (or the end) follows:
      no placeholder can straddle that point. */
  lemma {:induction false} SplitBeforeDollar(a: string, b: string, port: u16, replace: bool, secret: string)
    requires b == [] || b[0] == '$'
    ensures MakePayload(a + b, port, replace, secret)
         == MakePayload(a, port, replace, secret) + MakePayload(b, port, replace, secret)
    decreases |a|
  {
    if a == [] {
      assert a + b == b;
    } else {
      var n := Step(a, port, replace, secret).1;
      StepSplit(a, b, port, replace, secret);
      StepUnfolds(a, port, replace, secret);
      StepUnfolds(a + b, port, replace, secret);
      assert (a + b)[n..] == a[n..] + b;
      SplitBeforeDollar(a[n..], b, port, replace, secret);
    }
  }

  /** The text a placeholder stands for. */
  function Value(m: string, port: u16, replace: bool, secret: string): string {
    if m == ReplaceMark then BoolText(replace)
    else if m == SecretMark then secret
    else NatToString(port)
  }

  lemma MarkFirst(m: string, b: string, port: u16, replace: bool, secret: string)
    requires m == ReplaceMark || m == SecretMark || m == PortMark
    ensures MakePayload(m + b, port, replace, secret) == Value(m, port, replace, secret) + MakePayload(b, port, replace, secret)
  {
    var t := m + b;
    assert t[..|m|] == m;
    assert t[1] == m[1];
    assert t[|m|..] == b;
    assert Step(t, port, replace, secret) == (Value(m, port, replace, secret), |m|);
    StepUnfolds(t, port, replace, secret);
  }

  /** A template that starts with a placeholder begins with its value. */
  lemma LeadingMark(b: string, port: u16, replace: bool, secret: string)
    ensures MakePayload(ReplaceMark + b, port, replace, secret) == BoolText(replace) + MakePayload(b, port, replace, secret)
    ensures MakePayload(SecretMark + b, port, replace, secret) == secret + MakePayload(b, port, replace, secret)
    ensures MakePayload(PortMark + b, port, replace, secret) == NatToString(port) + MakePayload(b, port, replace, secret)
  {
    MarkFirst(ReplaceMark, b, port, replace, secret);
    MarkFirst(SecretMark, b, port, replace, secret);
    MarkFirst(PortMark, b, port, replace, secret);
  }

  lemma MarkAnywhere(a: string, m: string, b: string, port: u16, replace: bool, secret: string)
    requires m == ReplaceMark || m == SecretMark || m == PortMark
    ensures MakePayload(a + m + b, port, replace, secret)
         == MakePayload(a, port, replace, secret) + Value(m, port, replace, secret) + MakePayload(b, port, replace, secret)
  {
    MarkFirst(m, b, port, replace, secret);
    SplitBeforeDollar(a, m + b, port, replace, secret);
    assert a + m + b == a + (m + b);
  }

  /** Every placeholder occurrence becomes its value, wherever it stands:
      `$REPLACE` the text "true" or "false", `$SECRET` the secret and
      `$PORT` the decimal port. The inserted value is not scanned again,
      so a secret that itself contains a placeholder is kept verbatim. */
  lemma EachPlaceholderReplaced(a: string, b: string, port: u16, replace: bool, secret: string)
    ensures MakePayload(a + ReplaceMark + b, port, replace, secret)
         == MakePayload(a, port, replace, secret) + BoolText(replace) + MakePayload(b, port, replace, secret)
    ensures MakePayload(a + SecretMark + b, port, replace, secret)
         == MakePayload(a, port, replace, secret) + secret + MakePayload(b, port, replace, secret)
    ensures MakePayload(a + PortMark + b, port, replace, secret)
         == MakePayload(a, port, replace, secret) + NatToString(port) + MakePayload(b, port, replace, secret)
  {
    MarkAnywhere(a, ReplaceMark, b, port, replace, secret);
    MarkAnywhere(a, SecretMark, b, port, replace, secret);
    MarkAnywhere(a, PortMark, b, port, replace, secret);
  }

  /** Single pass, concretely: with the secret "$PORT", the template
      "$SECRET" becomes "$PORT", not the port number a second pass would
      produce. */
  lemma SubstitutedValueNotRescanned(port: u16, replace: bool)
    ensures MakePayload(SecretMark, port, replace, PortMark) == PortMark
    ensures MakePayload(PortMark, port, replace, PortMark) == NatToString(port)
  {
    EachPlaceholderReplaced([], [], port, replace, PortMark);
    assert [] + SecretMark + [] == SecretMark;
    assert [] + PortMark + [] == PortMark;
  }
}
