/** The texts a run hashes to fingerprint the tools it shows a model (internal/agent/prompt_fingerprint.go).
    A Go string is a byte string here: one character per byte. */
module Fingerprint {
  import opened Text

  /** A tool as it is emitted, its parameters already rendered. */
  datatype Definition = Definition(name: string, description: string, schema: string)

  function Prefixed(value: string): string { Numeral(|value|) + ([':'] + value) }

  function Encode(values: seq<string>): string {
    if values == [] then "" else Encode(values[..|values| - 1]) + Prefixed(values[|values| - 1])
  }

  function Described(defs: seq<Definition>): seq<string> {
    if defs == [] then []
    else Described(defs[..|defs| - 1]) + [defs[|defs| - 1].name, defs[|defs| - 1].description]
  }

  function Rendered(defs: seq<Definition>): seq<string> {
    if defs == [] then []
    else Rendered(defs[..|defs| - 1]) + [defs[|defs| - 1].name, defs[|defs| - 1].schema]
  }

  method WriteLengthPrefixed(sb: string, value: string) returns (written: string)
    ensures written == sb + Prefixed(value)
  {
    written := sb + Numeral(|value|) + [':'];
    written := written + value;
  }

  method ToolSubstrings(exposed: seq<Definition>) returns (tools: string, schema: string)
    ensures tools == Encode(Described(exposed)) && schema == Encode(Rendered(exposed))
  {
    tools, schema := "", "";
    if |exposed| == 0 {
      return;
    }
    for i := 0 to |exposed|
      invariant tools == Encode(Described(exposed[..i])) && schema == Encode(Rendered(exposed[..i]))
    {
      var def := exposed[i];
      assert exposed[..i + 1][..i] == exposed[..i];
      EncodeTwo(Described(exposed[..i]), def.name, def.description);
      EncodeTwo(Rendered(exposed[..i]), def.name, def.schema);
      tools := WriteLengthPrefixed(tools, def.name);
      tools := WriteLengthPrefixed(tools, def.description);
      schema := WriteLengthPrefixed(schema, def.name);
      schema := WriteLengthPrefixed(schema, def.schema);
    }
    assert exposed[..|exposed|] == exposed;
  }

  lemma EncodeTwo(values: seq<string>, a: string, b: string)
    ensures Encode(values + [a, b]) == Encode(values) + Prefixed(a) + Prefixed(b)
  {
    assert (values + [a, b])[..|values| + 1] == values + [a];
    assert (values + [a])[..|values|] == values;
  }

  /* Reading the text back. */

  /** The first value of an encoded list and the rest, if a length without leading zeros, a colon and as
      many bytes stand there. */
  function ReadOne(s: string): (r: Option<(string, string)>)
    ensures r.Some? ==> |r.value.1| < |s|
  {
    var d := Digits(s);
    if d == 0 || d == |s| || s[d] != ':' then None
    else
      var n := Value(s, d);
      if Numeral(n) != s[..d] || d + 1 + n > |s| then None
      else Some((s[d + 1..d + 1 + n], s[d + 1 + n..]))
  }

  function Decode(s: string): Option<seq<string>>
    decreases |s|
  {
    if s == "" then Some([])
    else
      match ReadOne(s)
      case None => None
      case Some((value, rest)) =>
        match Decode(rest)
        case None => None
        case Some(values) => Some([value] + values)
  }

  lemma ReadsOne(value: string, rest: string)
    ensures ReadOne(Prefixed(value) + rest) == Some((value, rest))
  {
    var len := Numeral(|value|);
    var s := Prefixed(value) + rest;
    var behind := [':'] + value + rest;
    assert s == len + behind;
    NumeralReads(|value|, behind);
    assert s[..|len|] == len;
    assert s[|len| + 1..|len| + 1 + |value|] == value;
    assert s[|len| + 1 + |value|..] == rest;
  }

  lemma ReadIsPrefixed(s: string)
    requires ReadOne(s).Some?
    ensures var r := ReadOne(s).value;
      s == Prefixed(r.0) + r.1
  {
    var d := Digits(s);
    var n := Value(s, d);
    assert s == s[..d] + ([s[d]] + s[d + 1..d + 1 + n]) + s[d + 1 + n..];
  }

  lemma {:induction false} EncodeCons(value: string, values: seq<string>)
    ensures Encode([value] + values) == Prefixed(value) + Encode(values)
  {
    hide Prefixed;
    var all := [value] + values;
    if values == [] {
      assert all[..0] == [];
      assert Encode(all) == Encode(all[..0]) + Prefixed(value);
    } else {
      EncodeCons(value, values[..|values| - 1]);
      assert all[..|all| - 1] == [value] + values[..|values| - 1];
    }
  }

  lemma {:induction false} DecodeEncode(values: seq<string>)
    ensures Decode(Encode(values)) == Some(values)
  {
    hide Prefixed, ReadOne;
    if values != [] {
      var rest := values[1..];
      assert values == [values[0]] + rest;
      EncodeCons(values[0], rest);
      ReadsOne(values[0], Encode(rest));
      DecodeEncode(rest);
    }
  }

  lemma {:induction false} EncodeDecode(s: string)
    requires Decode(s).Some?
    ensures Encode(Decode(s).value) == s
    decreases |s|
  {
    hide Prefixed, ReadOne;
    if s != "" {
      var r := ReadOne(s).value;
      ReadIsPrefixed(s);
      EncodeDecode(r.1);
      EncodeCons(r.0, Decode(r.1).value);
    }
  }

  /** A text is decoded as a list exactly when it is the encoding of that list: whatever digits or colons
      the values hold, no text stands for two lists. */
  lemma DecodeIsExact(s: string, values: seq<string>)
    ensures Decode(s) == Some(values) <==> s == Encode(values)
  {
    if Decode(s) == Some(values) {
      EncodeDecode(s);
    }
    DecodeEncode(values);
  }

  /* What the two texts identify. */

  ghost predicate SameDescriptions(a: seq<Definition>, b: seq<Definition>) {
    |a| == |b| && forall i | 0 <= i < |a| :: a[i].name == b[i].name && a[i].description == b[i].description
  }

  ghost predicate SameSchemas(a: seq<Definition>, b: seq<Definition>) {
    |a| == |b| && forall i | 0 <= i < |a| :: a[i].name == b[i].name && a[i].schema == b[i].schema
  }

  lemma {:induction false} DescribedAt(defs: seq<Definition>)
    ensures |Described(defs)| == 2 * |defs| && |Rendered(defs)| == 2 * |defs|
    ensures forall i | 0 <= i < |defs| ::
      Described(defs)[2 * i] == defs[i].name && Described(defs)[2 * i + 1] == defs[i].description
    ensures forall i | 0 <= i < |defs| ::
      Rendered(defs)[2 * i] == defs[i].name && Rendered(defs)[2 * i + 1] == defs[i].schema
  {
    if defs != [] {
      DescribedAt(defs[..|defs| - 1]);
    }
  }

  lemma SameLists(a: seq<Definition>, b: seq<Definition>)
    ensures Described(a) == Described(b) <==> SameDescriptions(a, b)
    ensures Rendered(a) == Rendered(b) <==> SameSchemas(a, b)
  {
    DescribedAt(a);
    DescribedAt(b);
    if SameDescriptions(a, b) {
      forall k | 0 <= k < |Described(a)| ensures Described(a)[k] == Described(b)[k] {
        assert k == 2 * (k / 2) || k == 2 * (k / 2) + 1;
      }
    }
    if SameSchemas(a, b) {
      forall k | 0 <= k < |Rendered(a)| ensures Rendered(a)[k] == Rendered(b)[k] {
        assert k == 2 * (k / 2) || k == 2 * (k / 2) + 1;
      }
    }
  }

  /** The tool text changes exactly with the ordered names and descriptions, the schema text exactly with
      the ordered names and schemas; so the pair identifies the emitted list. */
  lemma TextsIdentifyTools(a: seq<Definition>, b: seq<Definition>)
    ensures Encode(Described(a)) == Encode(Described(b)) <==> SameDescriptions(a, b)
    ensures Encode(Rendered(a)) == Encode(Rendered(b)) <==> SameSchemas(a, b)
    ensures Encode(Described(a)) == Encode(Described(b)) && Encode(Rendered(a)) == Encode(Rendered(b)) <==> a == b
  {
    hide Described, Rendered;
    SameLists(a, b);
    DecodeEncode(Described(a));
    DecodeEncode(Described(b));
    DecodeEncode(Rendered(a));
    DecodeEncode(Rendered(b));
  }

  /* The complete prefix. */

  /** A hash whose digests all have the same length. */
  type Hash = string -> string

  ghost predicate Regular(hash: Hash) { forall s, t :: |hash(s)| == |hash(t)| }

  function Components(hash: Hash, system: string, tools: string, schema: string): string {
    hash(system) + ['|'] + hash(tools) + ['|'] + hash(schema)
  }

  function CompletePrefix(hash: Hash, system: string, defs: seq<Definition>): string {
    hash(Components(hash, system, Encode(Described(defs)), Encode(Rendered(defs))))
  }

  ghost predicate NoCollision(hash: Hash, s: string, t: string) { hash(s) == hash(t) ==> s == t }

  /** Unless the hash collides on one of the four pairs of texts, the complete fingerprint of two requests
      is the same exactly when their system prompt and their tool lists are. */
  lemma CompletePrefixIdentifies(hash: Hash, system: string, defs: seq<Definition>, system': string,
                                 defs': seq<Definition>)
    requires Regular(hash) && NoCollision(hash, system, system')
    requires var (t, s, t', s') :=
      (Encode(Described(defs)), Encode(Rendered(defs)), Encode(Described(defs')), Encode(Rendered(defs')));
      && NoCollision(hash, t, t') && NoCollision(hash, s, s')
      && NoCollision(hash, Components(hash, system, t, s), Components(hash, system', t', s'))
    ensures CompletePrefix(hash, system, defs) == CompletePrefix(hash, system', defs')
      <==> system == system' && defs == defs'
  {
    hide Described, Rendered, Encode;
    TextsIdentifyTools(defs, defs');
    var tools, tools' := Encode(Described(defs)), Encode(Described(defs'));
    var schema, schema' := Encode(Rendered(defs)), Encode(Rendered(defs'));
    var all, all' := Components(hash, system, tools, schema), Components(hash, system', tools', schema');
    var n := |hash(system)|;
    assert all[..n] == hash(system) && all[n + 1..2 * n + 1] == hash(tools) && all[2 * n + 2..] == hash(schema);
    assert all'[..n] == hash(system') && all'[n + 1..2 * n + 1] == hash(tools') && all'[2 * n + 2..] == hash(schema');
  }
}
