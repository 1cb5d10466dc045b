/** Searching printed JSON for a marker line: where the marker can stand, and why a reader that starts
    behind one inside a string cannot make sense of the rest. */
module Markers {
  import opened Text
  import opened Json

  predicate At(s: string, m: string, i: nat) { i + |m| <= |s| && s[i..i + |m|] == m }

  ghost predicate Contains(s: string, m: string) { exists i: nat :: At(s, m, i) }

  /** The last position below n at which the marker stands, or -1. */
  function LastBelow(s: string, m: string, n: nat): (i: int)
    ensures -1 <= i < n
    ensures i >= 0 ==> At(s, m, i)
    ensures forall k: nat | i < k < n :: !At(s, m, k)
  {
    if n == 0 then -1 else if At(s, m, n - 1) then n - 1 else LastBelow(s, m, n - 1)
  }

  function LastIndex(s: string, m: string): (i: int)
    ensures i >= 0 ==> At(s, m, i)
    ensures forall k: nat | i < k :: !At(s, m, k)
    ensures i < 0 <==> !Contains(s, m)
  {
    LastBelow(s, m, |s| + 1)
  }

  const STRUCTURE := "[]{},:\"\\"

  predicate Verbatim(c: char) { Plain(c) && c !in STRUCTURE }

  /** A text that is printed as it is, holds no character of the JSON structure, and opens with a hash. */
  ghost predicate Marker(m: string) { m != "" && m[0] == '#' && AllVerbatim(m) }

  ghost predicate AllVerbatim(s: string) { forall i | 0 <= i < |s| :: Verbatim(s[i]) }

  /* Where a marker stands in printed JSON. */

  lemma AtSuffix(a: string, b: string, m: string, i: nat)
    ensures At(a + b, m, |a| + i) <==> At(b, m, i)
  {
    if i + |m| <= |b| {
      assert (a + b)[|a| + i..|a| + i + |m|] == b[i..i + |m|];
    }
  }

  lemma AtPrefix(a: string, b: string, m: string, i: nat)
    requires i + |m| <= |a|
    ensures At(a + b, m, i) <==> At(a, m, i)
  {
    assert (a + b)[i..i + |m|] == a[i..i + |m|];
  }

  lemma Covers(s: string, m: string, i: nat, k: nat)
    ensures At(s, m, i) && i <= k < i + |m| ==> s[k] in m
  {
    if At(s, m, i) && i <= k < i + |m| {
      assert s[i..i + |m|][k - i] == s[k];
    }
  }

  lemma ContainsSplit(a: string, c: char, b: string, m: string)
    requires m != "" && c !in m
    ensures Contains(a + ([c] + b), m) <==> Contains(a, m) || Contains(b, m)
  {
    var s, front := a + ([c] + b), a + [c];
    assert s == front + b;
    forall i: nat | At(s, m, i) ensures Contains(a, m) || Contains(b, m) {
      if i + |m| <= |a| {
        AtPrefix(a, [c] + b, m, i);
      } else if i <= |a| {
        Covers(s, m, i, |a|);
      } else {
        AtSuffix(front, b, m, i - |front|);
      }
    }
    forall i: nat | At(a, m, i) ensures Contains(s, m) {
      AtPrefix(a, [c] + b, m, i);
    }
    forall i: nat | At(b, m, i) ensures Contains(s, m) {
      AtSuffix(front, b, m, i);
    }
  }

  /** A plain text begins the escaped form exactly when it begins the text. */
  lemma {:induction false} EscapeBegins(s: string, m: string)
    requires forall i | 0 <= i < |m| :: Plain(m[i]) && m[i] != '\\'
    ensures At(Escape(s), m, 0) <==> At(s, m, 0)
  {
    if m != "" && s != "" {
      EscapeBegins(s[1..], m[1..]);
      Tails(Escape(s), m);
      Tails(s, m);
      if Plain(s[0]) {
        assert Escape(s)[1..] == Escape(s[1..]);
      }
    } else if m == "" {
      assert Escape(s)[0..0] == "" && s[0..0] == "";
    }
  }

  lemma Tails(s: string, m: string)
    requires s != "" && m != ""
    ensures At(s, m, 0) <==> s[0] == m[0] && At(s[1..], m[1..], 0)
  {
    if |m| <= |s| {
      assert s[0..|m|] == [s[0]] + s[1..][0..|m| - 1];
      assert m == [m[0]] + m[1..];
    }
  }

  lemma NoHashInEscapes(c: char)
    ensures EscapeChar(c) != "" && forall i | 0 < i < |EscapeChar(c)| :: EscapeChar(c)[i] != '#'
  {
    assert forall d | 0 <= d < 16 :: HEX[d] != '#';
  }

  /** A marker stands at the front or behind it, when the front has no hash but its first character. */
  lemma ContainsStep(a: string, b: string, m: string)
    requires Marker(m) && a != "" && forall i | 0 < i < |a| :: a[i] != '#'
    ensures Contains(a + b, m) <==> At(a + b, m, 0) || Contains(b, m)
  {
    var s := a + b;
    forall i: nat | At(s, m, i) && i > 0 ensures Contains(b, m) {
      assert s[i] == s[i..i + |m|][0] == '#';
      AtSuffix(a, b, m, i - |a|);
    }
    forall i: nat | At(b, m, i) ensures Contains(s, m) {
      AtSuffix(a, b, m, i);
    }
  }

  lemma {:induction false} EscapeContains(s: string, m: string)
    requires Marker(m)
    ensures Contains(Escape(s), m) <==> Contains(s, m)
  {
    hide At, Contains, EscapeChar;
    if s != "" {
      EscapeBegins(s, m);
      EscapeContains(s[1..], m);
      NoHashInEscapes(s[0]);
      ContainsStep(EscapeChar(s[0]), Escape(s[1..]), m);
      ContainsStep([s[0]], s[1..], m);
      assert [s[0]] + s[1..] == s;
    }
  }

  lemma EmptyContainsNothing(m: string)
    requires m != ""
    ensures !Contains("", m)
  {
  }

  ghost predicate Holds(j: Json, m: string) {
    match j
    case Number(_) => false
    case Text(s) => Contains(s, m)
    case Array(items) => HoldsItems(items, m)
    case Object(fields) => HoldsFields(fields, m)
  }

  ghost predicate HoldsItems(items: Items, m: string) {
    items.Item? && (Holds(items.head, m) || HoldsItems(items.tail, m))
  }

  ghost predicate HoldsFields(fields: Fields, m: string) {
    fields.Field? && (Contains(fields.key, m) || Holds(fields.value, m) || HoldsFields(fields.tail, m))
  }

  lemma Enclosed(c: char, inner: string, d: char, m: string)
    requires Marker(m) && c in STRUCTURE && d in STRUCTURE
    ensures Contains([c] + (inner + [d]), m) <==> Contains(inner, m)
  {
    EmptyContainsNothing(m);
    ContainsSplit(inner, d, "", m);
    assert [d] + "" == [d];
    ContainsSplit("", c, inner + [d], m);
    assert "" + ([c] + (inner + [d])) == [c] + (inner + [d]);
  }

  lemma QuoteContains(s: string, m: string)
    requires Marker(m)
    ensures Contains(Quote(s), m) <==> Contains(s, m)
  {
    EscapeContains(s, m);
    Enclosed('\"', Escape(s), '\"', m);
  }

  /** The marker stands in the printed form exactly when a string of the value holds it. */
  lemma {:induction false} PrintContains(j: Json, m: string)
    requires Marker(m)
    ensures Contains(Print(j), m) <==> Holds(j, m)
    decreases j
  {
    hide Contains, Quote;
    match j
    case Number(n) => NoHashNoMarker(Numeral(n), m);
    case Text(s) => QuoteContains(s, m);
    case Array(items) =>
      Enclosed('[', PrintItems(items), ']', m);
      ItemsContain(items, m);
    case Object(fields) =>
      Enclosed('{', PrintFields(fields), '}', m);
      FieldsContain(fields, m);
  }

  lemma StartsAt(s: string, m: string, i: nat)
    requires m != ""
    ensures At(s, m, i) ==> s[i] == m[0]
  {
    if At(s, m, i) {
      assert s[i..i + |m|][0] == s[i];
    }
  }

  lemma NoHashNoMarker(s: string, m: string)
    requires Marker(m) && '#' !in s
    ensures !Contains(s, m)
  {
    forall i: nat ensures !At(s, m, i) {
      StartsAt(s, m, i);
    }
  }

  lemma {:induction false} ItemsContain(items: Items, m: string)
    requires Marker(m)
    ensures Contains(PrintItems(items), m) <==> HoldsItems(items, m)
    decreases items
  {
    hide Contains;
    if items.NoItems? {
      EmptyContainsNothing(m);
    } else {
      PrintContains(items.head, m);
      ItemsContain(items.tail, m);
      if items.tail.Item? {
        ContainsSplit(Print(items.head), ',', PrintItems(items.tail), m);
      }
    }
  }

  lemma {:induction false} FieldsContain(fields: Fields, m: string)
    requires Marker(m)
    ensures Contains(PrintFields(fields), m) <==> HoldsFields(fields, m)
    decreases fields
  {
    hide Contains, Quote;
    if fields.NoFields? {
      EmptyContainsNothing(m);
    } else {
      var value := Print(fields.value);
      QuoteContains(fields.key, m);
      PrintContains(fields.value, m);
      FieldsContain(fields.tail, m);
      if fields.tail.NoFields? {
        ContainsSplit(Quote(fields.key), ':', value, m);
      } else {
        ContainsSplit(Quote(fields.key), ':', value + ([','] + PrintFields(fields.tail)), m);
        ContainsSplit(value, ',', PrintFields(fields.tail), m);
      }
    }
  }

  /* Reading from the middle: the parity of the quotes. */

  /** Whether the next character is inside a string literal, and whether a backslash stands before it. */
  datatype Scan = Scan(quoted: bool, escaped: bool)

  const OUTSIDE := Scan(false, false)
  const INSIDE := Scan(true, false)

  function Advance(st: Scan, c: char): Scan {
    if st.escaped then st.(escaped := false)
    else if c == '\\' then st.(escaped := true)
    else if c == '\"' then st.(quoted := !st.quoted)
    else st
  }

  function Pass(st: Scan, s: string): Scan
    decreases |s|
  {
    if s == "" then st else Pass(Advance(st, s[0]), s[1..])
  }

  function Flip(st: Scan): Scan { st.(quoted := !st.quoted) }

  lemma {:induction false} PassConcat(st: Scan, a: string, b: string)
    ensures Pass(st, a + b) == Pass(Pass(st, a), b)
    decreases |a|
  {
    if a == "" {
      assert a + b == b;
    } else {
      assert (a + b)[1..] == a[1..] + b;
      PassConcat(Advance(st, a[0]), a[1..], b);
    }
  }

  lemma {:induction false} PassFlip(st: Scan, s: string)
    ensures Pass(Flip(st), s) == Flip(Pass(st, s))
    decreases |s|
  {
    if s != "" {
      PassFlip(Advance(st, s[0]), s[1..]);
    }
  }

  predicate Neutral(c: char) { c != '\"' && c != '\\' }

  lemma {:induction false} PassNeutral(st: Scan, s: string)
    requires !st.escaped && forall i | 0 <= i < |s| :: Neutral(s[i])
    ensures Pass(st, s) == st
  {
    if s != "" {
      PassNeutral(st, s[1..]);
    }
  }

  /** Every hash stands inside a string literal. */
  predicate HashesQuoted(st: Scan, s: string)
    decreases |s|
  {
    s == "" || ((s[0] == '#' ==> st == INSIDE) && HashesQuoted(Advance(st, s[0]), s[1..]))
  }

  lemma {:induction false} HashesConcat(st: Scan, a: string, b: string)
    ensures HashesQuoted(st, a + b) <==> HashesQuoted(st, a) && HashesQuoted(Pass(st, a), b)
    decreases |a|
  {
    if a == "" {
      assert a + b == b;
    } else {
      assert (a + b)[1..] == a[1..] + b;
      HashesConcat(Advance(st, a[0]), a[1..], b);
    }
  }

  /** A text that leaves the scan where it found it, with its hashes quoted. */
  predicate Balanced(st: Scan, s: string) { Pass(st, s) == st && HashesQuoted(st, s) }

  lemma BalancedConcat(st: Scan, a: string, b: string)
    requires Balanced(st, a) && Balanced(st, b)
    ensures Balanced(st, a + b)
  {
    PassConcat(st, a, b);
    HashesConcat(st, a, b);
  }

  lemma BalancedChar(c: char)
    requires Neutral(c) && c != '#'
    ensures Balanced(OUTSIDE, [c])
  {
    assert [c][1..] == "";
  }

  lemma EscapeCharBalanced(c: char)
    ensures Balanced(INSIDE, EscapeChar(c))
  {
    var e := EscapeChar(c);
    if |e| == 1 {
      assert e[1..] == "";
    } else {
      NoHashInEscapes(c);
      HexIsNeutral(c);
      PassNeutral(INSIDE, e[2..]);
      NoHashes(INSIDE, e[2..]);
      assert e[1..][1..] == e[2..];
      assert Advance(Advance(INSIDE, e[0]), e[1]) == INSIDE;
    }
  }

  lemma HexIsNeutral(c: char)
    requires |EscapeChar(c)| > 1
    ensures forall i | 2 <= i < |EscapeChar(c)| :: Neutral(EscapeChar(c)[i])
  {
    assert forall d | 0 <= d < 16 :: Neutral(HEX[d]);
  }

  lemma {:induction false} NoHashes(st: Scan, s: string)
    requires '#' !in s
    ensures HashesQuoted(st, s)
    decreases |s|
  {
    if s != "" {
      NoHashes(Advance(st, s[0]), s[1..]);
    }
  }

  lemma {:induction false} EscapeBalanced(s: string)
    ensures Balanced(INSIDE, Escape(s))
  {
    if s != "" {
      EscapeBalanced(s[1..]);
      EscapeCharBalanced(s[0]);
      BalancedConcat(INSIDE, EscapeChar(s[0]), Escape(s[1..]));
    }
  }

  lemma QuoteBalanced(s: string)
    ensures Balanced(OUTSIDE, Quote(s))
  {
    var inner := Escape(s);
    EscapeBalanced(s);
    PassConcat(INSIDE, inner, ['\"']);
    HashesConcat(INSIDE, inner, ['\"']);
    assert ['\"'][1..] == "";
    assert Quote(s)[1..] == inner + ['\"'];
  }

  lemma BracketBalanced(c: char, inner: string, d: char)
    requires Neutral(c) && Neutral(d) && c != '#' && d != '#' && Balanced(OUTSIDE, inner)
    ensures Balanced(OUTSIDE, [c] + (inner + [d]))
  {
    hide Balanced;
    BalancedChar(c);
    BalancedChar(d);
    BalancedConcat(OUTSIDE, inner, [d]);
    BalancedConcat(OUTSIDE, [c], inner + [d]);
  }

  lemma JoinBalanced(a: string, c: char, b: string)
    requires Neutral(c) && c != '#' && Balanced(OUTSIDE, a) && Balanced(OUTSIDE, b)
    ensures Balanced(OUTSIDE, a + ([c] + b))
  {
    hide Balanced;
    BalancedChar(c);
    BalancedConcat(OUTSIDE, [c], b);
    BalancedConcat(OUTSIDE, a, [c] + b);
  }

  lemma {:induction false} PrintBalanced(j: Json)
    ensures Balanced(OUTSIDE, Print(j))
    decreases j
  {
    hide Balanced, Quote;
    match j
    case Number(n) => DigitsBalanced(Numeral(n));
    case Text(s) => QuoteBalanced(s);
    case Array(items) =>
      ItemsBalanced(items);
      BracketBalanced('[', PrintItems(items), ']');
    case Object(fields) =>
      FieldsBalanced(fields);
      BracketBalanced('{', PrintFields(fields), '}');
  }

  lemma DigitsBalanced(s: string)
    requires forall i | 0 <= i < |s| :: IsDigit(s[i])
    ensures Balanced(OUTSIDE, s)
  {
    PassNeutral(OUTSIDE, s);
    NoHashes(OUTSIDE, s);
  }

  lemma {:induction false} ItemsBalanced(items: Items)
    ensures Balanced(OUTSIDE, PrintItems(items))
    decreases items
  {
    hide Balanced;
    if items.NoItems? {
      DigitsBalanced("");
    } else {
      PrintBalanced(items.head);
      ItemsBalanced(items.tail);
      if items.tail.Item? {
        JoinBalanced(Print(items.head), ',', PrintItems(items.tail));
      }
    }
  }

  lemma {:induction false} FieldsBalanced(fields: Fields)
    ensures Balanced(OUTSIDE, PrintFields(fields))
    decreases fields
  {
    hide Balanced, Quote;
    if fields.NoFields? {
      DigitsBalanced("");
    } else {
      var value := Print(fields.value);
      QuoteBalanced(fields.key);
      PrintBalanced(fields.value);
      FieldsBalanced(fields.tail);
      if fields.tail.NoFields? {
        JoinBalanced(Quote(fields.key), ':', value);
      } else {
        JoinBalanced(value, ',', PrintFields(fields.tail));
        JoinBalanced(Quote(fields.key), ':', value + ([','] + PrintFields(fields.tail)));
      }
    }
  }

  /* What the reader consumes is balanced. */

  lemma CharConsumed(s: string)
    requires s != "" && s[0] != '\"' && ReadChar(s).Some?
    ensures Pass(INSIDE, s) == Pass(INSIDE, ReadChar(s).value.1)
  {
    if s[0] == '\\' {
      assert s[1..][1..] == s[2..];
      if s[1] == 'u' {
        PassConcat(INSIDE, s[2..6], s[6..]);
        assert s[2..] == s[2..6] + s[6..];
        HexDigitsOnly(s[2..6]);
        PassNeutral(INSIDE, s[2..6]);
      }
    }
  }

  lemma HexDigitsOnly(s: string)
    requires |s| == 4 && HexNumber(s).Some?
    ensures forall i | 0 <= i < 4 :: Neutral(s[i])
  {
    assert forall c | HexValue(c).Some? :: Neutral(c);
  }

  lemma {:induction false} TextConsumed(s: string)
    requires ReadText(s).Some?
    ensures Pass(INSIDE, s) == Pass(OUTSIDE, ReadText(s).value.1)
    decreases |s|
  {
    if s[0] != '\"' {
      CharConsumed(s);
      TextConsumed(ReadChar(s).value.1);
    }
  }

  lemma {:induction false} ValueConsumed(s: string)
    requires ReadValue(s).Some?
    ensures Pass(OUTSIDE, s) == Pass(OUTSIDE, ReadValue(s).value.1)
    decreases |s|, 1
  {
    hide Digits, Value;
    if s[0] == '\"' {
      TextConsumed(s[1..]);
    } else if s[0] == '[' {
      if Begins(s[1..], ']') {
        assert s[1..][1..] == s[2..];
      } else {
        ItemsConsumed(s[1..]);
      }
    } else if s[0] == '{' {
      if Begins(s[1..], '}') {
        assert s[1..][1..] == s[2..];
      } else {
        FieldsConsumed(s[1..]);
      }
    } else {
      var n := Digits(s);
      PassNeutral(OUTSIDE, s[..n]);
      PassConcat(OUTSIDE, s[..n], s[n..]);
      assert s == s[..n] + s[n..];
    }
  }

  lemma {:induction false} ItemsConsumed(s: string)
    requires ReadItems(s).Some?
    ensures Pass(OUTSIDE, s) == Pass(OUTSIDE, ReadItems(s).value.1)
    decreases |s|, 2
  {
    ValueConsumed(s);
    var rest := ReadValue(s).value.1;
    if !Begins(rest, ']') {
      ItemsConsumed(rest[1..]);
    }
  }

  lemma {:induction false} FieldsConsumed(s: string)
    requires ReadFields(s).Some?
    ensures Pass(OUTSIDE, s) == Pass(OUTSIDE, ReadFields(s).value.1)
    decreases |s|, 2
  {
    TextConsumed(s[1..]);
    var colon := ReadText(s[1..]).value.1;
    ValueConsumed(colon[1..]);
    var rest := ReadValue(colon[1..]).value.1;
    if !Begins(rest, '}') {
      FieldsConsumed(rest[1..]);
    }
  }

  /** A reader that starts right behind a marker inside printed JSON stands inside a string literal, and
      so cannot read the rest as one value. */
  lemma UnreadableBehindMarker(j: Json, m: string, i: nat)
    requires Marker(m) && At(Print(j), m, i)
    ensures var rest := Print(j)[i + |m|..];
      Pass(OUTSIDE, rest) == INSIDE && !(ReadValue(rest).Some? && ReadValue(rest).value.1 == "")
  {
    var s := Print(j);
    var before, rest := s[..i], s[i + |m|..];
    PrintBalanced(j);
    assert s == before + (m + rest);
    PassConcat(OUTSIDE, before, m + rest);
    HashesConcat(OUTSIDE, before, m + rest);
    assert (m + rest)[0] == '#';
    PassConcat(INSIDE, m, rest);
    PassNeutral(INSIDE, m);
    PassFlip(INSIDE, rest);
    assert Flip(INSIDE) == OUTSIDE;
    if ReadValue(rest).Some? {
      ValueConsumed(rest);
    }
  }
}
