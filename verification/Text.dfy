/** Strings as the agent reads them: a Go string is modelled as the sequence of
    its Unicode characters, and byte counts are taken from the UTF-8 widths. */
module Text {

  datatype Option<+T> = None | Some(value: T)

  /** No element occurs twice. */
  ghost predicate Distinct<T>(s: seq<T>) { forall i, j | 0 <= i < j < |s| :: s[i] != s[j] }

  /** The characters Go's unicode.IsSpace accepts. */
  predicate IsSpace(c: char) {
    || '\t' <= c <= '\r'
    || c == ' ' || c == '\U{85}' || c == '\U{A0}' || c == '\U{1680}'
    || '\U{2000}' <= c <= '\U{200A}'
    || c == '\U{2028}' || c == '\U{2029}' || c == '\U{202F}' || c == '\U{205F}' || c == '\U{3000}'
  }

  function TrimLeft(s: string): string {
    if s != [] && IsSpace(s[0]) then TrimLeft(s[1..]) else s
  }

  function TrimRight(s: string): string {
    if s != [] && IsSpace(s[|s| - 1]) then TrimRight(s[..|s| - 1]) else s
  }

  function TrimSpace(s: string): string {
    TrimRight(TrimLeft(s))
  }

  lemma {:induction false} TrimRightEnds(s: string)
    ensures TrimRight(s) != "" ==> s != "" && TrimRight(s)[0] == s[0] && !IsSpace(TrimRight(s)[|TrimRight(s)| - 1])
  {
    if s != "" && IsSpace(s[|s| - 1]) {
      TrimRightEnds(s[..|s| - 1]);
    }
  }

  lemma {:induction false} TrimLeftBegins(s: string)
    ensures TrimLeft(s) != "" ==> !IsSpace(TrimLeft(s)[0])
  {
    if s != "" && IsSpace(s[0]) {
      TrimLeftBegins(s[1..]);
    }
  }

  lemma TrimTwice(s: string)
    ensures TrimSpace(TrimSpace(s)) == TrimSpace(s)
  {
    TrimLeftBegins(s);
    TrimRightEnds(TrimLeft(s));
  }

  /** The number of bytes of the UTF-8 encoding of a character. */
  function Utf8Width(c: char): nat {
    if c as int < 0x80 then 1 else if c as int < 0x800 then 2 else if c as int < 0x10000 then 3 else 4
  }

  const DIGITS := "0123456789"

  predicate IsDigit(c: char) { '0' <= c <= '9' }

  /** The decimal numeral of n, as fmt prints it. */
  function Numeral(n: nat): (r: string)
    ensures r != [] && forall i | 0 <= i < |r| :: IsDigit(r[i])
  {
    (if n < 10 then [] else Numeral(n / 10)) + [DIGITS[n % 10]]
  }

  /** How many digits a text begins with. */
  function Digits(s: string): (n: nat)
    ensures n <= |s| && forall i | 0 <= i < n :: IsDigit(s[i])
  {
    if s != [] && IsDigit(s[0]) then 1 + Digits(s[1..]) else 0
  }

  /** The number its first n digits stand for. */
  function Value(s: string, n: nat): nat
    requires n <= |s| && forall i | 0 <= i < n :: IsDigit(s[i])
  {
    if n == 0 then 0 else assert IsDigit(s[n - 1]); Value(s, n - 1) * 10 + (s[n - 1] as int - '0' as int)
  }

  lemma {:induction false} AllDigits(a: string, rest: string)
    requires forall i | 0 <= i < |a| :: IsDigit(a[i])
    requires rest != [] ==> !IsDigit(rest[0])
    ensures Digits(a + rest) == |a|
  {
    if a == [] {
      assert a + rest == rest;
    } else {
      assert (a + rest)[1..] == a[1..] + rest;
      AllDigits(a[1..], rest);
    }
  }

  lemma {:induction false} ValuePrefix(a: string, b: string, n: nat)
    requires n <= |a| && n <= |b| && a[..n] == b[..n] && forall i | 0 <= i < n :: IsDigit(a[i])
    ensures (forall i | 0 <= i < n :: IsDigit(b[i])) && Value(b, n) == Value(a, n)
  {
    forall i | 0 <= i < n ensures a[i] == b[i] {
      assert a[..n][i] == b[..n][i];
    }
    if n > 0 {
      assert a[..n - 1] == a[..n][..n - 1] && b[..n - 1] == b[..n][..n - 1];
      ValuePrefix(a, b, n - 1);
    }
  }

  lemma {:induction false} NumeralValue(n: nat)
    ensures Value(Numeral(n), |Numeral(n)|) == n
  {
    var r := Numeral(n);
    if n >= 10 {
      NumeralValue(n / 10);
      var front := Numeral(n / 10);
      assert r[..|front|] == front[..|front|];
      ValuePrefix(front, r, |front|);
    }
  }

  /** A numeral that no digit follows reads back as its number. */
  lemma NumeralReads(n: nat, rest: string)
    requires rest != [] ==> !IsDigit(rest[0])
    ensures var s := Numeral(n) + rest;
      Digits(s) == |Numeral(n)| && Value(s, |Numeral(n)|) == n
  {
    AllDigits(Numeral(n), rest);
    NumeralValue(n);
    ValuePrefix(Numeral(n), Numeral(n) + rest, |Numeral(n)|);
  }
}
