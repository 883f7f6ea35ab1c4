/**
 * The string operations the services rely on: decimal rendering of ids (for the
 * "Sale - Order #<id>" ledger reason), String.IsNullOrWhiteSpace, substring search,
 * ASCII lower-casing of the sort option and the ordinal order SQLite uses for names.
 */
module Text {
  import opened Wrappers

  function Digit(d: nat): (c: char)
    requires d < 10
    ensures '0' <= c <= '9' && c as int - '0' as int == d
  {
    ('0' as int + d) as char
  }

  /** The decimal digits of n, most significant first, without leading zeros. */
  function NatToString(n: nat): (r: string)
    ensures |r| > 0
    ensures forall k :: 0 <= k < |r| ==> '0' <= r[k] <= '9'
  {
    if n < 10 then [Digit(n)] else NatToString(n / 10) + [Digit(n % 10)]
  }

  /** How C# formats an int inside an interpolated string. */
  function IntToString(n: int): (r: string)
    ensures |r| > 0
  {
    if n < 0 then "-" + NatToString(-n) else NatToString(n)
  }

  /** The number a string of decimal digits denotes (the reading direction of NatToString). */
  function DecimalValue(s: string): int
  {
    if s == [] then 0
    else DecimalValue(s[..|s| - 1]) * 10 + (s[|s| - 1] as int - '0' as int)
  }

  /** NatToString loses nothing: reading the digits back gives n. */
  lemma {:induction false} NatToStringRoundTrip(n: nat)
    ensures DecimalValue(NatToString(n)) == n
  {
    var r := NatToString(n);
    if n < 10 {
      assert r[..0] == [];
    } else {
      NatToStringRoundTrip(n / 10);
      assert r[..|r| - 1] == NatToString(n / 10);
    }
  }

  /** Distinct naturals render as distinct strings. */
  lemma NatToStringInjective(a: nat, b: nat)
    requires NatToString(a) == NatToString(b)
    ensures a == b
  {
    NatToStringRoundTrip(a);
    NatToStringRoundTrip(b);
  }

  /** char.IsWhiteSpace: the Unicode separators (Zs, Zl, Zp) and the controls U+0009-U+000D and U+0085. */
  predicate IsWhiteSpace(c: char)
  {
    || c == ' ' || ('\t' <= c <= '\r') || c == '\U{85}' || c == '\U{A0}' || c == '\U{1680}'
    || ('\U{2000}' <= c <= '\U{200A}') || c == '\U{2028}' || c == '\U{2029}' || c == '\U{202F}'
    || c == '\U{205F}' || c == '\U{3000}'
  }

  /** String.IsNullOrWhiteSpace, with None for null. */
  predicate IsNullOrWhiteSpace(s: Option<string>)
  {
    s.None? || forall k :: 0 <= k < |s.value| ==> IsWhiteSpace(s.value[k])
  }

  /** Ordinal substring search: term occurs somewhere in s. */
  predicate Contains(s: string, term: string)
  {
    if |term| <= |s| && s[..|term|] == term then true
    else if s == [] then false
    else Contains(s[1..], term)
  }

  /** term occurs in s starting at position k. */
  predicate OccursAt(s: string, term: string, k: nat)
  {
    k + |term| <= |s| && s[k..k + |term|] == term
  }

  /** Dropping the first character shifts every occurrence one place to the left. */
  lemma OccursAtTail(s: string, term: string, k: nat)
    requires s != []
    ensures OccursAt(s[1..], term, k) <==> OccursAt(s, term, k + 1)
  {
    if k + 1 + |term| <= |s| {
      assert s[1..][k..k + |term|] == s[k + 1..k + 1 + |term|];
    }
  }

  /** Contains finds exactly the positions where term occurs. */
  lemma {:induction false} ContainsAt(s: string, term: string)
    ensures Contains(s, term) <==> exists k: nat :: OccursAt(s, term, k)
  {
    if |term| <= |s| && s[..|term|] == term {
      assert OccursAt(s, term, 0);
    } else if s != [] {
      ContainsAt(s[1..], term);
      if Contains(s[1..], term) {
        var k: nat :| OccursAt(s[1..], term, k);
        OccursAtTail(s, term, k);
      }
      if exists k: nat :: OccursAt(s, term, k) {
        var k: nat :| OccursAt(s, term, k);
        assert k != 0 by {
          assert s[..|term|] == s[0..|term|];
        }
        OccursAtTail(s, term, k - 1);
      }
    }
  }

  function LowerChar(c: char): (l: char)
  {
    if 'A' <= c <= 'Z' then (c as int + 32) as char else c
  }

  /** ToLower on the ASCII letters; every other character is kept. */
  function ToLower(s: string): (r: string)
    ensures |r| == |s|
    ensures forall k :: 0 <= k < |s| ==> r[k] == LowerChar(s[k])
  {
    seq(|s|, k requires 0 <= k < |s| => LowerChar(s[k]))
  }

  /** Lower-casing twice is lower-casing once. */
  lemma ToLowerIdempotent(s: string)
    ensures ToLower(ToLower(s)) == ToLower(s)
  {
  }

  /** The ordinal (code point) order of strings: a prefix comes first. */
  predicate StrLe(a: string, b: string)
  {
    if a == [] then true
    else if b == [] then false
    else if a[0] != b[0] then a[0] < b[0]
    else StrLe(a[1..], b[1..])
  }

  lemma {:induction false} StrLeTotal(a: string, b: string)
    ensures StrLe(a, b) || StrLe(b, a)
  {
    if a != [] && b != [] && a[0] == b[0] {
      StrLeTotal(a[1..], b[1..]);
    }
  }

  lemma {:induction false} StrLeTransitive(a: string, b: string, c: string)
    requires StrLe(a, b) && StrLe(b, c)
    ensures StrLe(a, c)
  {
    if a != [] && b != [] && c != [] && a[0] == b[0] && b[0] == c[0] {
      StrLeTransitive(a[1..], b[1..], c[1..]);
    }
  }

  lemma {:induction false} StrLeAntisymmetric(a: string, b: string)
    requires StrLe(a, b) && StrLe(b, a)
    ensures a == b
  {
    if a != [] && b != [] {
      StrLeAntisymmetric(a[1..], b[1..]);
      assert a == [a[0]] + a[1..] && b == [b[0]] + b[1..];
    }
  }
}
