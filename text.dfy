/**
 * The string primitives the services are built from: `toLowerCase`,
 * `includes`, `startsWith` and `Array.prototype.join` on JavaScript strings,
 * with strings as sequences of characters.
 */
module Text {

  /** Upper-case letters that `toLowerCase` changes, as far as this model goes:
      ASCII A-Z and the Latin-1 capitals U+00C0..U+00DE (U+00D7, the
      multiplication sign, is not a letter). */
  predicate IsUpper(c: char) {
    ('A' <= c <= 'Z') || ('À' <= c <= 'Þ' && c != '×')
  }

  /** Lower-cases one character; in both ranges the lower-case letter is 32 code points above. */
  function LowerChar(c: char): (l: char)
    ensures !IsUpper(l)
    ensures !IsUpper(c) ==> l == c
  {
    if IsUpper(c) then (c as int + 32) as char else c
  }

  predicate NoUpper(s: string) {
    forall i :: 0 <= i < |s| ==> !IsUpper(s[i])
  }

  /** `s.toLowerCase()`. */
  function Lower(s: string): (r: string)
    ensures |r| == |s| && NoUpper(r)
    ensures forall i :: 0 <= i < |s| && !IsUpper(s[i]) ==> r[i] == s[i]
    ensures forall i :: 0 <= i < |s| && IsUpper(s[i]) ==> r[i] != s[i] && r[i] == (s[i] as int + 32) as char
  {
    seq(|s|, i requires 0 <= i < |s| => LowerChar(s[i]))
  }

  /** A string without upper-case letters is its own lower-case form. */
  lemma LowerOfLower(s: string)
    requires NoUpper(s)
    ensures Lower(s) == s
  {
  }

  /** Lower-casing twice is lower-casing once. */
  lemma LowerIdempotent(s: string)
    ensures Lower(Lower(s)) == Lower(s)
  {
    LowerOfLower(Lower(s));
  }

  /** `s.startsWith(p)`. */
  predicate StartsWith(s: string, p: string) {
    |p| <= |s| && s[..|p|] == p
  }

  /** The characters k[j..] occur in s from position i + j on. */
  predicate MatchesAt(s: string, k: string, i: nat, j: nat)
    requires i + |k| <= |s| && j <= |k|
    decreases |k| - j
  {
    j == |k| || (s[i + j] == k[j] && MatchesAt(s, k, i, j + 1))
  }

  /** k occurs in s at some position i or later. */
  predicate ContainsFrom(s: string, k: string, i: nat)
    decreases |s| - i
  {
    i + |k| <= |s| && (MatchesAt(s, k, i, 0) || ContainsFrom(s, k, i + 1))
  }

  /** `s.includes(k)`, and a JavaScript regular expression made of literal
      characters only, without anchors, that matches somewhere in s. */
  predicate Contains(s: string, k: string) {
    ContainsFrom(s, k, 0)
  }

  /** The reference meaning of containment: k is the slice of s at i. */
  ghost predicate OccursAt(s: string, k: string, i: int) {
    0 <= i && i + |k| <= |s| && s[i..i + |k|] == k
  }

  lemma {:induction false} MatchesAtIff(s: string, k: string, i: nat, j: nat)
    requires i + |k| <= |s| && j <= |k|
    ensures MatchesAt(s, k, i, j) <==> s[i + j..i + |k|] == k[j..]
    decreases |k| - j
  {
    if j < |k| {
      MatchesAtIff(s, k, i, j + 1);
      assert s[i + j..i + |k|] == [s[i + j]] + s[i + j + 1..i + |k|];
      assert k[j..] == [k[j]] + k[j + 1..];
    }
  }

  lemma {:induction false} ContainsFromIff(s: string, k: string, i: nat)
    ensures ContainsFrom(s, k, i) <==> exists p :: i <= p && OccursAt(s, k, p)
    decreases |s| - i
  {
    if i + |k| <= |s| {
      MatchesAtIff(s, k, i, 0);
      ContainsFromIff(s, k, i + 1);
      if ContainsFrom(s, k, i) {
        if MatchesAt(s, k, i, 0) {
          assert OccursAt(s, k, i);
        }
      } else {
        forall p | i <= p ensures !OccursAt(s, k, p) {
          if p == i {
            assert !OccursAt(s, k, p);
          }
        }
      }
    }
  }

  /** `includes` holds exactly when the keyword occurs at some position. */
  lemma ContainsIff(s: string, k: string)
    ensures Contains(s, k) <==> exists p :: OccursAt(s, k, p)
  {
    ContainsFromIff(s, k, 0);
  }

  lemma ContainsWitness(s: string, k: string, p: int)
    requires OccursAt(s, k, p)
    ensures Contains(s, k)
  {
    ContainsIff(s, k);
  }

  /** A string contains every piece it is glued from. */
  lemma ContainsMiddle(a: string, k: string, b: string)
    ensures Contains(a + k + b, k)
  {
    assert (a + k + b)[|a|..|a| + |k|] == k;
    ContainsWitness(a + k + b, k, |a|);
  }

  /** Extending a string on either side keeps every occurrence. */
  lemma ContainsExtend(a: string, s: string, b: string, k: string)
    requires Contains(s, k)
    ensures Contains(a + s + b, k)
  {
    ContainsIff(s, k);
    var p :| OccursAt(s, k, p);
    assert (a + s + b)[|a| + p..|a| + p + |k|] == s[p..p + |k|];
    ContainsWitness(a + s + b, k, |a| + p);
  }

  /** Containment is transitive: a substring of a substring is a substring. */
  lemma ContainsTransitive(s: string, m: string, k: string)
    requires Contains(s, m) && Contains(m, k)
    ensures Contains(s, k)
  {
    ContainsIff(s, m);
    ContainsIff(m, k);
    var p :| OccursAt(s, m, p);
    var q :| OccursAt(m, k, q);
    forall i | 0 <= i < |k| ensures s[p + q + i] == k[i] {
      assert s[p..p + |m|][q + i] == m[q + i];
      assert m[q..q + |k|][i] == k[i];
    }
    assert s[p + q..p + q + |k|] == k;
    ContainsWitness(s, k, p + q);
  }

  /** A string starting with p contains p. */
  lemma StartsWithContains(s: string, p: string)
    requires StartsWith(s, p)
    ensures Contains(s, p)
  {
    ContainsWitness(s, p, 0);
  }

  /** A keyword longer than the string does not occur in it. */
  lemma NotContainsLonger(s: string, k: string)
    requires |k| > |s|
    ensures !Contains(s, k)
  {
  }

  /** A keyword whose first character is absent from the string does not occur in it. */
  lemma NotContainsMissingChar(s: string, k: string)
    requires |k| > 0 && k[0] !in s
    ensures !Contains(s, k)
  {
    forall p | 0 <= p && p + |k| <= |s| ensures !OccursAt(s, k, p) {
      assert s[p..p + |k|][0] == s[p];
    }
    ContainsIff(s, k);
  }

  /** `/(k1|k2|...)/.test(s)` for keywords without regular-expression operators. */
  predicate ContainsAny(s: string, keys: seq<string>) {
    exists j :: 0 <= j < |keys| && Contains(s, keys[j])
  }

  lemma ContainsAnyAppend(s: string, a: seq<string>, b: seq<string>)
    ensures ContainsAny(s, a + b) <==> ContainsAny(s, a) || ContainsAny(s, b)
  {
    if ContainsAny(s, a + b) {
      var j :| 0 <= j < |a + b| && Contains(s, (a + b)[j]);
      if j >= |a| {
        assert b[j - |a|] == (a + b)[j];
      }
    }
    if ContainsAny(s, a) {
      var j :| 0 <= j < |a| && Contains(s, a[j]);
      assert (a + b)[j] == a[j];
    }
    if ContainsAny(s, b) {
      var j :| 0 <= j < |b| && Contains(s, b[j]);
      assert (a + b)[|a| + j] == b[j];
    }
  }

  /** `xs.join(sep)`. */
  function Join(xs: seq<string>, sep: string): (r: string)
    ensures forall i :: 0 <= i < |xs| ==> Contains(r, xs[i])
    ensures |xs| == 1 ==> r == xs[0]
  {
    if |xs| == 0 then ""
    else if |xs| == 1 then
      ContainsMiddle("", xs[0], "");
      assert "" + xs[0] + "" == xs[0];
      xs[0]
    else
      var rest := Join(xs[1..], sep);
      assert forall i :: 1 <= i < |xs| ==> xs[i] == xs[1..][i - 1];
      ContainsMiddle("", xs[0], sep + rest);
      assert xs[0] + sep + rest == "" + xs[0] + (sep + rest);
      forall i | 1 <= i < |xs| ensures Contains(xs[0] + sep + rest, xs[i]) {
        ContainsExtend(xs[0] + sep, rest, "", xs[i]);
        assert xs[0] + sep + rest + "" == xs[0] + sep + rest;
      }
      xs[0] + sep + rest
  }

  /** The decimal digit for d < 10. */
  function Digit(d: nat): (c: char)
    requires d < 10
    ensures '0' <= c <= '9'
  {
    ('0' as int + d) as char
  }

  /** A number interpolated into a template literal: its decimal digits. */
  function NatToString(n: nat): (r: string)
    ensures |r| > 0
    ensures forall i :: 0 <= i < |r| ==> '0' <= r[i] <= '9'
  {
    if n < 10 then [Digit(n)] else NatToString(n / 10) + [Digit(n % 10)]
  }

  /** Reads a string of decimal digits back as a number. */
  function ParseDigits(s: string): nat
    requires forall i :: 0 <= i < |s| ==> '0' <= s[i] <= '9'
  {
    if s == [] then 0
    else ParseDigits(s[..|s| - 1]) * 10 + (s[|s| - 1] as int - '0' as int)
  }

  /** The rendered number reads back as the same number. */
  lemma {:induction false} NatToStringRoundTrip(n: nat)
    ensures ParseDigits(NatToString(n)) == n
  {
    if n >= 10 {
      NatToStringRoundTrip(n / 10);
      var s := NatToString(n);
      assert s[..|s| - 1] == NatToString(n / 10);
    }
  }

  /** `start` followed by the strings ts, one after the other. */
  function Concat(start: string, ts: seq<string>): string
    decreases |ts|
  {
    if ts == [] then start else Concat(start, ts[..|ts| - 1]) + ts[|ts| - 1]
  }

  /** Each piece occurs in the concatenation. */
  lemma {:induction false} ConcatContains(start: string, ts: seq<string>, i: nat)
    requires i < |ts|
    ensures Contains(Concat(start, ts), ts[i])
    decreases |ts|
  {
    var init := ts[..|ts| - 1];
    if i == |ts| - 1 {
      ContainsMiddle(Concat(start, init), ts[i], "");
      assert Concat(start, init) + ts[i] + "" == Concat(start, ts);
    } else {
      assert init[i] == ts[i];
      ConcatContains(start, init, i);
      ContainsExtend("", Concat(start, init), ts[|ts| - 1], ts[i]);
      assert "" + Concat(start, init) + ts[|ts| - 1] == Concat(start, ts);
    }
  }

  /** Appending one more piece appends its text. */
  lemma ConcatSnoc(start: string, ts: seq<string>, t: string)
    ensures Concat(start, ts + [t]) == Concat(start, ts) + t
  {
    assert (ts + [t])[..|ts|] == ts;
  }
}
