/**
 * Keyword rules: the shape shared by the classifiers of the chat service.
 * Each branch of their if-chains tests whether the lower-cased message holds
 * one of a fixed list of words and, if so, yields a fixed value.
 */
module Matching {
  import opened Text

  /** One branch `if (message matches /(k1|k2|...)/) -> tag`. */
  datatype Rule<T> = Rule(keywords: seq<string>, tag: T)

  predicate Fires<T>(rule: Rule<T>, s: string) {
    ContainsAny(s, rule.keywords)
  }

  /** No rule before index i fires on s. */
  predicate NoneBefore<T>(rules: seq<Rule<T>>, s: string, i: nat)
    requires i <= |rules|
  {
    forall j :: 0 <= j < i ==> !Fires(rules[j], s)
  }

  /** i is the first rule that fires on s. */
  predicate FirstFiring<T>(rules: seq<Rule<T>>, s: string, i: nat) {
    i < |rules| && Fires(rules[i], s) && NoneBefore(rules, s, i)
  }

  /** The value of an if-chain of `return` branches: the tag of the first rule
      that fires, or the fallback when none does. */
  function FirstMatch<T>(rules: seq<Rule<T>>, s: string, fallback: T): T
    decreases |rules|
  {
    if rules == [] then fallback
    else if Fires(rules[0], s) then rules[0].tag
    else FirstMatch(rules[1..], s, fallback)
  }

  /** The first firing rule decides the result. */
  lemma {:induction false} FirstMatchEarliest<T>(rules: seq<Rule<T>>, s: string, fallback: T, i: nat)
    requires FirstFiring(rules, s, i)
    ensures FirstMatch(rules, s, fallback) == rules[i].tag
    decreases |rules|
  {
    if i > 0 {
      assert !Fires(rules[0], s);
      assert FirstFiring(rules[1..], s, i - 1) by {
        forall j | 0 <= j < i - 1 ensures !Fires(rules[1..][j], s) {
          assert rules[1..][j] == rules[j + 1];
        }
      }
      FirstMatchEarliest(rules[1..], s, fallback, i - 1);
    }
  }

  /** When no rule fires, the fallback is the result. */
  lemma {:induction false} FirstMatchFallback<T>(rules: seq<Rule<T>>, s: string, fallback: T)
    requires NoneBefore(rules, s, |rules|)
    ensures FirstMatch(rules, s, fallback) == fallback
    decreases |rules|
  {
    if rules != [] {
      assert !Fires(rules[0], s);
      assert NoneBefore(rules[1..], s, |rules| - 1) by {
        forall j | 0 <= j < |rules| - 1 ensures !Fires(rules[1..][j], s) {
          assert rules[1..][j] == rules[j + 1];
        }
      }
      FirstMatchFallback(rules[1..], s, fallback);
    }
  }

  /** Either some rule fires first and gives the result, or none fires and the
      fallback is the result. */
  lemma FirstMatchCases<T>(rules: seq<Rule<T>>, s: string, fallback: T) returns (i: nat)
    ensures i <= |rules| && NoneBefore(rules, s, i)
    ensures i < |rules| ==> Fires(rules[i], s) && FirstMatch(rules, s, fallback) == rules[i].tag
    ensures i == |rules| ==> FirstMatch(rules, s, fallback) == fallback
  {
    i := 0;
    while i < |rules| && !Fires(rules[i], s)
      invariant i <= |rules| && NoneBefore(rules, s, i)
    {
      i := i + 1;
    }
    if i < |rules| {
      FirstMatchEarliest(rules, s, fallback, i);
    } else {
      FirstMatchFallback(rules, s, fallback);
    }
  }

  /** When no tag equals the fallback, the fallback comes out exactly when no rule fires. */
  lemma FirstMatchFallbackIff<T>(rules: seq<Rule<T>>, s: string, fallback: T)
    requires forall i :: 0 <= i < |rules| ==> rules[i].tag != fallback
    ensures FirstMatch(rules, s, fallback) == fallback <==> NoneBefore(rules, s, |rules|)
  {
    var k := FirstMatchCases(rules, s, fallback);
  }

  /** The result is the fallback or one of the tags. */
  lemma FirstMatchRange<T>(rules: seq<Rule<T>>, s: string, fallback: T)
    ensures FirstMatch(rules, s, fallback) == fallback
         || exists i :: 0 <= i < |rules| && FirstMatch(rules, s, fallback) == rules[i].tag
  {
    var k := FirstMatchCases(rules, s, fallback);
  }

  /** The tags of a rule list are pairwise distinct. */
  ghost predicate DistinctTags<T>(rules: seq<Rule<T>>) {
    forall i, j :: 0 <= i < j < |rules| ==> rules[i].tag != rules[j].tag
  }

  /** With distinct tags, the result names the first firing rule, in both directions. */
  lemma FirstMatchIff<T>(rules: seq<Rule<T>>, s: string, fallback: T, i: nat)
    requires DistinctTags(rules) && i < |rules| && rules[i].tag != fallback
    ensures FirstMatch(rules, s, fallback) == rules[i].tag <==> FirstFiring(rules, s, i)
  {
    var k := FirstMatchCases(rules, s, fallback);
    if FirstMatch(rules, s, fallback) == rules[i].tag {
      assert k == i;
    }
    if FirstFiring(rules, s, i) {
      FirstMatchEarliest(rules, s, fallback, i);
    }
  }
}
