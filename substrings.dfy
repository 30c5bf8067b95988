/** Substring containment on strings, as Java's String.contains decides it. */
module Substrings {

  /** True iff `token` occurs somewhere in `s`; the empty token occurs in every string. */
  predicate Contains(s: string, token: string)
    decreases |s|
  {
    token <= s || (|s| > 0 && Contains(s[1..], token))
  }

  /** `token` occurs in `s` starting at position `i`. */
  predicate OccursAt(s: string, token: string, i: nat)
  {
    i + |token| <= |s| && s[i..i + |token|] == token
  }

  /** Contains agrees with the positional definition of an occurrence. */
  lemma {:induction false} ContainsIffOccurs(s: string, token: string)
    ensures Contains(s, token) <==> exists i: nat :: OccursAt(s, token, i)
    decreases |s|
  {
    if token <= s {
      assert OccursAt(s, token, 0);
    } else if |s| == 0 {
    } else {
      ContainsIffOccurs(s[1..], token);
      if Contains(s[1..], token) {
        var i: nat :| OccursAt(s[1..], token, i);
        assert s[1..][i..i + |token|] == s[i + 1..i + 1 + |token|];
        assert OccursAt(s, token, i + 1);
      }
      forall i: nat | OccursAt(s, token, i)
        ensures Contains(s[1..], token)
      {
        assert i != 0;
        assert s[1..][i - 1..i - 1 + |token|] == s[i..i + |token|];
        assert OccursAt(s[1..], token, i - 1);
      }
    }
  }

  /** A string that contains a token contains every prefix of it
      (so "OWE_TRANSITION" brings "OWE" with it, "EAP_SUITE_B_192" brings "EAP"). */
  lemma {:induction false} ContainsPrefixOf(s: string, token: string, prefix: string)
    requires prefix <= token
    requires Contains(s, token)
    ensures Contains(s, prefix)
    decreases |s|
  {
    if token <= s {
      assert s[..|prefix|] == token[..|prefix|];
      assert prefix <= s;
    } else {
      ContainsPrefixOf(s[1..], token, prefix);
    }
  }

  /** A token one of whose characters does not appear in `s` is not contained in it. */
  lemma {:induction false} CharAbsent(s: string, token: string, j: nat)
    requires j < |token| && token[j] !in s
    ensures !Contains(s, token)
    decreases |s|
  {
    if |s| > 0 {
      assert forall c :: c in s[1..] ==> c in s;
      CharAbsent(s[1..], token, j);
    }
  }

  /** A token surrounded by other text is contained in the whole. */
  lemma {:induction false} ContainsInside(before: string, token: string, after: string)
    ensures Contains(before + token + after, token)
    decreases |before|
  {
    var s := before + token + after;
    if before == [] {
      assert s[..|token|] == token;
    } else {
      assert s[1..] == before[1..] + token + after;
      ContainsInside(before[1..], token, after);
    }
  }

  /** A token longer than `s` is not contained in it. */
  lemma {:induction false} TooLong(s: string, token: string)
    requires |token| > |s|
    ensures !Contains(s, token)
    decreases |s|
  {
    if |s| > 0 {
      TooLong(s[1..], token);
    }
  }
}
