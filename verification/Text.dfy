/** Substrings, as strings.Contains sees them. */
module Text {

  predicate OccursAt(s: string, part: string, i: nat) {
    i + |part| <= |s| && s[i..i + |part|] == part
  }

  predicate Contains(s: string, part: string) {
    exists i: nat :: i <= |s| && OccursAt(s, part, i)
  }

  /** Something comes before the part, and something after. */
  lemma {:induction false} ContainsIff(s: string, part: string)
    ensures Contains(s, part) <==> exists before: string, after: string :: s == before + part + after
  {
    if Contains(s, part) {
      var i: nat :| i <= |s| && OccursAt(s, part, i);
      assert s == s[..i] + part + s[i + |part|..];
    }
    if before: string, after: string :| s == before + part + after {
      assert OccursAt(s, part, |before|);
    }
  }
}
