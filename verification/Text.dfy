/** Substring search, as `std::string::find` decides it. */
module Text {

  predicate Contains(s: string, part: string) {
    |part| <= |s| && (s[..|part|] == part || (s != [] && Contains(s[1..], part)))
  }

  /** Found exactly if it stands somewhere. */
  lemma {:induction false} ContainsIff(s: string, part: string)
    ensures Contains(s, part) <==> exists i: nat :: StandsAt(s, part, i)
    decreases |s|
  {
    if StandsAt(s, part, 0) {
      assert s[..|part|] == part;
    } else if s != [] {
      ContainsIff(s[1..], part);
      if i: nat :| StandsAt(s, part, i) {
        assert i > 0 && s[i..i + |part|] == s[1..][i - 1..i - 1 + |part|];
        assert StandsAt(s[1..], part, i - 1);
      }
      if i: nat :| StandsAt(s[1..], part, i) {
        assert s[i + 1..i + 1 + |part|] == s[1..][i..i + |part|];
        assert StandsAt(s, part, i + 1);
      }
    }
  }

  predicate StandsAt(s: string, part: string, i: nat) {
    i + |part| <= |s| && s[i..i + |part|] == part
  }
}
