/** The two string operations of Python's str that the core relies on. */
module Text {

  /** `s.endswith(suffix)`. */
  predicate EndsWith(s: string, suffix: string)
  {
    |suffix| <= |s| && s[|s| - |suffix|..] == suffix
  }

  /** `s.endswith(suffix)` holds exactly when `s` is some stem followed by `suffix`. */
  lemma EndsWithIffStem(s: string, suffix: string)
    ensures EndsWith(s, suffix) <==> exists stem :: s == stem + suffix
  {
    if EndsWith(s, suffix) {
      assert s == s[..|s| - |suffix|] + suffix;
    }
    if exists stem :: s == stem + suffix {
      var stem :| s == stem + suffix;
      assert s[|stem|..] == suffix;
    }
  }

  /** `s.lstrip(c)` for a one-character argument: `s` with every leading `c` removed. */
  function LStrip(s: string, c: char): (r: string)
    ensures |r| <= |s| && r == s[|s| - |r|..]
    ensures r == [] || r[0] != c
    ensures forall i :: 0 <= i < |s| - |r| ==> s[i] == c
    decreases |s|
  {
    if s != [] && s[0] == c then LStrip(s[1..], c) else s
  }

  /** Stripping is idempotent, and leaves alone a string that does not start with `c`. */
  lemma LStripIdempotent(s: string, c: char)
    ensures LStrip(LStrip(s, c), c) == LStrip(s, c)
    ensures (s == [] || s[0] != c) ==> LStrip(s, c) == s
  {
  }

  /** Whatever `c`s are put in front of a string, stripping gives the same result. */
  lemma {:induction false} LStripPrefix(n: nat, s: string, c: char)
    ensures LStrip(seq(n, _ => c) + s, c) == LStrip(s, c)
  {
    if n > 0 {
      var pad := seq(n, _ => c);
      assert (pad + s)[1..] == seq(n - 1, _ => c) + s;
      LStripPrefix(n - 1, s, c);
    } else {
      assert seq(n, _ => c) + s == s;
    }
  }
}
