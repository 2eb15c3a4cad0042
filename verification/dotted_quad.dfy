/** The search for the regular expression `\d+\.\d+\.\d+\.\d+` anywhere in
    a text, as `re.findall` performs it on the probe output: four runs of
    digits of any length joined by dots. It is a pattern match, not an IPv4
    address check. */
module DottedQuad {
  import opened Decimal

  /** s[i..j] is a non-empty run of digits, a match of `\d+`. */
  ghost predicate DigitRun(s: string, i: int, j: int) {
    0 <= i < j <= |s| && forall k :: i <= k < j ==> IsDigit(s[k])
  }

  /** s[a..e] matches the pattern, with its three dots at d1 < d2 < d3. */
  ghost predicate QuadAt(s: string, a: int, d1: int, d2: int, d3: int, e: int) {
    && DigitRun(s, a, d1) && d1 < |s| && s[d1] == '.'
    && DigitRun(s, d1 + 1, d2) && d2 < |s| && s[d2] == '.'
    && DigitRun(s, d2 + 1, d3) && d3 < |s| && s[d3] == '.'
    && DigitRun(s, d3 + 1, e)
  }

  /** Some substring of `s` matches the pattern. */
  ghost predicate ContainsDottedQuad(s: string) {
    exists a, d1, d2, d3, e :: QuadAt(s, a, d1, d2, d3, e)
  }

  // The prefix s[..i] ends with a match of a growing prefix of the pattern:
  // `\d+`, `\d+\.`, `\d+\.\d+`, and so on up to the whole pattern.

  ghost predicate EndsRun1(s: string, i: int) {
    0 < i <= |s| && IsDigit(s[i - 1])
  }

  ghost predicate EndsDot1(s: string, i: int) {
    0 < i <= |s| && s[i - 1] == '.' && EndsRun1(s, i - 1)
  }

  ghost predicate EndsRun2(s: string, i: int)
    decreases i
  {
    0 < i <= |s| && IsDigit(s[i - 1]) && (EndsDot1(s, i - 1) || EndsRun2(s, i - 1))
  }

  ghost predicate EndsDot2(s: string, i: int) {
    0 < i <= |s| && s[i - 1] == '.' && EndsRun2(s, i - 1)
  }

  ghost predicate EndsRun3(s: string, i: int)
    decreases i
  {
    0 < i <= |s| && IsDigit(s[i - 1]) && (EndsDot2(s, i - 1) || EndsRun3(s, i - 1))
  }

  ghost predicate EndsDot3(s: string, i: int) {
    0 < i <= |s| && s[i - 1] == '.' && EndsRun3(s, i - 1)
  }

  /** A match of the whole pattern ends exactly at i. */
  ghost predicate EndsQuad(s: string, i: int) {
    0 < i <= |s| && IsDigit(s[i - 1]) && EndsDot3(s, i - 1)
  }

  /** How much of the pattern the longest matching suffix of s[..i] covers. */
  ghost function Level(s: string, i: int): nat {
    if EndsQuad(s, i) then 7
    else if EndsDot3(s, i) then 6
    else if EndsRun3(s, i) then 5
    else if EndsDot2(s, i) then 4
    else if EndsRun2(s, i) then 3
    else if EndsDot1(s, i) then 2
    else if EndsRun1(s, i) then 1
    else 0
  }

  /** The scanner's transition on one character. */
  function Step(q: nat, c: char): nat {
    if IsDigit(c) then
      if q == 0 || q == 1 then 1
      else if q == 2 || q == 3 then 3
      else if q == 6 then 7
      else 5
    else if c == '.' then
      if q == 1 then 2
      else if q == 3 then 4
      else if q == 5 || q == 7 then 6
      else 0
    else 0
  }

  lemma {:induction false} Run3ImpliesRun2(s: string, i: int)
    requires EndsRun3(s, i)
    ensures EndsRun2(s, i)
    decreases i
  {
    if !EndsDot2(s, i - 1) {
      Run3ImpliesRun2(s, i - 1);
    }
  }

  /** The longer pattern prefixes imply the shorter ones that end alike. */
  lemma {:induction false} Nested(s: string, i: int)
    ensures EndsQuad(s, i) ==> EndsRun3(s, i)
    ensures EndsRun3(s, i) ==> EndsRun2(s, i)
    ensures EndsDot3(s, i) ==> EndsDot2(s, i)
  {
    if EndsRun3(s, i) {
      Run3ImpliesRun2(s, i);
    }
    if EndsDot3(s, i) {
      Run3ImpliesRun2(s, i - 1);
    }
    if EndsQuad(s, i) {
      Run3ImpliesRun2(s, i - 2);
    }
  }

  /** One scanner step keeps the state equal to the level of the prefix read. */
  lemma StepTracksLevel(s: string, i: int)
    requires 0 <= i < |s|
    ensures Level(s, i + 1) == Step(Level(s, i), s[i])
  {
    Nested(s, i);
  }

  lemma {:induction false} Run2FromDot(s: string, d1: int, k: int)
    requires 1 <= d1 && EndsRun1(s, d1) && d1 < |s| && s[d1] == '.'
    requires DigitRun(s, d1 + 1, k)
    ensures EndsRun2(s, k)
    decreases k
  {
    if k - 1 > d1 + 1 {
      Run2FromDot(s, d1, k - 1);
    }
  }

  lemma {:induction false} Run3FromDot(s: string, d2: int, k: int)
    requires EndsRun2(s, d2) && d2 < |s| && s[d2] == '.'
    requires DigitRun(s, d2 + 1, k)
    ensures EndsRun3(s, k)
    decreases k
  {
    if k - 1 > d2 + 1 {
      Run3FromDot(s, d2, k - 1);
    }
  }

  lemma {:induction false} Run2Witness(s: string, i: int) returns (a: int, d1: int)
    requires EndsRun2(s, i)
    ensures DigitRun(s, a, d1) && d1 < |s| && s[d1] == '.' && DigitRun(s, d1 + 1, i)
    decreases i
  {
    if EndsDot1(s, i - 1) {
      a, d1 := i - 3, i - 2;
    } else {
      a, d1 := Run2Witness(s, i - 1);
    }
  }

  lemma {:induction false} Run3Witness(s: string, i: int) returns (a: int, d1: int, d2: int)
    requires EndsRun3(s, i)
    ensures DigitRun(s, a, d1) && d1 < |s| && s[d1] == '.'
    ensures DigitRun(s, d1 + 1, d2) && d2 < |s| && s[d2] == '.'
    ensures DigitRun(s, d2 + 1, i)
    decreases i
  {
    if EndsDot2(s, i - 1) {
      a, d1 := Run2Witness(s, i - 2);
      d2 := i - 2;
    } else {
      a, d1, d2 := Run3Witness(s, i - 1);
    }
  }

  /** A pattern match occurs in `s` exactly when some prefix of `s` ends
      with one. */
  lemma MatchIffSomeEnd(s: string)
    ensures ContainsDottedQuad(s) <==> exists i :: 0 <= i <= |s| && EndsQuad(s, i)
  {
    if ContainsDottedQuad(s) {
      var a, d1, d2, d3, e :| QuadAt(s, a, d1, d2, d3, e);
      Run2FromDot(s, d1, d2);
      Run3FromDot(s, d2, d3);
      assert EndsQuad(s, d3 + 2);
    }
    if i :| 0 <= i <= |s| && EndsQuad(s, i) {
      var a, d1, d2 := Run3Witness(s, i - 2);
      assert QuadAt(s, a, d1, d2, i - 2, i);
    }
  }

  /** Runs the scanner from position `i` in state `q`; true when a match
      ends at or after `i`. */
  function ScanFrom(s: string, i: nat, q: nat): (found: bool)
    requires i <= |s| && q == Level(s, i)
    ensures found <==> exists k :: i <= k <= |s| && EndsQuad(s, k)
    decreases |s| - i
  {
    if q == 7 then true
    else if i == |s| then false
    else
      StepTracksLevel(s, i);
      ScanFrom(s, i + 1, Step(q, s[i]))
  }

  /** The executable form of the `re.findall` test: the scanner run over
      the whole text agrees with the declarative pattern. */
  function HasDottedQuad(s: string): (found: bool)
    ensures found <==> ContainsDottedQuad(s)
  {
    MatchIffSomeEnd(s);
    ScanFrom(s, 0, 0)
  }
}
