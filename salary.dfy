/**
 * The salary pattern of the first provider, `/\$(\d+)k\s*-\s*\$(\d+)k/`, applied with
 * `String.prototype.match` (leftmost match, not anchored). At a fixed start index the
 * pattern has at most one way to match: each `\d+` and `\s*` must stop exactly where
 * the run of digits or spaces ends, since the character after it must be `k`, `-` or `$`.
 */
module Salary {
  import opened Wrappers
  import opened Text

  /** The two captured groups, as text (the digits of the lower and the upper bound). */
  datatype SalaryMatch = SalaryMatch(low: string, high: string)

  /** End of the maximal run of digits starting at i. */
  function DigitRunEnd(s: string, i: nat): (j: nat)
    ensures i <= j && (i <= |s| ==> j <= |s|)
    decreases |s| - i
  {
    if i < |s| && IsDigit(s[i]) then DigitRunEnd(s, i + 1) else i
  }

  /** DigitRunEnd stops after a run of digits, at a character that is not one. */
  lemma {:induction false} DigitRunEndMaximal(s: string, i: nat)
    requires i <= |s|
    ensures var j := DigitRunEnd(s, i);
            AllDigits(s[i..j]) && (j < |s| ==> !IsDigit(s[j]))
    decreases |s| - i
  {
    if i < |s| && IsDigit(s[i]) {
      DigitRunEndMaximal(s, i + 1);
      var j := DigitRunEnd(s, i + 1);
      assert s[i..j] == [s[i]] + s[i + 1..j];
    }
  }

  /** End of the maximal run of `\s` characters starting at i. */
  function SpaceRunEnd(s: string, i: nat): (j: nat)
    ensures i <= j && (i <= |s| ==> j <= |s|)
    decreases |s| - i
  {
    if i < |s| && IsJsSpace(s[i]) then SpaceRunEnd(s, i + 1) else i
  }

  /** SpaceRunEnd stops after a run of `\s` characters, at a character that is not one. */
  lemma {:induction false} SpaceRunEndMaximal(s: string, i: nat)
    requires i <= |s|
    ensures var j := SpaceRunEnd(s, i);
            AllSpaces(s[i..j]) && (j < |s| ==> !IsJsSpace(s[j]))
    decreases |s| - i
  {
    if i < |s| && IsJsSpace(s[i]) {
      SpaceRunEndMaximal(s, i + 1);
      var j := SpaceRunEnd(s, i + 1);
      assert s[i..j] == [s[i]] + s[i + 1..j];
    }
  }

  /** End of the run of digits that starts just after position p. */
  function DigitsAfter(s: string, p: nat): nat {
    DigitRunEnd(s, p + 1)
  }

  /** End of the run of `\s` characters that starts just after position p. */
  function SpacesAfter(s: string, p: nat): nat {
    SpaceRunEnd(s, p + 1)
  }

  /**
   * The pattern occurs at i with the first `$` at i, the first `k` at a, the `-` at b,
   * the second `$` at c and the second `k` at e: the regular expression read as positions.
   */
  predicate Spans(s: string, i: nat, a: nat, b: nat, c: nat, e: nat) {
    && i + 1 < a < b < c && c + 1 < e < |s|
    && s[i] == '$' && AllDigits(s[i + 1..a]) && s[a] == 'k'
    && AllSpaces(s[a + 1..b]) && s[b] == '-'
    && AllSpaces(s[b + 1..c]) && s[c] == '$'
    && AllDigits(s[c + 1..e]) && s[e] == 'k'
  }

  /** The captured groups of the occurrence described by Spans. */
  function Captured(s: string, i: nat, a: nat, b: nat, c: nat, e: nat): SalaryMatch
    requires i + 1 <= a <= |s| && c + 1 <= e <= |s|
  {
    SalaryMatch(s[i + 1..a], s[c + 1..e])
  }

  /**
   * Try the pattern at start index i: each run of digits or spaces is taken as long as it
   * goes, and the pattern matches when the characters around the runs are the right ones.
   */
  function MatchAt(s: string, i: nat): Option<SalaryMatch>
  {
    var a := DigitsAfter(s, i);
    var b := SpacesAfter(s, a);
    var c := SpacesAfter(s, b);
    var e := DigitsAfter(s, c);
    MatchWith(s, i, a, b, c, e)
  }

  /** The pattern at i with the runs ending at a, b, c and e. */
  function MatchWith(s: string, i: nat, a: nat, b: nat, c: nat, e: nat): Option<SalaryMatch>
  {
    if Spans(s, i, a, b, c, e) then Some(Captured(s, i, a, b, c, e)) else None
  }

  /** The first present value among f(i), f(i + 1), ..., f(n - 1): a leftmost search. */
  function FirstSome<T>(f: nat -> Option<T>, i: nat, n: nat): Option<T>
    requires i <= n
    decreases n - i
  {
    if i == n then None
    else if f(i).Some? then f(i)
    else FirstSome(f, i + 1, n)
  }

  /** The pattern tried at every start index of s. */
  function MatchesOf(s: string): nat -> Option<SalaryMatch>
  {
    (k: nat) => MatchAt(s, k)
  }

  /** `salaryRange.match(...)`: the groups of the leftmost match, which are runs of digits. */
  function ParseSalary(s: string): (r: Option<SalaryMatch>)
    ensures r.Some? ==> AllDigits(r.value.low) && AllDigits(r.value.high)
  {
    GroupsAreDigits(s);
    FirstSome(MatchesOf(s), 0, |s|)
  }

  lemma GroupsAreDigits(s: string)
    ensures var r := FirstSome(MatchesOf(s), 0, |s|);
            r.Some? ==> AllDigits(r.value.low) && AllDigits(r.value.high)
  {
    var f := MatchesOf(s);
    if FirstSome(f, 0, |s|).Some? {
      FirstSomeFound(f, 0, |s|);
      var j :| 0 <= j < |s| && f(j) == FirstSome(f, 0, |s|);
      assert MatchAt(s, j).Some?;
    }
  }

  lemma {:induction false} DigitRunEndIs(s: string, i: nat, j: nat)
    requires i <= j <= |s| && AllDigits(s[i..j]) && (j < |s| ==> !IsDigit(s[j]))
    ensures DigitRunEnd(s, i) == j
    decreases j - i
  {
    if i < j {
      assert s[i] == s[i..j][0];
      assert s[i + 1..j] == s[i..j][1..];
      DigitRunEndIs(s, i + 1, j);
    }
  }

  lemma {:induction false} SpaceRunEndIs(s: string, i: nat, j: nat)
    requires i <= j <= |s| && AllSpaces(s[i..j]) && (j < |s| ==> !IsJsSpace(s[j]))
    ensures SpaceRunEnd(s, i) == j
    decreases j - i
  {
    if i < j {
      assert s[i] == s[i..j][0];
      assert s[i + 1..j] == s[i..j][1..];
      SpaceRunEndIs(s, i + 1, j);
    }
  }

  /** Whatever MatchAt reports is an occurrence of the pattern, with its groups. */
  lemma MatchAtSound(s: string, i: nat)
    requires MatchAt(s, i).Some?
    ensures exists a: nat, b: nat, c: nat, e: nat :: Spans(s, i, a, b, c, e) && MatchAt(s, i) == Some(Captured(s, i, a, b, c, e))
  {
    var a := DigitRunEnd(s, i + 1);
    var b := SpaceRunEnd(s, a + 1);
    var c := SpaceRunEnd(s, b + 1);
    var e := DigitRunEnd(s, c + 1);
    assert Spans(s, i, a, b, c, e);
  }

  /** Every occurrence of the pattern at i is found by MatchAt, with the same groups. */
  lemma MatchAtComplete(s: string, i: nat, a: nat, b: nat, c: nat, e: nat)
    requires Spans(s, i, a, b, c, e)
    ensures MatchAt(s, i) == Some(Captured(s, i, a, b, c, e))
  {
    DigitRunEndIs(s, i + 1, a);
    SpaceRunEndIs(s, a + 1, b);
    SpaceRunEndIs(s, b + 1, c);
    DigitRunEndIs(s, c + 1, e);
    MatchAtRuns(s, i, a, b, c, e);
  }

  /** MatchAt checks the pattern at the run ends that DigitRunEnd and SpaceRunEnd compute. */
  lemma MatchAtRuns(s: string, i: nat, a: nat, b: nat, c: nat, e: nat)
    requires DigitsAfter(s, i) == a && SpacesAfter(s, a) == b
    requires SpacesAfter(s, b) == c && DigitsAfter(s, c) == e
    ensures MatchAt(s, i) == MatchWith(s, i, a, b, c, e)
  {
  }

  /** A leftmost search that succeeds stops at a present value with none before it. */
  lemma {:induction false} FirstSomeFound<T>(f: nat -> Option<T>, i: nat, n: nat)
    requires i <= n && FirstSome(f, i, n).Some?
    ensures exists j :: i <= j < n && f(j) == FirstSome(f, i, n) && forall k :: i <= k < j ==> f(k).None?
    decreases n - i
  {
    if f(i).None? {
      FirstSomeFound(f, i + 1, n);
      var j :| i + 1 <= j < n && f(j) == FirstSome(f, i + 1, n) && forall k :: i + 1 <= k < j ==> f(k).None?;
      assert forall k :: i <= k < j ==> f(k).None?;
    }
  }

  /** A leftmost search returns the first present value. */
  lemma {:induction false} FirstSomeIs<T>(f: nat -> Option<T>, i: nat, n: nat, j: nat)
    requires i <= j < n && f(j).Some? && forall k :: i <= k < j ==> f(k).None?
    ensures FirstSome(f, i, n) == f(j)
    decreases j - i
  {
    if i < j {
      FirstSomeIs(f, i + 1, n, j);
    }
  }

  /** A leftmost search fails exactly when no value in the range is present. */
  lemma {:induction false} FirstSomeNone<T>(f: nat -> Option<T>, i: nat, n: nat)
    requires i <= n
    ensures FirstSome(f, i, n).None? <==> forall j :: i <= j < n ==> f(j).None?
    decreases n - i
  {
    if i < n {
      FirstSomeNone(f, i + 1, n);
    }
  }

  /** The pattern occurs at no start index below i. */
  ghost predicate NoOccurrenceBefore(s: string, i: nat) {
    forall j: nat, a: nat, b: nat, c: nat, e: nat :: j < i ==> !Spans(s, j, a, b, c, e)
  }

  lemma NoMatchBefore(s: string, i: nat)
    requires forall k :: 0 <= k < i ==> MatchesOf(s)(k).None?
    ensures NoOccurrenceBefore(s, i)
  {
    forall j: nat, a: nat, b: nat, c: nat, e: nat | j < i && Spans(s, j, a, b, c, e) ensures false {
      assert MatchesOf(s)(j) == MatchAt(s, j);
      MatchAtComplete(s, j, a, b, c, e);
    }
  }

  /**
   * A parsed salary is the leftmost occurrence of the pattern: it occurs at some i with
   * exactly the reported groups, and it occurs at no smaller index.
   */
  lemma ParseSalaryLeftmost(s: string)
    requires ParseSalary(s).Some?
    ensures exists i: nat, a: nat, b: nat, c: nat, e: nat :: Spans(s, i, a, b, c, e) && ParseSalary(s) == Some(Captured(s, i, a, b, c, e))
                                    && NoOccurrenceBefore(s, i)
  {
    var f := MatchesOf(s);
    FirstSomeFound(f, 0, |s|);
    var i :| 0 <= i < |s| && f(i) == ParseSalary(s) && forall k :: 0 <= k < i ==> f(k).None?;
    assert MatchAt(s, i) == ParseSalary(s);
    MatchAtSound(s, i);
    var a, b, c, e :| Spans(s, i, a, b, c, e) && MatchAt(s, i) == Some(Captured(s, i, a, b, c, e));
    NoMatchBefore(s, i);
  }

  /** The leftmost occurrence of the pattern is the one parsed, with its groups. */
  lemma ParseSalaryOfLeftmost(s: string, i: nat, a: nat, b: nat, c: nat, e: nat)
    requires Spans(s, i, a, b, c, e) && NoOccurrenceBefore(s, i)
    ensures ParseSalary(s) == Some(Captured(s, i, a, b, c, e))
  {
    NoneBefore(s, i);
    MatchAtComplete(s, i, a, b, c, e);
    assert MatchesOf(s)(i) == Some(Captured(s, i, a, b, c, e));
    FirstSomeIs(MatchesOf(s), 0, |s|, i);
  }

  lemma NoneBefore(s: string, i: nat)
    requires NoOccurrenceBefore(s, i)
    ensures forall k :: 0 <= k < i ==> MatchesOf(s)(k).None?
  {
    forall k | 0 <= k < i ensures MatchesOf(s)(k).None? {
      if MatchAt(s, k).Some? {
        MatchAtSound(s, k);
      }
    }
  }

  /** No bounds are parsed exactly when the pattern occurs nowhere in the text. */
  lemma ParseSalaryNone(s: string)
    ensures ParseSalary(s).None? <==> forall i: nat, a: nat, b: nat, c: nat, e: nat :: !Spans(s, i, a, b, c, e)
  {
    if ParseSalary(s).None? {
      FirstSomeNone(MatchesOf(s), 0, |s|);
      NoMatchBefore(s, |s|);
      forall i: nat, a: nat, b: nat, c: nat, e: nat | Spans(s, i, a, b, c, e) ensures i < |s| { }
    } else {
      ParseSalaryLeftmost(s);
    }
  }

  /** The documented example: "$69k - $103k" yields the groups "69" and "103". */
  lemma ParseSalaryExample()
    ensures ParseSalary("$69k - $103k") == Some(SalaryMatch("69", "103"))
  {
    var s := "$69k - $103k";
    assert s[1..3] == "69" && s[8..11] == "103";
    assert AllSpaces(s[4..5]) && AllSpaces(s[6..7]);
    assert Spans(s, 0, 3, 5, 7, 11);
    MatchAtComplete(s, 0, 3, 5, 7, 11);
    assert MatchesOf(s)(0) == Some(SalaryMatch("69", "103"));
  }

  /** Text without any `$` never yields bounds. */
  lemma NoDollarNoMatch(s: string)
    requires forall k :: 0 <= k < |s| ==> s[k] != '$'
    ensures ParseSalary(s).None?
  {
    FirstSomeNone(MatchesOf(s), 0, |s|);
  }

  /** A salary text in another format, such as "Competitive", yields no bounds. */
  lemma UnparsableExample()
    ensures ParseSalary("Competitive").None?
  {
    NoDollarNoMatch("Competitive");
  }
}
