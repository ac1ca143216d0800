/**
 * The search/filter combinator `filterBySearchStrings` of
 * backend/src/shared/shared.ts: every query of the service narrows a list of
 * records with it.
 *
 * A needle that starts with `~` is fuzzy: the marker is dropped and the rest is
 * trimmed and lower-cased, and it matches a projected value whose lower-cased
 * form contains it. Every other needle is exact: trimmed, it matches a projected
 * value equal to it. Needles left empty are ignored, and when no needle is left
 * the haystack comes back unchanged. An optional `or` test is also tried
 * against every needle as given.
 */
module Search {
  import opened Wrappers
  import opened JsText
  import opened Seqs

  const FuzzyNeedleMarker: string := "~"

  predicate IsFuzzy(needle: string) {
    StartsWith(needle, FuzzyNeedleMarker)
  }

  /** What a fuzzy needle searches for: the text after the marker, trimmed and lower-cased. */
  function FuzzyText(needle: string): string
    requires IsFuzzy(needle)
  {
    ToLower(Trim(needle[|FuzzyNeedleMarker|..]))
  }

  /** The exact needle set built from `needles`. */
  function ExactNeedles(needles: seq<string>): set<string> {
    set n | n in needles && !IsFuzzy(n) && Trim(n) != "" :: Trim(n)
  }

  /** The fuzzy needle set built from `needles`. */
  function FuzzyNeedles(needles: seq<string>): set<string> {
    set n | n in needles && IsFuzzy(n) && FuzzyText(n) != "" :: FuzzyText(n)
  }

  predicate HasEffectiveNeedle(needles: seq<string>) {
    ExactNeedles(needles) != {} || FuzzyNeedles(needles) != {}
  }

  /** One projected value against the two needle sets. */
  predicate ValueMatches(value: string, exact: set<string>, fuzzy: set<string>) {
    value in exact || exists f | f in fuzzy :: Includes(ToLower(value), f)
  }

  /** The test the combinator applies to each record, given the needle sets. */
  predicate MatchesWith<R>(record: R, exact: set<string>, fuzzy: set<string>, needles: seq<string>,
                           getValues: R -> seq<string>, or: Option<(R, string) -> bool>)
  {
    (exists v | v in getValues(record) :: ValueMatches(v, exact, fuzzy))
    || (or.Some? && exists n | n in needles :: or.value(record, n))
  }

  predicate Matches<R>(record: R, needles: seq<string>, getValues: R -> seq<string>,
                       or: Option<(R, string) -> bool>)
  {
    MatchesWith(record, ExactNeedles(needles), FuzzyNeedles(needles), needles, getValues, or)
  }

  /**
   * What `filterBySearchStrings({needles, haystack, getValues, or})` returns:
   * the records of the haystack, in order, that match once some needle is
   * effective, and the whole haystack otherwise.
   */
  function Filter<R>(needles: seq<string>, haystack: seq<R>, getValues: R -> seq<string>,
                     or: Option<(R, string) -> bool>): (r: seq<R>)
    ensures IsSubsequence(r, haystack)
    ensures forall x | x in haystack :: x in r <==> Keeps(needles, x, getValues, or)
  {
    if !HasEffectiveNeedle(needles) then
      SubsequenceRefl(haystack);
      haystack
    else
      MatchingRecords(needles, haystack, getValues, or);
      Where(haystack, r => Matches(r, needles, getValues, or))
  }

  lemma MatchingRecords<R>(needles: seq<string>, haystack: seq<R>, getValues: R -> seq<string>,
                           or: Option<(R, string) -> bool>)
    requires HasEffectiveNeedle(needles)
    ensures var w := Where(haystack, r => Matches(r, needles, getValues, or));
      IsSubsequence(w, haystack) && forall x | x in haystack :: x in w <==> Keeps(needles, x, getValues, or)
  {
    var keep := (r: R) => Matches(r, needles, getValues, or);
    WhereIsSubsequence(haystack, keep);
    WhereMembers(haystack, keep);
  }

  lemma ExactNeedlesSnoc(ns: seq<string>, n: string)
    ensures ExactNeedles(ns + [n]) == ExactNeedles(ns) + (if !IsFuzzy(n) && Trim(n) != "" then {Trim(n)} else {})
  {
    assert forall m :: m in ns + [n] <==> m in ns || m == n;
  }

  lemma FuzzyNeedlesSnoc(ns: seq<string>, n: string)
    ensures FuzzyNeedles(ns + [n]) == FuzzyNeedles(ns) + (if IsFuzzy(n) && FuzzyText(n) != "" then {FuzzyText(n)} else {})
  {
    assert forall m :: m in ns + [n] <==> m in ns || m == n;
  }

  /** One more needle added to both needle sets. */
  lemma NeedleSetsStep(needles: seq<string>, i: nat)
    requires i < |needles|
    ensures ExactNeedles(needles[..i + 1]) ==
      ExactNeedles(needles[..i]) + (if !IsFuzzy(needles[i]) && Trim(needles[i]) != "" then {Trim(needles[i])} else {})
    ensures FuzzyNeedles(needles[..i + 1]) ==
      FuzzyNeedles(needles[..i]) + (if IsFuzzy(needles[i]) && FuzzyText(needles[i]) != "" then {FuzzyText(needles[i])} else {})
  {
    assert needles[..i + 1] == needles[..i] + [needles[i]];
    ExactNeedlesSnoc(needles[..i], needles[i]);
    FuzzyNeedlesSnoc(needles[..i], needles[i]);
  }

  /** The first pass of the combinator: the exact and fuzzy needle sets. */
  method CollectNeedleSets(needles: seq<string>) returns (exactNeedleSet: set<string>, fuzzyNeedleSet: set<string>)
    ensures exactNeedleSet == ExactNeedles(needles) && fuzzyNeedleSet == FuzzyNeedles(needles)
  {
    exactNeedleSet, fuzzyNeedleSet := {}, {};
    for i := 0 to |needles|
      invariant exactNeedleSet == ExactNeedles(needles[..i])
      invariant fuzzyNeedleSet == FuzzyNeedles(needles[..i])
    {
      var needle := needles[i];
      NeedleSetsStep(needles, i);
      if IsFuzzy(needle) {
        var fuzzyNeedle := FuzzyText(needle);
        if fuzzyNeedle != "" {
          fuzzyNeedleSet := fuzzyNeedleSet + {fuzzyNeedle};
        }
      } else {
        var exactNeedle := Trim(needle);
        if exactNeedle != "" {
          exactNeedleSet := exactNeedleSet + {exactNeedle};
        }
      }
    }
    assert needles[..|needles|] == needles;
  }

  /** The second pass of the combinator: the records that match, in haystack order. */
  method KeepMatching<R>(needles: seq<string>, haystack: seq<R>, getValues: R -> seq<string>,
                         or: Option<(R, string) -> bool>, exactNeedleSet: set<string>, fuzzyNeedleSet: set<string>)
    returns (result: seq<R>)
    requires exactNeedleSet == ExactNeedles(needles) && fuzzyNeedleSet == FuzzyNeedles(needles)
    ensures result == Where(haystack, r => Matches(r, needles, getValues, or))
  {
    ghost var keep := (r: R) => Matches(r, needles, getValues, or);
    result := [];
    for j := 0 to |haystack|
      invariant result == Where(haystack[..j], keep)
    {
      var record := haystack[j];
      WherePrefixStep(haystack, keep, j);
      if MatchesWith(record, exactNeedleSet, fuzzyNeedleSet, needles, getValues, or) {
        result := result + [record];
      }
    }
    assert haystack[..|haystack|] == haystack;
  }

  /**
   * The combinator as the source runs it: one pass over the needles fills the
   * exact and fuzzy sets, then one pass over the haystack keeps the records
   * that match.
   */
  method FilterBySearchStrings<R>(needles: seq<string>, haystack: seq<R>, getValues: R -> seq<string>,
                                  or: Option<(R, string) -> bool>)
    returns (result: seq<R>)
    ensures result == Filter(needles, haystack, getValues, or)
  {
    var exactNeedleSet, fuzzyNeedleSet := CollectNeedleSets(needles);
    if exactNeedleSet == {} && fuzzyNeedleSet == {} {
      return haystack;
    }
    result := KeepMatching(needles, haystack, getValues, or, exactNeedleSet, fuzzyNeedleSet);
  }

  /** Whether one filter stage keeps `record`: always, when no needle is effective. */
  predicate Keeps<R>(needles: seq<string>, record: R, getValues: R -> seq<string>, or: Option<(R, string) -> bool>) {
    !HasEffectiveNeedle(needles) || Matches(record, needles, getValues, or)
  }

  /** The combinator is a plain filter by `Keeps`. */
  lemma FilterIsWhere<R>(needles: seq<string>, haystack: seq<R>, getValues: R -> seq<string>,
                         or: Option<(R, string) -> bool>)
    ensures Filter(needles, haystack, getValues, or) == Where(haystack, r => Keeps(needles, r, getValues, or))
  {
    var keeps := r => Keeps(needles, r, getValues, or);
    if HasEffectiveNeedle(needles) {
      WhereCongruent(haystack, r => Matches(r, needles, getValues, or), keeps);
    } else {
      WhereAll(haystack, keeps);
    }
  }

  /** No needles at all: nothing to filter by. */
  lemma NoNeedlesNoChange<R>(haystack: seq<R>, getValues: R -> seq<string>, or: Option<(R, string) -> bool>)
    ensures Filter([], haystack, getValues, or) == haystack
  {
    assert ExactNeedles([]) == {};
    assert FuzzyNeedles([]) == {};
  }

  /**
   * Needles that are all blank once trimmed (a lone `~` included) leave the
   * haystack as it is, even when an `or` test is given.
   */
  lemma {:induction false} BlankNeedlesKeepHaystack<R>(needles: seq<string>, haystack: seq<R>,
                                                     getValues: R -> seq<string>, or: Option<(R, string) -> bool>)
    requires forall n | n in needles :: Trim(if IsFuzzy(n) then n[1..] else n) == ""
    ensures Filter(needles, haystack, getValues, or) == haystack
  {
    forall n | n in needles && IsFuzzy(n) ensures FuzzyText(n) == "" {
      assert Trim(n[1..]) == "";
    }
    assert ExactNeedles(needles) == {};
    assert FuzzyNeedles(needles) == {};
  }

  /** A value is in the exact set iff some non-fuzzy needle trims to it. */
  lemma ExactNeedleMembership(needles: seq<string>, v: string)
    ensures v in ExactNeedles(needles) <==> exists n | n in needles :: !IsFuzzy(n) && Trim(n) != "" && v == Trim(n)
  {
  }

  /**
   * Once some needle is left after trimming, the result is the haystack's
   * records that match, in haystack order (`Matches`: one of its projected
   * values equals a trimmed exact needle, or contains a fuzzy needle once
   * lower-cased, or `or` accepts it with one of the needles as given).
   */
  lemma {:induction false} FilterKeepsExactlyMatches<R>(needles: seq<string>, haystack: seq<R>,
                                                      getValues: R -> seq<string>, or: Option<(R, string) -> bool>)
    requires HasEffectiveNeedle(needles)
    ensures IsSubsequence(Filter(needles, haystack, getValues, or), haystack)
    ensures forall x :: x in Filter(needles, haystack, getValues, or) <==>
      x in haystack && Matches(x, needles, getValues, or)
  {
    var keep := (r: R) => Matches(r, needles, getValues, or);
    assert Filter(needles, haystack, getValues, or) == Where(haystack, keep);
    WhereIsSubsequence(haystack, keep);
    forall x ensures x in Where(haystack, keep) <==> x in haystack && keep(x) {
      WhereMembership(haystack, keep, x);
    }
  }

  lemma ExactNeedlesGrow(n1: seq<string>, n2: seq<string>)
    ensures ExactNeedles(n1) <= ExactNeedles(n1 + n2) && FuzzyNeedles(n1) <= FuzzyNeedles(n1 + n2)
  {
    assert forall m | m in n1 :: m in n1 + n2;
  }

  lemma {:induction false} MatchesGrow<R>(x: R, n1: seq<string>, n2: seq<string>,
                                        getValues: R -> seq<string>, or: Option<(R, string) -> bool>)
    requires Matches(x, n1, getValues, or)
    ensures Matches(x, n1 + n2, getValues, or)
  {
    ExactNeedlesGrow(n1, n2);
    var e1, f1 := ExactNeedles(n1), FuzzyNeedles(n1);
    var e2, f2 := ExactNeedles(n1 + n2), FuzzyNeedles(n1 + n2);
    if v :| v in getValues(x) && ValueMatches(v, e1, f1) {
      if v !in e1 {
        var f :| f in f1 && Includes(ToLower(v), f);
        assert f in f2;
      }
      assert ValueMatches(v, e2, f2);
    } else {
      var n :| n in n1 && or.value(x, n);
      assert n in n1 + n2;
    }
  }

  /**
   * Adding needles never drops a record, provided the original needles already
   * held one that is not blank: the old result is a subsequence of the new one.
   * (Without that proviso the old result is the whole haystack, which the
   * longer list may narrow.)
   */
  lemma {:induction false} MoreNeedlesKeepMore<R>(n1: seq<string>, n2: seq<string>, haystack: seq<R>,
                                                getValues: R -> seq<string>, or: Option<(R, string) -> bool>)
    requires HasEffectiveNeedle(n1)
    ensures IsSubsequence(Filter(n1, haystack, getValues, or), Filter(n1 + n2, haystack, getValues, or))
    ensures |Filter(n1, haystack, getValues, or)| <= |Filter(n1 + n2, haystack, getValues, or)|
  {
    ExactNeedlesGrow(n1, n2);
    var p := (r: R) => Matches(r, n1, getValues, or);
    var q := (r: R) => Matches(r, n1 + n2, getValues, or);
    FilterOfEffective(n1, haystack, getValues, or);
    FilterOfEffective(n1 + n2, haystack, getValues, or);
    forall x | x in haystack && p(x) ensures q(x) {
      MatchesGrow(x, n1, n2, getValues, or);
    }
    WhereMonotone(haystack, p, q);
  }

  lemma FilterOfEffective<R>(needles: seq<string>, haystack: seq<R>, getValues: R -> seq<string>,
                             or: Option<(R, string) -> bool>)
    requires HasEffectiveNeedle(needles)
    ensures Filter(needles, haystack, getValues, or) == Where(haystack, r => Matches(r, needles, getValues, or))
  {
  }

  /** A needle is fuzzy exactly when its first character is the `~` marker. */
  lemma FuzzyMarkerFirst(s: string)
    ensures IsFuzzy(s) <==> s != [] && s[0] == '~'
  {
    if s != [] && s[0] == '~' {
      assert s[..1] == [s[0]];
    }
  }

  lemma ExactNeedlesOfOne(n: string)
    ensures ExactNeedles([n]) == if !IsFuzzy(n) && Trim(n) != "" then {Trim(n)} else {}
  {
    forall m ensures m in ExactNeedles([n]) <==> !IsFuzzy(n) && Trim(n) != "" && m == Trim(n) {
      ExactNeedleOfOne(n, m);
    }
  }

  lemma ExactNeedleOfOne(n: string, m: string)
    ensures m in ExactNeedles([n]) <==> !IsFuzzy(n) && Trim(n) != "" && m == Trim(n)
  {
    assert forall x :: x in [n] <==> x == n;
  }

  lemma FuzzyNeedlesOfOne(n: string)
    ensures FuzzyNeedles([n]) == if IsFuzzy(n) && FuzzyText(n) != "" then {FuzzyText(n)} else {}
  {
    FuzzyNeedlesSnoc([], n);
    assert [] + [n] == [n];
  }

  /** A lone exact needle with no surrounding blanks matches the values equal to it and no others. */
  lemma PlainNeedleMatchesWholeValues(n: string, v: string)
    requires !IsFuzzy(n) && n != "" && Trim(n) == n
    ensures ValueMatches(v, ExactNeedles([n]), FuzzyNeedles([n])) <==> v == n
  {
    ExactNeedlesOfOne(n);
    FuzzyNeedlesOfOne(n);
    var e, f := ExactNeedles([n]), FuzzyNeedles([n]);
    assert e == {n} && f == {};
    assert ValueMatches(v, e, f) <==> v in e;
  }

  /** A lone fuzzy needle matches the values whose lower-cased form contains its text. */
  lemma FuzzyNeedleMatchesInside(n: string, v: string)
    requires IsFuzzy(n) && FuzzyText(n) != ""
    ensures ValueMatches(v, ExactNeedles([n]), FuzzyNeedles([n])) <==> Includes(ToLower(v), FuzzyText(n))
  {
    ExactNeedlesOfOne(n);
    FuzzyNeedlesOfOne(n);
  }

  /** A fuzzy needle ignores the case of the value. */
  lemma FuzzyNeedleIgnoresCase(n: string, v: string)
    requires IsFuzzy(n) && FuzzyText(n) != ""
    ensures ValueMatches(v, ExactNeedles([n]), FuzzyNeedles([n])) <==>
      ValueMatches(ToLower(v), ExactNeedles([n]), FuzzyNeedles([n]))
  {
    FuzzyNeedleMatchesInside(n, v);
    FuzzyNeedleMatchesInside(n, ToLower(v));
    assert ToLower(ToLower(v)) == ToLower(v);
  }
}
