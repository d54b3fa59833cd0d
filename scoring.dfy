/**
  Score aggregation: raw answers grouped by key prefix (the companion id),
  averaged, and banded into low / medium / high; the stable ascending sort by
  score that every "needs attention" ranking uses; and the unguarded average
  that the dashboard, micro-quest and blood-layer screens compute.
*/
module Scoring {

  import opened Wrappers
  import opened Text
  import opened Records
  import opened Companions

  /** Raw answers: question id to value, in insertion order. */
  type Responses = seq<Entry<Answer>>

  /** The neutral score of a domain that has no answers. */
  const NeutralScore: real := 50.0

  /** `getLevel`: total over all scores; 35 is medium and 65 is high. */
  function GetLevel(score: real): (r: Level)
    ensures r == Low <==> score < 35.0
    ensures r == Medium <==> 35.0 <= score < 65.0
    ensures r == High <==> 65.0 <= score
  {
    if score < 35.0 then Low
    else if score < 65.0 then Medium
    else High
  }

  function LevelRank(l: Level): nat {
    match l
    case Low => 0
    case Medium => 1
    case High => 2
  }

  /** Bands are monotone in the score. */
  lemma GetLevelMonotone(a: real, b: real)
    requires a <= b
    ensures LevelRank(GetLevel(a)) <= LevelRank(GetLevel(b))
  {
  }

  /** The value an answer contributes to the mean: numbers as they are, any
      other value as 50. */
  function AnswerValue(a: Answer): real {
    if a.Number? then a.value else NeutralScore
  }

  /** The values of the answers whose key starts with `id`, in order. */
  function Selected(r: Responses, id: string): (xs: seq<real>)
    ensures |xs| <= |r|
  {
    if r == [] then []
    else if StartsWith(r[0].key, id) then [AnswerValue(r[0].value)] + Selected(r[1..], id)
    else Selected(r[1..], id)
  }

  function Sum(xs: seq<real>): real {
    if xs == [] then 0.0 else xs[0] + Sum(xs[1..])
  }

  /** A domain's score: the mean of its selected answers, or 50 when it has
      none. */
  function DomainScore(r: Responses, id: string): (s: real)
    ensures Selected(r, id) == [] ==> s == NeutralScore
  {
    var xs := Selected(r, id);
    if |xs| > 0 then Sum(xs) / |xs| as real else NeutralScore
  }

  /** A domain with answers scores their mean: the score times the number
      of answers is their sum. */
  lemma DomainScoreIsMean(r: Responses, id: string)
    requires Selected(r, id) != []
    ensures DomainScore(r, id) * |Selected(r, id)| as real == Sum(Selected(r, id))
  {
  }

  /** The scoring block of the check-in flow: one scored entry per companion,
      in catalog order. */
  function ScoreCompanions(r: Responses): (s: seq<ScoredCompanion>)
    ensures |s| == |CompanionOrder|
    ensures forall i :: 0 <= i < |s| ==>
      s[i].id == CompanionOrder[i] &&
      s[i].score == DomainScore(r, CompanionOrder[i]) &&
      s[i].level == GetLevel(s[i].score)
  {
    seq(|CompanionOrder|, i requires 0 <= i < |CompanionOrder| =>
      var sc := DomainScore(r, CompanionOrder[i]);
      ScoredCompanion(CompanionOrder[i], sc, GetLevel(sc)))
  }

  // ---------------------------------------------------------------------
  // Properties of the mean
  // ---------------------------------------------------------------------

  lemma {:induction false} SumBounds(xs: seq<real>, lo: real, hi: real)
    requires forall i :: 0 <= i < |xs| ==> lo <= xs[i] <= hi
    ensures |xs| as real * lo <= Sum(xs) <= |xs| as real * hi
  {
    if xs != [] {
      SumBounds(xs[1..], lo, hi);
    }
  }

  predicate AnswersWithin(r: Responses, lo: real, hi: real) {
    forall i :: 0 <= i < |r| ==> lo <= AnswerValue(r[i].value) <= hi
  }

  lemma {:induction false} SelectedWithin(r: Responses, id: string, lo: real, hi: real)
    requires AnswersWithin(r, lo, hi)
    ensures forall i :: 0 <= i < |Selected(r, id)| ==> lo <= Selected(r, id)[i] <= hi
  {
    if r != [] {
      SelectedWithin(r[1..], id, lo, hi);
    }
  }

  /** When every answer lies in [0, 100], so does every domain score: the
      mean never leaves the answers' range and the default is 50. */
  lemma DomainScoreWithin(r: Responses, id: string)
    requires AnswersWithin(r, 0.0, 100.0)
    ensures 0.0 <= DomainScore(r, id) <= 100.0
  {
    var xs := Selected(r, id);
    if |xs| > 0 {
      SelectedWithin(r, id, 0.0, 100.0);
      SumBounds(xs, 0.0, 100.0);
      var n := |xs| as real;
      assert Sum(xs) / n <= 100.0 by {
        assert Sum(xs) <= n * 100.0;
      }
    }
  }

  /** A domain with no answers gets the neutral score and the medium band,
      never an undefined value. */
  lemma NoAnswersIsNeutral(r: Responses, id: string)
    requires forall i :: 0 <= i < |r| ==> !StartsWith(r[i].key, id)
    ensures DomainScore(r, id) == 50.0 && GetLevel(DomainScore(r, id)) == Medium
  {
    assert Selected(r, id) == [] by {
      NoSelected(r, id);
    }
  }

  lemma {:induction false} NoSelected(r: Responses, id: string)
    requires forall i :: 0 <= i < |r| ==> !StartsWith(r[i].key, id)
    ensures Selected(r, id) == []
  {
    if r != [] {
      NoSelected(r[1..], id);
    }
  }

  lemma {:induction false} PutOtherKeepsSelected(r: Responses, k: string, v: Answer, id: string)
    requires !StartsWith(k, id)
    ensures Selected(Put(r, k, v), id) == Selected(r, id)
  {
    if r != [] && r[0].key != k {
      PutOtherKeepsSelected(r[1..], k, v, id);
    }
  }

  /** No cross-domain leakage: merging answers whose keys do not start with
      `id` leaves that domain's score unchanged. */
  lemma {:induction false} MergeOtherKeepsScore(r: Responses, e: Responses, id: string)
    requires forall i :: 0 <= i < |e| ==> !StartsWith(e[i].key, id)
    ensures DomainScore(Merge(r, e), id) == DomainScore(r, id)
    decreases |e|
  {
    if e != [] {
      PutOtherKeepsSelected(r, e[0].key, e[0].value, id);
      MergeOtherKeepsScore(Put(r, e[0].key, e[0].value), e[1..], id);
    }
  }

  /** A choice answer is an option index and is averaged as that number:
      with a mood slider at `x` and the emotion option `i`, the mood score
      is (x + i) / 2. */
  lemma ChoiceIndexIsAveraged(x: nat, i: nat)
    ensures DomainScore([Entry("coral-1", Number(x as real)), Entry("coral-2", Number(i as real))], "coral")
      == (x as real + i as real) / 2.0
  {
    var r := [Entry("coral-1", Number(x as real)), Entry("coral-2", Number(i as real))];
    assert StartsWith("coral-1", "coral") && StartsWith("coral-2", "coral");
    assert r[1..] == [Entry("coral-2", Number(i as real))];
    assert r[1..][1..] == [];
    assert Selected(r[1..], "coral") == [i as real];
    assert Selected(r, "coral") == [x as real, i as real];
    assert Sum([x as real, i as real]) == x as real + Sum([i as real]);
    assert Sum([i as real]) == i as real + Sum([]);
  }

  /** Two answers of 20 and 30 for one domain and 80 for another: the first
      scores 25 (low) and the second 80 (high). */
  lemma TwoDomainExample()
    ensures var r := [Entry("pip-1", Number(20.0)), Entry("pip-2", Number(30.0)), Entry("luna-1", Number(80.0))];
      DomainScore(r, "pip") == 25.0 && GetLevel(DomainScore(r, "pip")) == Low &&
      DomainScore(r, "luna") == 80.0 && GetLevel(DomainScore(r, "luna")) == High
  {
    var r := [Entry("pip-1", Number(20.0)), Entry("pip-2", Number(30.0)), Entry("luna-1", Number(80.0))];
    assert StartsWith("pip-1", "pip") && StartsWith("pip-2", "pip");
    assert "luna-1"[..3][0] == 'l';
    assert !StartsWith("luna-1", "pip");
    assert "pip-1"[..4][0] == 'p' && "pip-2"[..4][0] == 'p';
    assert !StartsWith("pip-1", "luna") && !StartsWith("pip-2", "luna") && StartsWith("luna-1", "luna");
    assert r[1..] == [Entry("pip-2", Number(30.0)), Entry("luna-1", Number(80.0))];
    assert r[1..][1..] == [Entry("luna-1", Number(80.0))];
    assert r[1..][1..][1..] == [];
    assert Selected(r, "pip") == [20.0, 30.0];
    assert Selected(r, "luna") == [80.0];
  }

  // ---------------------------------------------------------------------
  // Ranking: `[...xs].sort((a, b) => a.score - b.score)`
  // ---------------------------------------------------------------------

  predicate SortedByScore(s: seq<ScoredCompanion>) {
    forall i, j :: 0 <= i < j < |s| ==> s[i].score <= s[j].score
  }

  /** Inserts `x` before the first element that is not lower, which keeps
      equal scores in their original order. */
  function Insert(x: ScoredCompanion, s: seq<ScoredCompanion>): (r: seq<ScoredCompanion>)
    requires SortedByScore(s)
    ensures SortedByScore(r)
    ensures multiset(r) == multiset(s) + multiset{x}
    ensures |r| == |s| + 1
    ensures r[0] == x || (s != [] && r[0] == s[0])
  {
    if s == [] || x.score <= s[0].score then
      [x] + s
    else
      var t := Insert(x, s[1..]);
      assert s == [s[0]] + s[1..];
      [s[0]] + t
  }

  /** The ascending, stable sort by score. */
  function SortByScore(xs: seq<ScoredCompanion>): (r: seq<ScoredCompanion>)
    ensures SortedByScore(r)
    ensures multiset(r) == multiset(xs)
    ensures |r| == |xs|
  {
    if xs == [] then []
    else
      assert xs == [xs[0]] + xs[1..];
      Insert(xs[0], SortByScore(xs[1..]))
  }

  /** The entries scoring exactly `v`, in their order in `s`. */
  function WithScore(s: seq<ScoredCompanion>, v: real): seq<ScoredCompanion> {
    if s == [] then []
    else (if s[0].score == v then [s[0]] else []) + WithScore(s[1..], v)
  }

  /** Inserting `x` puts it ahead of every entry with its score and leaves
      the entries with any other score as they were. */
  lemma {:induction false} InsertWithScore(x: ScoredCompanion, s: seq<ScoredCompanion>, v: real)
    requires SortedByScore(s)
    ensures WithScore(Insert(x, s), v) == (if x.score == v then [x] else []) + WithScore(s, v)
  {
    if s == [] || x.score <= s[0].score {
      WithScoreCons(x, s, v);
    } else {
      InsertPastHead(x, s);
      InsertWithScore(x, s[1..], v);
      WithScorePastHead(x, s[0], Insert(x, s[1..]), s[1..], v);
      assert [s[0]] + s[1..] == s;
    }
  }

  /** Filtering by score past an entry `y` whose score differs from `x`'s. */
  lemma WithScorePastHead(x: ScoredCompanion, y: ScoredCompanion, t: seq<ScoredCompanion>,
                          rest: seq<ScoredCompanion>, v: real)
    requires x.score != y.score
    requires WithScore(t, v) == (if x.score == v then [x] else []) + WithScore(rest, v)
    ensures WithScore([y] + t, v) == (if x.score == v then [x] else []) + WithScore([y] + rest, v)
  {
    WithScoreCons(y, t, v);
    WithScoreCons(y, rest, v);
    if x.score == v {
      assert WithScore([y] + t, v) == WithScore(t, v) == [x] + WithScore(rest, v);
    }
  }

  /** An entry scoring above the head is inserted into the tail. */
  lemma InsertPastHead(x: ScoredCompanion, s: seq<ScoredCompanion>)
    requires SortedByScore(s) && s != [] && x.score > s[0].score
    ensures SortedByScore(s[1..]) && Insert(x, s) == [s[0]] + Insert(x, s[1..])
  {
  }

  lemma WithScoreCons(y: ScoredCompanion, t: seq<ScoredCompanion>, v: real)
    ensures WithScore([y] + t, v) == (if y.score == v then [y] else []) + WithScore(t, v)
  {
    assert ([y] + t)[1..] == t;
  }

  /** The sort is stable, as JavaScript's `Array.prototype.sort` is: the
      entries of each score keep their input order. With sortedness this
      fixes the result, and so decides which companions win ties. */
  lemma {:induction false} SortByScoreIsStable(xs: seq<ScoredCompanion>, v: real)
    ensures WithScore(SortByScore(xs), v) == WithScore(xs, v)
  {
    if xs != [] {
      SortByScoreIsStable(xs[1..], v);
      InsertWithScore(xs[0], SortByScore(xs[1..]), v);
    }
  }

  /** When every entry has the same score the sort changes nothing. */
  lemma {:induction false} AllTiedKeepsOrder(xs: seq<ScoredCompanion>)
    requires forall i :: 0 <= i < |xs| ==> xs[i].score == xs[0].score
    ensures SortByScore(xs) == xs
  {
    if xs != [] {
      AllTiedKeepsOrder(xs[1..]);
      assert xs == [xs[0]] + xs[1..];
    }
  }

  function Min(a: nat, b: nat): nat {
    if a < b then a else b
  }

  /** The `k` lowest-scored entries, ascending (`sorted.slice(0, k)`). */
  function Lowest(xs: seq<ScoredCompanion>, k: nat): seq<ScoredCompanion> {
    SortByScore(xs)[..Min(k, |xs|)]
  }

  /** The rest after the `k` lowest (`sorted.slice(k)`). */
  function AfterLowest(xs: seq<ScoredCompanion>, k: nat): seq<ScoredCompanion> {
    SortByScore(xs)[Min(k, |xs|)..]
  }

  /** Splitting the sorted list at `k`: the two parts concatenate to the
      sorted list, the first has min(k, n) elements in ascending order, every
      chosen score is at most every remaining score, and together they hold
      exactly the input. */
  lemma LowestSplit(xs: seq<ScoredCompanion>, k: nat)
    ensures Lowest(xs, k) + AfterLowest(xs, k) == SortByScore(xs)
    ensures |Lowest(xs, k)| == Min(k, |xs|)
    ensures SortedByScore(Lowest(xs, k))
    ensures forall i, j :: 0 <= i < |Lowest(xs, k)| && 0 <= j < |AfterLowest(xs, k)| ==>
      Lowest(xs, k)[i].score <= AfterLowest(xs, k)[j].score
    ensures multiset(Lowest(xs, k)) + multiset(AfterLowest(xs, k)) == multiset(xs)
  {
    SortedSplit(SortByScore(xs), Min(k, |xs|));
  }

  /** A sorted list cut in two: both parts are sorted, the first scores no
      higher than the second, and the parts hold exactly the list. */
  lemma SortedSplit(s: seq<ScoredCompanion>, m: nat)
    requires SortedByScore(s) && m <= |s|
    ensures s[..m] + s[m..] == s
    ensures SortedByScore(s[..m])
    ensures forall i, j :: 0 <= i < m && 0 <= j < |s| - m ==> s[..m][i].score <= s[m..][j].score
    ensures multiset(s[..m]) + multiset(s[m..]) == multiset(s)
  {
    var lo, hi := s[..m], s[m..];
    assert lo + hi == s;
    forall i, j | 0 <= i < j < |lo| ensures lo[i].score <= lo[j].score {
      assert lo[i] == s[i] && lo[j] == s[j];
    }
    forall i, j | 0 <= i < |lo| && 0 <= j < |hi| ensures lo[i].score <= hi[j].score {
      assert lo[i] == s[i] && hi[j] == s[m + j];
    }
    assert multiset(lo + hi) == multiset(lo) + multiset(hi);
  }

  // ---------------------------------------------------------------------
  // The unguarded average of the dashboard, micro-quest and blood-layer
  // screens: `answers.reduce((sum, val) => sum + val, 0) / answers.length`
  // ---------------------------------------------------------------------

  /** The raw answers whose key starts with `id`. */
  function RawSelected(r: Responses, id: string): seq<Answer> {
    if r == [] then []
    else if StartsWith(r[0].key, id) then [r[0].value] + RawSelected(r[1..], id)
    else RawSelected(r[1..], id)
  }

  /** The unguarded average is a number only when the domain has at least one
      answer and all of its answers are numbers. */
  predicate NumericFor(r: Responses, id: string) {
    var a := RawSelected(r, id);
    |a| > 0 && forall i :: 0 <= i < |a| ==> a[i].Number?
  }

  function SumNumbers(a: seq<Answer>): real
    requires forall i :: 0 <= i < |a| ==> a[i].Number?
  {
    if a == [] then 0.0 else a[0].value + SumNumbers(a[1..])
  }

  function UnguardedScore(r: Responses, id: string): real
    requires NumericFor(r, id)
  {
    var a := RawSelected(r, id);
    SumNumbers(a) / |a| as real
  }

  lemma {:induction false} RawSelectedAgrees(r: Responses, id: string)
    requires forall i :: 0 <= i < |RawSelected(r, id)| ==> RawSelected(r, id)[i].Number?
    ensures |Selected(r, id)| == |RawSelected(r, id)|
    ensures Sum(Selected(r, id)) == SumNumbers(RawSelected(r, id))
  {
    if r != [] {
      var a := RawSelected(r, id);
      var b := RawSelected(r[1..], id);
      if StartsWith(r[0].key, id) {
        assert b == a[1..];
        forall i | 0 <= i < |b| ensures b[i].Number? {
          assert b[i] == a[i + 1];
        }
      }
      RawSelectedAgrees(r[1..], id);
    }
  }

  /** Wherever the unguarded average is defined it equals the guarded score
      of the check-in flow. */
  lemma UnguardedAgreesWithGuarded(r: Responses, id: string)
    requires NumericFor(r, id)
    ensures UnguardedScore(r, id) == DomainScore(r, id)
  {
    RawSelectedAgrees(r, id);
  }

  /** Every companion has an unguarded average. */
  predicate AllNumeric(r: Responses) {
    forall i :: 0 <= i < |CompanionOrder| ==> NumericFor(r, CompanionOrder[i])
  }

  /** No companion has a single answer, as with the empty `responses` that a
      restored session or a return to the map starts from. */
  predicate NoAnswers(r: Responses) {
    forall i :: 0 <= i < |CompanionOrder| ==> RawSelected(r, CompanionOrder[i]) == []
  }

  /** Empty responses have no answers. */
  lemma EmptyResponsesHaveNoAnswers()
    ensures NoAnswers([])
  {
  }

  /** An unguarded average `sum / length`: a number, or NaN for `0 / 0`. */
  datatype Average = Num(value: real) | NaN

  /** A companion as the dashboard, the quest picker and the card deck rank
      it: its unguarded average and the dashboard's band for it. */
  datatype RankedCompanion = RankedCompanion(id: string, average: Average, level: Level)

  /** The dashboard's own `getLevel` on an average: NaN fails both `<` tests
      and falls through to the high band. */
  function AverageLevel(a: Average): (l: Level)
    ensures l == Low <==> a.Num? && a.value < 35.0
    ensures l == Medium <==> a.Num? && 35.0 <= a.value < 65.0
    ensures l == High <==> a.NaN? || 65.0 <= a.value
  {
    if a.NaN? then High else GetLevel(a.value)
  }

  /** The unguarded average of one companion; where it is a number it is the
      check-in flow's guarded score. */
  function UnguardedAverage(r: Responses, id: string): (a: Average)
    requires NumericFor(r, id) || RawSelected(r, id) == []
    ensures a.NaN? <==> RawSelected(r, id) == []
    ensures a.Num? ==> a.value == DomainScore(r, id)
  {
    if RawSelected(r, id) == [] then NaN
    else
      UnguardedAgreesWithGuarded(r, id);
      Num(UnguardedScore(r, id))
  }

  /** The ranked entry of a guarded score. */
  function AsRanked(c: ScoredCompanion): RankedCompanion {
    RankedCompanion(c.id, Num(c.score), c.level)
  }

  /** `AsRanked` over a list. */
  function Ranked(s: seq<ScoredCompanion>): seq<RankedCompanion> {
    seq(|s|, i requires 0 <= i < |s| => AsRanked(s[i]))
  }

  lemma RankedSplit(s: seq<ScoredCompanion>, k: nat)
    requires k <= |s|
    ensures Ranked(s)[..k] == Ranked(s[..k]) && Ranked(s)[k..] == Ranked(s[k..])
  {
  }

  /** `companions.map(...)` with the unguarded averages, in catalog order. */
  function Averages(r: Responses): (t: seq<RankedCompanion>)
    requires AllNumeric(r) || NoAnswers(r)
    ensures |t| == |CompanionOrder|
    ensures AllNumeric(r) ==> t == Ranked(ScoreCompanions(r))
    ensures NoAnswers(r) ==> forall i :: 0 <= i < |t| ==>
      t[i].id == CompanionOrder[i] && t[i].average == NaN
  {
    var t := seq(|CompanionOrder|, i requires 0 <= i < |CompanionOrder| =>
      var a := UnguardedAverage(r, CompanionOrder[i]);
      RankedCompanion(CompanionOrder[i], a, AverageLevel(a)));
    assert AllNumeric(r) ==> t == Ranked(ScoreCompanions(r));
    t
  }

  /** The comparator `(a, b) => a.score - b.score` does not put `b` first: its
      value is not positive, and a NaN value counts as 0. */
  predicate NotAfter(a: Average, b: Average) {
    a.NaN? || b.NaN? || a.value <= b.value
  }

  predicate SortedByAverage(t: seq<RankedCompanion>) {
    forall i, j :: 0 <= i < j < |t| ==> NotAfter(t[i].average, t[j].average)
  }

  /** Inserts `x` before the first element the comparator does not put
      before it, which keeps ties in their original order. */
  function InsertByAverage(x: RankedCompanion, s: seq<RankedCompanion>): (r: seq<RankedCompanion>)
    ensures |r| == |s| + 1
    ensures multiset(r) == multiset(s) + multiset{x}
  {
    if s == [] || NotAfter(x.average, s[0].average) then [x] + s
    else
      assert s == [s[0]] + s[1..];
      [s[0]] + InsertByAverage(x, s[1..])
  }

  /** The stable `sort` with the comparator `a.score - b.score`. */
  function SortByAverage(xs: seq<RankedCompanion>): (r: seq<RankedCompanion>)
    ensures |r| == |xs|
    ensures multiset(r) == multiset(xs)
  {
    if xs == [] then []
    else
      assert xs == [xs[0]] + xs[1..];
      InsertByAverage(xs[0], SortByAverage(xs[1..]))
  }

  lemma RankedCons(y: ScoredCompanion, t: seq<ScoredCompanion>)
    ensures Ranked([y] + t) == [AsRanked(y)] + Ranked(t)
  {
    assert Ranked([y] + t) == [AsRanked(y)] + Ranked(t);
  }

  lemma {:induction false} InsertOfRanked(x: ScoredCompanion, s: seq<ScoredCompanion>)
    requires SortedByScore(s)
    ensures InsertByAverage(AsRanked(x), Ranked(s)) == Ranked(Insert(x, s))
  {
    if s == [] || x.score <= s[0].score {
      RankedCons(x, s);
    } else {
      var u := Ranked(s);
      assert u[0] == AsRanked(s[0]) && u[1..] == Ranked(s[1..]);
      InsertPastHead(x, s);
      InsertOfRanked(x, s[1..]);
      RankedCons(s[0], Insert(x, s[1..]));
      assert InsertByAverage(AsRanked(x), u) == [u[0]] + InsertByAverage(AsRanked(x), u[1..]);
    }
  }

  /** On numbers the comparator sort is the check-in flow's sort. */
  lemma {:induction false} SortByAverageOfRanked(xs: seq<ScoredCompanion>)
    ensures SortByAverage(Ranked(xs)) == Ranked(SortByScore(xs))
  {
    if xs != [] {
      assert Ranked(xs)[1..] == Ranked(xs[1..]);
      SortByAverageOfRanked(xs[1..]);
      InsertOfRanked(xs[0], SortByScore(xs[1..]));
    }
  }

  /** When every average is NaN every comparison ties, and the stable sort
      keeps the input order. */
  lemma {:induction false} AllNaNKeepsOrder(xs: seq<RankedCompanion>)
    requires forall i :: 0 <= i < |xs| ==> xs[i].average == NaN
    ensures SortByAverage(xs) == xs
  {
    if xs != [] {
      AllNaNKeepsOrder(xs[1..]);
      assert xs == [xs[0]] + xs[1..];
    }
  }

  lemma RankedIsSorted(s: seq<ScoredCompanion>)
    requires SortedByScore(s)
    ensures SortedByAverage(Ranked(s))
  {
  }

  /** `[...scores].sort((a, b) => a.score - b.score)` on the unguarded
      averages. With an answer for every companion it is the check-in flow's
      ranking; with no answers at all it is the catalog order. */
  function RankByAverage(r: Responses): (t: seq<RankedCompanion>)
    requires AllNumeric(r) || NoAnswers(r)
    ensures |t| == |CompanionOrder|
    ensures multiset(t) == multiset(Averages(r))
    ensures SortedByAverage(t)
    ensures AllNumeric(r) ==> t == Ranked(SortByScore(ScoreCompanions(r)))
    ensures NoAnswers(r) ==> t == Averages(r)
  {
    if AllNumeric(r) then
      assert !NoAnswers(r) by { assert NumericFor(r, CompanionOrder[0]); }
      SortByAverageOfRanked(ScoreCompanions(r));
      RankedIsSorted(SortByScore(ScoreCompanions(r)));
      SortByAverage(Averages(r))
    else
      AllNaNKeepsOrder(Averages(r));
      SortByAverage(Averages(r))
  }
}
