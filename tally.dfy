/** Scoring of a submitted assessment (assessments/views.py): the four-letter personality
    code from the weighted answers, and the most frequent answer values. Answers arrive in
    the order of the submitted answer dictionary. */
module AssessmentTally {
  import opened Ranking

  /** One stored answer: the scoring value of the chosen option and its weight. */
  datatype Answer = Answer(value: string, weight: real)

  /** The keys of the tally dictionary. */
  const Letters: set<string> := {"E", "I", "S", "N", "T", "F", "J", "P"}

  /** The four letter pairs, in the order the code is built; the first letter wins only
      with a strictly larger tally. */
  const Dichotomies: seq<(string, string)> := [("E", "I"), ("S", "N"), ("T", "F"), ("J", "P")]

  // ---------------------------------------------------------------- personality code

  /** The weights of the first `k` answers whose value is `letter`, added up. */
  function TallyUpTo(answers: seq<Answer>, letter: string, k: nat): real
    requires k <= |answers|
  {
    if k == 0 then 0.0
    else
      TallyUpTo(answers, letter, k - 1)
      + (if answers[k - 1].value == letter then answers[k - 1].weight else 0.0)
  }

  function Tally(answers: seq<Answer>, letter: string): real {
    TallyUpTo(answers, letter, |answers|)
  }

  /** One letter of the code: `first if traits[first] > traits[second] else second`. */
  function Dichotomy(answers: seq<Answer>, pair: (string, string)): (letter: string)
    ensures letter == pair.0 || letter == pair.1
  {
    if Tally(answers, pair.0) > Tally(answers, pair.1) then pair.0 else pair.1
  }

  /** The personality code the assessment yields. */
  function PersonalityCode(answers: seq<Answer>): (code: string)
    ensures |code| == 4
    ensures forall i :: 0 <= i < 4 ==> [code[i]] == Dichotomy(answers, Dichotomies[i])
  {
    var code := Dichotomy(answers, Dichotomies[0]) + Dichotomy(answers, Dichotomies[1])
      + Dichotomy(answers, Dichotomies[2]) + Dichotomy(answers, Dichotomies[3]);
    assert [code[0]] == Dichotomy(answers, Dichotomies[0]);
    assert [code[1]] == Dichotomy(answers, Dichotomies[1]);
    assert [code[2]] == Dichotomy(answers, Dichotomies[2]);
    assert [code[3]] == Dichotomy(answers, Dichotomies[3]);
    code
  }

  /** `calculate_personality_type`: every answer whose value is one of the eight letters
      adds its weight to that letter's tally; each position of the code then takes the
      pair's first letter if its tally is strictly larger, and the second otherwise. */
  method CalculatePersonalityType(answers: seq<Answer>) returns (personality: string)
    ensures personality == PersonalityCode(answers)
  {
    var traits: map<string, real> := map[
      "E" := 0.0, "I" := 0.0, "S" := 0.0, "N" := 0.0,
      "T" := 0.0, "F" := 0.0, "J" := 0.0, "P" := 0.0];
    for k := 0 to |answers|
      invariant traits.Keys == Letters
      invariant forall l :: l in traits ==> traits[l] == TallyUpTo(answers, l, k)
    {
      var value := answers[k].value;
      var weight := answers[k].weight;
      if value in traits {
        traits := traits[value := traits[value] + weight];
      }
    }
    personality := "";
    var letter := if traits["E"] > traits["I"] then "E" else "I";
    assert letter == Dichotomy(answers, Dichotomies[0]);
    personality := personality + letter;
    assert personality == Dichotomy(answers, Dichotomies[0]);
    letter := if traits["S"] > traits["N"] then "S" else "N";
    assert letter == Dichotomy(answers, Dichotomies[1]);
    personality := personality + letter;
    letter := if traits["T"] > traits["F"] then "T" else "F";
    assert letter == Dichotomy(answers, Dichotomies[2]);
    personality := personality + letter;
    letter := if traits["J"] > traits["P"] then "J" else "P";
    assert letter == Dichotomy(answers, Dichotomies[3]);
    personality := personality + letter;
  }

  /** Each letter of the code is the first of its pair exactly when that letter's tally is
      strictly larger; a tie gives the second letter. */
  lemma StrictMajority(answers: seq<Answer>, i: nat)
    requires i < 4
    ensures var code := PersonalityCode(answers);
      var pair := Dichotomies[i];
      && ([code[i]] == pair.0 <==> Tally(answers, pair.0) > Tally(answers, pair.1))
      && ([code[i]] == pair.1 <==> Tally(answers, pair.0) <= Tally(answers, pair.1))
  {
  }

  /** With no answers every tally is 0 and every tie goes to the second letter. */
  lemma NoAnswersGiveINFP()
    ensures PersonalityCode([]) == "INFP"
  {
  }

  lemma {:induction false} TallyUpToAppend(answers: seq<Answer>, a: Answer, letter: string, k: nat)
    requires k <= |answers|
    ensures TallyUpTo(answers + [a], letter, k) == TallyUpTo(answers, letter, k)
  {
    if k > 0 {
      TallyUpToAppend(answers, a, letter, k - 1);
    }
  }

  /** One more answer changes only its own value's tally, by its weight. */
  lemma TallyAppend(answers: seq<Answer>, a: Answer, letter: string)
    ensures Tally(answers + [a], letter)
         == Tally(answers, letter) + (if a.value == letter then a.weight else 0.0)
  {
    TallyUpToAppend(answers, a, letter, |answers|);
  }

  /** An answer whose value is none of the eight letters leaves the code as it was. */
  lemma NonLetterIgnored(answers: seq<Answer>, a: Answer)
    requires a.value !in Letters
    ensures PersonalityCode(answers + [a]) == PersonalityCode(answers)
  {
    forall l | l in Letters ensures Tally(answers + [a], l) == Tally(answers, l) {
      TallyAppend(answers, a, l);
    }
  }

  /** An answer with a non-negative weight for a letter the code already shows keeps
      that letter in the code. */
  lemma SupportKeepsLetter(answers: seq<Answer>, a: Answer, i: nat)
    requires i < 4
    requires [PersonalityCode(answers)[i]] == a.value && a.weight >= 0.0
    ensures PersonalityCode(answers + [a])[i] == PersonalityCode(answers)[i]
  {
    var pair := Dichotomies[i];
    TallyAppend(answers, a, pair.0);
    TallyAppend(answers, a, pair.1);
  }

  /** The weights of the first `k` answers whose value is one of the eight letters. */
  function LetterWeightUpTo(answers: seq<Answer>, k: nat): real
    requires k <= |answers|
  {
    if k == 0 then 0.0
    else
      LetterWeightUpTo(answers, k - 1)
      + (if answers[k - 1].value in Letters then answers[k - 1].weight else 0.0)
  }

  function TalliesSumUpTo(answers: seq<Answer>, k: nat): real
    requires k <= |answers|
  {
    TallyUpTo(answers, "E", k) + TallyUpTo(answers, "I", k)
    + TallyUpTo(answers, "S", k) + TallyUpTo(answers, "N", k)
    + TallyUpTo(answers, "T", k) + TallyUpTo(answers, "F", k)
    + TallyUpTo(answers, "J", k) + TallyUpTo(answers, "P", k)
  }

  /** Each answer with a letter value adds its weight to exactly one tally: the eight
      tallies together hold exactly the weights of those answers. */
  lemma {:induction false} TalliesHoldLetterWeights(answers: seq<Answer>, k: nat)
    requires k <= |answers|
    ensures TalliesSumUpTo(answers, k) == LetterWeightUpTo(answers, k)
  {
    if k > 0 {
      TalliesHoldLetterWeights(answers, k - 1);
    }
  }

  // ---------------------------------------------------------------- dominant traits

  /** How many of the first `k` answers have value `v`. */
  function CountUpTo(answers: seq<Answer>, v: string, k: nat): (n: nat)
    requires k <= |answers|
    ensures n <= k
  {
    if k == 0 then 0
    else CountUpTo(answers, v, k - 1) + (if answers[k - 1].value == v then 1 else 0)
  }

  /** The keys of the counting dictionary after `k` answers: each distinct value, in the
      order it first appeared. */
  function FirstSeen(answers: seq<Answer>, k: nat): (keys: seq<string>)
    requires k <= |answers|
  {
    if k == 0 then []
    else
      var prev := FirstSeen(answers, k - 1);
      if answers[k - 1].value in prev then prev else prev + [answers[k - 1].value]
  }

  /** `trait_count.items()` after `k` answers, for the keys `keys`. */
  function ItemsAt(answers: seq<Answer>, keys: seq<string>, k: nat): (items: seq<(string, nat)>)
    requires k <= |answers|
    ensures |items| == |keys|
  {
    seq(|keys|, i requires 0 <= i < |keys| => (keys[i], CountUpTo(answers, keys[i], k)))
  }

  function Items(answers: seq<Answer>): seq<(string, nat)> {
    ItemsAt(answers, FirstSeen(answers, |answers|), |answers|)
  }

  function CountKey(item: (string, nat)): real {
    item.1 as real
  }

  /** `sorted(trait_count.items(), key=count, reverse=True)[:5]` */
  function DominantTraits(answers: seq<Answer>): (top: seq<(string, nat)>)
    ensures |top| <= 5
  {
    Take(SortDesc(Items(answers), CountKey), 5)
  }

  /** `get_dominant_traits`: counts each answer value in a dictionary that remembers the
      order its keys were added in, then returns the five most frequent (value, count)
      pairs, most frequent first, earlier-seen values first among equal counts. */
  method GetDominantTraits(answers: seq<Answer>) returns (top: seq<(string, nat)>)
    ensures top == DominantTraits(answers)
  {
    var order: seq<string> := [];
    var traitCount: map<string, nat> := map[];
    for k := 0 to |answers|
      invariant order == FirstSeen(answers, k)
      invariant forall v :: v in traitCount <==> v in order
      invariant forall v :: CountUpTo(answers, v, k) == (if v in traitCount then traitCount[v] else 0)
    {
      var value := answers[k].value;
      if value !in traitCount {
        order := order + [value];
      }
      traitCount := traitCount[value := (if value in traitCount then traitCount[value] else 0) + 1];
    }
    var items := seq(|order|, i requires 0 <= i < |order| => (order[i], traitCount[order[i]]));
    assert items == Items(answers);
    top := Take(SortDesc(items, CountKey), 5);
  }

  /** A value is a key after `k` answers exactly when it has been counted at least once. */
  lemma {:induction false} SeenIffCounted(answers: seq<Answer>, v: string, k: nat)
    requires k <= |answers|
    ensures v in FirstSeen(answers, k) <==> CountUpTo(answers, v, k) > 0
  {
    if k > 0 {
      SeenIffCounted(answers, v, k - 1);
    }
  }

  ghost predicate Distinct<T>(s: seq<T>) {
    forall i, j :: 0 <= i < j < |s| ==> s[i] != s[j]
  }

  /** The keys are distinct. */
  lemma {:induction false} FirstSeenDistinct(answers: seq<Answer>, k: nat)
    requires k <= |answers|
    ensures Distinct(FirstSeen(answers, k))
  {
    if k > 0 {
      FirstSeenDistinct(answers, k - 1);
      var prev := FirstSeen(answers, k - 1);
      var keys := FirstSeen(answers, k);
      forall i, j | 0 <= i < j < |keys| ensures keys[i] != keys[j] {
        if j < |prev| {
          assert keys[i] == prev[i] && keys[j] == prev[j];
        } else {
          assert keys[i] == prev[i] && prev[i] in prev;
        }
      }
    }
  }

  /** The counts of a list of (value, count) pairs, added up. */
  function SumCounts(items: seq<(string, nat)>): nat {
    if items == [] then 0 else items[0].1 + SumCounts(items[1..])
  }

  lemma {:induction false} SumCountsAppend(items: seq<(string, nat)>, x: (string, nat))
    ensures SumCounts(items + [x]) == SumCounts(items) + x.1
  {
    if items != [] {
      assert (items + [x])[1..] == items[1..] + [x];
      SumCountsAppend(items[1..], x);
    }
  }

  /** Counting one more answer raises the total over distinct keys by one if its value
      is among them, and leaves it otherwise. */
  lemma {:induction false} SumCountsStep(answers: seq<Answer>, keys: seq<string>, k: nat)
    requires k < |answers|
    requires Distinct(keys)
    ensures SumCounts(ItemsAt(answers, keys, k + 1))
         == SumCounts(ItemsAt(answers, keys, k)) + (if answers[k].value in keys then 1 else 0)
  {
    if keys != [] {
      assert ItemsAt(answers, keys, k + 1)[1..] == ItemsAt(answers, keys[1..], k + 1);
      assert ItemsAt(answers, keys, k)[1..] == ItemsAt(answers, keys[1..], k);
      SumCountsStep(answers, keys[1..], k);
      assert answers[k].value in keys <==> answers[k].value == keys[0] || answers[k].value in keys[1..] by {
        assert keys == [keys[0]] + keys[1..];
      }
    }
  }

  /** Every answer is counted under exactly one key. */
  lemma {:induction false} CountsAddUp(answers: seq<Answer>, k: nat)
    requires k <= |answers|
    ensures SumCounts(ItemsAt(answers, FirstSeen(answers, k), k)) == k
  {
    if k > 0 {
      var prev := FirstSeen(answers, k - 1);
      var v := answers[k - 1].value;
      CountsAddUp(answers, k - 1);
      FirstSeenDistinct(answers, k - 1);
      SumCountsStep(answers, prev, k - 1);
      if v !in prev {
        SeenIffCounted(answers, v, k - 1);
        assert ItemsAt(answers, prev + [v], k)
            == ItemsAt(answers, prev, k) + [(v, CountUpTo(answers, v, k))];
        SumCountsAppend(ItemsAt(answers, prev, k), (v, CountUpTo(answers, v, k)));
      }
    }
  }

  lemma {:induction false} SumCountsInsert(x: (string, nat), t: seq<(string, nat)>)
    ensures SumCounts(InsertDesc(x, t, CountKey)) == x.1 + SumCounts(t)
  {
    if !(t == [] || CountKey(x) >= CountKey(t[0])) {
      SumCountsInsert(x, t[1..]);
      assert ([t[0]] + InsertDesc(x, t[1..], CountKey))[1..] == InsertDesc(x, t[1..], CountKey);
    } else {
      assert ([x] + t)[1..] == t;
    }
  }

  lemma {:induction false} SumCountsSort(s: seq<(string, nat)>)
    ensures SumCounts(SortDesc(s, CountKey)) == SumCounts(s)
  {
    if s != [] {
      SumCountsSort(s[1..]);
      SumCountsInsert(s[0], SortDesc(s[1..], CountKey));
    }
  }

  lemma {:induction false} SumCountsPrefix(a: seq<(string, nat)>, b: seq<(string, nat)>)
    requires a <= b
    ensures SumCounts(a) <= SumCounts(b)
  {
    if a != [] {
      assert a[1..] <= b[1..];
      SumCountsPrefix(a[1..], b[1..]);
    } else if b != [] {
      SumCountsPrefix([], b[1..]);
    }
  }

  /** The dictionary's items: one pair per distinct value, distinct values, each paired
      with its number of occurrences, which is at least one; and every answer value
      appears among them. */
  lemma ItemsFacts(answers: seq<Answer>)
    ensures var items := Items(answers);
      && (forall i, j :: 0 <= i < j < |items| ==> items[i].0 != items[j].0)
      && (forall p :: p in items ==> p.1 == CountUpTo(answers, p.0, |answers|) >= 1)
      && (forall a :: a in answers ==> exists p :: p in items && p.0 == a.value)
      && SumCounts(items) == |answers|
  {
    var keys := FirstSeen(answers, |answers|);
    var items := Items(answers);
    FirstSeenDistinct(answers, |answers|);
    CountsAddUp(answers, |answers|);
    forall p | p in items ensures p.1 == CountUpTo(answers, p.0, |answers|) >= 1 {
      var i :| 0 <= i < |items| && items[i] == p;
      SeenIffCounted(answers, keys[i], |answers|);
    }
    forall a | a in answers ensures exists p :: p in items && p.0 == a.value {
      var k :| 0 <= k < |answers| && answers[k] == a;
      CountIncludes(answers, a.value, k);
      SeenIffCounted(answers, a.value, |answers|);
      var i :| 0 <= i < |keys| && keys[i] == a.value;
      assert items[i] in items;
    }
  }

  lemma {:induction false} CountIncludes(answers: seq<Answer>, v: string, k: nat)
    requires k < |answers| && answers[k].value == v
    ensures CountUpTo(answers, v, |answers|) > 0
  {
    CountMonotone(answers, v, k + 1, |answers|);
  }

  lemma {:induction false} CountMonotone(answers: seq<Answer>, v: string, j: nat, k: nat)
    requires j <= k <= |answers|
    ensures CountUpTo(answers, v, j) <= CountUpTo(answers, v, k)
    decreases k - j
  {
    if j < k {
      CountMonotone(answers, v, j, k - 1);
    }
  }

  /** At most five pairs, most frequent first, each with its value's true count (at least
      one), taken from the dictionary without repetition, earlier-seen values first among
      equal counts, and no value left out more frequent than one kept; their counts add up to at most the number of answers, and with at
      most five distinct values every value is there once and the counts add up to the
      number of answers. */
  lemma DominantTraitsFacts(answers: seq<Answer>)
    ensures var top := DominantTraits(answers);
      var items := Items(answers);
      && SortedDesc(top, CountKey)
      && |top| == (if |items| <= 5 then |items| else 5)
      && multiset(top) <= multiset(items)
      && (forall p :: p in top ==> p.1 == CountUpTo(answers, p.0, |answers|) >= 1)
      && (forall k :: KeyFilter(top, CountKey, k) <= KeyFilter(items, CountKey, k))
      && (forall x, y :: x in top && y in multiset(items) - multiset(top) ==> CountKey(y) <= CountKey(x))
      && SumCounts(top) <= |answers|
      && (|items| <= 5 ==> multiset(top) == multiset(items) && SumCounts(top) == |answers|)
  {
    var items := Items(answers);
    var sorted := SortDesc(items, CountKey);
    var top := DominantTraits(answers);
    ItemsFacts(answers);
    RankedTake(items, CountKey, 5);
    forall p | p in top ensures p.1 == CountUpTo(answers, p.0, |answers|) >= 1 {
      assert p in multiset(items);
    }
    SumCountsSort(items);
    SumCountsPrefix(top, sorted);
    if |items| <= 5 {
      assert top == sorted;
    }
  }
}
