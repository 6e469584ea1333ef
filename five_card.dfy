/** Scoring exactly five cards: `evaluate_five_card_hand` and
    `is_straight_hand` of src/poker_rules.rs. */
module FiveCard {
  import opened Common
  import opened Cards
  import opened RankSort
  import opened HandOrder

  /** `rank as u8` of every card, in order. */
  function RankValues(cards: seq<Card>): (r: seq<nat>)
    ensures |r| == |cards|
    ensures forall v :: v in r ==> 2 <= v <= 14
  {
    if cards == [] then [] else [cards[0].rank.Value()] + RankValues(cards[1..])
  }

  lemma {:induction false} RankValuesAppend(a: seq<Card>, b: seq<Card>)
    ensures RankValues(a + b) == RankValues(a) + RankValues(b)
  {
    if a == [] {
      assert a + b == b;
    } else {
      assert (a + b)[0] == a[0] && (a + b)[1..] == a[1..] + b;
      RankValuesAppend(a[1..], b);
    }
  }

  /** Rearranging the cards rearranges their rank values. */
  lemma {:induction false} RankValuesPermutation(c1: seq<Card>, c2: seq<Card>)
    requires multiset(c1) == multiset(c2)
    ensures multiset(RankValues(c1)) == multiset(RankValues(c2))
    decreases |c1|
  {
    if c1 == [] {
      assert |c2| == |multiset(c2)| == 0;
    } else {
      var x := c1[0];
      assert x in multiset(c2);
      var k :| 0 <= k < |c2| && c2[k] == x;
      var rest := c2[..k] + c2[k + 1..];
      RemoveMatching(c1, c2, k);
      RankValuesPermutation(c1[1..], rest);
      RankValuesAppend(c2[..k], [x]);
      RankValuesAppend(c2[..k] + [x], c2[k + 1..]);
      RankValuesAppend(c2[..k], c2[k + 1..]);
      assert RankValues([x]) == [x.rank.Value()];
    }
  }

  /** Every card has the suit of the first (`suits.iter().all(|&s| s == suits[0])`). */
  predicate IsFlush(cards: seq<Card>)
  {
    forall i :: 0 <= i < |cards| ==> cards[i].suit == cards[0].suit
  }

  lemma IsFlushPermutation(c1: seq<Card>, c2: seq<Card>)
    requires multiset(c1) == multiset(c2)
    ensures IsFlush(c1) <==> IsFlush(c2)
  {
    assert |c1| == |multiset(c1)| == |multiset(c2)| == |c2|;
    if c1 != [] {
      assert c1[0] in multiset(c2) && c2[0] in multiset(c1);
      if IsFlush(c1) {
        forall i | 0 <= i < |c2| ensures c2[i].suit == c2[0].suit {
          assert c2[i] in multiset(c1);
        }
      }
      if IsFlush(c2) {
        forall i | 0 <= i < |c1| ensures c1[i].suit == c1[0].suit {
          assert c1[i] in multiset(c2);
        }
      }
    }
  }

  /** The wheel, as ranked by `is_straight_hand`. */
  const Wheel: seq<nat> := [14, 5, 4, 3, 2]

  /** The loop of `is_straight_hand` from step `i` on: the first step that
      is not exactly one decides by comparing the whole list to the wheel. */
  function StraightFrom(ranks: seq<nat>, i: nat): bool
    requires |ranks| == 5 && i <= 4
    decreases 4 - i
  {
    if i == 4 then true
    else if ranks[i] as int - ranks[i + 1] as int != 1 then ranks == Wheel
    else StraightFrom(ranks, i + 1)
  }

  /** `is_straight_hand`. The source subtracts `u8`s; it is only ever given
      descending lists, on which that subtraction cannot wrap. */
  function IsStraightHand(ranks: seq<nat>): bool
  {
    |ranks| == 5 && StraightFrom(ranks, 0)
  }

  /** Consecutive values stepping down by one. */
  predicate Consecutive(ranks: seq<nat>)
  {
    forall i :: 0 <= i < |ranks| - 1 ==> ranks[i] == ranks[i + 1] + 1
  }

  lemma {:induction false} StraightFromIff(ranks: seq<nat>, i: nat)
    requires |ranks| == 5 && i <= 4
    ensures StraightFrom(ranks, i) <==>
      (forall j :: i <= j < 4 ==> ranks[j] == ranks[j + 1] + 1) || ranks == Wheel
    decreases 4 - i
  {
    if i < 4 && ranks[i] as int - ranks[i + 1] as int == 1 {
      StraightFromIff(ranks, i + 1);
    }
  }

  /** `is_straight_hand` holds exactly for five values stepping down by one,
      and for the wheel A-5-4-3-2. */
  lemma IsStraightIff(ranks: seq<nat>)
    ensures IsStraightHand(ranks) <==> |ranks| == 5 && (Consecutive(ranks) || ranks == Wheel)
  {
    if |ranks| == 5 {
      StraightFromIff(ranks, 0);
    }
  }

  /** A straight never repeats a rank value. */
  lemma StraightDistinct(ranks: seq<nat>)
    requires IsStraightHand(ranks)
    ensures forall x :: multiset(ranks)[x] <= 1
  {
    IsStraightIff(ranks);
    if Consecutive(ranks) {
      assert forall i, j :: 0 <= i < j < 5 ==> ranks[i] >= ranks[j] + (j - i) by {
        forall i, j | 0 <= i < j < 5 ensures ranks[i] >= ranks[j] + (j - i) {
          var m := i;
          while m < j
            invariant i <= m <= j
            invariant ranks[i] == ranks[m] + (m - i)
          {
            m := m + 1;
          }
        }
      }
    }
    assert Distinct(ranks);
    DistinctIffSingletons(ranks);
  }

  /** One entry of `count_groups`: how often a rank value occurs. */
  datatype Group = Group(count: nat, rank: nat)

  /** The sort order of `count_groups`: larger count first, then higher rank. */
  predicate Before(a: Group, b: Group)
  {
    a.count > b.count || (a.count == b.count && a.rank > b.rank)
  }

  /** Strictly in `Before` order (so no group occurs twice). */
  predicate GroupsSorted(g: seq<Group>)
  {
    forall i, j :: 0 <= i < j < |g| ==> Before(g[i], g[j])
  }

  /** In `Before` order, allowing repeats. */
  predicate GroupsWeaklySorted(g: seq<Group>)
  {
    forall i, j :: 0 <= i < j < |g| ==> !Before(g[j], g[i])
  }

  /** The values of `s`, each once, in order of first occurrence. */
  function Dedup(s: seq<nat>): (d: seq<nat>)
    ensures forall x :: x in d <==> x in s
    ensures Distinct(d)
  {
    if s == [] then []
    else if s[0] in s[1..] then Dedup(s[1..])
    else
      var rest := Dedup(s[1..]);
      assert forall i :: 0 <= i < |rest| ==> rest[i] != s[0] by {
        forall i | 0 <= i < |rest| ensures rest[i] != s[0] {
          assert rest[i] in rest;
        }
      }
      [s[0]] + rest
  }

  /** The entry `(count, rank)` for every listed rank value. */
  function Tally(keys: seq<nat>, m: multiset<nat>): (g: seq<Group>)
    ensures |g| == |keys|
    ensures forall i :: 0 <= i < |g| ==> g[i].rank == keys[i] && g[i].count == m[keys[i]]
  {
    seq(|keys|, i requires 0 <= i < |keys| => Group(m[keys[i]], keys[i]))
  }

  /** Puts `x` before the first entry it sorts before. */
  function InsertGroup(x: Group, g: seq<Group>): (r: seq<Group>)
    requires GroupsWeaklySorted(g)
    ensures GroupsWeaklySorted(r)
    ensures multiset(r) == multiset(g) + multiset{x}
  {
    if g == [] || Before(x, g[0]) then
      assert GroupsWeaklySorted([x] + g) by {
        if g != [] {
          forall j | 0 <= j < |g| ensures !Before(g[j], x) {
            assert !Before(g[j], g[0]);
          }
        }
      }
      [x] + g
    else
      var rest := InsertGroup(x, g[1..]);
      InsertGroupCons(x, g, rest);
      [g[0]] + rest
  }

  lemma InsertGroupCons(x: Group, g: seq<Group>, rest: seq<Group>)
    requires GroupsWeaklySorted(g) && g != [] && !Before(x, g[0])
    requires GroupsWeaklySorted(rest) && multiset(rest) == multiset(g[1..]) + multiset{x}
    ensures GroupsWeaklySorted([g[0]] + rest)
    ensures multiset([g[0]] + rest) == multiset(g) + multiset{x}
  {
    assert g == [g[0]] + g[1..];
    forall j | 0 <= j < |rest| ensures !Before(rest[j], g[0]) {
      assert rest[j] in multiset(rest);
      if rest[j] != x {
        assert rest[j] in multiset(g[1..]);
        var k :| 0 <= k < |g[1..]| && g[1..][k] == rest[j];
        assert g[k + 1] == rest[j];
      }
    }
  }

  /** Insertion sort into `Before` order (`count_groups.sort_by(...)`). */
  function SortGroups(g: seq<Group>): (r: seq<Group>)
    ensures GroupsWeaklySorted(r)
    ensures multiset(r) == multiset(g)
  {
    if g == [] then []
    else
      assert g == [g[0]] + g[1..];
      InsertGroup(g[0], SortGroups(g[1..]))
  }

  /** `count_groups`: every rank value that occurs, with how often, larger
      counts first and higher ranks first among equal counts. */
  function CountGroups(ranks: seq<nat>): (g: seq<Group>)
    ensures GroupsSorted(g)
    ensures forall x :: x in g <==> x.rank in ranks && x.count == multiset(ranks)[x.rank]
  {
    var keys := Dedup(ranks);
    var tally := Tally(keys, multiset(ranks));
    var g := SortGroups(tally);
    assert forall x :: x in g <==> x in tally by {
      forall x ensures x in g <==> x in tally {
        assert x in g <==> x in multiset(g);
        assert x in tally <==> x in multiset(tally);
      }
    }
    assert forall x :: x in tally <==> x.rank in ranks && x.count == multiset(ranks)[x.rank] by {
      forall x ensures x in tally <==> x.rank in ranks && x.count == multiset(ranks)[x.rank] {
        if x.rank in ranks && x.count == multiset(ranks)[x.rank] {
          assert x.rank in keys;
          var i :| 0 <= i < |keys| && keys[i] == x.rank;
          assert tally[i] == x;
        }
      }
    }
    TallySortedStrictly(keys, tally, g);
    g
  }

  /** The tally has one entry per distinct rank, so its weakly sorted
      arrangement is strictly sorted. */
  lemma TallySortedStrictly(keys: seq<nat>, tally: seq<Group>, g: seq<Group>)
    requires Distinct(keys) && |tally| == |keys|
    requires forall i :: 0 <= i < |tally| ==> tally[i].rank == keys[i]
    requires GroupsWeaklySorted(g) && multiset(g) == multiset(tally)
    ensures GroupsSorted(g)
  {
    assert Distinct(tally) by {
      forall i, j | 0 <= i < j < |tally| ensures tally[i] != tally[j] {
        assert keys[i] != keys[j];
      }
    }
    DistinctPermutation(tally, g);
    forall i, j | 0 <= i < j < |g| ensures Before(g[i], g[j]) {
      assert g[i] != g[j];
      assert !Before(g[j], g[i]);
    }
  }

  /** A strictly sorted list of groups is fixed by which groups it holds. */
  lemma {:induction false} GroupsUnique(a: seq<Group>, b: seq<Group>)
    requires GroupsSorted(a) && GroupsSorted(b)
    requires forall x :: x in a <==> x in b
    ensures a == b
    decreases |a|
  {
    if a == [] {
      forall x ensures multiset(b)[x] == 0 {
        assert x !in a;
        assert x !in b;
      }
      assert multiset(b) == multiset{};
      assert |b| == |multiset(b)| == 0;
    } else {
      assert a[0] in b;
      assert b != [];
      assert b[0] in a;
      var i :| 0 <= i < |a| && a[i] == b[0];
      var j :| 0 <= j < |b| && b[j] == a[0];
      assert a[0] == b[0];
      forall x ensures x in a[1..] <==> x in b[1..] {
        if x in a[1..] {
          var k :| 0 <= k < |a[1..]| && a[1..][k] == x;
          assert a[k + 1] == x && Before(a[0], x);
          assert x in b && x != b[0];
          var m :| 0 <= m < |b| && b[m] == x;
          assert b[1..][m - 1] == x;
        }
        if x in b[1..] {
          var k :| 0 <= k < |b[1..]| && b[1..][k] == x;
          assert b[k + 1] == x && Before(b[0], x);
          assert x in a && x != a[0];
          var m :| 0 <= m < |a| && a[m] == x;
          assert a[1..][m - 1] == x;
        }
      }
      GroupsUnique(a[1..], b[1..]);
      assert a == [a[0]] + a[1..] && b == [b[0]] + b[1..];
    }
  }

  /** `CountGroups` is the one sorted list describing the multiset of ranks. */
  lemma CountGroupsIs(ranks: seq<nat>, expected: seq<Group>)
    requires GroupsSorted(expected)
    requires forall x :: x in expected <==> x.rank in multiset(ranks) && x.count == multiset(ranks)[x.rank]
    ensures CountGroups(ranks) == expected
  {
    GroupsUnique(CountGroups(ranks), expected);
  }

  /** The value `evaluate_five_card_hand` returns for a wrong card count. */
  const InvalidHand := HandEvaluation(HighCard, 0, 0, [0, 0, 0, 0, 0])

  /** The `match count_groups.as_slice()` of `evaluate_five_card_hand`, with
      the flush/straight/high-card fallback. */
  function ClassifyGroups(ranks: seq<nat>, flush: bool, straight: bool, g: seq<Group>): (e: HandEvaluation)
    requires |ranks| == 5
  {
    if |g| == 2 && g[0].count == 4 && g[1].count == 1 then
      HandEvaluation(FourOfAKind, g[0].rank, 0, [g[1].rank])
    else if |g| == 2 && g[0].count == 3 && g[1].count == 2 then
      HandEvaluation(FullHouse, g[0].rank, g[1].rank, [])
    else if |g| == 3 && g[0].count == 3 && g[1].count == 1 && g[2].count == 1 then
      HandEvaluation(ThreeOfAKind, g[0].rank, 0, SortDesc([g[1].rank, g[2].rank]))
    else if |g| == 3 && g[0].count == 2 && g[1].count == 2 && g[2].count == 1 then
      var high := if g[0].rank > g[1].rank then g[0].rank else g[1].rank;
      var low := if g[0].rank > g[1].rank then g[1].rank else g[0].rank;
      HandEvaluation(TwoPair, high, low, [g[2].rank])
    else if |g| == 4 && g[0].count == 2 && g[1].count == 1 && g[2].count == 1 && g[3].count == 1 then
      HandEvaluation(OnePair, g[0].rank, 0, SortDesc([g[1].rank, g[2].rank, g[3].rank]))
    else if flush then
      HandEvaluation(Flush, ranks[0], 0, ranks[1..])
    else if straight then
      HandEvaluation(Straight, ranks[0], 0, [])
    else
      HandEvaluation(HighCard, ranks[0], 0, ranks[1..])
  }

  /** The part of `evaluate_five_card_hand` after the sort: the royal and
      straight-flush tests, then the group patterns. */
  function ScoreRanks(ranks: seq<nat>, flush: bool): HandEvaluation
    requires |ranks| == 5
  {
    var straight := IsStraightHand(ranks);
    if flush && straight && ranks[0] == 14 then HandEvaluation(RoyalFlush, 14, 0, [])
    else if flush && straight then HandEvaluation(StraightFlush, ranks[0], 0, [])
    else ClassifyGroups(ranks, flush, straight, CountGroups(ranks))
  }

  /** `evaluate_five_card_hand`: the rank values sorted high to low, whether
      all suits agree, then `ScoreRanks`. */
  function EvaluateFiveCardHand(cards: seq<Card>): (e: HandEvaluation)
    ensures |cards| != 5 ==> e == InvalidHand
  {
    if |cards| != 5 then InvalidHand
    else ScoreRanks(SortDesc(RankValues(cards)), IsFlush(cards))
  }

  /** Every value of a five-card rank list is at least 2, so every category
      reports a primary value of at least 2. */
  lemma ScorePrimary(ranks: seq<nat>, flush: bool)
    requires |ranks| == 5 && forall v :: v in multiset(ranks) ==> v >= 2
    ensures ScoreRanks(ranks, flush).primary >= 2
  {
    var g := CountGroups(ranks);
    assert ranks[0] in multiset(ranks);
    if |g| >= 2 {
      assert g[0] in g;
      assert g[0].rank in multiset(ranks);
    }
  }

  /** A scored five-card hand is never the wrong-size value and beats the
      starting value of the best-hand search, `(HighCard, 0, 0, [])`. */
  lemma FiveCardBeatsStart(cards: seq<Card>)
    requires |cards| == 5
    ensures EvaluateFiveCardHand(cards).primary >= 2
    ensures EvaluateFiveCardHand(cards) != InvalidHand
    ensures Compare(EvaluateFiveCardHand(cards), HandEvaluation(HighCard, 0, 0, [])) == Greater
  {
    var ranks := SortDesc(RankValues(cards));
    forall v | v in multiset(ranks) ensures v >= 2 {
      assert v in RankValues(cards);
    }
    ScorePrimary(ranks, IsFlush(cards));
  }

  /** The score depends only on which cards there are, not on their order. */
  lemma EvaluatePermutation(c1: seq<Card>, c2: seq<Card>)
    requires multiset(c1) == multiset(c2)
    ensures EvaluateFiveCardHand(c1) == EvaluateFiveCardHand(c2)
  {
    assert |c1| == |multiset(c1)| == |multiset(c2)| == |c2|;
    RankValuesPermutation(c1, c2);
    SortDescCanonical(RankValues(c1), RankValues(c2));
    IsFlushPermutation(c1, c2);
  }

  /** Unfolds the evaluation of five cards to their sorted rank list. */
  lemma EvaluateFive(cards: seq<Card>)
    requires |cards| == 5
    ensures var ranks := SortDesc(RankValues(cards));
            |ranks| == 5 && multiset(ranks) == multiset(RankValues(cards)) &&
            EvaluateFiveCardHand(cards) == ScoreRanks(ranks, IsFlush(cards))
  {
  }

  /** A rank list holding some value at least twice is no straight. */
  lemma PairedNotStraight(ranks: seq<nat>, x: nat)
    requires multiset(ranks)[x] >= 2
    ensures !IsStraightHand(ranks)
  {
    if IsStraightHand(ranks) {
      StraightDistinct(ranks);
    }
  }

  lemma FourOfAKindRanks(ranks: seq<nat>, flush: bool, q: nat, k: nat)
    requires |ranks| == 5 && q != k && multiset(ranks) == multiset{q, q, q, q, k}
    ensures ScoreRanks(ranks, flush) == HandEvaluation(FourOfAKind, q, 0, [k])
  {
    var m := multiset(ranks);
    PairedNotStraight(ranks, q);
    var want := [Group(4, q), Group(1, k)];
    forall x ensures x in want <==> x.rank in m && x.count == m[x.rank] {
    }
    CountGroupsIs(ranks, want);
  }

  /** Four of a kind: the quad rank, then the single kicker. */
  lemma FourOfAKindHand(cards: seq<Card>, q: nat, k: nat)
    requires |cards| == 5 && q != k
    requires multiset(RankValues(cards)) == multiset{q, q, q, q, k}
    ensures EvaluateFiveCardHand(cards) == HandEvaluation(FourOfAKind, q, 0, [k])
  {
    EvaluateFive(cards);
    FourOfAKindRanks(SortDesc(RankValues(cards)), IsFlush(cards), q, k);
  }

  lemma FullHouseRanks(ranks: seq<nat>, flush: bool, t: nat, p: nat)
    requires |ranks| == 5 && t != p && multiset(ranks) == multiset{t, t, t, p, p}
    ensures ScoreRanks(ranks, flush) == HandEvaluation(FullHouse, t, p, [])
  {
    var m := multiset(ranks);
    PairedNotStraight(ranks, t);
    var want := [Group(3, t), Group(2, p)];
    forall x ensures x in want <==> x.rank in m && x.count == m[x.rank] {
    }
    CountGroupsIs(ranks, want);
  }

  /** Full house: the trips rank, then the pair rank. */
  lemma FullHouseHand(cards: seq<Card>, t: nat, p: nat)
    requires |cards| == 5 && t != p
    requires multiset(RankValues(cards)) == multiset{t, t, t, p, p}
    ensures EvaluateFiveCardHand(cards) == HandEvaluation(FullHouse, t, p, [])
  {
    EvaluateFive(cards);
    FullHouseRanks(SortDesc(RankValues(cards)), IsFlush(cards), t, p);
  }

  lemma ThreeOfAKindRanks(ranks: seq<nat>, flush: bool, t: nat, a: nat, b: nat)
    requires |ranks| == 5 && a > b && t != a && t != b
    requires multiset(ranks) == multiset{t, t, t, a, b}
    ensures ScoreRanks(ranks, flush) == HandEvaluation(ThreeOfAKind, t, 0, [a, b])
  {
    PairedNotStraight(ranks, t);
    ThreeOfAKindGroups(ranks, t, a, b);
    var want := [Group(3, t), Group(1, a), Group(1, b)];
    assert ScoreRanks(ranks, flush) == ClassifyGroups(ranks, flush, false, want);
    SortTwo(a, b);
  }

  lemma SortTwo(a: nat, b: nat)
    requires a > b
    ensures SortDesc([a, b]) == [a, b]
  {
    SortDescCanonical([a, b], [a, b]);
  }

  lemma SortThree(a: nat, b: nat, c: nat)
    requires a > b > c
    ensures SortDesc([a, b, c]) == [a, b, c]
  {
    SortDescCanonical([a, b, c], [a, b, c]);
  }

  lemma ThreeOfAKindGroups(ranks: seq<nat>, t: nat, a: nat, b: nat)
    requires a > b && t != a && t != b
    requires multiset(ranks) == multiset{t, t, t, a, b}
    ensures CountGroups(ranks) == [Group(3, t), Group(1, a), Group(1, b)]
  {
    var m := multiset(ranks);
    var want := [Group(3, t), Group(1, a), Group(1, b)];
    forall x ensures x in want <==> x.rank in m && x.count == m[x.rank] {
    }
    CountGroupsIs(ranks, want);
  }

  /** Three of a kind: the trips rank, then both kickers, descending. */
  lemma ThreeOfAKindHand(cards: seq<Card>, t: nat, a: nat, b: nat)
    requires |cards| == 5 && a > b && t != a && t != b
    requires multiset(RankValues(cards)) == multiset{t, t, t, a, b}
    ensures EvaluateFiveCardHand(cards) == HandEvaluation(ThreeOfAKind, t, 0, [a, b])
  {
    EvaluateFive(cards);
    ThreeOfAKindRanks(SortDesc(RankValues(cards)), IsFlush(cards), t, a, b);
  }

  lemma TwoPairRanks(ranks: seq<nat>, flush: bool, h: nat, l: nat, k: nat)
    requires |ranks| == 5 && h > l && k != h && k != l
    requires multiset(ranks) == multiset{h, h, l, l, k}
    ensures ScoreRanks(ranks, flush) == HandEvaluation(TwoPair, h, l, [k])
  {
    PairedNotStraight(ranks, h);
    TwoPairGroups(ranks, h, l, k);
    var want := [Group(2, h), Group(2, l), Group(1, k)];
    assert ScoreRanks(ranks, flush) == ClassifyGroups(ranks, flush, false, want);
  }

  lemma TwoPairGroups(ranks: seq<nat>, h: nat, l: nat, k: nat)
    requires h > l && k != h && k != l
    requires multiset(ranks) == multiset{h, h, l, l, k}
    ensures CountGroups(ranks) == [Group(2, h), Group(2, l), Group(1, k)]
  {
    var m := multiset(ranks);
    var want := [Group(2, h), Group(2, l), Group(1, k)];
    forall x ensures x in want <==> x.rank in m && x.count == m[x.rank] {
    }
    CountGroupsIs(ranks, want);
  }

  /** Two pair: the higher pair, the lower pair, then the kicker. */
  lemma TwoPairHand(cards: seq<Card>, h: nat, l: nat, k: nat)
    requires |cards| == 5 && h > l && k != h && k != l
    requires multiset(RankValues(cards)) == multiset{h, h, l, l, k}
    ensures EvaluateFiveCardHand(cards) == HandEvaluation(TwoPair, h, l, [k])
  {
    EvaluateFive(cards);
    TwoPairRanks(SortDesc(RankValues(cards)), IsFlush(cards), h, l, k);
  }

  lemma OnePairRanks(ranks: seq<nat>, flush: bool, p: nat, a: nat, b: nat, c: nat)
    requires |ranks| == 5 && a > b > c && p != a && p != b && p != c
    requires multiset(ranks) == multiset{p, p, a, b, c}
    ensures ScoreRanks(ranks, flush) == HandEvaluation(OnePair, p, 0, [a, b, c])
  {
    PairedNotStraight(ranks, p);
    OnePairGroups(ranks, p, a, b, c);
    OnePairClassified(ranks, flush, p, a, b, c);
  }

  lemma OnePairClassified(ranks: seq<nat>, flush: bool, p: nat, a: nat, b: nat, c: nat)
    requires |ranks| == 5 && a > b > c
    ensures ClassifyGroups(ranks, flush, false, [Group(2, p), Group(1, a), Group(1, b), Group(1, c)])
            == HandEvaluation(OnePair, p, 0, [a, b, c])
  {
    SortThree(a, b, c);
  }

  lemma OnePairGroups(ranks: seq<nat>, p: nat, a: nat, b: nat, c: nat)
    requires a > b > c && p != a && p != b && p != c
    requires multiset(ranks) == multiset{p, p, a, b, c}
    ensures CountGroups(ranks) == [Group(2, p), Group(1, a), Group(1, b), Group(1, c)]
  {
    var m := multiset(ranks);
    var want := [Group(2, p), Group(1, a), Group(1, b), Group(1, c)];
    forall x ensures x in want <==> x.rank in m && x.count == m[x.rank] {
    }
    CountGroupsIs(ranks, want);
  }

  /** One pair: the pair rank, then the three kickers, descending. */
  lemma OnePairHand(cards: seq<Card>, p: nat, a: nat, b: nat, c: nat)
    requires |cards| == 5 && a > b > c && p != a && p != b && p != c
    requires multiset(RankValues(cards)) == multiset{p, p, a, b, c}
    ensures EvaluateFiveCardHand(cards) == HandEvaluation(OnePair, p, 0, [a, b, c])
  {
    EvaluateFive(cards);
    OnePairRanks(SortDesc(RankValues(cards)), IsFlush(cards), p, a, b, c);
  }

  lemma DistinctRanksGroups(a: nat, b: nat, c: nat, d: nat, e: nat)
    requires a > b > c > d > e
    ensures CountGroups([a, b, c, d, e]) == [Group(1, a), Group(1, b), Group(1, c), Group(1, d), Group(1, e)]
  {
    var ranks := [a, b, c, d, e];
    var m := multiset(ranks);
    var want := [Group(1, a), Group(1, b), Group(1, c), Group(1, d), Group(1, e)];
    forall x ensures x in want <==> x.rank in m && x.count == m[x.rank] {
    }
    CountGroupsIs(ranks, want);
  }

  /** Five different ranks `a > b > c > d > e`: the top rank decides first,
      then the other four in order, and flush and straight pick the
      category. A straight flush whose top value is 14 is scored a royal
      flush, which includes the suited wheel. */
  lemma DistinctRanksHand(cards: seq<Card>, a: nat, b: nat, c: nat, d: nat, e: nat)
    requires |cards| == 5 && a > b > c > d > e
    requires multiset(RankValues(cards)) == multiset{a, b, c, d, e}
    ensures var straight := Consecutive([a, b, c, d, e]) || [a, b, c, d, e] == Wheel;
            EvaluateFiveCardHand(cards) ==
              if IsFlush(cards) && straight && a == 14 then HandEvaluation(RoyalFlush, 14, 0, [])
              else if IsFlush(cards) && straight then HandEvaluation(StraightFlush, a, 0, [])
              else if IsFlush(cards) then HandEvaluation(Flush, a, 0, [b, c, d, e])
              else if straight then HandEvaluation(Straight, a, 0, [])
              else HandEvaluation(HighCard, a, 0, [b, c, d, e])
  {
    EvaluateSorted(cards, [a, b, c, d, e]);
    DistinctRanksScore(a, b, c, d, e, IsFlush(cards));
  }

  /** Five cards whose rank values arranged high to low are `ranks`. */
  lemma EvaluateSorted(cards: seq<Card>, ranks: seq<nat>)
    requires |cards| == 5 && Descending(ranks)
    requires multiset(RankValues(cards)) == multiset(ranks)
    ensures |ranks| == 5
    ensures EvaluateFiveCardHand(cards) == ScoreRanks(ranks, IsFlush(cards))
  {
    SortDescCanonical(RankValues(cards), ranks);
  }

  lemma DistinctRanksScore(a: nat, b: nat, c: nat, d: nat, e: nat, flush: bool)
    requires a > b > c > d > e
    ensures var straight := Consecutive([a, b, c, d, e]) || [a, b, c, d, e] == Wheel;
            ScoreRanks([a, b, c, d, e], flush) ==
              if flush && straight && a == 14 then HandEvaluation(RoyalFlush, 14, 0, [])
              else if flush && straight then HandEvaluation(StraightFlush, a, 0, [])
              else if flush then HandEvaluation(Flush, a, 0, [b, c, d, e])
              else if straight then HandEvaluation(Straight, a, 0, [])
              else HandEvaluation(HighCard, a, 0, [b, c, d, e])
  {
    var ranks := [a, b, c, d, e];
    IsStraightIff(ranks);
    DistinctRanksGroups(a, b, c, d, e);
    assert ranks[1..] == [b, c, d, e];
    NoPatternClassified(ranks, flush, IsStraightHand(ranks), CountGroups(ranks));
  }

  /** Five groups match no pattern: flush, straight or high card decides. */
  lemma NoPatternClassified(ranks: seq<nat>, flush: bool, straight: bool, g: seq<Group>)
    requires |ranks| == 5 && |g| == 5
    ensures ClassifyGroups(ranks, flush, straight, g) ==
              if flush then HandEvaluation(Flush, ranks[0], 0, ranks[1..])
              else if straight then HandEvaluation(Straight, ranks[0], 0, [])
              else HandEvaluation(HighCard, ranks[0], 0, ranks[1..])
  {
  }
}
