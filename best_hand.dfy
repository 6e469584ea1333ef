/** Choosing the best five of up to seven cards: `find_best_five_card_hand`
    and `evaluate_hand` of src/poker_rules.rs. */
module BestHand {
  import opened Cards
  import opened HandOrder
  import opened Combinatorics
  import opened FiveCard

  /** The value the search starts from, `(HighCard, 0, 0, [])`. */
  const SearchStart := HandEvaluation(HighCard, 0, 0, [])

  /** The search state (best evaluation, best hand) after visiting `combos`
      in order: a later combination replaces the best only when it is
      strictly greater, so the first of several equal maxima is kept. */
  function BestAmong(combos: seq<seq<Card>>): (HandEvaluation, seq<Card>)
    decreases |combos|
  {
    if combos == [] then (SearchStart, [])
    else
      var prev := BestAmong(combos[..|combos| - 1]);
      var last := combos[|combos| - 1];
      var e := EvaluateFiveCardHand(last);
      if Compare(e, prev.0) == Greater then (e, last) else prev
  }

  /** The hand `find_best_five_card_hand` returns. */
  function BestFiveCardHand(cards: seq<Card>): seq<Card>
  {
    if |cards| <= 5 then cards else BestAmong(Combinations(cards, 5)).1
  }

  /** `find_best_five_card_hand`: five or fewer cards are returned as they
      are; otherwise every five-card combination is scored in turn. */
  method FindBestFiveCardHand(cards: seq<Card>) returns (best: seq<Card>)
    ensures best == BestFiveCardHand(cards)
    ensures |cards| > 5 ==> |best| == 5 && IsSubseq(best, cards)
    ensures |cards| > 5 ==> forall u :: |u| == 5 && IsSubseq(u, cards) ==>
              Le(EvaluateFiveCardHand(u), EvaluateFiveCardHand(best))
  {
    if |cards| <= 5 {
      return cards;
    }
    best := [];
    var bestEval := SearchStart;
    var combos := Combinations(cards, 5);
    var i := 0;
    while i < |combos|
      invariant 0 <= i <= |combos|
      invariant (bestEval, best) == BestAmong(combos[..i])
    {
      var e := EvaluateFiveCardHand(combos[i]);
      assert combos[..i + 1][..i] == combos[..i];
      if Compare(e, bestEval) == Greater {
        bestEval := e;
        best := combos[i];
      }
      i := i + 1;
    }
    assert combos[..|combos|] == combos;
    BestHandIsMaximal(cards);
  }

  /** With every combination of five cards, the search ends on one of them,
      holding its evaluation, and no combination scores higher. */
  lemma {:induction false} BestAmongMaximal(combos: seq<seq<Card>>)
    requires forall c :: c in combos ==> |c| == 5
    ensures combos != [] ==> BestAmong(combos).1 in combos
    ensures combos != [] ==> BestAmong(combos).0 == EvaluateFiveCardHand(BestAmong(combos).1)
    ensures forall c :: c in combos ==> Le(EvaluateFiveCardHand(c), BestAmong(combos).0)
    decreases |combos|
  {
    if combos != [] {
      var init := combos[..|combos| - 1];
      var last := combos[|combos| - 1];
      assert combos == init + [last];
      BestAmongMaximal(init);
      var prev := BestAmong(init);
      var e := EvaluateFiveCardHand(last);
      if init == [] {
        FiveCardBeatsStart(last);
      }
      forall c | c in combos ensures Le(EvaluateFiveCardHand(c), BestAmong(combos).0) {
        LeTotalOrder(EvaluateFiveCardHand(c), prev.0, e);
        CompareAntisymmetric(e, prev.0);
      }
    }
  }

  /** For more than five cards the chosen hand is a five-card subsequence
      whose evaluation is at least that of every five-card subsequence. */
  lemma BestHandIsMaximal(cards: seq<Card>)
    requires |cards| > 5
    ensures |BestFiveCardHand(cards)| == 5 && IsSubseq(BestFiveCardHand(cards), cards)
    ensures forall u :: |u| == 5 && IsSubseq(u, cards) ==>
              Le(EvaluateFiveCardHand(u), EvaluateFiveCardHand(BestFiveCardHand(cards)))
  {
    var combos := Combinations(cards, 5);
    CombinationsSound(cards, 5);
    BestAmongMaximal(combos);
    assert IsSubseq(cards[..5], cards) by {
      PrefixSubseq(cards, 5);
    }
    CombinationsComplete(cards, cards[..5]);
    forall u | |u| == 5 && IsSubseq(u, cards)
      ensures Le(EvaluateFiveCardHand(u), EvaluateFiveCardHand(BestFiveCardHand(cards)))
    {
      CombinationsComplete(cards, u);
    }
  }

  lemma {:induction false} PrefixSubseq<T>(t: seq<T>, k: nat)
    requires k <= |t|
    ensures IsSubseq(t[..k], t)
    decreases |t|
  {
    if k > 0 {
      PrefixSubseq(t[1..], k - 1);
      assert t[..k][1..] == t[1..][..k - 1];
    }
  }

  /** `evaluate_hand`: hole cards then community cards, best five scored. */
  function EvaluateHand(hole: seq<Card>, community: seq<Card>): HandEvaluation
  {
    EvaluateFiveCardHand(BestFiveCardHand(hole + community))
  }

  /** Fewer than five cards give the wrong-size value, exactly five are
      scored as they are, and more than five give the best score of any
      five of them. */
  lemma EvaluateHandSpec(hole: seq<Card>, community: seq<Card>)
    ensures |hole + community| < 5 ==> EvaluateHand(hole, community) == InvalidHand
    ensures |hole + community| == 5 ==>
              EvaluateHand(hole, community) == EvaluateFiveCardHand(hole + community)
    ensures |hole + community| > 5 ==>
              exists u :: |u| == 5 && IsSubseq(u, hole + community) &&
                          EvaluateHand(hole, community) == EvaluateFiveCardHand(u)
    ensures |hole + community| >= 5 ==>
              forall u :: |u| == 5 && IsSubseq(u, hole + community) ==>
                          Le(EvaluateFiveCardHand(u), EvaluateHand(hole, community))
  {
    var all := hole + community;
    if |all| > 5 {
      BestHandIsMaximal(all);
    } else if |all| == 5 {
      forall u | |u| == 5 && IsSubseq(u, all)
        ensures Le(EvaluateFiveCardHand(u), EvaluateHand(hole, community))
      {
        SubseqFull(u, all);
        LeTotalOrder(EvaluateFiveCardHand(u), EvaluateFiveCardHand(u), EvaluateFiveCardHand(u));
      }
    }
  }

  /** The best score depends only on which cards are held: rearranging the
      cards, or moving them between hole and community, changes nothing. */
  lemma EvaluateHandPermutation(h1: seq<Card>, c1: seq<Card>, h2: seq<Card>, c2: seq<Card>)
    requires multiset(h1 + c1) == multiset(h2 + c2)
    ensures EvaluateHand(h1, c1) == EvaluateHand(h2, c2)
  {
    var a1, a2 := h1 + c1, h2 + c2;
    assert |a1| == |multiset(a1)| == |multiset(a2)| == |a2|;
    if |a1| <= 5 {
      EvaluatePermutation(a1, a2);
    } else {
      BestHandIsMaximal(a1);
      BestHandIsMaximal(a2);
      var b1, b2 := BestFiveCardHand(a1), BestFiveCardHand(a2);
      var e1, e2 := EvaluateFiveCardHand(b1), EvaluateFiveCardHand(b2);
      assert Le(e1, e2) by {
        SubseqMultiset(b1, a1);
        var u := SubMultisetSubseq(multiset(b1), a2);
        assert |u| == |multiset(u)| == |multiset(b1)| == 5;
        EvaluatePermutation(u, b1);
      }
      assert Le(e2, e1) by {
        SubseqMultiset(b2, a2);
        var u := SubMultisetSubseq(multiset(b2), a1);
        assert |u| == |multiset(u)| == |multiset(b2)| == 5;
        EvaluatePermutation(u, b2);
      }
      LeTotalOrder(e1, e2, e1);
    }
  }
}
