/** The phase machine of src/game_controller.rs, one call of
    `game_state_controller` per frame with the timer reduced to whether it
    fired, together with `post_blinds` and `determine_winner`. The ECS
    query is a sequence of distinct players in iteration order. */
module Controller {
  import opened Common
  import opened Cards
  import opened HandOrder
  import opened BestHand
  import opened Players
  import opened GameStates
  import opened Betting

  /** The small blind `BettingRound::new` is given at the start of a hand. */
  const SetupSmallBlind: nat := 10

  /** `GameController` without its timer: whether phases advance on their
      own. */
  class GameController {
    var autoAdvance: bool

    /** `GameController::default`. */
    constructor Default()
      ensures autoAdvance
    {
      autoAdvance := true;
    }

    /** `toggle_auto_advance`: the space bar flips the flag. */
    method ToggleAutoAdvance(spacePressed: bool)
      modifies this
      ensures autoAdvance == (old(autoAdvance) != spacePressed)
    {
      if spacePressed {
        autoAdvance := !autoAdvance;
      }
    }
  }

  /** Every seat's bet and fold flag, in order. */
  function BetsOf(players: seq<Player>): (b: seq<(nat, bool)>)
    reads players
    ensures |b| == |players|
    ensures forall i :: 0 <= i < |players| ==> b[i] == (players[i].currentBet, players[i].hasFolded)
  {
    if players == [] then [] else [(players[0].currentBet, players[0].hasFolded)] + BetsOf(players[1..])
  }

  /** Every seat's stack, in order. */
  function ChipsOf(players: seq<Player>): (c: seq<nat>)
    reads players
    ensures |c| == |players|
    ensures forall i :: 0 <= i < |players| ==> c[i] == players[i].chips
  {
    if players == [] then [] else [players[0].chips] + ChipsOf(players[1..])
  }

  /** Every seat's id, in order. */
  function Ids(players: seq<Player>): (ids: seq<nat>)
    ensures |ids| == |players|
    ensures forall i :: 0 <= i < |players| ==> ids[i] == players[i].id
  {
    if players == [] then [] else [players[0].id] + Ids(players[1..])
  }

  /** The ids of the seats still in the hand, in order. */
  function ActiveIds(players: seq<Player>): (ids: seq<nat>)
    reads players
    ensures |ids| == ActiveCount(players)
    ensures forall x :: x in ids <==> exists i :: 0 <= i < |players| && !players[i].hasFolded && players[i].id == x
  {
    if players == [] then []
    else (if players[0].hasFolded then [] else [players[0].id]) + ActiveIds(players[1..])
  }

  /** Seats that neither fold nor come back keep the same seats in the
      hand. */
  twostate lemma {:induction false} ActiveIdsKept(players: seq<Player>)
    requires forall i :: 0 <= i < |players| ==> players[i].hasFolded == old(players[i].hasFolded)
    ensures ActiveIds(players) == old(ActiveIds(players))
    ensures ActiveCount(players) == old(ActiveCount(players))
    decreases |players|
  {
    if players != [] {
      ActiveIdsKept(players[1..]);
    }
  }

  /** The first seat with this id; ids never change, so this reads no
      state. */
  function SeatOfId(players: seq<Player>, id: nat): (k: Option<nat>)
    ensures k.Some? ==> k.value < |players| && players[k.value].id == id
    ensures k.Some? ==> forall j :: 0 <= j < k.value ==> players[j].id != id
    ensures k.None? ==> forall j :: 0 <= j < |players| ==> players[j].id != id
    decreases |players|
  {
    if players == [] then None
    else if players[0].id == id then Some(0)
    else
      var rest := SeatOfId(players[1..], id);
      if rest.None? then None else Some(rest.value + 1)
  }

  /** The search over all seats finds that seat. */
  lemma SeatOfIdIsFirstSeat(players: seq<Player>, id: nat)
    ensures FirstSeat(players, id, false) == SeatOfId(players, id)
  {
    var a, b := FirstSeat(players, id, false), SeatOfId(players, id);
    if a.Some? && b.Some? {
      assert !(a.value < b.value) && !(b.value < a.value);
    }
  }

  /** The number of seats with chips left. */
  function CountWithChips(players: seq<Player>): (n: nat)
    reads players
    ensures n <= |players|
  {
    if players == [] then 0
    else (if players[0].chips > 0 then 1 else 0) + CountWithChips(players[1..])
  }

  /** No seat has chips exactly when every stack is empty, and every seat
      has chips exactly when no stack is. */
  lemma {:induction false} CountWithChipsBounds(players: seq<Player>)
    ensures CountWithChips(players) == 0 <==> forall i :: 0 <= i < |players| ==> players[i].chips == 0
    ensures CountWithChips(players) == |players| <==> forall i :: 0 <= i < |players| ==> players[i].chips > 0
  {
    if players != [] {
      CountWithChipsBounds(players[1..]);
      assert forall i :: 1 <= i < |players| ==> players[i] == players[1..][i - 1];
    }
  }

  /** One blind taken from the stack at `seat`: at most `amount`, never more
      than the stack. Returns the stacks after and the chips taken. */
  function PayBlind(chips: seq<nat>, seat: Option<nat>, amount: nat): (r: (seq<nat>, nat))
    requires seat.Some? ==> seat.value < |chips|
    ensures |r.0| == |chips|
    ensures Sum(r.0) + r.1 == Sum(chips)
    ensures seat.None? ==> r == (chips, 0)
    ensures seat.Some? ==> r.1 == Min(amount, chips[seat.value]) &&
                           r.0 == chips[seat.value := chips[seat.value] - r.1]
  {
    if seat.None? then (chips, 0)
    else
      var k := seat.value;
      var taken := if amount <= chips[k] then amount else chips[k];
      SumUpdate(chips, k, chips[k] - taken);
      (chips[k := chips[k] - taken], taken)
  }

  /** The pot added to the stack at `seat`, if there is one: that stack
      grows by the pot, every other stack is as it was, and the total grows
      by the pot. */
  function Award(chips: seq<nat>, seat: Option<nat>, pot: nat): (r: seq<nat>)
    requires seat.Some? ==> seat.value < |chips|
    ensures |r| == |chips|
    ensures seat.None? ==> r == chips
    ensures seat.Some? ==> r[seat.value] == chips[seat.value] + pot &&
                           forall i :: 0 <= i < |chips| && i != seat.value ==> r[i] == chips[i]
    ensures Sum(r) == Sum(chips) + (if seat.Some? then pot else 0)
  {
    if seat.None? then chips
    else
      SumAdd(chips, seat.value, pot);
      chips[seat.value := chips[seat.value] + pot]
  }

  /** The stacks and the chips collected once both blinds are posted: the
      small blind from the first seat whose id is the small-blind seat,
      then the big blind likewise. */
  function AfterBlinds(players: seq<Player>, position: GamePosition): (r: (seq<nat>, nat))
    reads players, position
    requires position.totalPlayers > 0
    ensures |r.0| == |players|
    ensures Sum(r.0) + r.1 == Sum(ChipsOf(players))
  {
    var sb := PayBlind(ChipsOf(players), SeatOfId(players, position.SmallBlindPlayer()),
                       position.smallBlindAmount);
    var bb := PayBlind(sb.0, SeatOfId(players, position.BigBlindPlayer()),
                       position.bigBlindAmount);
    (bb.0, sb.1 + bb.1)
  }

  /** Every seat's hole cards, in order. */
  function HoleCardsOf(players: seq<Player>): (h: seq<seq<Card>>)
    reads players
    ensures |h| == |players|
    ensures forall i :: 0 <= i < |players| ==> h[i] == players[i].holeCards
  {
    if players == [] then [] else [players[0].holeCards] + HoleCardsOf(players[1..])
  }

  /** The hands after two cards each from the top of `d`: seat `i` gets
      the cards at depth `2i` and `2i + 1`, in that order. */
  function DealtTwo(holes: seq<seq<Card>>, d: seq<Card>): (r: seq<seq<Card>>)
    requires 2 * |holes| <= |d|
    ensures |r| == |holes|
  {
    seq(|holes|, i requires 0 <= i < |holes| => holes[i] + [d[|d| - 1 - 2 * i], d[|d| - 2 - 2 * i]])
  }

  /** The seats' bets, fold flags and cards are as they were. */
  twostate predicate SeatsKeepHands(players: seq<Player>)
    reads players
  {
    forall i :: 0 <= i < |players| ==>
      players[i].currentBet == old(players[i].currentBet) &&
      players[i].hasFolded == old(players[i].hasFolded) &&
      players[i].holeCards == old(players[i].holeCards)
  }

  /** One blind: the first seat with that id pays what it can, into the
      hand's pot. */
  method PostBlind(players: seq<Player>, seatId: nat, amount: nat, data: GameData)
    requires Distinct(players)
    modifies players, data
    ensures var r := PayBlind(old(ChipsOf(players)), SeatOfId(players, seatId), amount);
            ChipsOf(players) == r.0 && data.pot == old(data.pot) + r.1
    ensures SeatsKeepHands(players)
    ensures data.currentBet == old(data.currentBet) && data.communityCards == old(data.communityCards)
    ensures data.roundNumber == old(data.roundNumber) && data.currentPlayer == old(data.currentPlayer)
  {
    var seat := FindSeat(players, seatId, false);
    SeatOfIdIsFirstSeat(players, seatId);
    if seat.Some? {
      var p := players[seat.value];
      var taken := Min(amount, p.chips);
      p.chips := SatSub(p.chips, taken);
      data.pot := data.pot + taken;
      forall i | 0 <= i < |players| && i != seat.value
        ensures players[i].chips == old(players[i].chips)
      {
        assert players[i] != players[seat.value];
      }
    }
    assert ChipsOf(players) == PayBlind(old(ChipsOf(players)), seat, amount).0;
  }

  /** `post_blinds`: the small then the big blind go into the hand's pot.
      The chips on the table plus that pot do not change, and no seat's bet
      is touched. */
  method PostBlinds(players: seq<Player>, position: GamePosition, data: GameData)
    requires position.totalPlayers > 0
    requires Distinct(players)
    modifies players, data
    ensures ChipsOf(players) == old(AfterBlinds(players, position)).0
    ensures data.pot == old(data.pot) + old(AfterBlinds(players, position)).1
    ensures Sum(ChipsOf(players)) + data.pot == old(Sum(ChipsOf(players)) + data.pot)
    ensures SeatsKeepHands(players)
    ensures HoleCardsOf(players) == old(HoleCardsOf(players)) && BetsOf(players) == old(BetsOf(players))
    ensures data.currentBet == old(data.currentBet) && data.communityCards == old(data.communityCards)
    ensures data.roundNumber == old(data.roundNumber) && data.currentPlayer == old(data.currentPlayer)
  {
    ghost var holes := HoleCardsOf(players);
    PostBlind(players, position.SmallBlindPlayer(), position.smallBlindAmount, data);
    PostBlind(players, position.BigBlindPlayer(), position.bigBlindAmount, data);
    assert HoleCardsOf(players) == holes;
  }

  /** Two cards to each seat in turn, from the top of the deck, while the
      deck lasts. With enough cards, seat `i` receives the cards at depth
      `2i` and `2i + 1` from the top. */
  method DealHoleCards(players: seq<Player>, deck: Deck)
    requires Distinct(players)
    modifies players, deck
    ensures |deck.cards| <= |old(deck.cards)|
    ensures deck.cards == old(deck.cards)[..|deck.cards|]
    ensures |old(deck.cards)| >= 2 * |players| ==>
              |deck.cards| == |old(deck.cards)| - 2 * |players| &&
              HoleCardsOf(players) == DealtTwo(old(HoleCardsOf(players)), old(deck.cards))
    ensures ChipsOf(players) == old(ChipsOf(players))
    ensures forall i :: 0 <= i < |players| ==>
              players[i].currentBet == old(players[i].currentBet) && players[i].hasFolded == old(players[i].hasFolded)
  {
    ghost var holes := HoleCardsOf(players);
    ghost var stacks := ChipsOf(players);
    ghost var d := deck.cards;
    var i := 0;
    while i < |players|
      invariant 0 <= i <= |players|
      invariant |deck.cards| <= |d|
      invariant deck.cards == d[..|deck.cards|]
      invariant 2 * |players| <= |d| ==> |deck.cards| == |d| - 2 * i
      invariant 2 * |players| <= |d| ==> forall j :: 0 <= j < i ==>
                  players[j].holeCards == holes[j] + [d[|d| - 1 - 2 * j], d[|d| - 2 - 2 * j]]
      invariant forall j :: i <= j < |players| ==> players[j].holeCards == holes[j]
      invariant forall j :: 0 <= j < |players| ==>
                  players[j].chips == stacks[j] && players[j].currentBet == old(players[j].currentBet) &&
                  players[j].hasFolded == old(players[j].hasFolded)
    {
      DealTwoTo(players[i], deck);
      i := i + 1;
    }
    if 2 * |players| <= |d| {
      DealtTwoFrom(players, holes, d);
    }
    SameStacks(players, stacks);
  }

  /** One turn of the dealing loop: up to two cards from the top of the
      deck go to `p`, the first card dealt first. */
  method DealTwoTo(p: Player, deck: Deck)
    modifies p, deck
    ensures |deck.cards| <= |old(deck.cards)|
    ensures deck.cards == old(deck.cards)[..|deck.cards|]
    ensures |old(deck.cards)| >= 2 ==>
              |deck.cards| == |old(deck.cards)| - 2 &&
              p.holeCards == old(p.holeCards) + [old(deck.cards)[|old(deck.cards)| - 1], old(deck.cards)[|old(deck.cards)| - 2]]
    ensures p.chips == old(p.chips) && p.currentBet == old(p.currentBet) && p.hasFolded == old(p.hasFolded)
  {
    var first := deck.Deal();
    if first.Some? {
      p.AddCard(first.value);
    }
    var second := deck.Deal();
    if second.Some? {
      p.AddCard(second.value);
    }
  }

  /** Hands that each gained their two cards are the dealt hands. */
  lemma DealtTwoFrom(players: seq<Player>, holes: seq<seq<Card>>, d: seq<Card>)
    requires |players| == |holes| && 2 * |holes| <= |d|
    requires forall i :: 0 <= i < |players| ==>
               players[i].holeCards == holes[i] + [d[|d| - 1 - 2 * i], d[|d| - 2 - 2 * i]]
    ensures HoleCardsOf(players) == DealtTwo(holes, d)
  {
  }

  /** Bets and folds that agree seat by seat give the same `BetsOf`. */
  lemma SameBets(players: seq<Player>, bets: seq<(nat, bool)>)
    requires |players| == |bets|
    requires forall i :: 0 <= i < |players| ==> bets[i] == (players[i].currentBet, players[i].hasFolded)
    ensures BetsOf(players) == bets
  {
  }

  /** Stacks that each kept their value are the old stacks. */
  lemma SameStacks(players: seq<Player>, stacks: seq<nat>)
    requires |players| == |stacks|
    requires forall i :: 0 <= i < |players| ==> players[i].chips == stacks[i]
    ensures ChipsOf(players) == stacks
  {
  }

  /** `count` community cards from the top of the deck, while it lasts:
      the cards dealt are the top of the deck in the order they are
      popped. */
  method DealCommunity(deck: Deck, data: GameData, count: nat)
    modifies deck, data
    ensures |deck.cards| <= |old(deck.cards)|
    ensures deck.cards == old(deck.cards)[..|deck.cards|]
    ensures |deck.cards| == |old(deck.cards)| - Min(count, |old(deck.cards)|)
    ensures data.communityCards == old(data.communityCards) + Reverse(old(deck.cards)[|deck.cards|..])
    ensures data.pot == old(data.pot) && data.currentBet == old(data.currentBet)
    ensures data.roundNumber == old(data.roundNumber) && data.currentPlayer == old(data.currentPlayer)
  {
    ghost var d := deck.cards;
    var i := 0;
    while i < count
      invariant 0 <= i <= count
      invariant |deck.cards| <= |d|
      invariant deck.cards == d[..|deck.cards|]
      invariant |deck.cards| == |d| - Min(i, |d|)
      invariant data.communityCards == old(data.communityCards) + Reverse(d[|deck.cards|..])
      invariant data.pot == old(data.pot) && data.currentBet == old(data.currentBet)
      invariant data.roundNumber == old(data.roundNumber) && data.currentPlayer == old(data.currentPlayer)
    {
      ghost var m := |deck.cards|;
      var card := deck.Deal();
      if card.Some? {
        data.communityCards := data.communityCards + [card.value];
        ReverseSnoc(d, m);
      }
      i := i + 1;
    }
  }

  /** Popping one more card extends the reversed suffix by that card. */
  lemma ReverseSnoc<T>(d: seq<T>, m: nat)
    requires 0 < m <= |d|
    ensures Reverse(d[m - 1..]) == Reverse(d[m..]) + [d[m - 1]]
  {
    var a, b := Reverse(d[m - 1..]), Reverse(d[m..]) + [d[m - 1]];
    assert |a| == |b|;
    forall k | 0 <= k < |a| ensures a[k] == b[k] {
      if k < |a| - 1 {
        assert a[k] == d[m - 1..][|d| - m - k];
      }
    }
  }

  /** What the showdown looks at in a seat: its id, whether it folded and
      its hole cards. */
  datatype SeatHand = SeatHand(id: nat, folded: bool, cards: seq<Card>)

  /** The showdown view of every seat, in order. */
  function Hands(players: seq<Player>): (h: seq<SeatHand>)
    reads players
    ensures |h| == |players|
    ensures forall i :: 0 <= i < |players| ==>
              h[i] == SeatHand(players[i].id, players[i].hasFolded, players[i].holeCards)
  {
    if players == [] then [] else [SeatHand(players[0].id, players[0].hasFolded, players[0].holeCards)] + Hands(players[1..])
  }

  /** A seat takes part in the showdown when it has not folded and holds
      cards. */
  predicate InShowdown(h: SeatHand)
  {
    !h.folded && h.cards != []
  }

  /** The `(id, evaluation)` list `determine_winner` builds, in seat
      order. */
  function Contenders(hands: seq<SeatHand>, community: seq<Card>): (c: seq<(nat, HandEvaluation)>)
    ensures |c| <= |hands|
    decreases |hands|
  {
    if hands == [] then []
    else
      var last := hands[|hands| - 1];
      var before := Contenders(hands[..|hands| - 1], community);
      if InShowdown(last) then before + [(last.id, EvaluateHand(last.cards, community))]
      else before
  }

  /** The list holds every seat in the showdown, and is empty only when no
      seat is in the showdown. */
  lemma {:induction false} ContendersContents(hands: seq<SeatHand>, community: seq<Card>)
    ensures forall i :: 0 <= i < |hands| && InShowdown(hands[i]) ==>
              (hands[i].id, EvaluateHand(hands[i].cards, community)) in Contenders(hands, community)
    ensures Contenders(hands, community) == [] <==> forall i :: 0 <= i < |hands| ==> !InShowdown(hands[i])
    decreases |hands|
  {
    if hands != [] {
      var init := hands[..|hands| - 1];
      var last := hands[|hands| - 1];
      ContendersContents(init, community);
      var before := Contenders(init, community);
      var c := Contenders(hands, community);
      ContendersGrow(hands, community);
      forall i | 0 <= i < |hands| && InShowdown(hands[i])
        ensures (hands[i].id, EvaluateHand(hands[i].cards, community)) in c
      {
        if i < |init| {
          assert hands[i] == init[i];
          InPrefixIn((hands[i].id, EvaluateHand(hands[i].cards, community)), before, c);
        } else {
          assert i == |hands| - 1;
        }
      }
    }
  }

  /** Adding a seat keeps the earlier list as a prefix, and appends the new
      seat when it is in the showdown. */
  lemma ContendersGrow(hands: seq<SeatHand>, community: seq<Card>)
    requires hands != []
    ensures Contenders(hands[..|hands| - 1], community) <= Contenders(hands, community)
    ensures InShowdown(hands[|hands| - 1]) ==>
              (hands[|hands| - 1].id, EvaluateHand(hands[|hands| - 1].cards, community)) in Contenders(hands, community)
  {
  }

  lemma InPrefixIn<T>(x: T, a: seq<T>, b: seq<T>)
    requires x in a && a <= b
    ensures x in b
  {
    var k :| 0 <= k < |a| && a[k] == x;
    assert b[k] == x;
  }

  /** The entry a stable sort from best to worst puts first: the earliest
      of the best evaluations. Scanning in order and replacing only on a
      strictly better evaluation finds it. */
  function FirstBest(entries: seq<(nat, HandEvaluation)>): (b: Option<(nat, HandEvaluation)>)
    decreases |entries|
  {
    if entries == [] then None
    else
      var prev := FirstBest(entries[..|entries| - 1]);
      var last := entries[|entries| - 1];
      if prev.None? || Compare(last.1, prev.value.1) == Greater then Some(last) else prev
  }

  /** `FirstBest` picks an entry whose evaluation no other beats, and every
      entry before it is strictly worse. */
  lemma {:induction false} FirstBestSpec(entries: seq<(nat, HandEvaluation)>)
    ensures FirstBest(entries).None? <==> entries == []
    ensures FirstBest(entries).Some? ==>
              exists w :: 0 <= w < |entries| && entries[w] == FirstBest(entries).value &&
                          forall j :: 0 <= j < w ==> Compare(entries[j].1, entries[w].1) == Less
    ensures FirstBest(entries).Some? ==>
              forall j :: 0 <= j < |entries| ==> Le(entries[j].1, FirstBest(entries).value.1)
    decreases |entries|
  {
    if entries != [] {
      var init := entries[..|entries| - 1];
      var last := entries[|entries| - 1];
      FirstBestSpec(init);
      var prev := FirstBest(init);
      var b := FirstBest(entries).value;
      if prev.None? {
        assert entries == [last];
        LeTotalOrder(last.1, last.1, last.1);
        assert entries[0] == b;
      } else if Compare(last.1, prev.value.1) == Greater {
        CompareAntisymmetric(last.1, prev.value.1);
        forall j | 0 <= j < |entries| ensures Le(entries[j].1, b.1) {
          if j < |init| {
            assert entries[j] == init[j];
            LeTotalOrder(entries[j].1, prev.value.1, last.1);
          } else {
            LeTotalOrder(last.1, last.1, last.1);
          }
        }
        forall j | 0 <= j < |entries| - 1 ensures Compare(entries[j].1, last.1) == Less {
          assert entries[j] == init[j];
          LeTotalOrder(entries[j].1, prev.value.1, last.1);
          CompareAntisymmetric(entries[j].1, last.1);
          CompareAntisymmetric(entries[j].1, prev.value.1);
          if Compare(entries[j].1, prev.value.1) == Less {
            CompareTransitive(entries[j].1, prev.value.1, last.1);
          }
        }
        assert entries[|entries| - 1] == b;
      } else {
        var w :| 0 <= w < |init| && init[w] == prev.value &&
                 forall j :: 0 <= j < w ==> Compare(init[j].1, init[w].1) == Less;
        assert entries[w] == b;
        forall j | 0 <= j < w ensures Compare(entries[j].1, entries[w].1) == Less {
          assert entries[j] == init[j];
        }
        forall j | 0 <= j < |entries| ensures Le(entries[j].1, b.1) {
          if j < |init| {
            assert entries[j] == init[j];
          } else {
            CompareAntisymmetric(last.1, prev.value.1);
          }
        }
      }
    }
  }

  /** The entry chosen is one of the entries. */
  lemma {:induction false} FirstBestMember(entries: seq<(nat, HandEvaluation)>)
    ensures FirstBest(entries).Some? ==> FirstBest(entries).value in entries
    decreases |entries|
  {
    if entries != [] {
      FirstBestMember(entries[..|entries| - 1]);
    }
  }

  /** The winner read straight off the seats: the earliest seat in the
      showdown whose evaluation no later seat beats strictly. */
  function ShowdownWinner(hands: seq<SeatHand>, community: seq<Card>): (w: Option<(nat, HandEvaluation)>)
    decreases |hands|
  {
    if hands == [] then None
    else
      var prev := ShowdownWinner(hands[..|hands| - 1], community);
      var last := hands[|hands| - 1];
      if !InShowdown(last) then prev
      else
        var e := EvaluateHand(last.cards, community);
        if prev.None? || Compare(e, prev.value.1) == Greater then Some((last.id, e)) else prev
  }

  /** Scanning the seats directly picks the same winner as collecting the
      list and taking its first best entry. */
  lemma {:induction false} ShowdownWinnerIsFirstBest(hands: seq<SeatHand>, community: seq<Card>)
    ensures ShowdownWinner(hands, community) == FirstBest(Contenders(hands, community))
    decreases |hands|
  {
    if hands != [] {
      var init := hands[..|hands| - 1];
      var last := hands[|hands| - 1];
      ShowdownWinnerIsFirstBest(init, community);
      if InShowdown(last) {
        var c := Contenders(hands, community);
        assert c[..|c| - 1] == Contenders(init, community);
      }
    }
  }

  /** There is a showdown winner exactly when some seat is in the
      showdown; it is one of those seats, with its own evaluation, and that
      evaluation is at least as good as every other seat's in the
      showdown. */
  lemma WinnerIsBest(hands: seq<SeatHand>, community: seq<Card>)
    ensures ShowdownWinner(hands, community).None? <==>
              forall i :: 0 <= i < |hands| ==> !InShowdown(hands[i])
    ensures ShowdownWinner(hands, community).Some? ==>
              var w := ShowdownWinner(hands, community).value;
              (exists j :: 0 <= j < |hands| && InShowdown(hands[j]) && hands[j].id == w.0 &&
                           EvaluateHand(hands[j].cards, community) == w.1) &&
              forall i :: 0 <= i < |hands| && InShowdown(hands[i]) ==>
                Le(EvaluateHand(hands[i].cards, community), w.1)
  {
    var c := Contenders(hands, community);
    ShowdownWinnerIsFirstBest(hands, community);
    ContendersContents(hands, community);
    FirstBestSpec(c);
    if c != [] {
      forall i | 0 <= i < |hands| && InShowdown(hands[i])
        ensures Le(EvaluateHand(hands[i].cards, community), FirstBest(c).value.1)
      {
        var e := (hands[i].id, EvaluateHand(hands[i].cards, community));
        var k :| 0 <= k < |c| && c[k] == e;
      }
      var w :| 0 <= w < |c| && c[w] == FirstBest(c).value;
      ContenderFrom(hands, community, w);
    }
  }

  /** Each entry of the list comes from a seat in the showdown. */
  lemma {:induction false} ContenderFrom(hands: seq<SeatHand>, community: seq<Card>, k: nat)
    requires k < |Contenders(hands, community)|
    ensures exists j :: 0 <= j < |hands| && InShowdown(hands[j]) &&
              (hands[j].id, EvaluateHand(hands[j].cards, community)) == Contenders(hands, community)[k]
    decreases |hands|
  {
    var init := hands[..|hands| - 1];
    var last := hands[|hands| - 1];
    var before := Contenders(init, community);
    if k < |before| {
      ContenderFrom(init, community, k);
      var j :| 0 <= j < |init| && InShowdown(init[j]) &&
               (init[j].id, EvaluateHand(init[j].cards, community)) == before[k];
      assert hands[j] == init[j];
    } else {
      assert InShowdown(hands[|hands| - 1]);
    }
  }

  /** The first loop of `determine_winner`: every seat in the showdown,
      in order, with its evaluation. */
  method CollectContenders(hands: seq<SeatHand>, community: seq<Card>)
    returns (evaluations: seq<(nat, HandEvaluation)>)
    ensures evaluations == Contenders(hands, community)
  {
    evaluations := [];
    var i := 0;
    while i < |hands|
      invariant 0 <= i <= |hands|
      invariant evaluations == Contenders(hands[..i], community)
    {
      assert hands[..i + 1][..i] == hands[..i];
      var h := hands[i];
      if !h.folded && h.cards != [] {
        evaluations := evaluations + [(h.id, EvaluateHand(h.cards, community))];
      }
      i := i + 1;
    }
    assert hands[..|hands|] == hands;
  }

  /** The head of the list after `sort_by` from best to worst, which is
      stable: the earliest of the best entries. */
  method SortedHead(evaluations: seq<(nat, HandEvaluation)>) returns (best: (nat, HandEvaluation))
    requires evaluations != []
    ensures Some(best) == FirstBest(evaluations)
  {
    best := evaluations[0];
    var k := 1;
    while k < |evaluations|
      invariant 1 <= k <= |evaluations|
      invariant Some(best) == FirstBest(evaluations[..k])
    {
      assert evaluations[..k + 1][..k] == evaluations[..k];
      if Compare(evaluations[k].1, best.1) == Greater {
        best := evaluations[k];
      }
      k := k + 1;
    }
    assert evaluations[..|evaluations|] == evaluations;
  }

  /** The payout of `determine_winner`: the first seat with the winner's
      id receives the pot; no other stack changes. */
  method PayWinner(players: seq<Player>, winnerId: nat, pot: nat)
    requires Distinct(players)
    requires winnerId in Ids(players)
    modifies players
    ensures SeatOfId(players, winnerId).Some?
    ensures ChipsOf(players) == Award(old(ChipsOf(players)), SeatOfId(players, winnerId), pot)
    ensures SeatsKeepHands(players)
  {
    ghost var before := ChipsOf(players);
    var seat := FindSeat(players, winnerId, false);
    SeatOfIdIsFirstSeat(players, winnerId);
    var t := seat.value;
    players[t].chips := players[t].chips + pot;
    ghost var after := ChipsOf(players);
    ghost var expected := Award(before, seat, pot);
    forall j | 0 <= j < |players| ensures after[j] == expected[j] {
      if j != t {
        assert players[j] != players[t];
      }
    }
    assert after == expected;
  }

  /** The end of `determine_winner` once a winner is known: the pot goes
      to the first seat with the winner's id and the button moves one
      seat. */
  method AwardPot(players: seq<Player>, winnerId: nat, pot: nat, position: GamePosition)
    requires position.totalPlayers > 0
    requires Distinct(players)
    requires winnerId in Ids(players)
    modifies players, position
    ensures position.totalPlayers == old(position.totalPlayers)
    ensures SeatOfId(players, winnerId).Some?
    ensures ChipsOf(players) == Award(old(ChipsOf(players)), SeatOfId(players, winnerId), pot)
    ensures position.dealerButton == SeatAfter(old(position.dealerButton), 1, position.totalPlayers)
    ensures SeatsKeepHands(players)
    ensures position.smallBlindAmount == old(position.smallBlindAmount)
    ensures position.bigBlindAmount == old(position.bigBlindAmount)
  {
    PayWinner(players, winnerId, pot);
    label Paid:
    ghost var paid := ChipsOf(players);
    position.AdvanceDealerButton();
    assert ChipsOf(players) == paid;
    forall i | 0 <= i < |players|
      ensures players[i].currentBet == old(players[i].currentBet)
      ensures players[i].hasFolded == old(players[i].hasFolded)
      ensures players[i].holeCards == old(players[i].holeCards)
    {
      assert players[i].holeCards == old@Paid(players[i].holeCards);
    }
  }

  /** `determine_winner`. With no seat in the showdown nothing changes, not
      even the button. Otherwise the whole of the hand's pot is added to
      the stack of the first seat carrying the winner's id, no other stack
      changes, and the button moves one seat. The query is read once, as
      the showdown view of each seat. */
  method DetermineWinner(players: seq<Player>, data: GameData, position: GamePosition)
    returns (winner: Option<(nat, HandEvaluation)>)
    requires position.totalPlayers > 0
    requires Distinct(players)
    modifies players, position
    ensures position.totalPlayers == old(position.totalPlayers)
    ensures winner == ShowdownWinner(old(Hands(players)), data.communityCards)
    ensures winner.None? ==> position.dealerButton == old(position.dealerButton)
    ensures winner.Some? ==> SeatOfId(players, winner.value.0).Some?
    ensures ChipsOf(players) == Award(old(ChipsOf(players)), if winner.Some? then SeatOfId(players, winner.value.0) else None, data.pot)
    ensures winner.Some? ==>
              position.dealerButton == SeatAfter(old(position.dealerButton), 1, position.totalPlayers)
    ensures SeatsKeepHands(players)
    ensures position.smallBlindAmount == old(position.smallBlindAmount)
    ensures position.bigBlindAmount == old(position.bigBlindAmount)
  {
    var hands := Hands(players);
    winner := ChooseWinner(hands, data.communityCards);
    if winner.None? {
      return;
    }
    label Chosen:
    AwardPot(players, winner.value.0, data.pot, position);
    forall i | 0 <= i < |players|
      ensures players[i].currentBet == old(players[i].currentBet)
      ensures players[i].hasFolded == old(players[i].hasFolded)
      ensures players[i].holeCards == old(players[i].holeCards)
    {
      assert players[i].holeCards == old@Chosen(players[i].holeCards);
    }
  }

  /** The evaluation part of `determine_winner`: collect, then take the
      head of the sorted list. The winner's id is the id of some seat. */
  method ChooseWinner(hands: seq<SeatHand>, community: seq<Card>) returns (winner: Option<(nat, HandEvaluation)>)
    ensures winner == ShowdownWinner(hands, community)
    ensures winner.Some? ==> exists j :: 0 <= j < |hands| && hands[j].id == winner.value.0
  {
    var evaluations := CollectContenders(hands, community);
    ShowdownWinnerIsFirstBest(hands, community);
    if evaluations == [] {
      return None;
    }
    var best := SortedHead(evaluations);
    winner := Some(best);
    FirstBestMember(evaluations);
    ghost var w :| 0 <= w < |evaluations| && evaluations[w] == best;
    ContenderFrom(hands, community, w);
  }
}
