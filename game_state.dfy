/** Phases of a hand, the per-hand data and the dealer position
    (src/game_state.rs). */
module GameStates {
  import opened Cards

  /** `GameState`: the phases of one hand, in the order they are played. */
  datatype GameState = Setup | Dealing | PreFlop | Flop | Turn | River | Showdown | GameOver

  /** The four phases in which players bet. */
  predicate IsBettingPhase(s: GameState)
  {
    s == PreFlop || s == Flop || s == Turn || s == River
  }

  /** `GameData`: the pot, bet and community cards of the hand in play. */
  class GameData {
    var currentPlayer: nat
    var pot: nat
    var currentBet: nat
    var communityCards: seq<Card>
    var roundNumber: nat

    /** `GameData::default`: the first round, nothing on the table. */
    constructor Default()
      ensures currentPlayer == 0 && pot == 0 && currentBet == 0
      ensures communityCards == [] && roundNumber == 1
    {
      currentPlayer := 0;
      pot := 0;
      currentBet := 0;
      communityCards := [];
      roundNumber := 1;
    }

    /** `new_round`: the next round starts with an empty table. */
    method NewRound()
      modifies this
      ensures roundNumber == old(roundNumber) + 1
      ensures pot == 0 && currentBet == 0 && communityCards == [] && currentPlayer == 0
    {
      roundNumber := roundNumber + 1;
      pot := 0;
      currentBet := 0;
      communityCards := [];
      currentPlayer := 0;
    }
  }

  /** The seat `k` places after `dealer` around a table of `n` seats. */
  function SeatAfter(dealer: nat, k: nat, n: nat): (seat: nat)
    requires n > 0
    ensures seat < n
  {
    (dealer + k) % n
  }

  /** The button after `k` single-seat moves. */
  function ButtonAfter(dealer: nat, n: nat, k: nat): (seat: nat)
    requires n > 0
    ensures seat < n
  {
    if k == 0 then dealer % n else (ButtonAfter(dealer, n, k - 1) + 1) % n
  }

  /** `k` single moves of the button are one move by `k` seats. */
  lemma {:induction false} ButtonAfterIsSeatAfter(dealer: nat, n: nat, k: nat)
    requires n > 0
    ensures ButtonAfter(dealer, n, k) == SeatAfter(dealer, k, n)
  {
    if k > 0 {
      ButtonAfterIsSeatAfter(dealer, n, k - 1);
      var prev := ButtonAfter(dealer, n, k - 1);
      assert prev == (dealer + (k - 1)) % n;
      ModSucc(dealer + (k - 1), n);
      assert ButtonAfter(dealer, n, k) == (prev + 1) % n;
    }
  }

  /** After `n` moves the button is back where it started. */
  lemma ButtonGoesRound(dealer: nat, n: nat)
    requires n > 0
    ensures ButtonAfter(dealer, n, n) == dealer % n
  {
    ButtonAfterIsSeatAfter(dealer, n, n);
    ModAddModulus(dealer, n);
  }

  lemma ModSucc(a: nat, n: nat)
    requires n > 0
    ensures (a % n + 1) % n == (a + 1) % n
  {
    var q, r := a / n, a % n;
    if r + 1 == n {
      ModUnique(a + 1, n, q + 1, 0);
      ModUnique(r + 1, n, 1, 0);
    } else {
      ModUnique(a + 1, n, q, r + 1);
      ModUnique(r + 1, n, 0, r + 1);
    }
  }

  lemma ModAddModulus(a: nat, n: nat)
    requires n > 0
    ensures (a + n) % n == a % n
  {
    ModUnique(a + n, n, a / n + 1, a % n);
  }

  /** Euclidean division has one quotient and remainder. */
  lemma ModUnique(a: int, n: int, q: int, r: int)
    requires n > 0 && 0 <= r < n && a == q * n + r
    ensures a / n == q && a % n == r
  {
    var q0, r0 := a / n, a % n;
    assert a == q0 * n + r0;
    assert (q - q0) * n == r0 - r by {
      assert q * n - q0 * n == (q - q0) * n;
    }
    if q > q0 {
      MulAtLeast(q - q0, n);
    } else if q < q0 {
      MulAtLeast(q0 - q, n);
    }
  }

  lemma MulAtLeast(x: int, n: int)
    requires x >= 1 && n > 0
    ensures x * n >= n
  {
  }

  /** `GamePosition`: who holds the button, the blind sizes and the number
      of seats. */
  class GamePosition {
    var dealerButton: nat
    var smallBlindAmount: nat
    var bigBlindAmount: nat
    var totalPlayers: nat

    /** `GamePosition::default`: button on seat 0, blinds 10 and 20, three
        players. */
    constructor Default()
      ensures dealerButton == 0 && smallBlindAmount == 10 && bigBlindAmount == 20
      ensures totalPlayers == 3
    {
      dealerButton := 0;
      smallBlindAmount := 10;
      bigBlindAmount := 20;
      totalPlayers := 3;
    }

    /** `get_small_blind_player`: the seat after the button (the remainder
        panics on a table of no seats). */
    function SmallBlindPlayer(): (seat: nat)
      reads this
      requires totalPlayers > 0
      ensures seat == SeatAfter(dealerButton, 1, totalPlayers)
    {
      (dealerButton + 1) % totalPlayers
    }

    /** `get_big_blind_player`: two seats after the button. */
    function BigBlindPlayer(): (seat: nat)
      reads this
      requires totalPlayers > 0
      ensures seat == SeatAfter(dealerButton, 2, totalPlayers)
    {
      (dealerButton + 2) % totalPlayers
    }

    /** `advance_dealer_button`: one seat on, wrapping at the table size. */
    method AdvanceDealerButton()
      requires totalPlayers > 0
      modifies this
      ensures totalPlayers == old(totalPlayers)
      ensures dealerButton == SeatAfter(old(dealerButton), 1, totalPlayers)
      ensures dealerButton < totalPlayers
      ensures smallBlindAmount == old(smallBlindAmount) && bigBlindAmount == old(bigBlindAmount)
    {
      dealerButton := (dealerButton + 1) % totalPlayers;
    }
  }

  /** Moving the button one seat makes the old big-blind seat the new
      small-blind seat. */
  lemma BlindsRotate(dealer: nat, n: nat)
    requires n > 0
    ensures SeatAfter(SeatAfter(dealer, 1, n), 1, n) == SeatAfter(dealer, 2, n)
  {
    ModSucc(dealer + 1, n);
  }

  /** With the default three seats and the button on seat 0 the blinds are
      seats 1 and 2, and three moves of the button bring it back to 0. */
  lemma DefaultTable()
    ensures SeatAfter(0, 1, 3) == 1 && SeatAfter(0, 2, 3) == 2
    ensures ButtonAfter(0, 3, 1) == 1 && ButtonAfter(0, 3, 2) == 2 && ButtonAfter(0, 3, 3) == 0
  {
  }
}
