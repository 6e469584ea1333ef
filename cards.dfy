/** Playing cards and the 52-card deck (src/cards.rs).
    `Suit`, `Rank` and `Card` are plain values; `Deck` is an object whose
    card list is rebuilt, shuffled and dealt from in place. */
module Cards {
  import opened Common

  datatype Suit = Hearts | Diamonds | Clubs | Spades

  /** The thirteen ranks in declaration order; the derived ordering of the
      source follows that order and `rank as u8` yields `Value()`. */
  datatype Rank = Two | Three | Four | Five | Six | Seven | Eight | Nine | Ten
                | Jack | Queen | King | Ace
  {
    function Value(): (v: nat)
      ensures 2 <= v <= 14
      ensures v == 14 <==> this == Ace
    {
      match this
      case Two => 2
      case Three => 3
      case Four => 4
      case Five => 5
      case Six => 6
      case Seven => 7
      case Eight => 8
      case Nine => 9
      case Ten => 10
      case Jack => 11
      case Queen => 12
      case King => 13
      case Ace => 14
    }
  }

  datatype Card = Card(suit: Suit, rank: Rank)

  /** Suits and ranks in the order the default deck is built. */
  const AllSuits: seq<Suit> := [Hearts, Diamonds, Clubs, Spades]
  const AllRanks: seq<Rank> := [Two, Three, Four, Five, Six, Seven, Eight, Nine, Ten,
                                Jack, Queen, King, Ace]

  /** Every rank is listed once, in increasing value, so the value of a rank
      identifies it and the declaration order is the numeric order. */
  lemma RankOrder()
    ensures |AllRanks| == 13
    ensures forall i :: 0 <= i < 13 ==> AllRanks[i].Value() == i + 2
    ensures forall r: Rank :: AllRanks[r.Value() - 2] == r
    ensures forall r1: Rank, r2: Rank :: r1.Value() == r2.Value() ==> r1 == r2
  {
    forall r: Rank ensures AllRanks[r.Value() - 2] == r {
      match r
      case Two => case Three => case Four => case Five => case Six =>
      case Seven => case Eight => case Nine => case Ten => case Jack =>
      case Queen => case King => case Ace =>
    }
  }

  /** The thirteen cards of one suit, Two to Ace. */
  function SuitRun(s: Suit): (run: seq<Card>)
    ensures |run| == 13
    ensures forall c :: c in run ==> c.suit == s
  {
    seq(13, i requires 0 <= i < 13 => Card(s, AllRanks[i]))
  }

  /** A suit's run holds exactly the cards of that suit, each once. */
  lemma SuitRunContents(s: Suit)
    ensures forall c: Card :: c in SuitRun(s) <==> c.suit == s
    ensures Distinct(SuitRun(s))
  {
    RankOrder();
    var run := SuitRun(s);
    forall c: Card | c.suit == s ensures c in run {
      assert run[c.rank.Value() - 2] == c;
    }
    forall i, j | 0 <= i < j < |run| ensures run[i] != run[j] {
      assert run[i].rank.Value() == i + 2 && run[j].rank.Value() == j + 2;
    }
  }

  /** The first `k` suit runs of the default deck. */
  function DeckPrefix(k: nat): (d: seq<Card>)
    requires k <= 4
    ensures |d| == 13 * k
  {
    if k == 0 then [] else DeckPrefix(k - 1) + SuitRun(AllSuits[k - 1])
  }

  /** `Deck::default`: for each suit in turn, every rank in turn. */
  function FullDeck(): (d: seq<Card>)
    ensures |d| == 52
  {
    DeckPrefix(4)
  }

  /** A card is among the first `k` runs exactly when its suit is among the
      first `k` suits, and those runs hold no card twice. */
  lemma {:induction false} DeckPrefixContents(k: nat)
    requires k <= 4
    ensures forall c :: c in DeckPrefix(k) <==> c.suit in AllSuits[..k]
    ensures Distinct(DeckPrefix(k))
  {
    if k > 0 {
      DeckPrefixContents(k - 1);
      var a, b := DeckPrefix(k - 1), SuitRun(AllSuits[k - 1]);
      assert AllSuits[..k] == AllSuits[..k - 1] + [AllSuits[k - 1]];
      assert AllSuits[k - 1] !in AllSuits[..k - 1];
      SuitRunContents(AllSuits[k - 1]);
      forall i, j | 0 <= i < j < |a + b| ensures (a + b)[i] != (a + b)[j] {
        if i < |a| && j >= |a| {
          assert (a + b)[i] in a && (a + b)[j] in b;
        }
      }
    }
  }

  /** The default deck holds 52 distinct cards, every card among them, and
      thirteen of each suit. */
  lemma FullDeckComplete()
    ensures |FullDeck()| == 52
    ensures Distinct(FullDeck())
    ensures forall c: Card :: c in FullDeck()
    ensures forall s: Suit :: CountSuit(FullDeck(), s) == 13
  {
    FullDeckCovers();
    FullDeckSuits();
  }

  lemma FullDeckCovers()
    ensures Distinct(FullDeck())
    ensures forall c: Card :: c in FullDeck()
  {
    DeckPrefixContents(4);
    assert AllSuits[..4] == AllSuits;
    forall c: Card ensures c in FullDeck() {
      match c.suit
      case Hearts => assert c.suit == AllSuits[0];
      case Diamonds => assert c.suit == AllSuits[1];
      case Clubs => assert c.suit == AllSuits[2];
      case Spades => assert c.suit == AllSuits[3];
    }
  }

  /** The default deck is the four suit runs, hearts first. */
  lemma FullDeckRuns()
    ensures FullDeck() == SuitRun(Hearts) + SuitRun(Diamonds) + SuitRun(Clubs) + SuitRun(Spades)
  {
    assert DeckPrefix(1) == SuitRun(Hearts);
  }

  lemma FullDeckSuits()
    ensures forall s: Suit :: CountSuit(FullDeck(), s) == 13
  {
    FullDeckRuns();
    forall s: Suit ensures CountSuit(FullDeck(), s) == 13 {
      RunsCount(SuitRun(Hearts), SuitRun(Diamonds), SuitRun(Clubs), SuitRun(Spades), s);
    }
  }

  /** Four runs of thirteen, one per suit, hold thirteen of each suit. */
  lemma RunsCount(r0: seq<Card>, r1: seq<Card>, r2: seq<Card>, r3: seq<Card>, s: Suit)
    requires r0 == SuitRun(Hearts) && r1 == SuitRun(Diamonds)
    requires r2 == SuitRun(Clubs) && r3 == SuitRun(Spades)
    ensures CountSuit(r0 + r1 + r2 + r3, s) == 13
  {
    CountSuitAppend(r0, r1, s);
    CountSuitAppend(r0 + r1, r2, s);
    CountSuitAppend(r0 + r1 + r2, r3, s);
    CountSuitUniform(r0, Hearts, s);
    CountSuitUniform(r1, Diamonds, s);
    CountSuitUniform(r2, Clubs, s);
    CountSuitUniform(r3, Spades, s);
  }

  /** Number of cards of suit `s`. */
  function CountSuit(cards: seq<Card>, s: Suit): (n: nat)
    ensures n <= |cards|
  {
    if cards == [] then 0
    else (if cards[0].suit == s then 1 else 0) + CountSuit(cards[1..], s)
  }

  lemma {:induction false} CountSuitAppend(a: seq<Card>, b: seq<Card>, s: Suit)
    ensures CountSuit(a + b, s) == CountSuit(a, s) + CountSuit(b, s)
  {
    if a == [] {
      assert a + b == b;
    } else {
      assert (a + b)[0] == a[0];
      assert (a + b)[1..] == a[1..] + b;
      CountSuitAppend(a[1..], b, s);
    }
  }

  lemma {:induction false} CountSuitUniform(a: seq<Card>, t: Suit, s: Suit)
    requires forall c :: c in a ==> c.suit == t
    ensures CountSuit(a, s) == if s == t then |a| else 0
  {
    if a != [] {
      assert a[0] in a;
      CountSuitUniform(a[1..], t, s);
    }
  }

  /** Any rearrangement of the default deck (what `reset` leaves behind) is
      again 52 distinct cards holding every card. */
  lemma ShuffledDeckComplete(cards: seq<Card>)
    requires multiset(cards) == multiset(FullDeck())
    ensures |cards| == 52
    ensures Distinct(cards)
    ensures forall c: Card :: c in cards
  {
    FullDeckComplete();
    assert |cards| == |multiset(cards)| == |multiset(FullDeck())|;
    DistinctPermutation(FullDeck(), cards);
    forall c: Card ensures c in cards {
      assert c in FullDeck();
      assert c in multiset(FullDeck());
    }
  }

  /** The deck: the top of the deck is the end of `cards`. */
  class Deck {
    var cards: seq<Card>

    /** `Deck::default`, built suit by suit and rank by rank. */
    constructor()
      ensures cards == FullDeck()
    {
      var built: seq<Card> := [];
      var si := 0;
      while si < 4
        invariant 0 <= si <= 4
        invariant built == DeckPrefix(si)
      {
        var ri := 0;
        while ri < 13
          invariant 0 <= ri <= 13
          invariant built == DeckPrefix(si) + SuitRun(AllSuits[si])[..ri]
        {
          assert SuitRun(AllSuits[si])[..ri + 1] == SuitRun(AllSuits[si])[..ri] + [Card(AllSuits[si], AllRanks[ri])];
          built := built + [Card(AllSuits[si], AllRanks[ri])];
          ri := ri + 1;
        }
        assert SuitRun(AllSuits[si])[..13] == SuitRun(AllSuits[si]);
        si := si + 1;
      }
      cards := built;
    }

    /** `shuffle`: a Fisher–Yates pass. The random generator is not modelled:
        each swap partner is an arbitrary index not above the current one, so
        the contract covers every outcome the generator could produce. */
    method Shuffle()
      modifies this
      ensures |cards| == |old(cards)|
      ensures multiset(cards) == multiset(old(cards))
    {
      var a := cards;
      var i := |a|;
      while i > 1
        invariant 0 <= i <= |a|
        invariant |a| == |old(cards)|
        invariant multiset(a) == multiset(old(cards))
      {
        i := i - 1;
        var j :| 0 <= j <= i;
        a := a[i := a[j]][j := a[i]];
      }
      cards := a;
    }

    /** `deal`: takes the top card, or nothing from an empty deck. */
    method Deal() returns (card: Option<Card>)
      modifies this
      ensures old(cards) == [] ==> card == None && cards == []
      ensures old(cards) != [] ==> card.Some? && old(cards) == cards + [card.value]
    {
      if cards == [] {
        card := None;
      } else {
        card := Some(cards[|cards| - 1]);
        cards := cards[..|cards| - 1];
      }
    }

    /** `reset`: a fresh default deck, shuffled. */
    method Reset()
      modifies this
      ensures multiset(cards) == multiset(FullDeck())
    {
      var rebuilt := new Deck();
      cards := rebuilt.cards;
      Shuffle();
    }
  }
}
