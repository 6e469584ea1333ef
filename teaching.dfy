/** The tutorial's state (src/teaching.rs): explanations, learning tips
    shown at most once, the change detection that keeps the "your turn"
    hint from repeating, and the starting-hand classifier. */
module Teaching {
  import opened Common
  import opened Cards
  import opened GameStates
  import opened Players
  import AiPlayer

  /** `ExplanationType`. */
  datatype ExplanationType = HandRanking(msg: string) | BettingRule(msg: string)
                           | GamePhase(msg: string) | PlayerAction(msg: string)
                           | Mistake(msg: string)

  /** The label put in front of each kind of explanation. */
  function Prefix(e: ExplanationType): (p: string)
    ensures |p| > 0
  {
    match e
    case HandRanking(_) => "\U{1F0CF} Hand Ranking: "
    case BettingRule(_) => "\U{1F4B0} Betting Rule: "
    case GamePhase(_) => "\U{1F3AE} Game Phase: "
    case PlayerAction(_) => "\U{1F3AF} Player Action: "
    case Mistake(_) => "\U{26A0}\U{FE0F} Learning Tip: "
  }

  /** Different kinds of explanation get different labels, so the label
      tells the reader what kind of explanation follows. */
  lemma PrefixInjective(a: ExplanationType, b: ExplanationType)
    requires Prefix(a) == Prefix(b)
    ensures a.HandRanking? == b.HandRanking? && a.BettingRule? == b.BettingRule?
    ensures a.GamePhase? == b.GamePhase? && a.PlayerAction? == b.PlayerAction?
    ensures a.Mistake? == b.Mistake?
  {
  }

  /** The hint shown when it is the human's turn to bet. */
  const YourTurnMessage: string :=
    "\U{1F4A1} Your Turn!\nOptions:\n\U{2022} FOLD - Quit this hand\n\U{2022} CHECK/CALL - Match current bet\n\U{2022} RAISE - Increase the bet"

  /** The list of tips already shown after `msg` is offered: appended once,
      never twice. */
  function RecordMistake(shown: seq<string>, msg: string): (r: seq<string>)
    ensures msg in r
    ensures msg in shown ==> r == shown
    ensures msg !in shown ==> r == shown + [msg]
    ensures Distinct(shown) ==> Distinct(r)
  {
    if msg in shown then shown else shown + [msg]
  }

  /** Recording the same tip again changes nothing. */
  lemma RecordMistakeIdempotent(shown: seq<string>, msg: string)
    ensures RecordMistake(RecordMistake(shown, msg), msg) == RecordMistake(shown, msg)
  {
  }

  /** `TeachingState`. */
  class TeachingState {
    var tutorialMode: bool
    var showHandRankings: bool
    var showRulePopup: bool
    var currentExplanation: Option<string>
    var mistakesShown: seq<string>
    var lastGameState: Option<GameState>
    var lastCurrentPlayer: Option<nat>
    var messagesShownThisState: set<string>

    /** `TeachingState::default`: tutorial on, nothing shown yet. */
    constructor Default()
      ensures tutorialMode && !showHandRankings && !showRulePopup
      ensures currentExplanation == None && mistakesShown == []
      ensures lastGameState == None && lastCurrentPlayer == None
      ensures messagesShownThisState == {}
    {
      tutorialMode := true;
      showHandRankings := false;
      showRulePopup := false;
      currentExplanation := None;
      mistakesShown := [];
      lastGameState := None;
      lastCurrentPlayer := None;
      messagesShownThisState := {};
    }

    /** `show_explanation`: shows the labelled message and raises the
        popup, except that a tip already shown once is ignored. */
    method ShowExplanation(e: ExplanationType)
      modifies this
      ensures mistakesShown == (if e.Mistake? then RecordMistake(old(mistakesShown), e.msg) else old(mistakesShown))
      ensures Distinct(old(mistakesShown)) ==> Distinct(mistakesShown)
      ensures e.Mistake? && e.msg in old(mistakesShown) ==>
                currentExplanation == old(currentExplanation) && showRulePopup == old(showRulePopup)
      ensures !(e.Mistake? && e.msg in old(mistakesShown)) ==>
                currentExplanation == Some(Prefix(e) + e.msg) && showRulePopup
      ensures tutorialMode == old(tutorialMode) && showHandRankings == old(showHandRankings)
      ensures lastGameState == old(lastGameState) && lastCurrentPlayer == old(lastCurrentPlayer)
      ensures messagesShownThisState == old(messagesShownThisState)
    {
      match e
      case Mistake(msg) =>
        if msg !in mistakesShown {
          currentExplanation := Some(Prefix(e) + msg);
          showRulePopup := true;
          mistakesShown := mistakesShown + [msg];
        }
      case _ =>
        currentExplanation := Some(Prefix(e) + e.msg);
        showRulePopup := true;
    }

    /** The state-tracking part of `highlight_valid_actions`: with the
        tutorial off, or when neither the phase nor the current player has
        changed, nothing happens. Otherwise both are recorded, the set of
        hints shown in this phase is emptied if the phase changed, and in a
        betting phase the "your turn" hint is recorded as shown when the
        first human seat is still in the hand with chips and the current
        player is seat 0. Returns whether the tracked state changed. */
    method HighlightValidActions(phase: GameState, currentPlayer: nat, players: seq<Player>)
      returns (changed: bool)
      modifies this
      ensures changed <==> old(tutorialMode) &&
                           (old(lastGameState) != Some(phase) || old(lastCurrentPlayer) != Some(currentPlayer))
      ensures !changed ==> lastGameState == old(lastGameState) && lastCurrentPlayer == old(lastCurrentPlayer) &&
                           messagesShownThisState == old(messagesShownThisState)
      ensures changed ==> lastGameState == Some(phase) && lastCurrentPlayer == Some(currentPlayer)
      ensures changed ==>
                var kept := if old(lastGameState) != Some(phase) then {} else old(messagesShownThisState);
                messagesShownThisState ==
                  (if IsBettingPhase(phase) && HumanToAct(players, currentPlayer)
                   then kept + {YourTurnMessage} else kept)
      ensures tutorialMode == old(tutorialMode) && mistakesShown == old(mistakesShown)
      ensures currentExplanation == old(currentExplanation) && showRulePopup == old(showRulePopup)
      ensures showHandRankings == old(showHandRankings)
    {
      if !tutorialMode {
        return false;
      }
      var stateChanged := lastGameState != Some(phase);
      var playerChanged := lastCurrentPlayer != Some(currentPlayer);
      if !stateChanged && !playerChanged {
        return false;
      }
      lastGameState := Some(phase);
      lastCurrentPlayer := Some(currentPlayer);
      if stateChanged {
        messagesShownThisState := {};
      }
      if IsBettingPhase(phase) && HumanToAct(players, currentPlayer) {
        if YourTurnMessage !in messagesShownThisState {
          messagesShownThisState := messagesShownThisState + {YourTurnMessage};
        }
      }
      return true;
    }
  }

  /** The first human seat, if any. */
  function FirstHuman(players: seq<Player>): (k: Option<nat>)
    ensures k.Some? ==> k.value < |players| && players[k.value].kind == Human
    ensures k.Some? ==> forall j :: 0 <= j < k.value ==> players[j].kind != Human
    ensures k.None? ==> forall j :: 0 <= j < |players| ==> players[j].kind != Human
    decreases |players|
  {
    if players == [] then None
    else if players[0].kind == Human then Some(0)
    else
      var rest := FirstHuman(players[1..]);
      if rest.None? then None else Some(rest.value + 1)
  }

  /** The hint applies: the first human seat has not folded, still has
      chips, and the current player is seat 0. */
  predicate HumanToAct(players: seq<Player>, currentPlayer: nat)
    reads players
  {
    var k := FirstHuman(players);
    k.Some? && !players[k.value].hasFolded && players[k.value].chips > 0 && currentPlayer == 0
  }

  /** The verdict of `analyze_starting_hand_ui`, without its wording. */
  datatype StartingHand =
    | Waiting
    | ExcellentPair(pair: Rank)
    | GoodPair(pair: Rank)
    | SmallPair(pair: Rank)
    | ExcellentAce(low: Rank, suited: bool)
    | GoodAce(low: Rank, suited: bool)
    | MarginalAce(low: Rank, suited: bool)
    | GoodBroadway(high: Rank, low: Rank, suited: bool)
    | SuitedDraw(high: Rank, low: Rank)
    | WeakHand(high: Rank, low: Rank, suited: bool)

  /** `analyze_starting_hand_ui`. */
  function AnalyzeStartingHand(hole: seq<Card>): (v: StartingHand)
    ensures |hole| != 2 <==> v == Waiting
    ensures |hole| == 2 && hole[0].rank == hole[1].rank ==>
              var r := hole[0].rank.Value();
              (r >= 11 <==> v.ExcellentPair?) && (8 <= r <= 10 <==> v.GoodPair?) && (r <= 7 <==> v.SmallPair?)
    ensures |hole| == 2 && hole[0].rank != hole[1].rank ==>
              var hi := Max(hole[0].rank.Value(), hole[1].rank.Value());
              var lo := Min(hole[0].rank.Value(), hole[1].rank.Value());
              var suited := hole[0].suit == hole[1].suit;
              (v.ExcellentAce? <==> hi == 14 && lo >= 10) &&
              (v.GoodAce? <==> hi == 14 && 7 <= lo < 10) &&
              (v.MarginalAce? <==> hi == 14 && lo < 7) &&
              (v.GoodBroadway? <==> hi < 14 && hi >= 12 && lo >= 10) &&
              (v.SuitedDraw? <==> hi < 14 && !(hi >= 12 && lo >= 10) && suited && hi - lo <= 4) &&
              (v.WeakHand? <==> hi < 14 && !(hi >= 12 && lo >= 10) && !(suited && hi - lo <= 4))
  {
    if |hole| != 2 then Waiting
    else
      var c1, c2 := hole[0], hole[1];
      if c1.rank == c2.rank then
        match c1.rank
        case Ace | King | Queen | Jack => ExcellentPair(c1.rank)
        case Ten | Nine | Eight => GoodPair(c1.rank)
        case _ => SmallPair(c1.rank)
      else
        var high := if c1.rank.Value() > c2.rank.Value() then c1.rank else c2.rank;
        var low := if c1.rank.Value() < c2.rank.Value() then c1.rank else c2.rank;
        var suited := c1.suit == c2.suit;
        if high == Ace then
          if low.Value() >= Ten.Value() then ExcellentAce(low, suited)
          else if low.Value() >= Seven.Value() then GoodAce(low, suited)
          else MarginalAce(low, suited)
        else if high.Value() >= Queen.Value() && low.Value() >= Ten.Value() then GoodBroadway(high, low, suited)
        else if suited && high.Value() - low.Value() <= 4 then SuitedDraw(high, low)
        else WeakHand(high, low, suited)
  }

  /** The teacher and the AI agree at the extremes: a hand the teacher
      calls weak is weak to the AI, a hand the AI calls strong the teacher
      calls excellent or good, and no pair the teacher calls excellent is
      less than strong to the AI. */
  lemma TeacherAgreesWithAi(hole: seq<Card>)
    ensures AnalyzeStartingHand(hole).WeakHand? ==> AiPlayer.PreflopStrength(hole) == AiPlayer.Weak
    ensures AnalyzeStartingHand(hole).ExcellentPair? ==> AiPlayer.PreflopStrength(hole) == AiPlayer.Strong
    ensures AiPlayer.PreflopStrength(hole) == AiPlayer.Strong ==>
              AnalyzeStartingHand(hole).ExcellentPair? || AnalyzeStartingHand(hole).GoodPair?
  {
  }
}
