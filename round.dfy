/**
 * The round state of the Janken component: four state slots, the two handlers
 * that update them, and what runs of handler calls do to them.
 */
module Round {
  import opened Wrappers
  import opened Rules

  /** A snapshot of the four state slots. */
  datatype RoundState = RoundState(
    playerChoice: Choice,
    computerChoice: Choice,
    result: Result,
    showResult: bool)

  datatype Phase = AwaitingChoice | ShowingResult

  /** The values the four slots start with. */
  const Initial := RoundState(None, None, None, false)

  /** The choice prompt is shown while `showResult` is false, the result otherwise. */
  function PhaseOf(s: RoundState): Phase {
    if s.showResult then ShowingResult else AwaitingChoice
  }

  /** All four slots are filled together or empty together. */
  predicate Consistent(s: RoundState) {
    && (s.showResult <==> s.result.Some?)
    && (s.result.Some? <==> s.computerChoice.Some?)
    && (s.computerChoice.Some? <==> s.playerChoice.Some?)
  }

  /** A consistent state is either the initial one or a completed round. */
  lemma ConsistentStates(s: RoundState)
    requires Consistent(s)
    ensures PhaseOf(s) == AwaitingChoice <==> s == Initial
  {
  }

  // ---------------------------------------------------------------------------
  // The two handlers, on snapshots.
  // ---------------------------------------------------------------------------

  /** The slots after `handleChoice(choice)` when the opponent draws `randomIndex`. */
  function AfterChoice(choice: Choice, randomIndex: RandomIndex): (t: RoundState)
    ensures t.playerChoice == choice
    ensures t.computerChoice.Some? && t.computerChoice in Choices
    ensures t.result == Some(DetermineWinner(choice, t.computerChoice))
    ensures PhaseOf(t) == ShowingResult
    ensures choice.Some? <==> Consistent(t)
  {
    var computerSelection := RandomChoice(randomIndex);
    RoundState(choice, computerSelection, Some(DetermineWinner(choice, computerSelection)), true)
  }

  /** The slots after `resetGame()`: the initial ones, whatever came before. */
  function AfterReset(s: RoundState): (t: RoundState)
    ensures t.playerChoice.None? && t.computerChoice.None? && t.result.None?
    ensures PhaseOf(t) == AwaitingChoice && Consistent(t)
  {
    Initial
  }

  /** Resetting twice is resetting once; resetting the initial state changes nothing. */
  lemma ResetIdempotent(s: RoundState)
    ensures AfterReset(AfterReset(s)) == AfterReset(s)
    ensures AfterReset(Initial) == Initial
  {
  }

  /** With a forced opponent the scenarios of the game come out as the table says. */
  lemma ForcedOpponentScenarios()
    ensures AfterChoice(Some(Rock), IndexOf(Scissors)).result == Some(Win)
    ensures AfterChoice(Some(Paper), IndexOf(Paper)).result == Some(Draw)
    ensures AfterChoice(Some(Scissors), IndexOf(Rock)).result == Some(Lose)
  {
  }

  // ---------------------------------------------------------------------------
  // Runs of handler calls.
  // ---------------------------------------------------------------------------

  /** One call of a handler; `Choose` carries the index the opponent draws. */
  datatype Event = Choose(choice: Choice, randomIndex: RandomIndex) | Reset

  function Step(s: RoundState, e: Event): RoundState {
    match e
    case Choose(c, i) => AfterChoice(c, i)
    case Reset => AfterReset(s)
  }

  /** The state after the handler calls `events`, in order, starting from `s`. */
  function Run(s: RoundState, events: seq<Event>): RoundState
    decreases |events|
  {
    if events == [] then s else Run(Step(s, events[0]), events[1..])
  }

  /** Every `Choose` of the run passes an actual gesture. */
  predicate ChoosesGestures(events: seq<Event>) {
    forall k :: 0 <= k < |events| ==> events[k].Choose? ==> events[k].choice.Some?
  }

  /** Running `a` then `b` is running `a + b`. */
  lemma {:induction false} RunAppend(s: RoundState, a: seq<Event>, b: seq<Event>)
    ensures Run(s, a + b) == Run(Run(s, a), b)
    decreases |a|
  {
    if a != [] {
      assert (a + b)[0] == a[0];
      assert (a + b)[1..] == a[1..] + b;
      RunAppend(Step(s, a[0]), a[1..], b);
    } else {
      assert a + b == b;
    }
  }

  /** Handler calls that pass actual gestures keep the four slots consistent. */
  lemma {:induction false} RunKeepsConsistent(s: RoundState, events: seq<Event>)
    requires Consistent(s)
    requires ChoosesGestures(events)
    ensures Consistent(Run(s, events))
    decreases |events|
  {
    if events != [] {
      assert ChoosesGestures(events[1..]) by {
        forall k | 0 <= k < |events[1..]| && events[1..][k].Choose?
          ensures events[1..][k].choice.Some?
        {
          assert events[1..][k] == events[k + 1];
        }
      }
      RunKeepsConsistent(Step(s, events[0]), events[1..]);
    }
  }

  /** From program start, such calls always leave the slots consistent. */
  lemma ReachableStatesConsistent(events: seq<Event>)
    requires ChoosesGestures(events)
    ensures Consistent(Run(Initial, events))
  {
    RunKeepsConsistent(Initial, events);
  }

  /** Whatever came before, a final reset returns to the initial state. */
  lemma RunThenResetIsInitial(s: RoundState, events: seq<Event>)
    ensures Run(s, events + [Reset]) == Initial
  {
    RunAppend(s, events, [Reset]);
  }

  /** The last `Choose` of a run, with no reset after it, decides the final round. */
  lemma {:induction false} RunEndingInChoice(s: RoundState, events: seq<Event>, c: Gesture, i: RandomIndex)
    ensures Run(s, events + [Choose(Some(c), i)]).playerChoice == Some(c)
    ensures Run(s, events + [Choose(Some(c), i)]).result
              == Some(DetermineWinner(Some(c), RandomChoice(i)))
  {
    RunAppend(s, events, [Choose(Some(c), i)]);
  }

  // ---------------------------------------------------------------------------
  // What the page offers: the choice buttons while the prompt shows, the
  // "Play Again" button while the result shows.
  // ---------------------------------------------------------------------------

  /** Whether the page offers the handler call `e` in state `s`. */
  predicate Offered(s: RoundState, e: Event) {
    match e
    case Choose(c, _) => !s.showResult && c in Choices
    case Reset => s.showResult
  }

  /** Every call of the run is offered in the state it is made in. */
  predicate OfferedRun(s: RoundState, events: seq<Event>)
    decreases |events|
  {
    events == [] || (Offered(s, events[0]) && OfferedRun(Step(s, events[0]), events[1..]))
  }

  /**
   * Along an offered run the calls alternate, starting with `Choose` when the
   * prompt shows, and the slots stay consistent.
   */
  lemma {:induction false} OfferedRunAlternatesFrom(s: RoundState, events: seq<Event>)
    requires Consistent(s)
    requires OfferedRun(s, events)
    ensures forall k :: 0 <= k < |events| ==>
              (events[k].Choose? <==> ((k % 2 == 0) <==> !s.showResult))
    ensures Consistent(Run(s, events))
    decreases |events|
  {
    if events != [] {
      var t := Step(s, events[0]);
      assert t.showResult == !s.showResult;
      OfferedRunAlternatesFrom(t, events[1..]);
      forall k | 1 <= k < |events|
        ensures events[k].Choose? <==> ((k % 2 == 0) <==> !s.showResult)
      {
        assert events[k] == events[1..][k - 1];
      }
    }
  }

  /** From program start the page alternates choosing and resetting. */
  lemma OfferedRunAlternates(events: seq<Event>)
    requires OfferedRun(Initial, events)
    ensures forall k :: 0 <= k < |events| ==> (events[k].Choose? <==> k % 2 == 0)
    ensures Consistent(Run(Initial, events))
    ensures PhaseOf(Run(Initial, events)) == ShowingResult <==> |events| % 2 == 1
  {
    OfferedRunAlternatesFrom(Initial, events);
    OfferedRunPhase(Initial, events);
  }

  /** An offered run flips the phase once per call. */
  lemma {:induction false} OfferedRunPhase(s: RoundState, events: seq<Event>)
    requires OfferedRun(s, events)
    ensures Run(s, events).showResult == (s.showResult != (|events| % 2 == 1))
    decreases |events|
  {
    if events != [] {
      OfferedRunPhase(Step(s, events[0]), events[1..]);
    }
  }

  // ---------------------------------------------------------------------------
  // The component's state, updated in place by its handlers.
  // ---------------------------------------------------------------------------

  class Game {
    var playerChoice: Choice
    var computerChoice: Choice
    var result: Result
    var showResult: bool

    function State(): RoundState
      reads this
    {
      RoundState(playerChoice, computerChoice, result, showResult)
    }

    constructor ()
      ensures State() == Initial
    {
      playerChoice := None;
      computerChoice := None;
      result := None;
      showResult := false;
    }

    /** `handleChoice(choice)`, with the opponent's draw passed in as `randomIndex`. */
    method HandleChoice(choice: Choice, randomIndex: RandomIndex)
      modifies this
      ensures State() == AfterChoice(choice, randomIndex)
      ensures playerChoice == choice && computerChoice == RandomChoice(randomIndex)
      ensures result == Some(DetermineWinner(choice, computerChoice)) && showResult
      ensures choice.Some? ==> Consistent(State())
    {
      playerChoice := choice;
      var computerSelection := RandomChoice(randomIndex);
      computerChoice := computerSelection;
      result := Some(DetermineWinner(choice, computerSelection));
      showResult := true;
    }

    /** `resetGame()`: every slot goes back to its initial value. */
    method ResetGame()
      modifies this
      ensures State() == AfterReset(old(State())) == Initial
    {
      playerChoice := None;
      computerChoice := None;
      result := None;
      showResult := false;
    }
  }

  /** Choosing, resetting and choosing again on one component instance. */
  method PlayAgain(first: Gesture, second: Gesture, i: RandomIndex, j: RandomIndex)
    returns (firstResult: Result, secondResult: Result)
    ensures firstResult == Some(DetermineWinner(Some(first), RandomChoice(i)))
    ensures secondResult == Some(DetermineWinner(Some(second), RandomChoice(j)))
  {
    var game := new Game();
    game.HandleChoice(Some(first), i);
    firstResult := game.result;
    game.ResetGame();
    assert game.State() == Initial;
    game.HandleChoice(Some(second), j);
    secondResult := game.result;
  }
}
