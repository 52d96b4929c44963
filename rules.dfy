/**
 * The rule content of the Janken (rock-paper-scissors) component: the three
 * gestures, the order in which the opponent draws them, the outcome rule and
 * the labels and style classes shown for an outcome.
 */
module Rules {
  import opened Wrappers

  datatype Gesture = Rock | Paper | Scissors

  datatype Outcome = Win | Lose | Draw

  /** A gesture slot of the component; `None` is the component's `null`. */
  type Choice = Option<Gesture>

  /** An outcome slot of the component; `None` is the component's `null`. */
  type Result = Option<Outcome>

  /** The index `Math.floor(Math.random() * 3)` yields: one of 0, 1 and 2. */
  type RandomIndex = i: int | 0 <= i < 3

  /** The gestures in the order the component lists them. */
  const Choices: seq<Choice> := [Some(Rock), Some(Paper), Some(Scissors)]

  // ---------------------------------------------------------------------------
  // The reference relation: a 3-cycle of dominance.
  // ---------------------------------------------------------------------------

  /** The gesture that `g` defeats: Rock -> Scissors -> Paper -> Rock. */
  function Prey(g: Gesture): (p: Gesture)
    ensures p != g
  {
    match g
    case Rock => Scissors
    case Scissors => Paper
    case Paper => Rock
  }

  predicate Beats(a: Gesture, b: Gesture) {
    Prey(a) == b
  }

  /** Among two distinct gestures exactly one beats the other; none beats itself. */
  lemma BeatsIsTournament(a: Gesture, b: Gesture)
    ensures !Beats(a, a)
    ensures a != b ==> (Beats(a, b) <==> !Beats(b, a))
  {
  }

  /** Going round the cycle three times comes back to the start. */
  lemma PreyCycle(g: Gesture)
    ensures Prey(Prey(Prey(g))) == g
    ensures Prey(Prey(g)) != g
  {
  }

  // ---------------------------------------------------------------------------
  // Opponent selection.
  // ---------------------------------------------------------------------------

  /** The opponent's gesture for a drawn index: the entry of `Choices` there. */
  function RandomChoice(randomIndex: RandomIndex): (choice: Choice)
    ensures choice.Some?
    ensures choice in Choices
  {
    Choices[randomIndex]
  }

  /** The index at which a gesture sits in `Choices`: the inverse of RandomChoice. */
  function IndexOf(g: Gesture): (i: RandomIndex)
    ensures RandomChoice(i) == Some(g)
  {
    match g
    case Rock => 0
    case Paper => 1
    case Scissors => 2
  }

  /** Distinct indices draw distinct gestures, so every gesture has exactly one index. */
  lemma RandomChoiceIsBijective(i: RandomIndex, j: RandomIndex, g: Gesture)
    ensures RandomChoice(i) == RandomChoice(j) ==> i == j
    ensures RandomChoice(i) == Some(g) <==> i == IndexOf(g)
  {
  }

  /** `Choices` holds each gesture exactly once and never `null`. */
  lemma ChoicesListEachGestureOnce(g: Gesture)
    ensures |Choices| == 3
    ensures None !in Choices
    ensures multiset(Choices)[Some(g)] == 1
  {
  }

  // ---------------------------------------------------------------------------
  // The outcome rule.
  // ---------------------------------------------------------------------------

  /**
   * The outcome for the player: equal slots draw, the three dominating pairs
   * win, anything else loses. A `null` slot never wins.
   */
  function DetermineWinner(player: Choice, computer: Choice): (r: Outcome)
    ensures r == Draw <==> player == computer
    ensures player.Some? && computer.Some? ==>
              (r == Win <==> Beats(player.value, computer.value)) &&
              (r == Lose <==> Beats(computer.value, player.value))
    ensures player.None? || computer.None? ==> r != Win
  {
    if player == computer then Draw
    else if || (player == Some(Rock) && computer == Some(Scissors))
            || (player == Some(Paper) && computer == Some(Rock))
            || (player == Some(Scissors) && computer == Some(Paper))
    then Win
    else Lose
  }

  /** The outcome seen from the other side. */
  function Swap(o: Outcome): Outcome {
    match o
    case Win => Lose
    case Lose => Win
    case Draw => Draw
  }

  /** Every gesture draws against itself. */
  lemma SameGestureDraws(g: Gesture)
    ensures DetermineWinner(Some(g), Some(g)) == Draw
  {
  }

  /**
   * Anti-symmetry: exchanging the two gestures swaps win and lose, so for
   * distinct gestures exactly one side wins and the other loses.
   */
  lemma DetermineWinnerAntiSymmetric(a: Gesture, b: Gesture)
    ensures DetermineWinner(Some(b), Some(a)) == Swap(DetermineWinner(Some(a), Some(b)))
    ensures a != b ==>
              DetermineWinner(Some(a), Some(b)) != Draw &&
              DetermineWinner(Some(a), Some(b)) != DetermineWinner(Some(b), Some(a))
  {
  }

  /** With both gestures present, the player wins exactly against its prey. */
  lemma WinExactlyAgainstPrey(a: Gesture, b: Gesture)
    ensures DetermineWinner(Some(a), Some(b)) == Win <==> b == Prey(a)
    ensures DetermineWinner(Some(a), Some(b)) == Lose <==> a == Prey(b)
  {
  }

  /** The nine rows of the outcome table. */
  lemma OutcomeTable()
    ensures DetermineWinner(Some(Rock), Some(Rock)) == Draw
    ensures DetermineWinner(Some(Rock), Some(Paper)) == Lose
    ensures DetermineWinner(Some(Rock), Some(Scissors)) == Win
    ensures DetermineWinner(Some(Paper), Some(Rock)) == Win
    ensures DetermineWinner(Some(Paper), Some(Paper)) == Draw
    ensures DetermineWinner(Some(Paper), Some(Scissors)) == Lose
    ensures DetermineWinner(Some(Scissors), Some(Rock)) == Lose
    ensures DetermineWinner(Some(Scissors), Some(Paper)) == Win
    ensures DetermineWinner(Some(Scissors), Some(Scissors)) == Draw
  {
  }

  /** Each outcome occurs for exactly three of the nine gesture pairs. */
  lemma EachOutcomeThreeTimes(o: Outcome)
    ensures |set a: Gesture, b: Gesture | DetermineWinner(Some(a), Some(b)) == o :: (a, b)| == 3
  {
    var pairs := set a: Gesture, b: Gesture | DetermineWinner(Some(a), Some(b)) == o :: (a, b);
    match o
    case Draw =>
      assert pairs == {(Rock, Rock), (Paper, Paper), (Scissors, Scissors)};
    case Win =>
      assert pairs == {(Rock, Scissors), (Paper, Rock), (Scissors, Paper)};
    case Lose =>
      assert pairs == {(Rock, Paper), (Paper, Scissors), (Scissors, Rock)};
  }

  // ---------------------------------------------------------------------------
  // Labels for the result heading.
  // ---------------------------------------------------------------------------

  /** The heading text for a result; empty exactly when there is no result. */
  function ResultText(result: Result): (text: string)
    ensures text == "" <==> result.None?
    ensures result.Some? ==> text[|text| - 1] == '!'
  {
    match result
    case Some(Win) => "You Win!"
    case Some(Lose) => "You Lose!"
    case Some(Draw) => "It's a Draw!"
    case None => ""
  }

  /** The style class for a result; empty exactly when there is no result. */
  function ResultClass(result: Result): (cls: string)
    ensures cls == "" <==> result.None?
    ensures result.Some? ==> |cls| > 10 && cls[|cls| - 10..] == " font-bold"
  {
    match result
    case Some(Win) => "text-green-600 font-bold"
    case Some(Lose) => "text-red-600 font-bold"
    case Some(Draw) => "text-yellow-600 font-bold"
    case None => ""
  }

  /** Different results get different texts and different style classes. */
  lemma LabelsDistinguishResults(a: Result, b: Result)
    ensures ResultText(a) == ResultText(b) ==> a == b
    ensures ResultClass(a) == ResultClass(b) ==> a == b
  {
  }
}
