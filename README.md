# Janken round engine in Dafny

A model of the rule content of the Janken (rock-paper-scissors) web page: the
single React component `App` in `src/App.tsx`. The player picks a gesture, the
computer draws one of the three gestures, the outcome rule decides win, lose or
draw from the player's side, and a reset returns the page to the choice prompt.

- `wrappers.dfy`: `Option`, the model of the component's `null`.
- `rules.dfy` (module `Rules`): gestures, outcomes, the `choices` list, the
  opponent draw with the random index passed in, `determineWinner`, and the
  heading text and style class of a result. The outcome rule is checked
  against an independent reference, the 3-cycle `Prey` (Rock beats Scissors,
  Scissors beats Paper, Paper beats Rock).
- `rules.dfy` keeps the source's nullable parameter types: `determineWinner`
  takes two nullable `Choice` values, and the model gives the source's answer
  on `null` too (two `null`s draw, one `null` loses).
- `round.dfy` (module `Round`): the four state slots `playerChoice`,
  `computerChoice`, `result` and `showResult` as the fields of class `Game`.
  The handlers `handleChoice` and `resetGame` are methods that update them in
  place. Each method is proved against a function on a snapshot value
  (`AfterChoice`, `AfterReset`). Runs of handler calls are folded over those
  functions, and lemmas prove what every run keeps.

## Model

| member | source | states |
|---|---|---|
| Rules.Prey | src/App.tsx:25-32 | the reference dominance cycle: no gesture beats itself |
| Rules.BeatsIsTournament | src/App.tsx:25-32 | of two distinct gestures exactly one beats the other |
| Rules.PreyCycle | src/App.tsx:25-32 | the dominance relation is a 3-cycle |
| Rules.RandomChoice | src/App.tsx:16-21 | the opponent's gesture drawn at an index in 0..2 is never null and is an entry of `choices` |
| Rules.IndexOf | src/App.tsx:16-21 | every gesture is drawn at some index in 0..2 |
| Rules.RandomChoiceIsBijective | src/App.tsx:16-21 | distinct indices draw distinct gestures; a gesture is drawn at exactly one index |
| Rules.ChoicesListEachGestureOnce | src/App.tsx:16 | `choices` has three entries, no null, each gesture exactly once |
| Rules.DetermineWinner | src/App.tsx:23-33 | draw iff both slots are equal; on two gestures, win iff the player's beats the computer's and lose iff the computer's beats the player's; a null slot never wins; never returns null |
| Rules.SameGestureDraws | src/App.tsx:24 | every gesture draws against itself |
| Rules.DetermineWinnerAntiSymmetric | src/App.tsx:24-32 | swapping the gestures swaps win and lose; for distinct gestures one side wins and the other loses |
| Rules.WinExactlyAgainstPrey | src/App.tsx:25-32 | win exactly against the gesture's prey, lose exactly against its predator |
| Rules.OutcomeTable | src/App.tsx:23-33 | all nine rows of the outcome table |
| Rules.EachOutcomeThreeTimes | src/App.tsx:23-33 | each outcome occurs for exactly three of the nine gesture pairs |
| Rules.ResultText | src/App.tsx:63-74 | the heading text is empty iff there is no result, otherwise it ends in `!` |
| Rules.ResultClass | src/App.tsx:76-87 | the style class is empty iff there is no result, otherwise it ends in ` font-bold` |
| Rules.LabelsDistinguishResults | src/App.tsx:63-87 | different results get different texts and different classes |
| Round.ConsistentStates | src/App.tsx:11-14 | a consistent state is awaiting a choice iff it is the initial state |
| Round.AfterChoice | src/App.tsx:35-41 | after a choice: player slot is the choice, computer slot holds a gesture from `choices`, result is the outcome of the two, result shown; the slots are consistent iff the choice is non-null |
| Round.AfterReset | src/App.tsx:43-48 | after a reset all three slots are null and the prompt shows |
| Round.ResetIdempotent | src/App.tsx:11-14 | resetting twice equals resetting once, and reset leaves the initial state unchanged |
| Round.ForcedOpponentScenarios | src/App.tsx:35-41 | Rock against a forced Scissors wins, Paper against Paper draws, Scissors against Rock loses |
| Round.RunAppend | src/App.tsx:35-48 | running two lists of handler calls one after the other is running their concatenation |
| Round.RunKeepsConsistent | src/App.tsx:35-48 | handler calls that pass actual gestures keep all four slots filled together or empty together |
| Round.ReachableStatesConsistent | src/App.tsx:11-14 | from the initial state every such run ends in a consistent state |
| Round.RunThenResetIsInitial | src/App.tsx:43-48 | any run followed by a reset ends in the initial state |
| Round.RunEndingInChoice | src/App.tsx:35-41 | the last choice of a run decides the final player slot and its outcome |
| Round.OfferedRunAlternatesFrom | src/App.tsx:98-113 | when each call is one the page offers, choices and resets alternate and the slots stay consistent |
| Round.OfferedRunAlternates | src/App.tsx:145-149 | from program start the offered calls go choose, reset, choose, ...; the result shows iff the run has odd length |
| Round.OfferedRunPhase | src/App.tsx:98-149 | each offered call flips the phase |
| Round.Game.constructor | src/App.tsx:11-14 | the four slots start as null, null, null, false |
| Round.Game.HandleChoice | src/App.tsx:35-41 | the new state is `AfterChoice` of the choice and the drawn index, field by field; consistent on a non-null choice |
| Round.Game.ResetGame | src/App.tsx:43-48 | the new state is the initial state |
| Round.PlayAgain | src/App.tsx:35-48 | choose, reset and choose again on one instance: each result is the outcome against the gesture drawn for that round |

`OfferedRun` models which handler the page lets the player call: the three
choice buttons while `showResult` is false (`src/App.tsx:98-113`, they pass the
entries of `choices`), the "Play Again" button while it is true
(`src/App.tsx:145-149`). Nothing else of the page is modelled.

## Left out

- `Math.random()` and `Math.floor(Math.random() * 3)`: floating point and randomness; the index it yields, one of 0, 1 and 2, is a parameter (`RandomIndex`). Uniformity of the draw is not modelled.
- React `useState` batching and re-rendering: each handler is one atomic update of the four fields.
- `getChoiceIcon`, the JSX markup, the `Card` and `Button` components and the lucide icons: presentation in foreign UI libraries.
- `App.css` and the Tailwind class strings beyond the plain strings `getResultClass` returns.
- `getResultText` and `getResultClass` read the component's `result`; the model passes that value as a parameter.
- Round.Game.HandleChoice: accepts a null choice, as the source's type allows; the page never passes one, and the slot invariant is promised only for a non-null choice.
