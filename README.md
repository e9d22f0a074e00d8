# Learning-app core, modelled in Dafny

This project models the core of a Hebrew-language learning app for young children. It covers:

- a profile store that keeps experience points (XP), a daily activity history, per-subject accuracy tallies and unlocked levels;
- the random helpers every game draws from;
- eight small games, which generate questions and credit XP to the store;
- the parents' dashboard, which is gated behind a multiplication question and derives statistics from a profile.

Each source file becomes one module:

| module | source |
|---|---|
| `Progression` | the `GameContext` store |
| `Random` | `getRandomInt` and `shuffleArray` |
| `Seqs` | sequence facts shared by the modules |
| `Options` and `Quiz` | the two ways the games build a four-option answer set |
| `Numbers` | `String(n)` and `parseInt` as the app uses them |
| one module per game | `MathChallenge`, `JuniorMath`, `LogicGame`, `MemoryGame`, `FeedGame`, `SorterGame`, `FirstWord`, `EnglishGame` |
| `ParentsZone` | the dashboard |

How the model works:

- **Randomness is an input.** Every `Math.random()` value is an explicit `Draw`, a real in `[0, 1)`. `RandomInt(min, max, u)` is `floor(u * (max - min + 1)) + min`. A shuffle is Fisher–Yates driven by a sequence of draws.
- **Rejection loops are functions over draws.** Some generators loop "until four distinct options exist". These are modelled by functions over a finite prefix of draws that return `None` when that prefix does not finish the loop. The method that runs the loop is proved equal to the function.
- **Mutable objects are classes.**
  - The store is a class, `Progression.GameStore`. Each of its methods is proved equal to a pure step function on a `Store` value. The lemmas about profiles are stated on those step functions.
  - Each game component is a class holding the state the component's logic reads and writes. Its handlers take the store, change both, and return the timer callback they schedule (a `Followup` value). Each timer callback is a separate method.

## Model

| member | source | states |
|---|---|---|
| Random.RandomInt | src/lib/utils.ts:49-51 | an integer drawn between `min` and `max` lies in that closed range |
| Random.RandomIntReaches | src/lib/utils.ts:49-51 | every integer of the range is produced by some draw |
| Random.ShuffledPermutation | src/lib/utils.ts:53-60 | the shuffle keeps the length and is a permutation (same multiset) |
| Random.ShuffledDistinct | src/lib/utils.ts:53-60 | shuffling a list without repeats yields a list without repeats |
| Random.ShuffledMap | src/lib/utils.ts:53-60 | shuffling commutes with mapping: the same draws move the same positions whatever the elements are |
| Random.ShuffleArray | src/lib/utils.ts:53-60 | the in-place swap loop over a copy computes the Fisher–Yates shuffle, a permutation of the input; lists of length 0 or 1 come back unchanged |
| Seqs.LastN | src/contexts/GameContext.tsx:98 | `slice(-n)` keeps the last `min(n, len)` entries, a suffix of the list |
| Seqs.Without | src/features/zone-a/games/FeedGame.tsx:91 | filtering out a value removes every copy of it and nothing else (multiset with that value's count set to 0) |
| Seqs.WithoutKeepsOrder | src/features/zone-a/games/FeedGame.tsx:91 | the elements kept by the filter stay in their order: the result is a subsequence of the input |
| Seqs.WithoutLength | src/features/zone-a/games/FeedGame.tsx:91 | in a list without repeats, removing a present value shortens it by exactly one |
| Seqs.FullIffAllPresent | src/features/zone-b/games/MemoryGame.tsx:143 | for repeat-free lists with `a` inside `b`, equal length holds exactly when every element of `b` is in `a` |
| Progression.ReplaceById | src/contexts/GameContext.tsx:68-71 | `profiles.map` swaps in the updated profile at exactly the positions with its id and keeps every other profile |
| Progression.FindDay | src/contexts/GameContext.tsx:78 | `find` locates the first entry with the given date, or reports that no entry has it |
| Progression.CreditDayFacts | src/contexts/GameContext.tsx:77-84 | crediting today adds `amount` to the history total, keeps dates distinct, and either adds to today's entry or appends a new one |
| Progression.CreditExistingDay | src/contexts/GameContext.tsx:80-81 | when today is already listed, only that entry changes and it gains `amount` |
| Progression.CreditNewDay | src/contexts/GameContext.tsx:82-83 | when today is not listed, a single new entry `(today, amount)` is appended at the end |
| Progression.CreditDayTwice | src/contexts/GameContext.tsx:77-84 | crediting the same day twice equals crediting the sum once |
| Progression.RecordAttempt | src/contexts/GameContext.tsx:86-93 | with a non-empty subject and a correctness flag, that subject's total grows by one and its correct count grows by one exactly when the answer was right, starting from 0/0; every other subject is untouched; without both, nothing changes |
| Progression.RecordAttemptValid | src/contexts/GameContext.tsx:86-93 | the invariant `0 <= correct <= total` survives every attempt |
| Progression.WithLevel | src/contexts/GameContext.tsx:103-111 | after an unlock the game's list contains the level and extends the old list (seeded with `[1]` when absent); other games are unchanged; an already unlocked level changes nothing |
| Progression.WithLevelIdempotent | src/contexts/GameContext.tsx:107-109 | unlocking the same level twice equals unlocking it once |
| Progression.WithLevelValid | src/contexts/GameContext.tsx:103-111 | unlocking keeps every game's level list free of repeats |
| Progression.NewProfileValid | src/contexts/GameContext.tsx:52-66 | a fresh profile has 0 XP and satisfies the profile invariant |
| Progression.CreditXPValid | src/contexts/GameContext.tsx:73-101 | one `addXP` keeps the profile invariant: distinct history dates, at most 30 of them, valid tallies and level lists |
| Progression.LastNDistinctDates | src/contexts/GameContext.tsx:98 | trimming the history to its last 30 days keeps its dates distinct |
| Progression.UpdateKeepsCurrentListed | src/contexts/GameContext.tsx:68-71 | after updating the current profile, the new current profile is in the stored list |
| Progression.AddXPStepFacts | src/contexts/GameContext.tsx:73-101 | `addXP` raises the current profile's total by exactly `amount` and keeps it in the list |
| Progression.UnlockStepFacts | src/contexts/GameContext.tsx:103-111 | `unlockLevel` with no profile changes nothing; otherwise it changes only the unlocked levels of the current profile and is idempotent on the whole store |
| Progression.TotalXPIsSum | src/contexts/GameContext.tsx:73-101 | after any sequence of `addXP` calls, the total XP is the starting total plus the sum of the amounts |
| Progression.NoProfileNoChange | src/contexts/GameContext.tsx:74 | with no current profile, any sequence of `addXP` calls leaves the store unchanged |
| Progression.TwoMathAnswers | src/contexts/GameContext.tsx:73-101 | one right (10 XP) and one wrong (0 XP) maths answer on a new profile give 10 XP, one history entry of 10, and a maths tally of 1 correct out of 2 |
| Progression.RanksAscending | src/contexts/GameContext.tsx:25-33 | the rank thresholds start at 0 and strictly increase |
| Progression.TierFrom | src/contexts/GameContext.tsx:118-124 | the downward scan stops at the highest tier whose threshold the XP reaches |
| Progression.TierIndex | src/contexts/GameContext.tsx:113-127 | the tier chosen is the highest one whose threshold is at most the XP (tier 0 for negative XP) |
| Progression.TierIndexMonotone | src/contexts/GameContext.tsx:113-127 | more XP never gives a lower rank |
| Progression.RankInfoFor | src/contexts/GameContext.tsx:113-127 | the rank is the tier the XP falls in, with that tier's name, emoji and threshold, and the next tier's threshold (its own at the top tier); the threshold is at most the XP, below the top rank the next threshold lies above the XP, and at the top rank the two thresholds are equal |
| Progression.RankExamples | src/contexts/GameContext.tsx:25-33 | 150 XP is bronze with next rank at 300; negative XP is the beginner rank; 9000 XP is the top rank |
| Progression.GameStore.constructor | src/contexts/GameContext.tsx:42-46 | the store starts with the saved profiles and no current profile |
| Progression.GameStore.SetCurrentProfile | src/contexts/GameContext.tsx:46 | selecting a profile changes only the current profile |
| Progression.GameStore.AddProfile | src/contexts/GameContext.tsx:52-66 | appends a fresh profile and makes it current |
| Progression.GameStore.UpdateProfile | src/contexts/GameContext.tsx:68-71 | replaces the profile with the same id in the list and makes it current |
| Progression.GameStore.AddXP | src/contexts/GameContext.tsx:73-101 | the new store is the `addXP` step of the old one |
| Progression.GameStore.CreditToday | src/contexts/GameContext.tsx:77-84 | the history update computes `CreditDay` |
| Progression.GameStore.CountAttempt | src/contexts/GameContext.tsx:86-93 | the tally update computes `RecordAttempt` |
| Progression.GameStore.UnlockLevel | src/contexts/GameContext.tsx:103-111 | the new store is the `unlockLevel` step of the old one |
| Progression.GameStore.GetRank | src/contexts/GameContext.tsx:113-127 | the loop returns the rank information of the current XP (0 without a profile) |
| Options.Fill | src/features/zone-b/games/MathChallenge.tsx:59-67 | when the rejection loop finishes within the draws, it holds exactly four options |
| Options.FillFacts | src/features/zone-b/games/MathChallenge.tsx:59-67 | the loop extends what it started with, never repeats an option, and adds only non-negative candidates different from the answer |
| Options.FillFromAnswer | src/features/zone-a/games/JuniorMathGame.tsx:38-46 | seeded with the answer, the set holds the answer first and three distinct non-negative wrong options |
| Options.FillIgnoresExtra | src/features/zone-b/games/LogicGame.tsx:48-53 | draws beyond the point where the loop stops do not affect the options |
| Options.FillOptions | src/features/zone-b/games/MathChallenge.tsx:59-67 | the `while (size < 4)` loop computes `Fill` |
| Options.StepsFill | src/features/zone-b/games/MathChallenge.tsx:59-67 | three candidates climbing from a non-negative answer in equal positive steps fill the set with the answer and those three |
| Quiz.OptionsFacts | src/features/zone-a/games/FirstWordGame.tsx:57-61 | the picture options are four distinct pictures from the word list, one of them the right one |
| Quiz.BuildOptions | src/features/zone-b/games/EnglishGame.tsx:71-75 | three shuffled wrong pictures plus the right one, shuffled, are four distinct listed pictures including the right one |
| Numbers.NatString | src/features/zone-b/games/MemoryGame.tsx:56 | `String(n)` is non-empty and has one digit exactly when `n < 10` |
| Numbers.NatStringInjective | src/features/zone-b/games/MemoryGame.tsx:56-57 | different sums give different strings, so checking the string checks the sum |
| Numbers.TrimStart | src/features/parents/ParentsZone.tsx:34 | `parseInt` skips exactly the leading white space |
| Numbers.LeadingDigits | src/features/parents/ParentsZone.tsx:34 | `parseInt` reads the longest prefix of digits and stops at the first non-digit |
| Numbers.ParseDigits | src/features/parents/ParentsZone.tsx:34 | a run of decimal digits followed by anything that is not a decimal digit parses to that run's value; the one exception, a lone `0` followed by `x` or `X`, is excluded because it starts a hexadecimal number |
| Numbers.ParseUnsigned | src/features/parents/ParentsZone.tsx:34 | text that starts with neither white space nor a sign parses to its magnitude alone |
| Numbers.ParseNatString | src/features/parents/ParentsZone.tsx:34 | typing the decimal form of a number, possibly followed by text starting with anything but a decimal digit, parses back to that number (for 0, not followed by `x` or `X`) |
| Numbers.ParseIntEmpty | src/features/parents/ParentsZone.tsx:34 | an empty or sign-only answer parses to no number |
| MathChallenge.ConfigFor | src/features/zone-b/games/MathChallenge.tsx:27-28 | the level's configuration is its entry in the five-level table, clamped to the last level |
| MathChallenge.GenerateQuestion | src/features/zone-b/games/MathChallenge.tsx:26-57 | every question uses an operator of its level, has operands in range, a positive answer, and division questions divide exactly |
| MathChallenge.GenerateQuestionReaches | src/features/zone-b/games/MathChallenge.tsx:26-57 | every question that satisfies the level's rules is produced by some draws |
| MathChallenge.Candidate | src/features/zone-b/games/MathChallenge.tsx:62-63 | a wrong-option candidate is within 5 of the answer, floored at 0 |
| MathChallenge.GenerateOptions | src/features/zone-b/games/MathChallenge.tsx:59-67 | four distinct shuffled options containing the answer, each wrong one non-negative and within 5 of it |
| MathChallenge.MathOptionsFinish | src/features/zone-b/games/MathChallenge.tsx:59-67 | for every generated question some draws finish the option loop |
| MathChallenge.ClimbingDrawsFinish | src/features/zone-b/games/MathChallenge.tsx:59-67 | for a positive answer, the offsets +1, +2 and +3 finish the option loop |
| MathChallenge.AnswerXP | src/features/zone-b/games/MathChallenge.tsx:102 | a correct answer earns at least 10 XP |
| MathChallenge.LevelUpEveryFifth | src/features/zone-b/games/MathChallenge.tsx:108-112 | below the top level, each run of five answers contains exactly one level-up point |
| MathChallenge.Game.constructor | src/features/zone-b/games/MathChallenge.tsx:72-80 | the game starts at level 0 with no question, score or streak |
| MathChallenge.Game.NewQuestion | src/features/zone-b/games/MathChallenge.tsx:86-92 | a new question for the current level with four distinct options including its answer; the selection is cleared |
| MathChallenge.Game.HandleAnswer | src/features/zone-b/games/MathChallenge.tsx:94-121 | a second click or no question does nothing. A right answer credits level- and streak-based XP, extends the streak and schedules a level-up or the next question. A wrong answer records a miss, resets the streak and schedules the next question |
| MathChallenge.Game.Solve | src/features/zone-b/games/MathChallenge.tsx:101-115 | the right-answer branch: XP, score, streak, the answered count, and level-up on every fifth answer below the top level |
| MathChallenge.Game.Miss | src/features/zone-b/games/MathChallenge.tsx:116-120 | the wrong-answer branch: a zero-XP miss is recorded and the streak resets |
| MathChallenge.Game.LevelUpTimeout | src/features/zone-b/games/MathChallenge.tsx:109-111 | the level-up timer shows the banner and unlocks the next level in the store |
| MathChallenge.Game.HandleLevelUp | src/features/zone-b/games/MathChallenge.tsx:123-126 | dismissing the banner moves to the next level and hides it; the new question comes from the effect on the level, a follow-up `NewQuestion` |
| JuniorMath.GenerateQuestion | src/features/zone-a/games/JuniorMathGame.tsx:19-36 | sums are 2 to 10; differences are non-negative with the larger number first |
| JuniorMath.GenerateQuestionReaches | src/features/zone-a/games/JuniorMathGame.tsx:19-36 | every valid question is produced by some draws |
| JuniorMath.Candidate | src/features/zone-a/games/JuniorMathGame.tsx:41-42 | a wrong-option candidate is within 3 of the answer, floored at 0 |
| JuniorMath.GenerateOptions | src/features/zone-a/games/JuniorMathGame.tsx:38-46 | four distinct shuffled options containing the answer, each wrong one within 3 of it |
| JuniorMath.JuniorOptionsFinish | src/features/zone-a/games/JuniorMathGame.tsx:38-46 | for every generated question some draws finish the option loop |
| JuniorMath.ClimbingDrawsFinish | src/features/zone-a/games/JuniorMathGame.tsx:38-46 | for a positive answer, the offsets +1, +2 and +3 finish the option loop |
| JuniorMath.CorrectXP | src/features/zone-a/games/JuniorMathGame.tsx:86 | 20 XP with no mistakes, 10 XP after two or more, always between 10 and 20 |
| JuniorMath.Game.constructor | src/features/zone-a/games/JuniorMathGame.tsx:51-57 | a first question is generated, with no options and nothing answered; the mount effect's `NewQuestion` replaces it at once |
| JuniorMath.Game.NewQuestion | src/features/zone-a/games/JuniorMathGame.tsx:63-78 | a new question with four distinct options including its answer; errors, disabled options and hints reset |
| JuniorMath.Game.HandleAnswer | src/features/zone-a/games/JuniorMathGame.tsx:80-101 | clicking a disabled option does nothing. A right answer credits XP that depends on the mistakes and schedules the next question. A wrong answer records a miss and disables that option |
| JuniorMath.Game.Solve | src/features/zone-a/games/JuniorMathGame.tsx:83-89 | the right-answer branch credits `CorrectXP(errors)` and shows the success state |
| JuniorMath.Game.Miss | src/features/zone-a/games/JuniorMathGame.tsx:90-100 | the wrong-answer branch counts the error, disables the option, and shows the hint once errors reach 2 |
| LogicGame.GenerateAlligatorQuestion | src/features/zone-b/games/LogicGame.tsx:23-31 | both numbers are 1 to 20 and the expected answer is less, greater or equal exactly as they compare |
| LogicGame.ChosenPattern | src/features/zone-b/games/LogicGame.tsx:34-41 | the chosen pattern is one of the listed steps with a start in its range |
| LogicGame.Candidate | src/features/zone-b/games/LogicGame.tsx:50-51 | a wrong candidate is the answer shifted by −3 to 3 steps |
| LogicGame.SequenceOptionsFinish | src/features/zone-b/games/LogicGame.tsx:48-53 | for every pattern some draws finish the wrong-option loop |
| LogicGame.SequenceOptions | src/features/zone-b/games/LogicGame.tsx:48-59 | four distinct shuffled options containing the answer; each wrong one is non-negative and a non-zero number of steps away |
| LogicGame.GenerateSequenceQuestion | src/features/zone-b/games/LogicGame.tsx:33-60 | the shown terms follow `start + step * i`, and the answer is the next term |
| LogicGame.Game.constructor | src/features/zone-b/games/LogicGame.tsx:65-70 | no mode, no question and no score at start |
| LogicGame.Game.SetMode | src/features/zone-b/games/LogicGame.tsx:149 | choosing or leaving a mode changes only the mode |
| LogicGame.Game.NewAlligatorQuestion | src/features/zone-b/games/LogicGame.tsx:80-84 | a fresh comparison question with the selection cleared |
| LogicGame.Game.NewSequenceQuestion | src/features/zone-b/games/LogicGame.tsx:86-90 | a fresh sequence question: four terms `start + step*i` of the drawn pattern, the fifth term as answer, four distinct shuffled options holding the answer and wrong values `answer + k*step` (k in -3..3, not 0, never negative); the selection is cleared |
| LogicGame.Game.HandleAlligatorAnswer | src/features/zone-b/games/LogicGame.tsx:92-107 | a second click does nothing; right earns 15 XP, wrong records a miss, and the next question follows after 1 s or 1.5 s |
| LogicGame.Game.HandleSequenceAnswer | src/features/zone-b/games/LogicGame.tsx:109-124 | a second click does nothing; right earns 20 XP, wrong records a miss, and the next question follows after 1 s or 1.5 s |
| MemoryGame.Dedupe | src/features/zone-b/games/MemoryGame.tsx:44-52 | keeping the first pair for each result never keeps more than six pairs (what it keeps is stated by `DedupeFacts`) |
| MemoryGame.DedupeFacts | src/features/zone-b/games/MemoryGame.tsx:44-52 | the kept pairs are the earlier ones followed by source pairs in source order, no two share a result, at most six are kept, and unless the loop stopped at six every result of the source is kept |
| MemoryGame.DedupeExtends | src/features/zone-b/games/MemoryGame.tsx:44-52 | the loop only appends, and what it appends are source pairs in source order |
| MemoryGame.DedupeDistinct | src/features/zone-b/games/MemoryGame.tsx:44-52 | no two kept pairs share a result |
| MemoryGame.DedupeCovers | src/features/zone-b/games/MemoryGame.tsx:44-52 | unless the loop stopped at six pairs, every result of the source is kept |
| MemoryGame.DedupeMathPairs | src/features/zone-b/games/MemoryGame.tsx:28-31 | of the fixed maths pairs, only the first three have distinct results |
| MemoryGame.TopUp | src/features/zone-b/games/MemoryGame.tsx:53-61 | when the random top-up finishes, exactly six pairs exist |
| MemoryGame.TopUpFacts | src/features/zone-b/games/MemoryGame.tsx:53-61 | the top-up keeps the earlier pairs and keeps results distinct; every added pair is a sum of two numbers from 1 to 5 |
| MemoryGame.PairsFor | src/features/zone-b/games/MemoryGame.tsx:33-64 | every mode yields six pairs |
| MemoryGame.PairsForFacts | src/features/zone-b/games/MemoryGame.tsx:33-64 | maths mode: the three distinct fixed pairs, then random sums, all with distinct results |
| MemoryGame.MathPairsCanFinish | src/features/zone-b/games/MemoryGame.tsx:53-61 | some draws finish the maths top-up |
| MemoryGame.DedupeLoop | src/features/zone-b/games/MemoryGame.tsx:44-52 | the loop with its set of used results computes `Dedupe`, and the set holds exactly the results kept |
| MemoryGame.TopUpLoop | src/features/zone-b/games/MemoryGame.tsx:53-61 | the `while` loop computes `TopUp` |
| MemoryGame.CardsOf | src/features/zone-b/games/MemoryGame.tsx:66-80 | each pair becomes two cards |
| MemoryGame.CardIdsDistinct | src/features/zone-b/games/MemoryGame.tsx:66-80 | card ids are unique and each card's match id is its pair's index |
| MemoryGame.MatchIdCounts | src/features/zone-b/games/MemoryGame.tsx:66-80 | every pair index is the match id of exactly two cards |
| MemoryGame.BuildCards | src/features/zone-b/games/MemoryGame.tsx:66-80 | the `forEach` computes the card list |
| MemoryGame.GenerateCards | src/features/zone-b/games/MemoryGame.tsx:33-83 | a shuffled deck of 12 cards with unique ids in which every match id occurs exactly twice |
| MemoryGame.FindCard | src/features/zone-b/games/MemoryGame.tsx:119 | looking up a card id finds the card exactly when the id is in the deck |
| MemoryGame.CompleteIffAllMatched | src/features/zone-b/games/MemoryGame.tsx:143 | the game is complete exactly when every card of the deck is matched |
| MemoryGame.Game.constructor | src/features/zone-b/games/MemoryGame.tsx:88-94 | empty deck, no mode, no moves |
| MemoryGame.Game.SetMode | src/features/zone-b/games/MemoryGame.tsx:161 | choosing or leaving a mode changes only the mode |
| MemoryGame.Game.StartGame | src/features/zone-b/games/MemoryGame.tsx:102-107 | deals the generated deck and clears flips, matches and moves |
| MemoryGame.Game.HandleCardClick | src/features/zone-b/games/MemoryGame.tsx:109-141 | clicks are ignored while checking or on flipped or matched cards. The first flip only flips. The second flip counts a move; a match earns 20 XP and schedules the bonus exactly when the deck is complete; a miss records it and schedules the unflip |
| MemoryGame.Game.TurnSecond | src/features/zone-b/games/MemoryGame.tsx:115-139 | the second-flip branch, match or miss |
| MemoryGame.Game.KeepPair | src/features/zone-b/games/MemoryGame.tsx:121-132 | the match branch keeps the deck invariant; the bonus is due exactly when all cards are matched |
| MemoryGame.Game.BonusTimeout | src/features/zone-b/games/MemoryGame.tsx:129-131 | the completion bonus credits 50 XP |
| MemoryGame.Game.UnflipTimeout | src/features/zone-b/games/MemoryGame.tsx:135-138 | the unflip timer clears the flipped cards and the checking flag |
| FeedGame.FoodIds | src/features/zone-a/games/FeedGame.tsx:77 | the round lays out eight distinct foods numbered 0 to 7 |
| FeedGame.Game.constructor | src/features/zone-a/games/FeedGame.tsx:60-65 | the state before the mount effect: the first animal, a target of 3, an empty plate, nothing fed and round 1; the effect's `StartNewRound` replaces animal, target and plate at once |
| FeedGame.Game.StartNewRound | src/features/zone-a/games/FeedGame.tsx:71-83 | a listed animal, a target from 1 to 5, a full plate and nothing fed |
| FeedGame.Game.HandleDragEnd | src/features/zone-a/games/FeedGame.tsx:85-106 | a drop outside the animal does nothing. A drop on it removes that food and counts it; reaching the target schedules completion worth `10 + 5 * target`; going past it records a miss and schedules a new round |
| FeedGame.Game.Feed | src/features/zone-a/games/FeedGame.tsx:89-91 | feeding removes exactly the dragged food and counts one more |
| FeedGame.Game.CompleteTimeout | src/features/zone-a/games/FeedGame.tsx:96-100 | completion credits the round's XP as a correct counting answer |
| FeedGame.Game.NextRound | src/features/zone-a/games/FeedGame.tsx:108-111 | the round number advances and a new round is laid out |
| SorterGame.LevelsWellFormed | src/features/zone-a/games/SorterGame.tsx:23-69 | every level has distinct item ids and each item belongs to one of the level's categories |
| SorterGame.EmptyBuckets | src/features/zone-a/games/SorterGame.tsx:134 | one empty bucket per category of the level |
| SorterGame.WithoutIdMembers | src/features/zone-a/games/SorterGame.tsx:154 | filtering by id keeps exactly the items with other ids |
| SorterGame.UnsortedMembers | src/features/zone-a/games/SorterGame.tsx:211 | the pile holds exactly the level's items not yet in any bucket |
| SorterGame.UnsortedAdd | src/features/zone-a/games/SorterGame.tsx:211 | sorting one more item removes exactly that item from the pile |
| SorterGame.CompletionAsWrittenNeverFires | src/features/zone-a/games/SorterGame.tsx:154-155 | the completion test as written is false for every drop on every level |
| SorterGame.LastDropCompletes | src/features/zone-a/games/SorterGame.tsx:154-162 | a drop shrinks the pile by one, and the pile becomes empty exactly when the dropped item was the last one |
| SorterGame.ShuffledDealt | src/features/zone-a/games/SorterGame.tsx:132-137 | a reset lays out a permutation of the level's items with empty buckets, so the whole level is in the pile |
| SorterGame.DropFacts | src/features/zone-a/games/SorterGame.tsx:146-162 | dropping a pile item into its own category keeps the layout invariant and shrinks the pile by one |
| SorterGame.Game.constructor | src/features/zone-a/games/SorterGame.tsx:120-124 | the game starts at level 0 with nothing dealt |
| SorterGame.Game.ResetLevel | src/features/zone-a/games/SorterGame.tsx:132-137 | deals the current level shuffled, with empty buckets and the whole level in the pile |
| SorterGame.Game.HandleDragEnd | src/features/zone-a/games/SorterGame.tsx:139-169 | a drop outside any bucket does nothing. The right bucket takes the item, earns 10 XP and shrinks the pile by one, but no completion is ever scheduled, even when the pile becomes empty. A wrong bucket records a miss and shakes the item |
| SorterGame.Game.SortItem | src/features/zone-a/games/SorterGame.tsx:146-162 | the right-bucket branch as written: the item joins its bucket and earns 10 XP, and the completion test on the whole level schedules nothing |
| SorterGame.Game.SortItemIntended | src/features/zone-a/games/SorterGame.tsx:146-162 | the right-bucket branch with the intended test: completion is scheduled exactly when the dropped item was the last one on the pile |
| SorterGame.Game.Drop | src/features/zone-a/games/SorterGame.tsx:148-151 | the item is appended to its category's bucket and leaves the pile |
| SorterGame.Game.CompleteTimeout | src/features/zone-a/games/SorterGame.tsx:156-161 | completion credits the 50 XP bonus and unlocks the next level |
| SorterGame.Game.UnshakeTimeout | src/features/zone-a/games/SorterGame.tsx:167 | the shake is cleared |
| SorterGame.Game.NextLevel | src/features/zone-a/games/SorterGame.tsx:171-177 | advances one level, or leaves the game after the last level |
| FirstWord.WordsDistinct | src/features/zone-a/games/FirstWordGame.tsx:14-30 | the fifteen words are distinct and so are their pictures |
| FirstWord.UnusedMembers | src/features/zone-a/games/FirstWordGame.tsx:47 | the available words are exactly the listed words not used yet |
| FirstWord.NoneUnusedIffAllUsed | src/features/zone-a/games/FirstWordGame.tsx:47-50 | nothing is available exactly when every word has been used |
| FirstWord.Pick | src/features/zone-a/games/FirstWordGame.tsx:52-53 | the chosen word is listed, and is unused while any word is unused |
| FirstWord.NextUsedFacts | src/features/zone-a/games/FirstWordGame.tsx:48-55 | the used list stays repeat-free: it grows by the new word, or restarts with just the new word once all were used |
| FirstWord.NoRepeatWithinCycle | src/features/zone-a/games/FirstWordGame.tsx:46-68 | within one cycle no word is shown twice |
| FirstWord.FullCycle | src/features/zone-a/games/FirstWordGame.tsx:46-68 | a full cycle from an empty history shows every word exactly once |
| FirstWord.SelectWord | src/features/zone-a/games/FirstWordGame.tsx:47-55 | the chosen word and the new used list |
| FirstWord.WordOptions | src/features/zone-a/games/FirstWordGame.tsx:57-61 | four distinct listed pictures including the right one |
| FirstWord.Game.constructor | src/features/zone-a/games/FirstWordGame.tsx:35-40 | no word, no score, no used words at start; the mount effect's `NewWord` draws the first word at once |
| FirstWord.Game.NewWord | src/features/zone-a/games/FirstWordGame.tsx:46-68 | shows an unused word when one is left, records it, and builds four distinct options including its picture |
| FirstWord.Game.HandleAnswer | src/features/zone-a/games/FirstWordGame.tsx:70-85 | the right picture earns 15 XP and schedules the next word; a wrong one records a miss and marks it briefly |
| FirstWord.Game.ClearWrongTimeout | src/features/zone-a/games/FirstWordGame.tsx:83 | the wrong mark is cleared |
| EnglishGame.EmojisDistinct | src/features/zone-b/games/EnglishGame.tsx:15-36 | the twenty pictures are distinct |
| EnglishGame.SplitJoin | src/features/zone-b/games/EnglishGame.tsx:58 | `split(',')` cuts the filter into pieces that join back to it |
| EnglishGame.SplitPieces | src/features/zone-b/games/EnglishGame.tsx:58 | no piece contains the separator |
| EnglishGame.InCategoriesMembers | src/features/zone-b/games/EnglishGame.tsx:59 | a word is kept exactly when its category is one of the listed ones |
| EnglishGame.InCategoriesKeepsOrder | src/features/zone-b/games/EnglishGame.tsx:59 | the kept words stay in the order of the list: the result is a subsequence of it |
| EnglishGame.LevelFilters | src/features/zone-b/games/EnglishGame.tsx:38-42 | level 1 is animals, level 2 is colours and numbers, level 3 is everything |
| EnglishGame.LevelWords | src/features/zone-b/games/EnglishGame.tsx:55-60 | each level offers exactly the words of its categories, and the last level offers all words |
| EnglishGame.AvailableListed | src/features/zone-b/games/EnglishGame.tsx:55-60 | every offered word is in the word list |
| EnglishGame.AvailableNonEmpty | src/features/zone-b/games/EnglishGame.tsx:55-60 | every level offers at least one word |
| EnglishGame.AnswerXP | src/features/zone-b/games/EnglishGame.tsx:96 | a correct answer earns at least 15 XP |
| EnglishGame.RunXPTotal | src/features/zone-b/games/EnglishGame.tsx:95-100 | `n` right answers in a row earn `n * (15 + 5 * level + 2 * streak) + n * (n - 1)` XP |
| EnglishGame.WordOptions | src/features/zone-b/games/EnglishGame.tsx:71-75 | four distinct listed pictures including the right one |
| EnglishGame.Game.constructor | src/features/zone-b/games/EnglishGame.tsx:47-53 | level 0, no word, no score or streak; the level effect, which also runs on mount, follows with `NewWord` |
| EnglishGame.Game.SetLevel | src/features/zone-b/games/EnglishGame.tsx:134 | choosing a level changes only the level |
| EnglishGame.Game.NewWord | src/features/zone-b/games/EnglishGame.tsx:66-80 | a word of the current level with four distinct picture options including its own; the selection is cleared |
| EnglishGame.Game.HandleAnswer | src/features/zone-b/games/EnglishGame.tsx:88-106 | a second click does nothing. Right earns level- and streak-based XP and extends the streak; wrong records a miss and resets the streak. The next word follows after 1 s or 1.5 s |
| ParentsZone.MakeQuestion | src/features/parents/ParentsZone.tsx:25-29 | the gate asks for the product of two numbers from 3 to 9 |
| ParentsZone.MakeQuestionReaches | src/features/parents/ParentsZone.tsx:25-29 | every such product question can be asked |
| ParentsZone.ProductOpens | src/features/parents/ParentsZone.tsx:33-39 | typing the product opens the gate, also when followed by text starting with anything but a decimal digit; an empty answer does not |
| ParentsZone.OnlyProductOpens | src/features/parents/ParentsZone.tsx:33-39 | an answer that parses to any other number keeps the gate shut |
| ParentsZone.DisplayedProfile | src/features/parents/ParentsZone.tsx:82 | the selected profile is shown, or else the first one, and nothing only when both are missing |
| ParentsZone.ActivityDataFacts | src/features/parents/ParentsZone.tsx:84-87 | the chart shows at most the last seven history days, in order, with distinct dates |
| ParentsZone.AccuracyPercent | src/features/parents/ParentsZone.tsx:97 | the percentage is `100 * correct / total` rounded to the nearest integer, and 0 without attempts |
| ParentsZone.AccuracyBounded | src/features/parents/ParentsZone.tsx:97 | valid tallies give a percentage from 0 to 100 |
| ParentsZone.AccuracyExact | src/features/parents/ParentsZone.tsx:97 | an exact percentage is reported as is |
| ParentsZone.SubjectLabel | src/features/parents/ParentsZone.tsx:90-96 | known subjects get their Hebrew label and unknown subjects keep their key |
| ParentsZone.AccuracyDataFacts | src/features/parents/ParentsZone.tsx:89-99 | one row per recorded subject, with its total and a percentage from 0 to 100 |
| ParentsZone.FindTierFrom | src/features/parents/ParentsZone.tsx:101 | `find` returns the first rank whose threshold the XP reaches |
| ParentsZone.RankAsWrittenIsFirst | src/features/parents/ParentsZone.tsx:101 | the rank shown as written is the beginner rank for every non-negative XP, even where the store says bronze |
| ParentsZone.CurrentRank | src/features/parents/ParentsZone.tsx:101 | the corrected rank is the store's rank for the profile's XP |
| ParentsZone.CurrentRankHighest | src/features/parents/ParentsZone.tsx:221-222 | the corrected rank is the highest one reached and grows with XP |
| ParentsZone.LevelCountUpdate | src/features/parents/ParentsZone.tsx:225 | replacing one game's levels changes the count by the difference in its list's length |
| ParentsZone.UnlockCount | src/features/parents/ParentsZone.tsx:225 | a new level adds one to the count (two for a new game seeded with level 1), and a repeated unlock adds none |
| ParentsZone.NewProfileCount | src/features/parents/ParentsZone.tsx:225 | a new profile shows 0 open levels |
| ParentsZone.Dashboard.constructor | src/features/parents/ParentsZone.tsx:23-31 | the dashboard starts locked, on the statistics tab, with the current profile selected |
| ParentsZone.Dashboard.TypeAnswer | src/features/parents/ParentsZone.tsx:62 | typing changes only the answer text |
| ParentsZone.Dashboard.HandleUnlock | src/features/parents/ParentsZone.tsx:33-39 | the gate opens exactly when the answer parses to the product; otherwise the answer is cleared |
| ParentsZone.Dashboard.SelectProfile | src/features/parents/ParentsZone.tsx:140 | choosing a profile changes only the selection |
| ParentsZone.Dashboard.SetTab | src/features/parents/ParentsZone.tsx:123 | choosing a tab changes only the tab |

## Left out

- Persistence to `localStorage` and JSON (de)serialisation of profiles: I/O. The store starts from the saved profiles as a parameter.
- React effects are not run by the model. Each effect is the caller's follow-up call, named in the doc of the method that triggers it:
  - MathChallenge.tsx:82-84: a change of level calls `NewQuestion`.
  - LogicGame.tsx:72-78: a change of mode calls `NewAlligatorQuestion` or `NewSequenceQuestion`.
  - MemoryGame.tsx:96-100: a change of mode calls `StartGame`.
  - JuniorMathGame.tsx:59-61: mounting calls `NewQuestion`.
  - FeedGame.tsx:67-69: mounting calls `StartNewRound`.
  - SorterGame.tsx:128-130: a change of level calls `ResetLevel`.
  - FirstWordGame.tsx:42-44: mounting calls `NewWord`.
  - EnglishGame.tsx:62-64: mounting and a change of level call `NewWord`.
  So a method such as `SetMode` or `NextLevel` states only the state it sets itself.
- Speech, sound effects, class-name helpers, rendering, animations, routing and drag-and-drop plumbing: not logic the contracts are about. A drag is modelled by the item and the drop zone it ends on.
- The profile-selection and zone-selection screens and the UI components: outside the modelled core.
- `Date.now()` ids and today's date string: taken as parameters (`id`, `today`).
- Weekday labels from `toLocaleDateString`: formatting only. The activity chart is modelled by the history entries it shows.
- Timers: each `setTimeout` callback is a separate method, and a handler returns the callback it schedules and its delay. Which callbacks actually run, and in what order, is not modelled.
- Stale closures in timer callbacks are not modelled. In the source, the maths level-up unlock and the memory bonus write back a profile captured before the callback was scheduled, so they can overwrite XP credited in between. The model applies each callback to the current store.
- Shallow copies: `addXP` and `unlockLevel` build the new profile from shallow copies of nested objects. The model describes the resulting profile as a value and says nothing about aliasing of the old nested objects.
- `Math.random()`: its quality and uniformity are not modelled. A `Draw` is any real in `[0, 1)`. Floating-point rounding in `Math.floor(Math.random() * n)` is not modelled.
- Rejection loops: a loop that may never end is modelled over a finite prefix of draws. `None` means the prefix did not finish the loop. Game methods that use one require the prefix to finish it.
- ParentsZone.AccuracyPercent: models `Math.round((correct / total) * 100)` over exact rationals, with halves rounded up. Floating-point error at exact halves is not modelled.
- Numbers.LeadingDigits: only the decimal digit-prefix behaviour of `parseInt` is modelled. `Infinity`, `-0` and precision loss on very long inputs are not.
- ParentsZone.AccuracyData: `Object.entries` order is not modelled; the rows form a map keyed by subject.
- ParentsZone.Dashboard.constructor: the profile is a snapshot taken when the dashboard opens. Later store changes do not reach it, which the model keeps by making it a parameter.
- EnglishGame.LevelWords: states which words each level offers, but not the counts (5 animals; 7 colours and numbers). Computing the counts from the literal word list was too expensive for the verifier.
- SorterGame.Game.HandleDragEnd: requires the dragged item to be in the pile, because only unsorted items are rendered as draggable (src/features/zone-a/games/SorterGame.tsx:211).
- MathChallenge.Game.NewQuestion, JuniorMath.Game.NewQuestion, LogicGame.Game.NewSequenceQuestion, MemoryGame.Game.StartGame: require that the draws finish the option or pair loop (see rejection loops above). MathChallenge.MathOptionsFinish, JuniorMath.JuniorOptionsFinish, LogicGame.SequenceOptionsFinish and MemoryGame.MathPairsCanFinish show that such draws always exist.
- Trophies and achievements appear in the profile type but no modelled code updates them, so they are not modelled.

## Findings

| source | as written | input that shows it | evidently intended | confidence | as-written member | corrected member |
|---|---|---|---|---|---|---|
| src/features/zone-a/games/SorterGame.tsx:154-155 | completion is tested with `items.filter(i => i.id !== item.id).length === 0` on the full six-item level | dropping the last unsorted item of any level: five other items remain in `items`, so the level never completes | complete when no unsorted item remains after the drop | not executed | SorterGame.Game.SortItem | SorterGame.Game.SortItemIntended |
| src/features/parents/ParentsZone.tsx:101, 221-222 | the shown rank is `RANKS.find(r => xp >= r.minXP)`, the first rank in ascending order that the XP reaches | `totalXP = 100` shows the beginner rank "מתחיל" where the store's `getRank` gives bronze "ארד" | the highest rank reached, as `getRank` computes | not executed | ParentsZone.RankAsWrittenIsFirst | ParentsZone.CurrentRank |
