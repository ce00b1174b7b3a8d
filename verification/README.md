# Quiz session engine and profile progression, in Dafny

A functional model of the two pieces of logic in the "Умная Перемена"
school quiz app.

**The game-play view** (`src/components/GamePlay.tsx`):
- It generates a question set for a game id (`generateQuestions`).
- It then runs a per-question state machine driven by:
  - a one-second countdown;
  - clicks on an option;
  - a delayed 1.5-second "advance" step.
- It ends on a results screen that shows the score, the question count and the accuracy.

**The home page** (`src/pages/Index.tsx`):
- creates the player profile from the typed name (`createUserProfile`);
- applies a finished game's score to it (`updateProgress`);
- ranks all stored profiles (the `loadAllUsers` sort) and shows the top ten (`leaderboard`);
- filters the game catalogue by category (`filteredGames`);
- labels each card's difficulty (`getDifficultyLabel`).

## Modules
- `builtins.dfy`, module `Builtins`: the JavaScript built-ins the code relies on.
  - `indexOf`, which returns −1 when the value is absent.
  - `String(n)`, with a parser proving it injective.
  - The remainder `%`, which truncates toward zero.
  - `Math.min`.
  - `String.prototype.trim`, using the white-space and line-terminator sets of sections 12.2 and 12.3 of ECMA-262.
- `questions.dfy`, module `Questions`: `generateQuestions`.
  - Randomness is an input.
  - Game "1" takes the five `Math.floor(Math.random() * k)` values and the order the shuffle produced. The order is constrained to be a permutation of the four numbers.
  - Games "3" to "6" take any permutation of `[answer, ...wrong]`.
  - The stored index is then computed with `indexOf`, as the code does.
- `session.dfy`, module `GameSession`: the view's state, including `currentQuestion`, `score`, `selectedAnswer`, `isCorrect`, `timeLeft` and `showResult`.
  - The state is one immutable `Session` value.
  - The events are `Tick`, `Choose(k)` and `Advance`.
  - Whole plays are scripted as one move per question: a click, or letting the clock run out.
- `profiles.dfy`, module `Profiles`: `UserProfile`, `createUserProfile` and `updateProgress`.
- `catalog.dfy`, module `Catalog`: the twelve game cards, `filteredGames` and `getDifficultyLabel`.
- `leaderboard.dfy`, module `Leaderboard`: the stable descending sort by points and the top-ten table.
- `completion.dfy`, module `Completion`:
  - Opening a card (`activeGame` → `GamePlay`).
  - `handleFinish` → `onComplete` → `updateProgress`.
  - Three concrete plays: a perfect multiplication game, the first capitals question, and three right answers followed by seven timeouts.

In three places the code behaves in ways a reader might not expect; the model follows the code:
- **Game "1" distractors can coincide.** Every distractor differs from the product. The two upward distractors, however, coincide whenever the first upward draw is 4 and the second is 0 (`Questions.DistractorsMayCoincide`).
- **Level and progress use the old level's threshold.** The level is recomputed only once the points reach the *old* level's threshold `level * 500`. Progress is the remainder modulo that old threshold, not modulo the new level's.
- **A timeout does not latch a selection.** After the clock runs out, a click during the 1.5-second resolve delay is still accepted and scored (`GameSession.LateAnswerStillScores`).
  - A timeout therefore matches a wrong answer only when the advance comes first (`GameSession.TimeoutMatchesWrongAnswer`).
  - No bound of `10 × points` on the score is claimed.

## Model

| member | source | states |
|---|---|---|
| Builtins.IndexOf | src/components/GamePlay.tsx:45 | `indexOf` gives −1 exactly when the value is absent; otherwise it gives the first position holding the value |
| Builtins.IntToString | src/components/GamePlay.tsx:44 | `String(n)` as used by `options.map(String)`: a non-empty text that starts with '-' exactly when n is negative, followed by decimal digits with no leading zero (a single "0" only for zero); `ParseInt` reads it back as n |
| Builtins.IntToStringInjective | src/components/GamePlay.tsx:44 | `options.map(String)` keeps distinct numbers distinct: two integers print the same exactly when they are equal (because `ParseInt` reads every such text back) |
| Builtins.Rem | src/pages/Index.tsx:134 | JavaScript `%`: the result lies strictly between −b and b, takes the dividend's sign, equals Dafny's `%` for a non-negative dividend, and differs from the dividend by a multiple of b |
| Builtins.Min | src/pages/Index.tsx:146 | `Math.min`: the result is one of the two values and is not above either |
| Builtins.Trim | src/pages/Index.tsx:83 | `trim()`: the result is the slice of the input that starts after the leading white space and is followed only by white space; it neither starts nor ends with white space; it is empty exactly when the input is all white space |
| Builtins.TrimIdempotent | src/pages/Index.tsx:95 | trimming an already trimmed name changes nothing |
| Questions.DrawBounds | src/components/GamePlay.tsx:35-40 | the operands lie in [1,10]; `wrong1 > correct`, `wrong2 < correct` and `wrong3 > correct`; the product occurs exactly once among the four numbers |
| Questions.DistractorsMayCoincide | src/components/GamePlay.tsx:38-40 | draws `Math.random` can produce (offsets 4 and 0) make `wrong1 == wrong3`: the distractors need not be pairwise distinct |
| Questions.ArithmeticQuestion | src/components/GamePlay.tsx:34-46 | each multiplication question has the prompt `a × b = ?` and, as options, exactly the shuffled numbers as text (`Texts(order)`, which `ValidDraw` makes a permutation of the product and its three distractors); `indexOf(correct)` is a valid index holding `String(a*b)`, and no other option holds it |
| Questions.ArithmeticQuestions | src/components/GamePlay.tsx:34-46 | one question per draw, each with its draw's prompt and shuffled numbers as options, and keyed to its own product |
| Questions.SpellingQuestion | src/components/GamePlay.tsx:62-66 | each spelling question offers the letters а, о, е, и in that order, and its stored index points at the one option equal to the missing letter |
| Questions.SpellingQuestions | src/components/GamePlay.tsx:50-66 | ten spelling questions; the i-th asks about the i-th word, offers а, о, е, и and is keyed to that word's missing letter |
| Questions.ShuffledQuestion | src/components/GamePlay.tsx:81-87 | for any permutation of `[answer, ...wrong]`, the index from `indexOf` is valid and holds the answer; when the answer is not among the wrong options, no other index holds it. The same rule serves games "3" to "6" (lines 103-109, 125-131, 147-153) |
| Questions.ShuffledQuestions | src/components/GamePlay.tsx:81-88 | over a well-formed table, the i-th question asks about the i-th row, offers exactly the i-th shuffle (four options) and is keyed to that row's answer |
| Questions.TranslationsWellFormed | src/components/GamePlay.tsx:69-80 | the English-words table has ten rows of three wrong options, none equal to the answer |
| Questions.CapitalsWellFormed | src/components/GamePlay.tsx:91-102 | the capitals table has ten rows of three wrong options, none equal to the answer |
| Questions.SequencesWellFormed | src/components/GamePlay.tsx:113-124 | the sequences table has ten rows of three wrong options, none equal to the answer |
| Questions.FractionsWellFormed | src/components/GamePlay.tsx:135-146 | the fractions table has ten rows of three wrong options, none equal to the answer |
| Questions.TablesWellFormed | src/components/GamePlay.tsx:68-154 | all four fixed tables are well-formed |
| Questions.TableOfWellFormed | src/components/GamePlay.tsx:68-154 | the table each of games "3" to "6" draws from is well-formed |
| Questions.GenerateArithmetic | src/components/GamePlay.tsx:33-47 | game "1" yields ten questions, each with its draw's prompt and shuffled numbers and keyed to the independently computed reference answer `String(a*b)` |
| Questions.GenerateSpelling | src/components/GamePlay.tsx:49-66 | game "2" yields ten questions with the word prompts and the fixed letters, each keyed to the reference answer |
| Questions.GenerateShuffled | src/components/GamePlay.tsx:68-154 | games "3" to "6" yield ten questions; each asks about its table row with the game's prompt text, offers that row's shuffle and is keyed to the row's reference answer |
| Questions.Generate | src/components/GamePlay.tsx:31-165 | ids "1" to "6" give exactly ten questions and any other id gives exactly the filler question; every question has four options and a stored index that points at the one option equal to the reference answer; the options and prompts are the ones each source builds (the shuffled numbers as text for "1", а/о/е/и for "2", the row's shuffle for "3" to "6") |
| GameSession.PointsFor | src/components/GamePlay.tsx:207 | 10 points exactly for difficulty 1, 20 exactly for difficulty 2, 30 for every other value |
| GameSession.Start | src/components/GamePlay.tsx:24-29 | the initial state holds the given questions and difficulty, question 0, score 0, nothing selected and 30 seconds left, and it satisfies the session invariant |
| GameSession.OnTick | src/components/GamePlay.tsx:169-183 | while the results show or an answer is selected, a tick changes nothing; otherwise the clock goes down by one, or, from at most 1, stops at 0 and marks the question incorrect without touching the score |
| GameSession.OnChoose | src/components/GamePlay.tsx:199-209 | once a selection exists a click changes nothing; otherwise the index is recorded, judged against the stored index, and the score grows by exactly the difficulty's points when correct; nothing else changes |
| GameSession.OnAdvance | src/components/GamePlay.tsx:211-220 | before the last question: next index, selection and verdict cleared, 30 seconds; on the last question: results shown, index unchanged |
| GameSession.Step | src/components/GamePlay.tsx:169-221 | every event keeps the invariant: a valid index; on the results screen the last index; the score is a non-negative multiple of the points; a selection's verdict matches the stored index; a verdict without a selection is a timeout. The index never goes back; the score grows only by exactly the points, and only on a first correct click; the results screen stays |
| GameSession.Run | src/components/GamePlay.tsx:169-221 | any sequence of events keeps the invariant, the questions and the difficulty; neither index nor score decreases |
| GameSession.ChooseLatched | src/components/GamePlay.tsx:200 | a second click on the same question is ignored: choosing twice is choosing once |
| GameSession.QuestionsShown | src/components/GamePlay.tsx:245 | on the results screen, `currentQuestion + 1` is the number of questions |
| GameSession.Accuracy | src/components/GamePlay.tsx:248 | before rounding, the accuracy is 100 × (correct answers) / (number of questions), where the correct answers are the score divided by the points; it is never negative |
| GameSession.AccuracyOfPlay | src/components/GamePlay.tsx:248 | after a whole scripted session, the accuracy is the percentage of moves that picked the stored correct option: 100 × `CorrectCount` / number of questions |
| GameSession.TicksTimeOut | src/components/GamePlay.tsx:172-179 | from `n` seconds with nothing selected, exactly `n` ticks bring the clock to 0 and mark the question incorrect |
| GameSession.MoveResolves | src/components/GamePlay.tsx:185-221 | one click or one timeout, followed by the advance, adds the move's points and moves to a fresh next question, or to the results after the last |
| GameSession.TimeoutMatchesWrongAnswer | src/components/GamePlay.tsx:185-197 | a timeout followed by the advance gives the same score, index and results flag as a wrong click; before the last question the two states are identical |
| GameSession.PlayOut | src/components/GamePlay.tsx:167-221 | playing one move on each remaining question always reaches the results screen, with the points of every correct move added |
| GameSession.SessionOutcome | src/components/GamePlay.tsx:167-245 | a whole session, one move per question, ends on the results screen, shows every question, and scores the difficulty's points times the number of correct moves |
| GameSession.LateAnswerStillScores | src/components/GamePlay.tsx:185-209 | after the clock runs out the question is marked incorrect, yet a click on the correct option is still accepted and scored |
| Profiles.CreateProfile | src/pages/Index.tsx:82-110 | no profile exactly when the name is empty after trimming; otherwise the id, the trimmed name, level 1, 0 points, 0 progress, 0 games, 0 time, no achievements and the six subjects at 0, and the profile is well-formed |
| Profiles.ApplyProgress | src/pages/Index.tsx:132-159 | points plus the score; one more game and five more time units; id, name and achievements kept; the level changes exactly when the points reach `level * 500`, then to `floor(points / 500) + 1`, and never decreases; when the new total is non-negative, progress is in [0,100) and is the remainder modulo the old threshold, as a percentage; the played subject becomes `min(100, old + score / 10)` with a missing entry read as 0, and every other subject is unchanged |
| Profiles.UpdateProgress | src/pages/Index.tsx:129-162 | without a loaded profile nothing happens; otherwise the profile is updated as above |
| Profiles.ApplyKeepsWellFormed | src/pages/Index.tsx:132-158 | a game with a non-negative score keeps the profile well-formed: the level stays `floor(points / 500) + 1`, progress stays below 100, every subject stays within 0..100, and time stays 5 per game |
| Profiles.LevelStepUp | src/pages/Index.tsx:137-138 | reaching the threshold always yields a strictly higher level |
| Profiles.LevelTracksPoints | src/pages/Index.tsx:133-138 | below the threshold, the kept level still equals `floor(points / 500) + 1` |
| Profiles.RemainderPercent | src/pages/Index.tsx:133-134 | for non-negative points, the progress percentage lies in [0,100) and, scaled back, is the remainder of the points modulo the threshold |
| Profiles.LevelUpAt500 | src/pages/Index.tsx:132-143 | 480 points and a 30-point game take level 1 to level 2, at 510 points |
| Catalog.OfCategory | src/pages/Index.tsx:336 | `games.filter(...)` keeps a game exactly when its category is the selected one, with its multiplicity, and never grows the list |
| Catalog.OfCategoryAppend | src/pages/Index.tsx:336 | filtering distributes over concatenation, so the catalogue order is kept |
| Catalog.OfCategoryIdempotent | src/pages/Index.tsx:336 | filtering a filtered list changes nothing |
| Catalog.FilteredGames | src/pages/Index.tsx:334-336 | "Все" gives the whole list; any other choice gives exactly the games of that category, in catalogue order (`OfCategory`, which `OfCategoryAppend` shows keeps the order) |
| Catalog.DifficultyLabel | src/pages/Index.tsx:338-342 | "Легко" exactly for 1, "Средне" exactly for 2, "Сложно" for everything else |
| Catalog.LabelMatchesPoints | src/pages/Index.tsx:338-342 | the badge tiers coincide with the points tiers of the game-play view |
| Catalog.CatalogWellFormed | src/pages/Index.tsx:201-310 | every card's category is one of the filter choices and its difficulty is 1, 2 or 3 |
| Catalog.OnlySixGamesHaveQuestions | src/pages/Index.tsx:201-310 | cards "1" to "6" have question sources; the other six open a single filler question |
| Leaderboard.InsertByPoints | src/pages/Index.tsx:79 | inserting into a descending list gives a descending list holding the same profiles plus the new one |
| Leaderboard.SortByPoints | src/pages/Index.tsx:79 | the ranking is ordered by points, descending, and is a permutation of the stored profiles |
| Leaderboard.SortIsStable | src/pages/Index.tsx:79 | profiles with equal points keep their stored order |
| Leaderboard.Table | src/pages/Index.tsx:321-329 | at most ten rows, as many as there are users below that; row k has rank k+1 and the k-th user's points and level; it is marked as the player's exactly when the ids match, and then ` (Ты)` is appended to the name |
| Leaderboard.TableOrdered | src/pages/Index.tsx:321-329 | over the ranking, the ranks increase and the points never increase down the table |
| Leaderboard.AtMostOneOwnRow | src/pages/Index.tsx:327 | with distinct ids, at most one row is marked as the player's |
| Leaderboard.LeaderIsTopRow | src/pages/Index.tsx:79 | a player with at least as many points as every stored profile has their points on the top row (with a tie, a player stored earlier may hold that row) |
| Leaderboard.StrictLeaderHeadsTable | src/pages/Index.tsx:79 | a player with strictly more points than every other stored profile heads the table: the top row is their own row, with their points |
| Completion.OpenGame | src/pages/Index.tsx:670-675 | opening a card starts a fresh session over the set generated for the card's id, at the card's difficulty, with ten questions for cards "1" to "6" and one otherwise |
| Completion.FinishGame | src/pages/Index.tsx:677-678 | the final score reaches the profile under the card's category: the result is `ApplyProgress` with the session's score and the card's category, so points grow by the score and that category's subject becomes `min(100, old + score / 10)`; a well-formed profile stays well-formed; without a profile nothing happens |
| Completion.PlayedGame | src/components/GamePlay.tsx:167-221 | any card, played with one move per generated question, reaches the results with the card's points per correct move |
| Completion.GameResultReachesProfile | src/pages/Index.tsx:677-678 | a whole game's result reaches the profile: the points per correct move added, one more game, and the profile still well-formed |
| Completion.PerfectGame | src/components/GamePlay.tsx:199-221 | answering every question correctly earns the difficulty's points once per question |
| Completion.PerfectMultiplication | src/components/GamePlay.tsx:33-47 | game "1" at difficulty 1 with every answer correct ends with 100 points |
| Completion.FirstCapital | src/components/GamePlay.tsx:92 | on the first capitals question at difficulty 3, picking "Париж" earns 30 points; picking "Лондон", "Берлин" or "Рим" earns nothing and is marked incorrect |
| Completion.ThreeRightSevenTimeouts | src/components/GamePlay.tsx:185-221 | three correct answers and seven timeouts still end on the results screen after ten questions, with three times the points |

## Left out
- Rendering, CSS classes, icons, toasts and animations: these are presentational.
- `localStorage` and `JSON.parse`/`JSON.stringify` (`loadUserProfile`, `saveUserProfile`, the scan in `loadAllUsers`):
  - the stored profile list is an input to `Leaderboard.SortByPoints`;
  - the loaded profile is an input to `Profiles.UpdateProgress`.
- The user id from `Date.now()` and `Math.random()`: it is a parameter of `Profiles.CreateProfile`.
- `Math.random` and `sort(() => Math.random() - 0.5)`: they are replaced by constrained inputs, namely the draw values and any permutation. The distribution of the shuffle is not modelled.
- Real-time scheduling by `setInterval` and `setTimeout`: ticks and delayed advances are explicit events.
  - React's capture of `currentQuestion` in the delayed callback is not modelled. `Advance` acts on the current state.
  - As a result, the duplicate advances the interval schedules after a timeout do not re-open an already advanced question as they can in the app.
  - For the same reason the score is not bounded by `10 × points`.
- A click while the results screen shows: the results screen has no option buttons, so this click cannot happen. `Step` still accepts the event.
- Display rounding: `Math.round` of the accuracy and of the progress, the `Math.floor(gamesPlayed / 3) || 1` streak and the hours display. `GameSession.Accuracy` is the exact rational value before rounding.
- Floating point: progress and subject values are exact rationals (`real`), so IEEE rounding of `points / 10` and of the percentage is not modelled.
- Profiles.ApplyProgress: requires `level >= 1`. A stored level of 0 makes the threshold 0 and the JavaScript progress `NaN`, which the model does not represent.
- Profiles.UpdateProgress: `|| 0` also turns a stored `NaN` subject value into 0; stored values are exact numbers here, so only the missing-entry case is modelled.
- Leaderboard.SortByPoints: assumes the `b.points - a.points` comparator orders by points. Points beyond the exact integer range of doubles are not modelled.
- The profile's `achievements` field is never read or computed; updates keep it unchanged.
- `backend/leaderboard/index.py`: an HTTP and SQL wrapper that the page never calls.
