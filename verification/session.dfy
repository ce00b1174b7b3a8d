/**
 The per-question state machine of the game-play view.

 The view's state (`currentQuestion`, `score`, `selectedAnswer`,
 `isCorrect`, `timeLeft`, `showResult`) together with the question set and
 the difficulty it was opened with is one immutable `Session` value. The
 timers are explicit events: `Tick` is one firing of the one-second
 interval, `Advance` is the 1.5-second callback scheduled after an answer
 or a timeout, and `Choose(k)` is a click on option `k`.
 */
module GameSession {
  import opened Builtins
  import opened Questions

  /** Seconds on the clock when a question is shown. */
  const TimeBudget: int := 30

  /** Points for a correct answer: 10 for difficulty 1, 20 for 2, 30 for anything else. */
  function PointsFor(difficulty: int): (points: int)
    ensures points == 10 || points == 20 || points == 30
    ensures points == 10 <==> difficulty == 1
    ensures points == 20 <==> difficulty == 2
  {
    if difficulty == 1 then 10 else if difficulty == 2 then 20 else 30
  }

  datatype Session = Session(
    questions: seq<Question>,
    difficulty: int,
    current: int,
    score: int,
    selected: Option<int>,
    isCorrect: Option<bool>,
    timeLeft: int,
    showResult: bool)

  datatype Event = Tick | Choose(index: int) | Advance

  /** A question on screen, nothing selected, its clock not yet run. */
  predicate Fresh(s: Session) {
    && s.selected.None? && s.isCorrect.None?
    && s.timeLeft == TimeBudget && !s.showResult
  }

  /** What holds of every session the view can be in. */
  predicate Inv(s: Session) {
    && 0 <= s.current < |s.questions|
    && (s.showResult ==> s.current == |s.questions| - 1)
    && 0 <= s.score && s.score % PointsFor(s.difficulty) == 0
    && 0 <= s.timeLeft <= TimeBudget
    // a selection is always judged against the question on screen
    && (s.selected.Some? ==>
          s.isCorrect == Some(s.selected.value == s.questions[s.current].correctAnswer))
    // a verdict without a selection comes from the clock running out
    && (s.selected.None? && s.isCorrect.Some? ==> s.isCorrect == Some(false) && s.timeLeft == 0)
  }

  /** The view as first rendered for a freshly generated question set. */
  function Start(questions: seq<Question>, difficulty: int): (s: Session)
    requires |questions| >= 1
    ensures Inv(s) && Fresh(s)
    ensures s.questions == questions && s.difficulty == difficulty
    ensures s.current == 0 && s.score == 0
  {
    Session(questions, difficulty, 0, 0, None, None, TimeBudget, false)
  }

  /**
   One firing of the countdown interval. The interval only runs while no
   answer is selected and the results are not shown; when the previous value
   is at most 1 the clock stops at 0 and the question is marked incorrect.
   */
  function OnTick(s: Session): (r: Session)
    ensures s.showResult || s.selected.Some? ==> r == s
    ensures !s.showResult && s.selected.None? && s.timeLeft > 1 ==> r == s.(timeLeft := s.timeLeft - 1)
    ensures !s.showResult && s.selected.None? && s.timeLeft <= 1 ==>
              r == s.(timeLeft := 0, isCorrect := Some(false))
  {
    if s.showResult || s.selected.Some? then s
    else if s.timeLeft <= 1 then s.(timeLeft := 0, isCorrect := Some(false))
    else s.(timeLeft := s.timeLeft - 1)
  }

  /**
   A click on option `index`. Once a selection is recorded further clicks
   change nothing; otherwise the selection is recorded, judged against the
   stored index, and a correct one earns the difficulty's points.
   */
  function OnChoose(s: Session, index: int): (r: Session)
    requires 0 <= s.current < |s.questions|
    ensures s.selected.Some? ==> r == s
    ensures s.selected.None? ==>
      var correct := index == s.questions[s.current].correctAnswer;
      && r.selected == Some(index)
      && r.isCorrect == Some(correct)
      && r.score == (if correct then s.score + PointsFor(s.difficulty) else s.score)
      && r == s.(selected := r.selected, isCorrect := r.isCorrect, score := r.score)
  {
    if s.selected.Some? then s
    else
      var correct := index == s.questions[s.current].correctAnswer;
      s.(selected := Some(index),
         isCorrect := Some(correct),
         score := if correct then s.score + PointsFor(s.difficulty) else s.score)
  }

  /**
   The delayed step after an answer or a timeout: move to the next question
   with a cleared selection and a full clock, or, after the last question,
   show the results.
   */
  function OnAdvance(s: Session): (r: Session)
    ensures s.current < |s.questions| - 1 ==>
      r == s.(current := s.current + 1, selected := None, isCorrect := None, timeLeft := TimeBudget)
    ensures s.current >= |s.questions| - 1 ==> r == s.(showResult := true)
  {
    if s.current < |s.questions| - 1 then
      s.(current := s.current + 1, selected := None, isCorrect := None, timeLeft := TimeBudget)
    else
      s.(showResult := true)
  }

  /**
   Every event keeps the invariant, the question set and the difficulty;
   the question index never goes back, and the score only ever grows by
   exactly the difficulty's points, on a correct click.
   */
  function Step(s: Session, e: Event): (r: Session)
    requires Inv(s)
    ensures Inv(r)
    ensures r.questions == s.questions && r.difficulty == s.difficulty
    ensures s.current <= r.current <= s.current + 1
    ensures r.score == s.score || r.score == s.score + PointsFor(s.difficulty)
    ensures r.score != s.score ==>
              e.Choose? && s.selected.None? && e.index == s.questions[s.current].correctAnswer
    ensures s.showResult ==> r.showResult && r.current == s.current
  {
    match e
    case Tick => TickKeepsInv(s); OnTick(s)
    case Choose(k) => ChooseKeepsInv(s, k); OnChoose(s, k)
    case Advance => OnAdvance(s)
  }

  lemma TickKeepsInv(s: Session)
    requires Inv(s)
    ensures Inv(OnTick(s))
  {
  }

  lemma ChooseKeepsInv(s: Session, k: int)
    requires Inv(s)
    ensures Inv(OnChoose(s, k))
  {
    var points := PointsFor(s.difficulty);
    if s.selected.None? && k == s.questions[s.current].correctAnswer {
      MultipleStep(s.score, points);
    }
  }

  /** Adding the points to a multiple of the points gives a multiple again. */
  lemma MultipleStep(score: int, points: int)
    requires points == 10 || points == 20 || points == 30
    requires score % points == 0
    ensures (score + points) % points == 0
  {
    if points == 10 {
      assert (score + 10) % 10 == score % 10;
    } else if points == 20 {
      assert (score + 20) % 20 == score % 20;
    } else {
      assert (score + 30) % 30 == score % 30;
    }
  }

  /** The session after a sequence of events. */
  function Run(s: Session, events: seq<Event>): (r: Session)
    requires Inv(s)
    ensures Inv(r)
    ensures r.questions == s.questions && r.difficulty == s.difficulty
    ensures s.current <= r.current && s.score <= r.score
    decreases |events|
  {
    if events == [] then s else Run(Step(s, events[0]), events[1..])
  }

  lemma {:induction false} RunAppend(s: Session, a: seq<Event>, b: seq<Event>)
    requires Inv(s)
    ensures Run(s, a + b) == Run(Run(s, a), b)
    decreases |a|
  {
    if a != [] {
      assert (a + b)[0] == a[0];
      assert (a + b)[1..] == a[1..] + b;
      RunAppend(Step(s, a[0]), a[1..], b);
    } else {
      assert a + b == b;
    }
  }

  /** Selection is latched: a second click on the same question is ignored. */
  lemma ChooseLatched(s: Session, k: int, k': int)
    requires Inv(s)
    ensures OnChoose(OnChoose(s, k), k') == OnChoose(s, k)
  {
  }

  /** Number of questions on the results screen. */
  function QuestionsShown(s: Session): (n: int)
    requires Inv(s) && s.showResult
    ensures n == |s.questions|
  {
    s.current + 1
  }

  /** Accuracy on the results screen, before rounding: the share of correct answers, in percent. */
  function Accuracy(s: Session): (a: real)
    requires Inv(s) && s.showResult
    ensures a == 100.0 * ((s.score / PointsFor(s.difficulty)) as real) / (|s.questions| as real)
    ensures a >= 0.0
  {
    var points := PointsFor(s.difficulty);
    var correct := s.score / points;
    assert s.score == correct * points;
    (s.score as real / ((s.current + 1) * points) as real) * 100.0
  }

  /* ----------------------------------------------------------------------
     Whole plays
     ---------------------------------------------------------------------- */

  /** What the player does with one question: click an option, or let the clock run out. */
  datatype Move = Answer(index: int) | Wait

  function Ticks(n: nat): (es: seq<Event>)
    ensures |es| == n && forall i :: 0 <= i < n ==> es[i] == Tick
  {
    if n == 0 then [] else [Tick] + Ticks(n - 1)
  }

  /** The events one move produces, ending with the delayed advance. */
  function MoveEvents(m: Move): seq<Event> {
    match m
    case Answer(k) => [Choose(k), Advance]
    case Wait => Ticks(TimeBudget as nat) + [Advance]
  }

  function Script(moves: seq<Move>): seq<Event> {
    if moves == [] then [] else MoveEvents(moves[0]) + Script(moves[1..])
  }

  /** Points a move earns on question `q`. */
  function Gain(q: Question, m: Move, points: int): int {
    if m.Answer? && m.index == q.correctAnswer then points else 0
  }

  /** How many moves pick the stored correct option of their question. */
  function CorrectCount(qs: seq<Question>, moves: seq<Move>): (n: nat)
    requires |qs| == |moves|
    ensures n <= |qs|
  {
    if qs == [] then 0
    else (if moves[0].Answer? && moves[0].index == qs[0].correctAnswer then 1 else 0)
         + CorrectCount(qs[1..], moves[1..])
  }

  /** Letting the clock run out from `n` seconds takes exactly `n` ticks. */
  lemma {:induction false} TicksTimeOut(s: Session, n: nat)
    requires Inv(s) && !s.showResult && s.selected.None? && s.isCorrect.None?
    requires s.timeLeft == n >= 1
    ensures Run(s, Ticks(n)) == s.(timeLeft := 0, isCorrect := Some(false))
    decreases n
  {
    var t := Step(s, Tick);
    assert Ticks(n)[0] == Tick && Ticks(n)[1..] == Ticks(n - 1);
    if n > 1 {
      TicksTimeOut(t, n - 1);
    }
  }

  /** One move resolves the question on screen and moves on. */
  lemma MoveResolves(s: Session, m: Move)
    requires Inv(s) && Fresh(s)
    ensures var r := Run(s, MoveEvents(m));
      && r.questions == s.questions && r.difficulty == s.difficulty
      && r.score == s.score + Gain(s.questions[s.current], m, PointsFor(s.difficulty))
      && (s.current < |s.questions| - 1 ==> Fresh(r) && r.current == s.current + 1)
      && (s.current == |s.questions| - 1 ==> r.showResult)
  {
    match m
    case Answer(k) => AnswerResolves(s, k);
    case Wait => WaitResolves(s);
  }

  lemma AnswerResolves(s: Session, k: int)
    requires Inv(s) && Fresh(s)
    ensures var r := Run(s, [Choose(k), Advance]);
      && r == OnAdvance(OnChoose(s, k))
  {
    var es := [Choose(k), Advance];
    var chosen := Step(s, Choose(k));
    assert es[0] == Choose(k) && es[1..] == [Advance] && [Advance][1..] == [];
    assert Run(s, es) == Run(chosen, [Advance]);
    assert Run(chosen, [Advance]) == Run(Step(chosen, Advance), []);
  }

  lemma WaitResolves(s: Session)
    requires Inv(s) && Fresh(s)
    ensures Run(s, Ticks(TimeBudget as nat) + [Advance])
              == OnAdvance(s.(timeLeft := 0, isCorrect := Some(false)))
  {
    TicksTimeOut(s, TimeBudget as nat);
    RunAppend(s, Ticks(TimeBudget as nat), [Advance]);
    assert [Advance][1..] == [];
  }

  /**
   Letting the clock run out earns what a wrong click earns: the same score,
   the same next question, and, before the last question, the very same
   state once the delayed advance has run.
   */
  lemma TimeoutMatchesWrongAnswer(s: Session, k: int)
    requires Inv(s) && Fresh(s)
    requires k != s.questions[s.current].correctAnswer
    ensures var timedOut := Run(s, MoveEvents(Wait));
      var wrong := Run(s, MoveEvents(Answer(k)));
      && timedOut.score == wrong.score == s.score
      && timedOut.current == wrong.current
      && timedOut.showResult == wrong.showResult
      && (s.current < |s.questions| - 1 ==> timedOut == wrong)
  {
    WaitResolves(s);
    AnswerResolves(s, k);
  }

  /** A script runs one move's events, then the rest of the script. */
  lemma ScriptRun(s: Session, moves: seq<Move>)
    requires Inv(s) && moves != []
    ensures Run(s, Script(moves)) == Run(Run(s, MoveEvents(moves[0])), Script(moves[1..]))
  {
    assert Script(moves) == MoveEvents(moves[0]) + Script(moves[1..]);
    RunAppend(s, MoveEvents(moves[0]), Script(moves[1..]));
  }

  /** The first move's gain, plus the points for the rest, is the points for all. */
  lemma CountStep(qs: seq<Question>, moves: seq<Move>, points: int)
    requires |qs| == |moves| >= 1
    ensures points * CorrectCount(qs, moves)
              == Gain(qs[0], moves[0], points) + points * CorrectCount(qs[1..], moves[1..])
  {
    var bit := if moves[0].Answer? && moves[0].index == qs[0].correctAnswer then 1 else 0;
    var tail := CorrectCount(qs[1..], moves[1..]);
    calc {
      points * CorrectCount(qs, moves);
      points * (bit + tail);
      { Distribute(points, bit, tail); }
      points * bit + points * tail;
      { GainIsBit(qs[0], moves[0], points); }
      Gain(qs[0], moves[0], points) + points * tail;
    }
  }

  lemma GainIsBit(q: Question, m: Move, points: int)
    ensures Gain(q, m, points) == points * (if m.Answer? && m.index == q.correctAnswer then 1 else 0)
  {
  }

  lemma Distribute(p: int, a: int, b: int)
    ensures p * (a + b) == p * a + p * b
  {
  }

  /** Playing out every remaining question ends on the results screen with the points earned. */
  lemma {:induction false} PlayOut(s: Session, moves: seq<Move>)
    requires Inv(s) && Fresh(s)
    requires |moves| == |s.questions| - s.current
    ensures var r := Run(s, Script(moves));
      && r.showResult
      && r.score == s.score + PointsFor(s.difficulty) * CorrectCount(s.questions[s.current..], moves)
    decreases |moves|
  {
    var points := PointsFor(s.difficulty);
    var qs := s.questions[s.current..];
    var rest := moves[1..];
    ScriptRun(s, moves);
    MoveResolves(s, moves[0]);
    CountStep(qs, moves, points);
    var t := Run(s, MoveEvents(moves[0]));
    if |moves| > 1 {
      assert t.questions[t.current..] == qs[1..];
      PlayOut(t, rest);
    } else {
      assert Script(rest) == [];
      assert CorrectCount(qs[1..], rest) == 0;
    }
  }

  /**
   A whole session: one move per question always reaches the results
   screen, showing every question, with the difficulty's points for each
   correct move.
   */
  lemma SessionOutcome(questions: seq<Question>, difficulty: int, moves: seq<Move>)
    requires |questions| >= 1 && |moves| == |questions|
    ensures var r := Run(Start(questions, difficulty), Script(moves));
      && r.showResult
      && QuestionsShown(r) == |questions|
      && r.score == PointsFor(difficulty) * CorrectCount(questions, moves)
  {
    var s := Start(questions, difficulty);
    assert s.questions[s.current..] == questions;
    PlayOut(s, moves);
  }

  /**
   The accuracy on the results screen is the percentage of moves that
   picked the stored correct option.
   */
  lemma AccuracyOfPlay(questions: seq<Question>, difficulty: int, moves: seq<Move>)
    requires |questions| >= 1 && |moves| == |questions|
    ensures Run(Start(questions, difficulty), Script(moves)).showResult
    ensures Accuracy(Run(Start(questions, difficulty), Script(moves)))
              == Percent(CorrectCount(questions, moves), |questions|)
  {
    var r := Run(Start(questions, difficulty), Script(moves));
    var correct := CorrectCount(questions, moves);
    SessionOutcome(questions, difficulty, moves);
    ScoreOverPoints(r.score, PointsFor(r.difficulty), correct);
    AccuracyOfScore(r, correct, |questions|);
  }

  /** `part` out of `whole`, in percent. */
  function Percent(part: int, whole: int): real
    requires whole > 0
  {
    100.0 * (part as real) / (whole as real)
  }

  lemma AccuracyOfScore(r: Session, correct: int, total: int)
    requires Inv(r) && r.showResult && total == |r.questions|
    requires r.score / PointsFor(r.difficulty) == correct
    ensures Accuracy(r) == Percent(correct, total)
  {
  }

  /** A score of `correct` times the points means `correct` right answers. */
  lemma ScoreOverPoints(score: int, points: int, correct: int)
    requires points == 10 || points == 20 || points == 30
    requires score == points * correct
    ensures score / points == correct
  {
    if points == 10 {
      assert score == 10 * correct;
    } else if points == 20 {
      assert score == 20 * correct;
    } else {
      assert score == 30 * correct;
    }
  }

  lemma {:induction false} AllCorrectCount(qs: seq<Question>, moves: seq<Move>)
    requires |qs| == |moves|
    requires forall i :: 0 <= i < |qs| ==> moves[i] == Answer(qs[i].correctAnswer)
    ensures CorrectCount(qs, moves) == |qs|
  {
    if qs != [] {
      AllCorrectCount(qs[1..], moves[1..]);
    }
  }

  /**
   The timeout does not latch a selection: during the resolve delay after a
   timeout a click on the correct option is still accepted and scored.
   */
  lemma LateAnswerStillScores(s: Session)
    requires Inv(s) && Fresh(s)
    ensures var t := Run(s, Ticks(TimeBudget as nat));
      && t.isCorrect == Some(false) && t.timeLeft == 0
      && var u := OnChoose(t, s.questions[s.current].correctAnswer);
         u.isCorrect == Some(true) && u.score == s.score + PointsFor(s.difficulty)
  {
    TicksTimeOut(s, TimeBudget as nat);
  }
}
