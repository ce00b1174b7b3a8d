/**
 From a catalogue card to the updated profile: the game-play view is opened
 with the card's id and difficulty, played to the results screen, and its
 final score is handed to `updateProgress` together with the card's
 category (`onComplete`). Also three concrete plays: a perfect
 multiplication game, the first capitals question, and three right answers
 followed by seven timeouts.
 */
module Completion {
  import opened Builtins
  import opened Questions
  import opened GameSession
  import opened Profiles
  import opened Catalog

  /** The view opened for `game`, over a question set generated once. */
  function OpenGame(game: Game, rnd: Randomness): (s: Session)
    requires Admissible(game.id, rnd)
    ensures Inv(s) && Fresh(s) && s.current == 0 && s.score == 0
    ensures s.questions == Generate(game.id, rnd) && s.difficulty == game.difficulty
    ensures |s.questions| == if game.id in KnownGames then QuestionsPerGame else 1
  {
    Start(Generate(game.id, rnd), game.difficulty)
  }

  /**
   `handleFinish` followed by `onComplete`: the final score goes to the
   profile under the game's category. A finished session never breaks a
   well-formed profile.
   */
  function FinishGame(user: Option<Profile>, game: Game, s: Session): (r: Option<Profile>)
    requires Inv(s) && s.showResult
    requires user.Some? ==> user.value.level >= 1
    ensures r.Some? <==> user.Some?
    ensures r.Some? ==>
      && r.value == ApplyProgress(user.value, s.score, game.category)
      && r.value.points == user.value.points + s.score
      && r.value.subjectProgress[game.category]
           == Min(100.0, SubjectValue(user.value.subjectProgress, game.category) + s.score as real / 10.0)
      && (WellFormed(user.value) ==> WellFormed(r.value))
  {
    match user
    case None => UpdateProgress(user, s.score, game.category)
    case Some(p) =>
      if WellFormed(p) then
        ApplyKeepsWellFormed(p, s.score, game.category);
        UpdateProgress(user, s.score, game.category)
      else UpdateProgress(user, s.score, game.category)
  }

  /**
   Every card, played over a question set with one move per question, adds
   the card's points for each correct move to the profile and keeps it
   well-formed. `PlayedGame` shows the set `OpenGame` generates is such a set.
   */
  lemma GameResultReachesProfile(p: Profile, game: Game, qs: seq<Question>, moves: seq<Move>)
    requires WellFormed(p)
    requires |qs| >= 1 && |moves| == |qs|
    ensures var s := Run(Start(qs, game.difficulty), Script(moves));
      && s.showResult
      && var r := FinishGame(Some(p), game, s);
         && r.Some? && WellFormed(r.value)
         && r.value.points == p.points + PointsFor(game.difficulty) * CorrectCount(qs, moves)
         && r.value.gamesPlayed == p.gamesPlayed + 1
  {
    SessionOutcome(qs, game.difficulty, moves);
  }

  /** A card played with one move per question reaches the results screen. */
  lemma PlayedGame(game: Game, rnd: Randomness, moves: seq<Move>)
    requires Admissible(game.id, rnd)
    requires |moves| == |Generate(game.id, rnd)|
    ensures var s := Run(OpenGame(game, rnd), Script(moves));
      && s.showResult
      && s.score == PointsFor(game.difficulty) * CorrectCount(Generate(game.id, rnd), moves)
  {
    var qs := Generate(game.id, rnd);
    assert OpenGame(game, rnd) == Start(qs, game.difficulty);
    SessionOutcome(qs, game.difficulty, moves);
  }

  /** The stored correct option of every question, in order. */
  function PerfectMoves(qs: seq<Question>): (moves: seq<Move>)
    ensures |moves| == |qs|
    ensures forall i :: 0 <= i < |qs| ==> moves[i] == Answer(qs[i].correctAnswer)
  {
    seq(|qs|, i requires 0 <= i < |qs| => Answer(qs[i].correctAnswer))
  }

  /** Answering every question correctly earns the difficulty's points once per question. */
  lemma PerfectGame(qs: seq<Question>, difficulty: int)
    requires |qs| >= 1
    ensures var s := Run(Start(qs, difficulty), Script(PerfectMoves(qs)));
      s.showResult && s.score == PointsFor(difficulty) * |qs|
  {
    AllCorrectCount(qs, PerfectMoves(qs));
    SessionOutcome(qs, difficulty, PerfectMoves(qs));
  }

  /** Game "1" at difficulty 1, every question answered correctly: 100 points. */
  lemma PerfectMultiplication(rnd: Randomness)
    requires Admissible("1", rnd)
    ensures var qs := Generate("1", rnd);
      var s := Run(Start(qs, 1), Script(PerfectMoves(qs)));
      s.showResult && s.score == 100
  {
    var qs := Generate("1", rnd);
    assert |qs| == 10;
    PerfectGame(qs, 1);
  }

  /**
   The first capitals question at difficulty 3: picking "Париж" earns 30
   points; picking "Лондон", "Берлин" or "Рим" earns nothing and is marked
   incorrect.
   */
  lemma FirstCapital(rnd: Randomness, k: int)
    requires Admissible("4", rnd)
    requires 0 <= k < 4
    ensures var s := OnChoose(Start(Generate("4", rnd), 3), k);
      var option := Generate("4", rnd)[0].options[k];
      && (option == "Париж" ==> s.score == 30 && s.isCorrect == Some(true))
      && (option in ["Лондон", "Берлин", "Рим"] ==> s.score == 0 && s.isCorrect == Some(false))
  {
    var qs := Generate("4", rnd);
    assert IntendedAnswers("4", rnd)[0] == "Париж";
    assert KeyedTo(qs[0], "Париж");
  }

  /**
   Three correct answers and seven timeouts: the session still ends after
   ten resolutions, with three times the difficulty's points.
   */
  lemma ThreeRightSevenTimeouts(qs: seq<Question>, difficulty: int)
    requires |qs| == 10
    ensures var moves := seq(10, i requires 0 <= i < 10 =>
                               if i < 3 then Answer(qs[i].correctAnswer) else Wait);
      var s := Run(Start(qs, difficulty), Script(moves));
      && s.showResult && QuestionsShown(s) == 10
      && s.score == 3 * PointsFor(difficulty)
  {
    var moves := seq(10, i requires 0 <= i < 10 =>
                       if i < 3 then Answer(qs[i].correctAnswer) else Wait);
    SessionOutcome(qs, difficulty, moves);
    assert CorrectCount(qs[3..], moves[3..]) == 0 by {
      NoCorrectWhileWaiting(qs[3..], moves[3..]);
    }
    assert moves[1..][1..][1..] == moves[3..] && qs[1..][1..][1..] == qs[3..];
    assert CorrectCount(qs[2..], moves[2..]) == 1 + CorrectCount(qs[3..], moves[3..]);
    assert CorrectCount(qs[1..], moves[1..]) == 1 + CorrectCount(qs[2..], moves[2..]);
    assert CorrectCount(qs, moves) == 1 + CorrectCount(qs[1..], moves[1..]);
  }

  lemma {:induction false} NoCorrectWhileWaiting(qs: seq<Question>, moves: seq<Move>)
    requires |qs| == |moves|
    requires forall i :: 0 <= i < |moves| ==> moves[i] == Wait
    ensures CorrectCount(qs, moves) == 0
  {
    if qs != [] {
      NoCorrectWhileWaiting(qs[1..], moves[1..]);
    }
  }
}
