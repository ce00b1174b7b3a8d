/**
 The player profile of the home page: creation from the name typed on
 first visit, and the update applied after every finished game
 (`createUserProfile` and `updateProgress`). Reading and writing the
 profile in the browser's key-value store is left to the caller.
 */
module Profiles {
  import opened Builtins

  datatype Profile = Profile(
    id: string,
    name: string,
    level: int,
    points: int,
    progress: real,
    gamesPlayed: int,
    totalTime: int,
    achievements: seq<string>,
    subjectProgress: map<string, real>)

  /** The subjects a new profile tracks. */
  const Subjects: set<string> :=
    {"Математика", "Русский язык", "Английский", "География", "Логика", "История"}

  /** Points per level: level `n` is reached at `(n - 1) * 500` points. */
  const PointsPerLevel: int := 500

  /** Time credited for each finished game. */
  const TimePerGame: int := 5

  /** Every subject progress value is a percentage. */
  predicate SubjectsInRange(m: map<string, real>) {
    forall s :: s in m ==> 0.0 <= m[s] <= 100.0
  }

  /** What holds of every profile the page creates and updates. */
  predicate WellFormed(p: Profile) {
    && p.points >= 0
    && p.level == p.points / PointsPerLevel + 1
    && 0.0 <= p.progress < 100.0
    && p.gamesPlayed >= 0
    && p.totalTime == TimePerGame * p.gamesPlayed
    && SubjectsInRange(p.subjectProgress)
  }

  /**
   The profile made from the typed name, or nothing (the page shows an
   error instead) when the name is empty once trimmed.
   */
  function CreateProfile(userId: string, userName: string): (r: Option<Profile>)
    ensures r.None? <==> AllWhiteSpace(userName)
    ensures r.Some? ==>
      var p := r.value;
      && WellFormed(p)
      && p.id == userId && p.name == Trim(userName)
      && |p.name| > 0 && !IsWhiteSpace(p.name[0]) && !IsWhiteSpace(p.name[|p.name| - 1])
      && p.level == 1 && p.points == 0 && p.progress == 0.0
      && p.gamesPlayed == 0 && p.totalTime == 0 && p.achievements == []
      && p.subjectProgress.Keys == Subjects
      && forall s :: s in p.subjectProgress ==> p.subjectProgress[s] == 0.0
  {
    var name := Trim(userName);
    if name == [] then None
    else Some(Profile(userId, name, 1, 0, 0.0, 0, 0, [], map s | s in Subjects :: 0.0))
  }

  /** Progress of `category` before a game: a missing entry counts as 0. */
  function SubjectValue(m: map<string, real>, category: string): real {
    if category in m then m[category] else 0.0
  }

  /**
   The profile after a game worth `score` points in `category`: points
   added; the level recomputed only once the points reach the current
   level's threshold `level * 500`; progress as the share of that same
   threshold; the subject raised by a tenth of the score, capped at 100;
   one more game and five more time units.
   */
  function ApplyProgress(p: Profile, score: int, category: string): (r: Profile)
    requires p.level >= 1
    ensures r.points == p.points + score
    ensures r.gamesPlayed == p.gamesPlayed + 1 && r.totalTime == p.totalTime + TimePerGame
    ensures r.id == p.id && r.name == p.name && r.achievements == p.achievements
    // the level never goes down, and changes exactly when the threshold is reached
    ensures r.level >= p.level
    ensures r.level != p.level <==> r.points >= p.level * PointsPerLevel
    ensures r.level != p.level ==> r.level == r.points / PointsPerLevel + 1
    // progress is the remainder modulo the old threshold, as a percentage
    ensures r.points >= 0 ==>
      var threshold := p.level * PointsPerLevel;
      && 0.0 <= r.progress < 100.0
      && r.progress * (threshold as real) / 100.0
           == (r.points - threshold * (r.points / threshold)) as real
    // only the played subject changes
    ensures r.subjectProgress.Keys == p.subjectProgress.Keys + {category}
    ensures r.subjectProgress[category]
              == Min(100.0, SubjectValue(p.subjectProgress, category) + score as real / 10.0)
    ensures forall s :: s in p.subjectProgress && s != category ==>
              r.subjectProgress[s] == p.subjectProgress[s]
  {
    var newPoints := p.points + score;
    var threshold := p.level * PointsPerLevel;
    var newProgress := (Rem(newPoints, threshold) as real / threshold as real) * 100.0;
    var newLevel := if newPoints >= threshold then newPoints / PointsPerLevel + 1 else p.level;
    var subject := Min(100.0, SubjectValue(p.subjectProgress, category) + score as real / 10.0);
    LevelStepUp(p.level, newPoints);
    RemainderPercent(newPoints, threshold);
    p.(points := newPoints,
       level := newLevel,
       progress := newProgress,
       gamesPlayed := p.gamesPlayed + 1,
       totalTime := p.totalTime + TimePerGame,
       subjectProgress := p.subjectProgress[category := subject])
  }

  /** Reaching `level * 500` points always moves to a strictly higher level. */
  lemma LevelStepUp(level: int, points: int)
    requires level >= 1
    ensures points >= level * PointsPerLevel ==> points / PointsPerLevel + 1 > level
  {
    if points >= level * PointsPerLevel {
      assert points / PointsPerLevel >= level;
    }
  }

  lemma RemainderPercent(n: int, t: int)
    requires t > 0
    ensures n >= 0 ==>
      var pc := (Rem(n, t) as real / t as real) * 100.0;
      && 0.0 <= pc < 100.0
      && pc * (t as real) / 100.0 == (n - t * (n / t)) as real
  {
    if n >= 0 {
      var r := Rem(n, t);
      assert r == n % t;
      assert n == t * (n / t) + r;
      assert (r as real / t as real) * 100.0 * (t as real) / 100.0 == r as real;
    }
  }

  /** `updateProgress`: nothing happens while no profile is loaded. */
  function UpdateProgress(user: Option<Profile>, score: int, category: string): (r: Option<Profile>)
    requires user.Some? ==> user.value.level >= 1
    ensures r.Some? <==> user.Some?
    ensures r.Some? ==> r.value == ApplyProgress(user.value, score, category)
  {
    match user
    case None => None
    case Some(p) => Some(ApplyProgress(p, score, category))
  }

  /** Whether the update crossed into a new level (the page congratulates the player). */
  predicate LevelledUp(before: Profile, after: Profile) {
    after.level > before.level
  }

  /**
   A game with a non-negative score keeps a well-formed profile well-formed:
   the level stays `floor(points / 500) + 1`, progress stays a percentage
   below 100, every subject stays within 0..100, and time stays five units
   per game.
   */
  lemma ApplyKeepsWellFormed(p: Profile, score: int, category: string)
    requires WellFormed(p) && score >= 0
    ensures WellFormed(ApplyProgress(p, score, category))
  {
    var r := ApplyProgress(p, score, category);
    LevelTracksPoints(p.points, score);
    var before := SubjectValue(p.subjectProgress, category);
    assert 0.0 <= before <= 100.0;
    forall s | s in r.subjectProgress
      ensures 0.0 <= r.subjectProgress[s] <= 100.0
    {
      if s != category {
        assert s in p.subjectProgress;
      }
    }
  }

  /**
   With the level at `floor(points / 500) + 1`, adding a non-negative score
   either reaches the threshold (and the recomputed level is the formula
   again) or stays within the same band of 500 points.
   */
  lemma LevelTracksPoints(points: int, score: int)
    requires points >= 0 && score >= 0
    ensures var level := points / PointsPerLevel + 1;
      var n := points + score;
      n < level * PointsPerLevel ==> n / PointsPerLevel + 1 == level
  {
    var level := points / PointsPerLevel + 1;
    var n := points + score;
    if n < level * PointsPerLevel {
      assert (level - 1) * PointsPerLevel <= points <= n;
      assert n / PointsPerLevel == level - 1;
    }
  }

  /** 480 points plus a 30-point game crosses 500: level 1 becomes level 2. */
  lemma LevelUpAt500(p: Profile, category: string)
    requires WellFormed(p) && p.points == 480
    ensures p.level == 1
    ensures var r := ApplyProgress(p, 30, category);
      r.level == 2 && LevelledUp(p, r) && r.points == 510
  {
  }
}
