/**
 Question-set generation of the game-play view (`generateQuestions`).

 Each game id selects a question source. The random parts of `generateQuestions`
 are inputs here: the operands and offsets of the multiplication game are
 the values `Math.floor(Math.random() * k)` can take, and every shuffled
 option list is some permutation of the answer and its distractors. The
 generator then computes the stored index with `indexOf`, exactly as
 `generateQuestions` does, and the contracts show that index always names the answer.
 */
module Questions {
  import opened Builtins

  datatype Question = Question(prompt: string, options: seq<string>, correctAnswer: int)

  /** Questions in every recognised game. */
  const QuestionsPerGame: nat := 10

  /** The game ids with a question source of their own. */
  const KnownGames: set<string> := {"1", "2", "3", "4", "5", "6"}

  /**
   `q` stores a valid index, the option there is `answer`, and no other
   option is `answer` (so picking any other option is wrong).
   */
  predicate KeyedTo(q: Question, answer: string) {
    && 0 <= q.correctAnswer < |q.options|
    && q.options[q.correctAnswer] == answer
    && forall k :: 0 <= k < |q.options| && q.options[k] == answer ==> k == q.correctAnswer
  }

  /* ----------------------------------------------------------------------
     Game "1": multiplication table
     ---------------------------------------------------------------------- */

  /**
   The random draws behind one multiplication question: the five values of
   `Math.floor(Math.random() * k)` (k = 10, 10, 5, 5, 10) and the order the
   shuffle left the four numbers in.
   */
  datatype Draw = Draw(ra: int, rb: int, r1: int, r2: int, r3: int, order: seq<int>)
  {
    function A(): int { ra + 1 }
    function B(): int { rb + 1 }
    function Product(): int { A() * B() }

    /** `[correct, wrong1, wrong2, wrong3]` before shuffling. */
    function Candidates(): seq<int> {
      [Product(), Product() + r1 + 1, Product() - r2 - 1, Product() + r3 + 5]
    }
  }

  /** The draws `Math.random` can produce. */
  predicate ValidDraw(d: Draw) {
    && 0 <= d.ra < 10 && 0 <= d.rb < 10
    && 0 <= d.r1 < 5 && 0 <= d.r2 < 5 && 0 <= d.r3 < 10
    && multiset(d.order) == multiset(d.Candidates())
  }

  /** Operands in [1,10]; the product lies strictly between wrong2 and both upward distractors. */
  lemma DrawBounds(d: Draw)
    requires ValidDraw(d)
    ensures 1 <= d.A() <= 10 && 1 <= d.B() <= 10
    ensures var c := d.Candidates(); c[1] > c[0] && c[2] < c[0] && c[3] > c[0]
    ensures multiset(d.Candidates())[d.Product()] == 1
  {
  }

  /**
   The two upward distractors coincide whenever the first upward draw is 4 and
   the second is 0, both values `Math.random` can produce: the distractors are
   not guaranteed to differ from each other.
   */
  lemma DistractorsMayCoincide(d: Draw)
    requires ValidDraw(d) && d.r1 == 4 && d.r3 == 0
    ensures d.Candidates()[1] == d.Candidates()[3]
  {
  }

  /** `numbers.map(String)`. */
  function Texts(ns: seq<int>): (ts: seq<string>)
    ensures |ts| == |ns|
    ensures forall i :: 0 <= i < |ns| ==> ts[i] == IntToString(ns[i])
  {
    seq(|ns|, i requires 0 <= i < |ns| => IntToString(ns[i]))
  }

  /** The prompt of a multiplication question. */
  function ProductPrompt(d: Draw): string {
    IntToString(d.A()) + " × " + IntToString(d.B()) + " = ?"
  }

  /**
   One multiplication question: the shuffled numbers as text, and the
   position of the product among them.
   */
  function ArithmeticQuestion(d: Draw): (q: Question)
    requires ValidDraw(d)
    ensures |q.options| == 4
    ensures q.options == Texts(d.order)
    ensures q.prompt == IntToString(d.A()) + " × " + IntToString(d.B()) + " = ?"
    ensures KeyedTo(q, IntToString(d.Product()))
  {
    var q := Question(ProductPrompt(d), Texts(d.order), IndexOf(d.order, d.Product()));
    ArithmeticKeyed(d, q);
    q
  }

  lemma ArithmeticKeyed(d: Draw, q: Question)
    requires ValidDraw(d)
    requires q.options == Texts(d.order)
    requires q.correctAnswer == IndexOf(d.order, d.Product())
    ensures |q.options| == 4
    ensures KeyedTo(q, IntToString(d.Product()))
  {
    DrawBounds(d);
    var c := d.Product();
    assert |d.order| == |multiset(d.order)| == 4;
    assert c in multiset(d.order);
    forall k | 0 <= k < |q.options| && q.options[k] == IntToString(c)
      ensures k == q.correctAnswer
    {
      IntToStringInjective(d.order[k], c);
      OccursOnce(d.order, c, k, q.correctAnswer);
    }
  }

  /* ----------------------------------------------------------------------
     Games "3" to "6": a fixed table, options shuffled per question
     ---------------------------------------------------------------------- */

  /** A table row: what is asked about, the answer, and three wrong options. */
  datatype Entry = Entry(subject: string, answer: string, wrong: seq<string>)

  /** The text placed around an entry's subject to form the prompt. */
  datatype Template = Template(prefix: string, suffix: string)

  /** The answer is not among the wrong options. */
  predicate DistinctAnswer(e: Entry) {
    e.answer !in e.wrong
  }

  /** `shuffled` is a permutation of `[answer, ...wrong]`. */
  predicate IsShuffleOf(shuffled: seq<string>, e: Entry) {
    multiset(shuffled) == multiset([e.answer] + e.wrong)
  }

  function ShuffledQuestion(t: Template, e: Entry, shuffled: seq<string>): (q: Question)
    requires IsShuffleOf(shuffled, e)
    ensures q.prompt == t.prefix + e.subject + t.suffix
    ensures q.options == shuffled && |q.options| == 1 + |e.wrong|
    ensures 0 <= q.correctAnswer < |q.options| && q.options[q.correctAnswer] == e.answer
    ensures DistinctAnswer(e) ==> KeyedTo(q, e.answer)
  {
    assert e.answer in multiset(shuffled);
    assert |shuffled| == |multiset(shuffled)| == |[e.answer] + e.wrong|;
    var q := Question(t.prefix + e.subject + t.suffix, shuffled, IndexOf(shuffled, e.answer));
    ShuffledUnique(e, q);
    q
  }

  lemma ShuffledUnique(e: Entry, q: Question)
    requires IsShuffleOf(q.options, e)
    requires 0 <= q.correctAnswer < |q.options| && q.options[q.correctAnswer] == e.answer
    ensures DistinctAnswer(e) ==> KeyedTo(q, e.answer)
  {
    if DistinctAnswer(e) {
      assert multiset([e.answer] + e.wrong)[e.answer] == 1;
      forall k | 0 <= k < |q.options| && q.options[k] == e.answer
        ensures k == q.correctAnswer
      {
        OccursOnce(q.options, e.answer, k, q.correctAnswer);
      }
    }
  }

  const Translate := Template("Переведи слово: ", "")
  const Translations: seq<Entry> := [
    Entry("cat", "кошка", ["собака", "мышь", "птица"]),
    Entry("dog", "собака", ["кошка", "лошадь", "корова"]),
    Entry("book", "книга", ["тетрадь", "ручка", "карандаш"]),
    Entry("apple", "яблоко", ["груша", "банан", "апельсин"]),
    Entry("house", "дом", ["школа", "магазин", "парк"]),
    Entry("water", "вода", ["молоко", "сок", "чай"]),
    Entry("sun", "солнце", ["луна", "звезда", "небо"]),
    Entry("tree", "дерево", ["цветок", "трава", "куст"]),
    Entry("friend", "друг", ["враг", "учитель", "родитель"]),
    Entry("school", "школа", ["дом", "парк", "магазин"])
  ]

  const Capital := Template("Столица ", "?")
  const Capitals: seq<Entry> := [
    Entry("Франция", "Париж", ["Лондон", "Берлин", "Рим"]),
    Entry("Италия", "Рим", ["Париж", "Мадрид", "Афины"]),
    Entry("Германия", "Берлин", ["Вена", "Прага", "Варшава"]),
    Entry("Испания", "Мадрид", ["Барселона", "Лиссабон", "Рим"]),
    Entry("Англия", "Лондон", ["Эдинбург", "Дублин", "Париж"]),
    Entry("Япония", "Токио", ["Пекин", "Сеул", "Бангкок"]),
    Entry("Китай", "Пекин", ["Токио", "Сеул", "Шанхай"]),
    Entry("Египет", "Каир", ["Александрия", "Дубай", "Багдад"]),
    Entry("Бразилия", "Бразилиа", ["Рио-де-Жанейро", "Сан-Паулу", "Буэнос-Айрес"]),
    Entry("Австралия", "Канберра", ["Сидней", "Мельбурн", "Перт"])
  ]

  const Continue := Template("Продолжи последовательность: ", "")
  const Sequences: seq<Entry> := [
    Entry("2, 4, 6, 8, ?", "10", ["9", "11", "12"]),
    Entry("1, 3, 5, 7, ?", "9", ["8", "10", "11"]),
    Entry("10, 20, 30, 40, ?", "50", ["45", "55", "60"]),
    Entry("3, 6, 9, 12, ?", "15", ["13", "14", "18"]),
    Entry("5, 10, 15, 20, ?", "25", ["22", "30", "24"]),
    Entry("1, 4, 9, 16, ?", "25", ["20", "24", "30"]),
    Entry("2, 6, 18, 54, ?", "162", ["108", "216", "324"]),
    Entry("100, 90, 80, 70, ?", "60", ["65", "55", "50"]),
    Entry("1, 2, 4, 8, ?", "16", ["12", "14", "18"]),
    Entry("7, 14, 21, 28, ?", "35", ["32", "33", "36"])
  ]

  /** The fraction problems are their own prompts. */
  const Verbatim := Template("", "")
  const Fractions: seq<Entry> := [
    Entry("1/2 + 1/4 = ?", "3/4", ["1/3", "2/3", "1/4"]),
    Entry("50% от 100 = ?", "50", ["25", "75", "100"]),
    Entry("1/3 от 30 = ?", "10", ["5", "15", "20"]),
    Entry("25% от 80 = ?", "20", ["15", "25", "30"]),
    Entry("3/4 от 20 = ?", "15", ["10", "12", "18"]),
    Entry("10% от 200 = ?", "20", ["10", "30", "40"]),
    Entry("1/2 от 50 = ?", "25", ["20", "30", "35"]),
    Entry("2/3 от 60 = ?", "40", ["30", "45", "50"]),
    Entry("75% от 40 = ?", "30", ["25", "35", "20"]),
    Entry("1/5 от 100 = ?", "20", ["10", "25", "30"])
  ]

  predicate WellFormedTable(table: seq<Entry>) {
    && |table| == QuestionsPerGame
    && forall i :: 0 <= i < |table| ==> |table[i].wrong| == 3 && DistinctAnswer(table[i])
  }

  /** Every fixed table has ten rows, three distractors each, none equal to the answer. */
  lemma TablesWellFormed()
    ensures WellFormedTable(Translations)
    ensures WellFormedTable(Capitals)
    ensures WellFormedTable(Sequences)
    ensures WellFormedTable(Fractions)
  {
    TranslationsWellFormed();
    CapitalsWellFormed();
    SequencesWellFormed();
    FractionsWellFormed();
  }

  lemma TranslationsWellFormed() ensures WellFormedTable(Translations) {}
  lemma CapitalsWellFormed() ensures WellFormedTable(Capitals) {}
  lemma SequencesWellFormed() ensures WellFormedTable(Sequences) {}
  lemma FractionsWellFormed() ensures WellFormedTable(Fractions) {}

  /** The shuffled game ids. */
  predicate IsShuffledGame(gameId: string) {
    gameId == "3" || gameId == "4" || gameId == "5" || gameId == "6"
  }

  function TableOf(gameId: string): seq<Entry>
    requires IsShuffledGame(gameId)
  {
    if gameId == "3" then Translations
    else if gameId == "4" then Capitals
    else if gameId == "5" then Sequences
    else Fractions
  }

  lemma TableOfWellFormed(gameId: string)
    requires IsShuffledGame(gameId)
    ensures WellFormedTable(TableOf(gameId))
  {
    TablesWellFormed();
  }

  function TemplateOf(gameId: string): Template
    requires IsShuffledGame(gameId)
  {
    if gameId == "3" then Translate
    else if gameId == "4" then Capital
    else if gameId == "5" then Continue
    else Verbatim
  }

  /* ----------------------------------------------------------------------
     Game "2": missing letter, options in a fixed order
     ---------------------------------------------------------------------- */

  datatype Blank = Blank(word: string, letter: string)

  /** Every spelling entry offers these four letters, in this order. */
  const Letters: seq<string> := ["а", "о", "е", "и"]

  const Blanks: seq<Blank> := [
    Blank("к_рова", "о"), Blank("с_бака", "о"), Blank("м_локо", "о"), Blank("яг_да", "о"),
    Blank("п_нал", "е"), Blank("т_традь", "е"), Blank("к_рандаш", "а"), Blank("в_рона", "о"),
    Blank("з_мля", "е"), Blank("д_ревня", "е")
  ]

  /** The prompt of a spelling question. */
  function SpellingPrompt(b: Blank): string {
    "Какая буква пропущена в слове: " + b.word + "?"
  }

  function SpellingQuestion(b: Blank): (q: Question)
    requires b.letter in Letters
    ensures q.prompt == SpellingPrompt(b)
    ensures q.options == Letters
    ensures KeyedTo(q, b.letter)
  {
    Question(SpellingPrompt(b), Letters, IndexOf(Letters, b.letter))
  }

  /* ----------------------------------------------------------------------
     Any other id: one filler question
     ---------------------------------------------------------------------- */

  const Filler := Question("Начни играть!", ["OK", "Вперёд!", "Играть", "Старт"], 0)

  /* ----------------------------------------------------------------------
     generateQuestions
     ---------------------------------------------------------------------- */

  /** Everything `Math.random` decides while a question set is generated. */
  datatype Randomness = Randomness(draws: seq<Draw>, shuffles: seq<seq<string>>)

  /** The randomness the app can actually produce for `gameId`. */
  predicate Admissible(gameId: string, rnd: Randomness) {
    && (gameId == "1" ==>
          |rnd.draws| == QuestionsPerGame
          && forall i :: 0 <= i < |rnd.draws| ==> ValidDraw(rnd.draws[i]))
    && (IsShuffledGame(gameId) ==>
          |rnd.shuffles| == |TableOf(gameId)|
          && forall i :: 0 <= i < |rnd.shuffles| ==> IsShuffleOf(rnd.shuffles[i], TableOf(gameId)[i]))
  }

  /** Each multiplication question shows its draw's product prompt and shuffled numbers. */
  predicate ArithmeticShape(draws: seq<Draw>, qs: seq<Question>) {
    && |qs| == |draws|
    && forall i :: 0 <= i < |qs| ==>
         qs[i].options == Texts(draws[i].order) && qs[i].prompt == ProductPrompt(draws[i])
  }

  /** Each spelling question asks about its word and offers the four letters. */
  predicate SpellingShape(qs: seq<Question>) {
    && |qs| == |Blanks|
    && forall i :: 0 <= i < |qs| ==>
         qs[i].options == Letters && qs[i].prompt == SpellingPrompt(Blanks[i])
  }

  /** Each table question asks about its row and offers that row's shuffle. */
  predicate ShuffledShape(t: Template, table: seq<Entry>, shuffles: seq<seq<string>>, qs: seq<Question>) {
    && |qs| == |table| == |shuffles|
    && forall i :: 0 <= i < |qs| ==>
         qs[i].options == shuffles[i] && qs[i].prompt == t.prefix + table[i].subject + t.suffix
  }

  /** Reference answer list, read off the sources without looking at any options. */
  function IntendedAnswers(gameId: string, rnd: Randomness): seq<string>
    requires Admissible(gameId, rnd)
  {
    if gameId == "1" then
      seq(|rnd.draws|, i requires 0 <= i < |rnd.draws| => IntToString(rnd.draws[i].Product()))
    else if gameId == "2" then
      seq(|Blanks|, i requires 0 <= i < |Blanks| => Blanks[i].letter)
    else if IsShuffledGame(gameId) then
      var table := TableOf(gameId);
      seq(|table|, i requires 0 <= i < |table| => table[i].answer)
    else
      ["OK"]
  }

  function ArithmeticQuestions(draws: seq<Draw>): (qs: seq<Question>)
    requires forall i :: 0 <= i < |draws| ==> ValidDraw(draws[i])
    ensures |qs| == |draws|
    ensures forall i :: 0 <= i < |qs| ==>
              |qs[i].options| == 4 && KeyedTo(qs[i], IntToString(draws[i].Product()))
    ensures ArithmeticShape(draws, qs)
  {
    seq(|draws|, i requires 0 <= i < |draws| => ArithmeticQuestion(draws[i]))
  }

  function SpellingQuestions(): (qs: seq<Question>)
    ensures |qs| == |Blanks| == QuestionsPerGame
    ensures forall i :: 0 <= i < |qs| ==> |qs[i].options| == 4 && KeyedTo(qs[i], Blanks[i].letter)
    ensures SpellingShape(qs)
  {
    seq(|Blanks|, i requires 0 <= i < |Blanks| => SpellingQuestion(Blanks[i]))
  }

  function ShuffledQuestions(t: Template, table: seq<Entry>, shuffles: seq<seq<string>>): (qs: seq<Question>)
    requires WellFormedTable(table)
    requires |shuffles| == |table|
    requires forall i :: 0 <= i < |shuffles| ==> IsShuffleOf(shuffles[i], table[i])
    ensures |qs| == |table|
    ensures forall i :: 0 <= i < |qs| ==> |qs[i].options| == 4 && KeyedTo(qs[i], table[i].answer)
    ensures ShuffledShape(t, table, shuffles, qs)
  {
    seq(|table|, i requires 0 <= i < |table| => ShuffledQuestion(t, table[i], shuffles[i]))
  }

  /** The ten multiplication questions, keyed to the reference answers. */
  function GenerateArithmetic(rnd: Randomness): (qs: seq<Question>)
    requires Admissible("1", rnd)
    ensures |qs| == QuestionsPerGame == |IntendedAnswers("1", rnd)|
    ensures forall i :: 0 <= i < |qs| ==>
              |qs[i].options| == 4 && KeyedTo(qs[i], IntendedAnswers("1", rnd)[i])
    ensures ArithmeticShape(rnd.draws, qs)
  {
    ArithmeticQuestions(rnd.draws)
  }

  /** The ten spelling questions, keyed to the reference answers. */
  function GenerateSpelling(rnd: Randomness): (qs: seq<Question>)
    ensures |qs| == QuestionsPerGame == |IntendedAnswers("2", rnd)|
    ensures forall i :: 0 <= i < |qs| ==>
              |qs[i].options| == 4 && KeyedTo(qs[i], IntendedAnswers("2", rnd)[i])
    ensures SpellingShape(qs)
  {
    SpellingQuestions()
  }

  /** The ten questions of a shuffled game, keyed to the reference answers. */
  function GenerateShuffled(gameId: string, rnd: Randomness): (qs: seq<Question>)
    requires IsShuffledGame(gameId) && Admissible(gameId, rnd)
    ensures |qs| == QuestionsPerGame == |IntendedAnswers(gameId, rnd)|
    ensures forall i :: 0 <= i < |qs| ==>
              |qs[i].options| == 4 && KeyedTo(qs[i], IntendedAnswers(gameId, rnd)[i])
    ensures ShuffledShape(TemplateOf(gameId), TableOf(gameId), rnd.shuffles, qs)
  {
    var table := TableOf(gameId);
    TableOfWellFormed(gameId);
    assert IntendedAnswers(gameId, rnd) == seq(|table|, i requires 0 <= i < |table| => table[i].answer);
    ShuffledQuestions(TemplateOf(gameId), table, rnd.shuffles)
  }

  /**
   `generateQuestions`: ten questions for games "1" to "6", the filler
   otherwise; every question has four options and its stored index points
   at the one option equal to the reference answer.
   */
  function Generate(gameId: string, rnd: Randomness): (qs: seq<Question>)
    requires Admissible(gameId, rnd)
    ensures |qs| == if gameId in KnownGames then QuestionsPerGame else 1
    ensures |qs| == |IntendedAnswers(gameId, rnd)|
    ensures forall i :: 0 <= i < |qs| ==>
              |qs[i].options| == 4 && KeyedTo(qs[i], IntendedAnswers(gameId, rnd)[i])
    ensures gameId !in KnownGames ==> qs[0].correctAnswer == 0
    // the options and prompts each source builds
    ensures gameId == "1" ==> ArithmeticShape(rnd.draws, qs)
    ensures gameId == "2" ==> SpellingShape(qs)
    ensures IsShuffledGame(gameId) ==> ShuffledShape(TemplateOf(gameId), TableOf(gameId), rnd.shuffles, qs)
    ensures gameId !in KnownGames ==> qs == [Filler]
  {
    if gameId == "1" then GenerateArithmetic(rnd)
    else if gameId == "2" then GenerateSpelling(rnd)
    else if IsShuffledGame(gameId) then GenerateShuffled(gameId, rnd)
    else
      assert IntendedAnswers(gameId, rnd) == ["OK"];
      [Filler]
  }
}
