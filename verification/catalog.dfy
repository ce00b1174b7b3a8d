/**
 The game catalogue of the home page: the twelve games, the category
 filter above them and the difficulty badge on each card.
 */
module Catalog {
  import Questions
  import GameSession

  datatype Game = Game(
    id: string,
    title: string,
    category: string,
    difficulty: int,
    icon: string,
    description: string,
    color: string)

  const Games: seq<Game> := [
    Game("1", "Таблица умножения", "Математика", 1, "🔢", "Тренируй устный счёт", "from-purple-500 to-purple-700"),
    Game("2", "Словарные слова", "Русский язык", 2, "📝", "Запоминай правописание", "from-orange-500 to-orange-700"),
    Game("3", "English Words", "Английский", 1, "🇬🇧", "Пополни словарный запас", "from-blue-500 to-blue-700"),
    Game("4", "Столицы мира", "География", 3, "🌍", "Изучай страны и города", "from-green-500 to-green-700"),
    Game("5", "Логические цепочки", "Логика", 2, "🧩", "Развивай мышление", "from-pink-500 to-pink-700"),
    Game("6", "Дроби и проценты", "Математика", 3, "➗", "Реши сложные задачи", "from-indigo-500 to-indigo-700"),
    Game("7", "Части речи", "Русский язык", 2, "📚", "Определяй и различай", "from-yellow-500 to-yellow-700"),
    Game("8", "Grammar Quest", "Английский", 2, "✍️", "Практикуй грамматику", "from-cyan-500 to-cyan-700"),
    Game("9", "Исторические даты", "История", 3, "📜", "Запоминай события", "from-red-500 to-red-700"),
    Game("10", "Геометрические фигуры", "Математика", 1, "🔺", "Изучай свойства фигур", "from-teal-500 to-teal-700"),
    Game("11", "Синонимы и антонимы", "Русский язык", 2, "🔄", "Расширяй лексикон", "from-lime-500 to-lime-700"),
    Game("12", "Irregular Verbs", "Английский", 3, "⚡", "Выучи неправильные глаголы", "from-violet-500 to-violet-700")
  ]

  /** The filter choice that shows every game. */
  const Everything: string := "Все"

  const Categories: seq<string> :=
    [Everything, "Математика", "Русский язык", "Английский", "География", "Логика", "История"]

  /** The games of `category`, in catalogue order. */
  function OfCategory(games: seq<Game>, category: string): (r: seq<Game>)
    ensures |r| <= |games|
    ensures forall g :: g in r <==> g in games && g.category == category
    ensures forall g :: multiset(r)[g] == if g.category == category then multiset(games)[g] else 0
  {
    if games == [] then []
    else
      var rest := OfCategory(games[1..], category);
      assert games == [games[0]] + games[1..];
      if games[0].category == category then [games[0]] + rest else rest
  }

  /** Filtering distributes over concatenation, so it keeps the catalogue order. */
  lemma {:induction false} OfCategoryAppend(a: seq<Game>, b: seq<Game>, category: string)
    ensures OfCategory(a + b, category) == OfCategory(a, category) + OfCategory(b, category)
  {
    if a == [] {
      assert a + b == b;
    } else {
      assert (a + b)[0] == a[0];
      assert (a + b)[1..] == a[1..] + b;
      OfCategoryAppend(a[1..], b, category);
    }
  }

  /** `filteredGames`: the whole list for "Все", otherwise the games of the chosen category. */
  function FilteredGames(games: seq<Game>, selected: string): (r: seq<Game>)
    ensures selected == Everything ==> r == games
    ensures selected != Everything ==> r == OfCategory(games, selected)
    ensures selected != Everything ==>
      forall g :: multiset(r)[g] == if g.category == selected then multiset(games)[g] else 0
  {
    if selected == Everything then games else OfCategory(games, selected)
  }

  /** Filtering an already filtered list changes nothing. */
  lemma {:induction false} OfCategoryIdempotent(games: seq<Game>, category: string)
    ensures OfCategory(OfCategory(games, category), category) == OfCategory(games, category)
  {
    if games != [] {
      OfCategoryIdempotent(games[1..], category);
    }
  }

  datatype Label = Label(text: string, color: string)

  /** The badge for a difficulty: 1 is easy, 2 is medium, anything else is hard. */
  function DifficultyLabel(level: int): (l: Label)
    ensures l.text == "Легко" <==> level == 1
    ensures l.text == "Средне" <==> level == 2
    ensures l.text == "Сложно" <==> level != 1 && level != 2
    ensures l.text == "Легко" || l.text == "Средне" || l.text == "Сложно"
  {
    if level == 1 then Label("Легко", "bg-green-500")
    else if level == 2 then Label("Средне", "bg-yellow-500")
    else Label("Сложно", "bg-red-500")
  }

  /** The badge and the points per correct answer follow the same three tiers. */
  lemma LabelMatchesPoints(level: int)
    ensures DifficultyLabel(level).text == "Легко" <==> GameSession.PointsFor(level) == 10
    ensures DifficultyLabel(level).text == "Средне" <==> GameSession.PointsFor(level) == 20
    ensures DifficultyLabel(level).text == "Сложно" <==> GameSession.PointsFor(level) == 30
  {
  }

  /**
   Every card's category is one of the filter choices other than "Все", and
   its difficulty is one of the three tiers.
   */
  lemma CatalogWellFormed()
    ensures forall i :: 0 <= i < |Games| ==> Games[i].category in Categories[1..]
    ensures forall i :: 0 <= i < |Games| ==> 1 <= Games[i].difficulty <= 3
  {
  }

  /**
   Only games "1" to "6" have question sources: the other six cards open a
   session of the single filler question.
   */
  lemma OnlySixGamesHaveQuestions(rnd: Questions.Randomness)
    ensures forall i :: 0 <= i < 6 ==> Games[i].id in Questions.KnownGames
    ensures forall i :: 6 <= i < |Games| ==>
      Games[i].id !in Questions.KnownGames && |Questions.Generate(Games[i].id, rnd)| == 1
  {
    forall i | 6 <= i < |Games|
      ensures Games[i].id !in Questions.KnownGames && |Questions.Generate(Games[i].id, rnd)| == 1
    {
      assert Games[i].id !in Questions.KnownGames;
      assert Questions.Admissible(Games[i].id, rnd);
    }
  }
}
