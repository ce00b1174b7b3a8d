/**
 The ranking on the home page: all stored profiles ordered by points
 (`loadAllUsers`) and the top-ten table built from them (`leaderboard`).
 Which profiles are stored, and in what order the store lists them, is up
 to the browser's key-value store; here that list is an input.
 */
module Leaderboard {
  import opened Profiles

  /** Entries shown in the table. */
  const TableSize: nat := 10

  /** Appended to the name of the player's own row. */
  const YouSuffix: string := " (Ты)"

  predicate Descending(users: seq<Profile>) {
    forall i, j :: 0 <= i < j < |users| ==> users[i].points >= users[j].points
  }

  /**
   Places `u` after every entry with at least as many points, so users with
   equal points keep the order in which they were inserted.
   */
  function InsertByPoints(u: Profile, sorted: seq<Profile>): (r: seq<Profile>)
    requires Descending(sorted)
    ensures |r| == |sorted| + 1
    ensures r[0] == if sorted == [] || u.points > sorted[0].points then u else sorted[0]
    ensures Descending(r)
    ensures multiset(r) == multiset(sorted) + multiset{u}
  {
    if sorted == [] then [u]
    else if u.points > sorted[0].points then [u] + sorted
    else
      var rest := InsertByPoints(u, sorted[1..]);
      assert sorted[0].points >= rest[0].points;
      DescendingCons(sorted[0], rest);
      MultisetCons(sorted, rest, u);
      [sorted[0]] + rest
  }

  lemma MultisetCons(sorted: seq<Profile>, rest: seq<Profile>, u: Profile)
    requires sorted != [] && multiset(rest) == multiset(sorted[1..]) + multiset{u}
    ensures multiset([sorted[0]] + rest) == multiset(sorted) + multiset{u}
  {
    assert sorted == [sorted[0]] + sorted[1..];
  }

  lemma DescendingCons(x: Profile, rest: seq<Profile>)
    requires Descending(rest) && (rest != [] ==> x.points >= rest[0].points)
    ensures Descending([x] + rest)
  {
    var r := [x] + rest;
    forall i, j | 0 <= i < j < |r| ensures r[i].points >= r[j].points {
      if i > 0 {
        assert r[i] == rest[i - 1] && r[j] == rest[j - 1];
      } else {
        assert r[j] == rest[j - 1] && rest[0].points >= rest[j - 1].points;
      }
    }
  }

  /** `users.sort((a, b) => b.points - a.points)`: the same users, most points first. */
  function SortByPoints(users: seq<Profile>): (r: seq<Profile>)
    ensures Descending(r)
    ensures multiset(r) == multiset(users)
    ensures |r| == |users|
  {
    if users == [] then []
    else
      var last := |users| - 1;
      assert users == users[..last] + [users[last]];
      InsertByPoints(users[last], SortByPoints(users[..last]))
  }

  /** The users with exactly `p` points, in their order in `users`. */
  function WithPoints(users: seq<Profile>, p: int): seq<Profile> {
    if users == [] then []
    else (if users[0].points == p then [users[0]] else []) + WithPoints(users[1..], p)
  }

  lemma {:induction false} WithPointsAppend(a: seq<Profile>, b: seq<Profile>, p: int)
    ensures WithPoints(a + b, p) == WithPoints(a, p) + WithPoints(b, p)
  {
    if a == [] {
      assert a + b == b;
    } else {
      var x, tail := a[0], a[1..];
      var h: seq<Profile> := if x.points == p then [x] else [];
      assert a == [x] + tail;
      ConcatAssoc([x], tail, b);
      calc {
        WithPoints(a + b, p);
        WithPoints([x] + (tail + b), p);
        { WithPointsCons(x, tail + b, p); }
        h + WithPoints(tail + b, p);
        { WithPointsAppend(tail, b, p); }
        h + (WithPoints(tail, p) + WithPoints(b, p));
        { ConcatAssoc(h, WithPoints(tail, p), WithPoints(b, p)); }
        (h + WithPoints(tail, p)) + WithPoints(b, p);
        { WithPointsCons(x, tail, p); }
        WithPoints(a, p) + WithPoints(b, p);
      }
    }
  }

  lemma {:induction false} NoneAbove(sorted: seq<Profile>, p: int)
    requires Descending(sorted)
    requires sorted != [] ==> sorted[0].points < p
    ensures WithPoints(sorted, p) == []
  {
    if sorted != [] {
      if |sorted| > 1 {
        assert sorted[1].points <= sorted[0].points;
      }
      NoneAbove(sorted[1..], p);
    }
  }

  lemma WithPointsCons(x: Profile, rest: seq<Profile>, p: int)
    ensures WithPoints([x] + rest, p) == (if x.points == p then [x] else []) + WithPoints(rest, p)
  {
    assert ([x] + rest)[0] == x && ([x] + rest)[1..] == rest;
  }

  /** Insertion puts `u` after every user with the same points. */
  lemma {:induction false} InsertKeepsTies(u: Profile, sorted: seq<Profile>, p: int)
    requires Descending(sorted)
    ensures WithPoints(InsertByPoints(u, sorted), p)
              == WithPoints(sorted, p) + (if u.points == p then [u] else [])
  {
    if sorted == [] || u.points > sorted[0].points {
      InsertInFront(u, sorted, p);
    } else {
      var tail := sorted[1..];
      InsertKeepsTies(u, tail, p);
      InsertBehindHead(u, sorted);
      assert sorted == [sorted[0]] + tail;
      ConsKeepsTies(sorted[0], tail, InsertByPoints(u, tail), if u.points == p then [u] else [], p);
    }
  }

  /** When `u` goes in front, it has more points than everyone behind it. */
  lemma InsertInFront(u: Profile, sorted: seq<Profile>, p: int)
    requires Descending(sorted)
    requires sorted == [] || u.points > sorted[0].points
    ensures WithPoints(InsertByPoints(u, sorted), p)
              == WithPoints(sorted, p) + (if u.points == p then [u] else [])
  {
    assert InsertByPoints(u, sorted) == [u] + sorted;
    WithPointsCons(u, sorted, p);
    if u.points == p {
      NoneAbove(sorted, p);
    }
  }

  /** Below a head that stays in front, insertion recurses on the tail. */
  lemma InsertBehindHead(u: Profile, sorted: seq<Profile>)
    requires Descending(sorted) && sorted != [] && u.points <= sorted[0].points
    ensures InsertByPoints(u, sorted) == [sorted[0]] + InsertByPoints(u, sorted[1..])
  {
  }

  /** Putting the same head in front of two lists keeps their tie relation. */
  lemma ConsKeepsTies(head: Profile, tail: seq<Profile>, rest: seq<Profile>, tie: seq<Profile>, p: int)
    requires WithPoints(rest, p) == WithPoints(tail, p) + tie
    ensures WithPoints([head] + rest, p) == WithPoints([head] + tail, p) + tie
  {
    var h: seq<Profile> := if head.points == p then [head] else [];
    calc {
      WithPoints([head] + rest, p);
      { WithPointsCons(head, rest, p); }
      h + WithPoints(rest, p);
      h + (WithPoints(tail, p) + tie);
      { ConcatAssoc(h, WithPoints(tail, p), tie); }
      (h + WithPoints(tail, p)) + tie;
      { WithPointsCons(head, tail, p); }
      WithPoints([head] + tail, p) + tie;
    }
  }

  lemma ConcatAssoc(a: seq<Profile>, b: seq<Profile>, c: seq<Profile>)
    ensures a + (b + c) == (a + b) + c
  {
  }

  /**
   The sort is stable: users with the same points stay in the order the
   store listed them, as `Array.prototype.sort` guarantees.
   */
  lemma {:induction false} SortIsStable(users: seq<Profile>, p: int)
    ensures WithPoints(SortByPoints(users), p) == WithPoints(users, p)
  {
    if users != [] {
      var last := |users| - 1;
      var init, x := users[..last], users[last];
      var sortedInit := SortByPoints(init);
      assert SortByPoints(users) == InsertByPoints(x, sortedInit);
      SortIsStable(init, p);
      InsertKeepsTies(x, sortedInit, p);
      assert users == init + [x];
      WithPointsSnoc(init, x, p);
    }
  }

  lemma WithPointsSnoc(init: seq<Profile>, x: Profile, p: int)
    ensures WithPoints(init + [x], p) == WithPoints(init, p) + (if x.points == p then [x] else [])
  {
    WithPointsAppend(init, [x], p);
    WithPointsCons(x, [], p);
    assert [x] + [] == [x];
  }

  datatype Row = Row(rank: int, name: string, points: int, level: int, isCurrentUser: bool)

  /** One table row for the user at position `index` of the ranking. */
  function RowFor(user: Profile, index: int, me: Profile): Row {
    Row(index + 1,
        if user.id == me.id then user.name + YouSuffix else user.name,
        user.points,
        user.level,
        user.id == me.id)
  }

  /**
   `leaderboard`: the first ten users of the ranking, numbered from 1, with
   their points and level, the player's own row marked and its name suffixed.
   */
  function Table(allUsers: seq<Profile>, me: Profile): (rows: seq<Row>)
    ensures |rows| == if |allUsers| < TableSize then |allUsers| else TableSize
    ensures forall k :: 0 <= k < |rows| ==>
      && rows[k].rank == k + 1
      && rows[k].points == allUsers[k].points
      && rows[k].level == allUsers[k].level
      && (rows[k].isCurrentUser <==> allUsers[k].id == me.id)
      && rows[k].name == (if allUsers[k].id == me.id then allUsers[k].name + YouSuffix else allUsers[k].name)
  {
    var ranked := seq(|allUsers|, i requires 0 <= i < |allUsers| => RowFor(allUsers[i], i, me));
    if |ranked| < TableSize then ranked else ranked[..TableSize]
  }

  /** Over a ranking, the table is ordered: ranks increase and points do not. */
  lemma TableOrdered(allUsers: seq<Profile>, me: Profile)
    requires Descending(allUsers)
    ensures var rows := Table(allUsers, me);
      forall i, j :: 0 <= i < j < |rows| ==> rows[i].rank < rows[j].rank && rows[i].points >= rows[j].points
  {
  }

  /** With distinct ids, at most one row belongs to the player. */
  lemma AtMostOneOwnRow(allUsers: seq<Profile>, me: Profile)
    requires forall i, j :: 0 <= i < j < |allUsers| ==> allUsers[i].id != allUsers[j].id
    ensures var rows := Table(allUsers, me);
      forall i, j :: 0 <= i < j < |rows| && rows[i].isCurrentUser ==> !rows[j].isCurrentUser
  {
  }

  /**
   A player with at least as many points as everyone stored has their points
   on the top row; with a tie, another player stored earlier may hold it.
   */
  lemma LeaderIsTopRow(stored: seq<Profile>, me: Profile)
    requires me in stored
    requires forall u :: u in stored ==> u.points <= me.points
    ensures var rows := Table(SortByPoints(stored), me);
      |rows| >= 1 && rows[0].points == me.points
  {
    var ranked := SortByPoints(stored);
    assert me in multiset(ranked);
    assert ranked[0] in multiset(stored);
  }

  /** A player with strictly more points than every other stored profile heads the table. */
  lemma StrictLeaderHeadsTable(stored: seq<Profile>, me: Profile)
    requires me in stored
    requires forall u :: u in stored && u != me ==> u.points < me.points
    ensures var rows := Table(SortByPoints(stored), me);
      |rows| >= 1 && rows[0].isCurrentUser && rows[0].points == me.points
  {
    var ranked := SortByPoints(stored);
    HeadIsMaximal(ranked, me, stored);
    var head := ranked[0];
    assert head in stored && !(head.points < me.points);
    assert head == me;
  }

  /** The head of a descending permutation of `stored` is stored and beats every stored entry. */
  lemma HeadIsMaximal(ranked: seq<Profile>, x: Profile, stored: seq<Profile>)
    requires Descending(ranked) && multiset(ranked) == multiset(stored) && x in stored
    ensures |ranked| >= 1 && ranked[0] in stored && ranked[0].points >= x.points
  {
    assert x in multiset(ranked);
    var k :| 0 <= k < |ranked| && ranked[k] == x;
    assert ranked[0] in multiset(stored);
  }
}
