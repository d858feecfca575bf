/**
 * The standings table: the team record, the points and goal-difference
 * rules, the three-key comparator, the stable sort of a copy of the team
 * list and the zone each row is drawn in.
 *
 * The table sorts a fresh copy of its input with `Array.prototype.sort`,
 * which section 23.1.3.30 of ECMA-262 (2023 edition) requires to be stable.
 * The model sorts with a stable insertion sort (`SortStandings`) and proves
 * in `OnlyStableOrder` that every ordered, stable rearrangement of the input
 * is exactly that result, so the choice of algorithm does not matter.
 */
module StandingsTable {

  /** A team and its season counters. */
  datatype Team = Team(
    id: string,
    name: string,
    logo: string,
    gamesPlayed: nat,
    wins: nat,
    losses: nat,
    overtimeLosses: nat,
    goalsFor: int,
    goalsAgainst: int)

  /** Two points per win, one per overtime or shootout loss. */
  function CalculatePoints(wins: int, overtimeLosses: int): int {
    wins * 2 + overtimeLosses * 1
  }

  function CalculateGoalDiff(goalsFor: int, goalsAgainst: int): int {
    goalsFor - goalsAgainst
  }

  function Points(t: Team): int {
    CalculatePoints(t.wins, t.overtimeLosses)
  }

  function GoalDiff(t: Team): int {
    CalculateGoalDiff(t.goalsFor, t.goalsAgainst)
  }

  /**
   * The sort comparator: negative when `a` belongs above `b`, positive when
   * below, zero when the three keys are equal.
   */
  function Compare(a: Team, b: Team): int {
    var pointsA := Points(a);
    var pointsB := Points(b);
    if pointsB != pointsA then pointsB - pointsA
    else
      var diffA := GoalDiff(a);
      var diffB := GoalDiff(b);
      if diffB != diffA then diffB - diffA
      else b.goalsFor - a.goalsFor
  }

  /** `a` ranks no lower than `b`. */
  predicate RanksNoLower(a: Team, b: Team) {
    Compare(a, b) <= 0
  }

  /** `a` and `b` are equal on all three keys. */
  predicate Tied(a: Team, b: Team) {
    Compare(a, b) == 0
  }

  // ---------------------------------------------------------------------
  // The comparator is a total preorder

  lemma CompareZeroIffKeysEqual(a: Team, b: Team)
    ensures Tied(a, b) <==>
      Points(a) == Points(b) && GoalDiff(a) == GoalDiff(b) && a.goalsFor == b.goalsFor
  {
  }

  lemma CompareAntisymmetric(a: Team, b: Team)
    ensures Compare(a, b) == -Compare(b, a)
  {
  }

  /** The comparator orders by points, then goal difference, then goals for, all descending. */
  lemma CompareLexicographic(a: Team, b: Team)
    ensures RanksNoLower(a, b) <==>
      || Points(a) > Points(b)
      || (Points(a) == Points(b) && GoalDiff(a) > GoalDiff(b))
      || (Points(a) == Points(b) && GoalDiff(a) == GoalDiff(b) && a.goalsFor >= b.goalsFor)
  {
  }

  lemma CompareTotal(a: Team, b: Team)
    ensures RanksNoLower(a, b) || RanksNoLower(b, a)
  {
  }

  lemma CompareTransitive(a: Team, b: Team, c: Team)
    requires RanksNoLower(a, b) && RanksNoLower(b, c)
    ensures RanksNoLower(a, c)
  {
  }

  lemma TiedEquivalence(a: Team, b: Team, c: Team)
    ensures Tied(a, a)
    ensures Tied(a, b) ==> Tied(b, a)
    ensures Tied(a, b) && Tied(b, c) ==> Tied(a, c)
  {
  }

  // ---------------------------------------------------------------------
  // Sorting

  /** Every entry ranks no lower than every entry after it. */
  predicate Ordered(s: seq<Team>) {
    forall i, j :: 0 <= i < j < |s| ==> RanksNoLower(s[i], s[j])
  }

  /** The entries of `s` tied with `k`, in the order they occur in `s`. */
  function TiedWith(s: seq<Team>, k: Team): seq<Team> {
    if s == [] then []
    else (if Tied(s[0], k) then [s[0]] else []) + TiedWith(s[1..], k)
  }

  /** Puts `t` in front of the first entry it ranks no lower than. */
  function Insert(t: Team, s: seq<Team>): (r: seq<Team>)
    ensures |r| == |s| + 1
  {
    if s == [] then [t]
    else if RanksNoLower(t, s[0]) then [t] + s
    else [s[0]] + Insert(t, s[1..])
  }

  /** The sorted copy of the team list the table renders. */
  function SortStandings(teams: seq<Team>): (sorted: seq<Team>)
    ensures |sorted| == |teams|
  {
    if teams == [] then [] else Insert(teams[0], SortStandings(teams[1..]))
  }

  lemma {:induction false} InsertPermutes(t: Team, s: seq<Team>)
    ensures multiset(Insert(t, s)) == multiset(s) + multiset{t}
  {
    if s != [] && !RanksNoLower(t, s[0]) {
      InsertPermutes(t, s[1..]);
      assert s == [s[0]] + s[1..];
    }
  }

  lemma OrderedCons(x: Team, s: seq<Team>)
    requires Ordered(s)
    requires forall j :: 0 <= j < |s| ==> RanksNoLower(x, s[j])
    ensures Ordered([x] + s)
  {
  }

  lemma {:induction false} InsertOrdered(t: Team, s: seq<Team>)
    requires Ordered(s)
    ensures Ordered(Insert(t, s))
  {
    if s == [] {
    } else if RanksNoLower(t, s[0]) {
      forall j | 0 <= j < |s| ensures RanksNoLower(t, s[j]) {
        if j > 0 {
          CompareTransitive(t, s[0], s[j]);
        }
      }
      OrderedCons(t, s);
    } else {
      var rest := s[1..];
      assert Ordered(rest) by {
        forall i, j | 0 <= i < j < |rest| ensures RanksNoLower(rest[i], rest[j]) {
          assert rest[i] == s[i + 1] && rest[j] == s[j + 1];
        }
      }
      InsertOrdered(t, rest);
      InsertPermutes(t, rest);
      var r := Insert(t, rest);
      forall j | 0 <= j < |r| ensures RanksNoLower(s[0], r[j]) {
        assert r[j] in multiset(r);
        if r[j] != t {
          assert r[j] in multiset(rest);
          var m :| 0 <= m < |rest| && rest[m] == r[j];
          assert s[m + 1] == r[j];
        } else {
          CompareAntisymmetric(t, s[0]);
        }
      }
      OrderedCons(s[0], r);
    }
  }

  lemma {:induction false} InsertTiedWith(t: Team, s: seq<Team>, k: Team)
    ensures TiedWith(Insert(t, s), k) == (if Tied(t, k) then [t] else []) + TiedWith(s, k)
  {
    if s == [] {
      assert TiedWith([t], k) == (if Tied(t, k) then [t] else []) + TiedWith([], k);
    } else if RanksNoLower(t, s[0]) {
      var r := [t] + s;
      assert r[0] == t && r[1..] == s;
    } else {
      InsertTiedWith(t, s[1..], k);
      var r := [s[0]] + Insert(t, s[1..]);
      assert r[0] == s[0] && r[1..] == Insert(t, s[1..]);
      if Tied(t, k) {
        TiedEquivalence(s[0], k, t);
        TiedEquivalence(k, t, t);
        assert !Tied(s[0], k);
      }
    }
  }

  /** The sorted list is a rearrangement of the input. */
  lemma {:induction false} SortPermutes(teams: seq<Team>)
    ensures |SortStandings(teams)| == |teams|
    ensures multiset(SortStandings(teams)) == multiset(teams)
  {
    if teams != [] {
      SortPermutes(teams[1..]);
      InsertPermutes(teams[0], SortStandings(teams[1..]));
      assert teams == [teams[0]] + teams[1..];
    }
  }

  /** Every team in the sorted list ranks no lower than every team after it. */
  lemma {:induction false} SortOrdered(teams: seq<Team>)
    ensures Ordered(SortStandings(teams))
  {
    if teams != [] {
      SortOrdered(teams[1..]);
      InsertOrdered(teams[0], SortStandings(teams[1..]));
    }
  }

  /** Teams tied on all three keys keep their input relative order. */
  lemma {:induction false} SortStable(teams: seq<Team>, k: Team)
    ensures TiedWith(SortStandings(teams), k) == TiedWith(teams, k)
  {
    if teams != [] {
      SortStable(teams[1..], k);
      InsertTiedWith(teams[0], SortStandings(teams[1..]), k);
    }
  }

  /**
   * Adjacent rows of the sorted list: the upper one has more points, or equal
   * points and a better goal difference, or both equal and at least as many
   * goals for.
   */
  lemma AdjacentRanking(teams: seq<Team>, i: nat)
    requires i + 1 < |teams|
    ensures var s := SortStandings(teams);
      || Points(s[i]) > Points(s[i + 1])
      || (Points(s[i]) == Points(s[i + 1]) && GoalDiff(s[i]) > GoalDiff(s[i + 1]))
      || (Points(s[i]) == Points(s[i + 1]) && GoalDiff(s[i]) == GoalDiff(s[i + 1])
          && s[i].goalsFor >= s[i + 1].goalsFor)
  {
    SortPermutes(teams);
    SortOrdered(teams);
    var s := SortStandings(teams);
    assert RanksNoLower(s[i], s[i + 1]);
    CompareLexicographic(s[i], s[i + 1]);
  }

  // ---------------------------------------------------------------------
  // Only one arrangement is ordered and stable

  lemma {:induction false} TiedWithMember(s: seq<Team>, k: Team, x: Team)
    requires x in TiedWith(s, k)
    ensures x in s && Tied(x, k)
  {
    if s != [] {
      if x != s[0] || !Tied(s[0], k) {
        TiedWithMember(s[1..], k, x);
      }
    }
  }

  lemma TiedWithOwnHead(s: seq<Team>)
    requires s != []
    ensures TiedWith(s, s[0]) != [] && TiedWith(s, s[0])[0] == s[0]
  {
  }

  lemma OrderedTail(s: seq<Team>)
    requires Ordered(s) && s != []
    ensures Ordered(s[1..])
  {
  }

  lemma OrderedHeadFirst(s: seq<Team>, x: Team)
    requires Ordered(s) && x in s
    ensures RanksNoLower(s[0], x)
  {
  }

  /** Two ordered lists with the same tie groups, in the same order, are equal. */
  lemma {:induction false} OrderedSameTiesEqual(t: seq<Team>, u: seq<Team>)
    requires Ordered(t) && Ordered(u)
    requires forall k :: TiedWith(t, k) == TiedWith(u, k)
    ensures t == u
  {
    if t == [] {
      if u != [] {
        TiedWithOwnHead(u);
        assert false;
      }
    } else if u == [] {
      TiedWithOwnHead(t);
      assert false;
    } else {
      TiedWithOwnHead(t);
      TiedWithOwnHead(u);
      assert t[0] in TiedWith(u, t[0]);
      TiedWithMember(u, t[0], t[0]);
      assert u[0] in TiedWith(t, u[0]);
      TiedWithMember(t, u[0], u[0]);
      OrderedHeadFirst(u, t[0]);
      OrderedHeadFirst(t, u[0]);
      CompareAntisymmetric(t[0], u[0]);
      assert Tied(u[0], t[0]);
      assert TiedWith(u, t[0])[0] == u[0];
      assert t[0] == u[0];
      forall k ensures TiedWith(t[1..], k) == TiedWith(u[1..], k) {
        var p := if Tied(t[0], k) then [t[0]] else [];
        assert TiedWith(t, k) == p + TiedWith(t[1..], k);
        assert TiedWith(u, k) == p + TiedWith(u[1..], k);
        assert (p + TiedWith(t[1..], k))[|p|..] == TiedWith(t[1..], k);
        assert (p + TiedWith(u[1..], k))[|p|..] == TiedWith(u[1..], k);
      }
      OrderedTail(t);
      OrderedTail(u);
      OrderedSameTiesEqual(t[1..], u[1..]);
      assert t == [t[0]] + t[1..] && u == [u[0]] + u[1..];
    }
  }

  /**
   * Any rearrangement that is ordered by the comparator and keeps every tie
   * group in input order is the sorted list: a stable sort has exactly one
   * possible result.
   */
  lemma OnlyStableOrder(teams: seq<Team>, arranged: seq<Team>)
    requires Ordered(arranged)
    requires forall k :: TiedWith(arranged, k) == TiedWith(teams, k)
    ensures arranged == SortStandings(teams)
  {
    SortOrdered(teams);
    forall k ensures TiedWith(arranged, k) == TiedWith(SortStandings(teams), k) {
      SortStable(teams, k);
    }
    OrderedSameTiesEqual(arranged, SortStandings(teams));
  }

  // ---------------------------------------------------------------------
  // Rows of the rendered table

  /** The row styling: default, the transition (playoff) zone, the danger zone. */
  datatype Zone = Default | Transition | Danger

  /** The zone of a 1-based table position. */
  function RowZone(position: int): Zone {
    if position == 7 || position == 8 then Danger
    else if position == 6 then Transition
    else Default
  }

  datatype Row = Row(position: int, team: Team, points: int, goalDiff: int, zone: Zone)

  /** The rows the table renders, top to bottom; position is the index plus one. */
  function Standings(teams: seq<Team>): seq<Row> {
    var sorted := SortStandings(teams);
    seq(|sorted|, i requires 0 <= i < |sorted| =>
      Row(i + 1, sorted[i], Points(sorted[i]), GoalDiff(sorted[i]), RowZone(i + 1)))
  }

  /**
   * One row per team, numbered from 1, each showing its team's points and
   * goal difference and styled by the zone of its position; the points
   * column never rises down the table.
   */
  lemma StandingsRows(teams: seq<Team>)
    ensures var rows := Standings(teams);
      && |rows| == |teams|
      && multiset(seq(|rows|, i requires 0 <= i < |rows| => rows[i].team)) == multiset(teams)
      && (forall i :: 0 <= i < |rows| ==>
            rows[i].position == i + 1
            && rows[i].points == Points(rows[i].team)
            && rows[i].goalDiff == GoalDiff(rows[i].team)
            && rows[i].zone == RowZone(i + 1))
      && (forall i :: 0 <= i < |rows| - 1 ==> rows[i].points >= rows[i + 1].points)
  {
    SortPermutes(teams);
    SortOrdered(teams);
    var rows := Standings(teams);
    var sorted := SortStandings(teams);
    assert seq(|rows|, i requires 0 <= i < |rows| => rows[i].team) == sorted;
    forall i | 0 <= i < |rows| - 1 ensures rows[i].points >= rows[i + 1].points {
      assert RanksNoLower(sorted[i], sorted[i + 1]);
    }
  }

  /** In an eight-team league: five default rows, one transition row, two danger rows. */
  lemma EightTeamZones(teams: seq<Team>)
    requires |teams| == 8
    ensures var rows := Standings(teams);
      |rows| == 8
      && (forall i :: 0 <= i < 5 ==> rows[i].zone == Default)
      && rows[5].zone == Transition
      && rows[6].zone == Danger && rows[7].zone == Danger
  {
    SortPermutes(teams);
  }

  /** Beyond position 8 the table uses the default style again. */
  lemma ZonesPastEight(position: int)
    requires position > 8 || position < 6
    ensures RowZone(position) == Default
  {
  }

  // ---------------------------------------------------------------------
  // Worked example

  const ExampleA := Team("a", "A", "a", 6, 5, 0, 1, 20, 15)
  const ExampleB := Team("b", "B", "b", 7, 4, 0, 3, 18, 16)

  /** A and B both have 11 points; A sorts first on goal difference (+5 against +2). */
  lemma WorkedExample()
    ensures Points(ExampleA) == 11 && Points(ExampleB) == 11
    ensures GoalDiff(ExampleA) == 5 && GoalDiff(ExampleB) == 2
    ensures SortStandings([ExampleB, ExampleA]) == [ExampleA, ExampleB]
    ensures SortStandings([ExampleA, ExampleB]) == [ExampleA, ExampleB]
  {
    assert [ExampleB, ExampleA][1..] == [ExampleA];
    assert [ExampleA, ExampleB][1..] == [ExampleB];
    assert SortStandings([ExampleA]) == [ExampleA];
    assert SortStandings([ExampleB]) == [ExampleB];
    assert Insert(ExampleB, [ExampleA]) == [ExampleA] + Insert(ExampleB, []);
  }
}
