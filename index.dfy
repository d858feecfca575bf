/**
 * The page that owns the league state: the team and match lists, the seed
 * data, which match the result dialog is open for, and the save handler
 * that records a result and updates the two participants' counters.
 *
 * `Save` is the handler as a function of the state before the call; the
 * class `League` holds the state in fields and `SaveResult` performs the
 * update the way the handler does (one pass over the teams, copying each
 * and incrementing the copy's counters), proved equal to `Save`.
 */
module Index {
  import opened Wrappers
  import opened MatchSchedule
  import opened StandingsTable
  import opened AdminPanel

  datatype Snapshot = Snapshot(teams: seq<Team>, matches: seq<Match>)

  // ---------------------------------------------------------------------
  // Looking up and recording a match

  /** The index of the first match with the given id, as array `find` returns it. */
  function Find(matches: seq<Match>, matchId: string): (r: Option<nat>)
    ensures r.None? <==> forall i :: 0 <= i < |matches| ==> matches[i].id != matchId
    ensures r.Some? ==>
      && r.value < |matches| && matches[r.value].id == matchId
      && forall i :: 0 <= i < r.value ==> matches[i].id != matchId
  {
    if matches == [] then None
    else if matches[0].id == matchId then Some(0)
    else match Find(matches[1..], matchId)
      case None => None
      case Some(k) => Some(k + 1)
  }

  /** A match with the result recorded and its status set to finished. */
  function Finish(m: Match, homeScore: int, awayScore: int, overtime: bool, shootout: bool): Match {
    m.(homeScore := Some(homeScore), awayScore := Some(awayScore), status := Finished,
       overtime := Some(overtime), shootout := Some(shootout))
  }

  /** The match list after the handler's `map`: every match with the id is finished. */
  function RecordResult(matches: seq<Match>, matchId: string, homeScore: int, awayScore: int,
                        overtime: bool, shootout: bool): seq<Match>
  {
    seq(|matches|, i requires 0 <= i < |matches| =>
      if matches[i].id == matchId then Finish(matches[i], homeScore, awayScore, overtime, shootout)
      else matches[i])
  }

  // ---------------------------------------------------------------------
  // Crediting a team

  /**
   * One side's share of a result: a game played, its goals for and against,
   * then a win if it scored more, otherwise an overtime loss if the game went
   * to overtime or a shootout, otherwise a loss.
   */
  function Credit(team: Team, scored: int, conceded: int, extraTime: bool): Team {
    var played := team.(gamesPlayed := team.gamesPlayed + 1,
                        goalsFor := team.goalsFor + scored,
                        goalsAgainst := team.goalsAgainst + conceded);
    if scored > conceded then played.(wins := played.wins + 1)
    else if extraTime then played.(overtimeLosses := played.overtimeLosses + 1)
    else played.(losses := played.losses + 1)
  }

  /**
   * A team after the result of match `m`: credited as the home side if its id
   * is the home team's, then as the away side if its id is the away team's.
   */
  function TeamAfter(team: Team, m: Match, homeScore: int, awayScore: int,
                     overtime: bool, shootout: bool): Team
  {
    var afterHome := if team.id == m.homeTeam.id
      then Credit(team, homeScore, awayScore, overtime || shootout) else team;
    if team.id == m.awayTeam.id
      then Credit(afterHome, awayScore, homeScore, overtime || shootout) else afterHome
  }

  function UpdateTeams(teams: seq<Team>, m: Match, homeScore: int, awayScore: int,
                       overtime: bool, shootout: bool): seq<Team>
  {
    seq(|teams|, i requires 0 <= i < |teams| =>
      TeamAfter(teams[i], m, homeScore, awayScore, overtime, shootout))
  }

  /**
   * The save handler. Its only check is that some match has the id; the
   * team counters are updated from the first such match.
   */
  function Save(s: Snapshot, matchId: string, homeScore: int, awayScore: int,
                overtime: bool, shootout: bool): Snapshot
  {
    match Find(s.matches, matchId)
    case None => s
    case Some(k) =>
      Snapshot(UpdateTeams(s.teams, s.matches[k], homeScore, awayScore, overtime, shootout),
               RecordResult(s.matches, matchId, homeScore, awayScore, overtime, shootout))
  }

  /** The state after a sequence of save calls, in order. */
  function SaveAll(s: Snapshot, calls: seq<SaveCall>): Snapshot
    decreases |calls|
  {
    if calls == [] then s
    else
      var c := calls[0];
      SaveAll(Save(s, c.matchId, c.homeScore, c.awayScore, c.overtime, c.shootout), calls[1..])
  }

  // ---------------------------------------------------------------------
  // What a save does to the matches

  /** An unknown match id leaves both lists as they were. */
  lemma SaveUnknownMatch(s: Snapshot, matchId: string, homeScore: int, awayScore: int,
                         overtime: bool, shootout: bool)
    requires forall i :: 0 <= i < |s.matches| ==> s.matches[i].id != matchId
    ensures Save(s, matchId, homeScore, awayScore, overtime, shootout) == s
  {
  }

  /**
   * The matches keep their length and order; a match with the id is finished
   * with the given scores and flags and keeps its id, date, time and teams;
   * every other match is unchanged.
   */
  lemma SaveRecordsMatch(s: Snapshot, matchId: string, homeScore: int, awayScore: int,
                         overtime: bool, shootout: bool, i: nat)
    requires i < |s.matches|
    ensures var ms := Save(s, matchId, homeScore, awayScore, overtime, shootout).matches;
      && |ms| == |s.matches|
      && (s.matches[i].id == matchId ==>
            && ms[i].status == Finished
            && ms[i].homeScore == Some(homeScore) && ms[i].awayScore == Some(awayScore)
            && ms[i].overtime == Some(overtime) && ms[i].shootout == Some(shootout)
            && ms[i].id == s.matches[i].id && ms[i].date == s.matches[i].date
            && ms[i].time == s.matches[i].time
            && ms[i].homeTeam == s.matches[i].homeTeam && ms[i].awayTeam == s.matches[i].awayTeam)
      && (s.matches[i].id != matchId ==> ms[i] == s.matches[i])
  {
  }

  // ---------------------------------------------------------------------
  // What a save does to the teams

  /**
   * A credited side has played one more game, scored and conceded the given
   * goals, and gained exactly one of a win, an overtime loss or a loss.
   */
  lemma CreditOutcome(team: Team, scored: int, conceded: int, extraTime: bool)
    ensures var t := Credit(team, scored, conceded, extraTime);
      && t.id == team.id && t.name == team.name && t.logo == team.logo
      && t.gamesPlayed == team.gamesPlayed + 1
      && t.goalsFor == team.goalsFor + scored
      && t.goalsAgainst == team.goalsAgainst + conceded
      && t.wins == team.wins + (if scored > conceded then 1 else 0)
      && t.overtimeLosses == team.overtimeLosses + (if scored <= conceded && extraTime then 1 else 0)
      && t.losses == team.losses + (if scored <= conceded && !extraTime then 1 else 0)
      && t.wins + t.losses + t.overtimeLosses == team.wins + team.losses + team.overtimeLosses + 1
  {
  }

  /** A win is worth two points, an overtime or shootout loss one, a loss none. */
  lemma CreditPoints(team: Team, scored: int, conceded: int, extraTime: bool)
    ensures Points(Credit(team, scored, conceded, extraTime)) - Points(team)
      == if scored > conceded then 2 else if extraTime then 1 else 0
  {
  }

  /** Per team, wins plus losses plus overtime losses minus games played. */
  function Imbalance(t: Team): int {
    t.wins + t.losses + t.overtimeLosses - t.gamesPlayed
  }

  predicate Balanced(t: Team) {
    t.gamesPlayed == t.wins + t.losses + t.overtimeLosses
  }

  predicate AllBalanced(teams: seq<Team>) {
    forall i :: 0 <= i < |teams| ==> Balanced(teams[i])
  }

  /**
   * The teams keep their length and order; a team named in neither side of
   * the match is unchanged; the home side is credited with the home score
   * against the away score, and the away side the other way round; a team
   * named on both sides is credited twice, first as home, then as away.
   */
  lemma SaveUpdatesTeams(s: Snapshot, matchId: string, homeScore: int, awayScore: int,
                         overtime: bool, shootout: bool, i: nat)
    requires i < |s.teams|
    requires Find(s.matches, matchId).Some?
    ensures var m := s.matches[Find(s.matches, matchId).value];
      var ts := Save(s, matchId, homeScore, awayScore, overtime, shootout).teams;
      var t := s.teams[i];
      && |ts| == |s.teams|
      && (t.id != m.homeTeam.id && t.id != m.awayTeam.id ==> ts[i] == t)
      && (t.id == m.homeTeam.id && t.id != m.awayTeam.id ==>
            ts[i] == Credit(t, homeScore, awayScore, overtime || shootout))
      && (t.id == m.awayTeam.id && t.id != m.homeTeam.id ==>
            ts[i] == Credit(t, awayScore, homeScore, overtime || shootout))
      && (t.id == m.homeTeam.id && t.id == m.awayTeam.id ==>
            ts[i] == Credit(Credit(t, homeScore, awayScore, overtime || shootout),
                            awayScore, homeScore, overtime || shootout))
  {
  }

  /** Every team's imbalance is the same after a save as before it. */
  lemma SaveKeepsImbalance(s: Snapshot, matchId: string, homeScore: int, awayScore: int,
                           overtime: bool, shootout: bool)
    ensures var ts := Save(s, matchId, homeScore, awayScore, overtime, shootout).teams;
      |ts| == |s.teams| && forall i :: 0 <= i < |ts| ==> Imbalance(ts[i]) == Imbalance(s.teams[i])
  {
  }

  /** The seed teams have played no games. */
  lemma SeedBalanced()
    ensures AllBalanced(InitialTeams)
  {
  }

  /**
   * If games played equals wins plus losses plus overtime losses for every
   * team, it still does after any sequence of saves.
   */
  lemma {:induction false} SaveAllKeepsBalance(s: Snapshot, calls: seq<SaveCall>)
    requires AllBalanced(s.teams)
    ensures AllBalanced(SaveAll(s, calls).teams)
    decreases |calls|
  {
    if calls != [] {
      var c := calls[0];
      var next := Save(s, c.matchId, c.homeScore, c.awayScore, c.overtime, c.shootout);
      SaveKeepsImbalance(s, c.matchId, c.homeScore, c.awayScore, c.overtime, c.shootout);
      assert AllBalanced(next.teams) by {
        forall i | 0 <= i < |next.teams| ensures Balanced(next.teams[i]) {
          assert Balanced(s.teams[i]);
        }
      }
      SaveAllKeepsBalance(next, calls[1..]);
    }
  }

  /** Starting from the seed, every team's games played is its wins plus losses plus overtime losses. */
  lemma SeedStaysBalanced(calls: seq<SaveCall>)
    ensures AllBalanced(SaveAll(Snapshot(InitialTeams, InitialMatches), calls).teams)
  {
    SeedBalanced();
    SaveAllKeepsBalance(Snapshot(InitialTeams, InitialMatches), calls);
  }

  /**
   * A finished match is not refused: the second save finds the same match,
   * now finished but with the same teams, and credits its home side again,
   * so it has played two more games.
   */
  lemma SaveTwiceCountsTwice(s: Snapshot, matchId: string, homeScore: int, awayScore: int,
                             overtime: bool, shootout: bool, i: nat)
    requires i < |s.teams|
    requires Find(s.matches, matchId).Some?
    requires var m := s.matches[Find(s.matches, matchId).value];
      s.teams[i].id == m.homeTeam.id && s.teams[i].id != m.awayTeam.id
    ensures var once := Save(s, matchId, homeScore, awayScore, overtime, shootout);
      var twice := Save(once, matchId, homeScore, awayScore, overtime, shootout);
      && Find(once.matches, matchId) == Find(s.matches, matchId)
      && once.matches[Find(s.matches, matchId).value].status == Finished
      && once.matches[Find(s.matches, matchId).value].homeTeam
         == s.matches[Find(s.matches, matchId).value].homeTeam
      && once.matches[Find(s.matches, matchId).value].awayTeam
         == s.matches[Find(s.matches, matchId).value].awayTeam
      && twice.teams[i].gamesPlayed == s.teams[i].gamesPlayed + 2
      && twice.teams[i].goalsFor == s.teams[i].goalsFor + 2 * homeScore
  {
    FindAfterRecord(s.matches, matchId, homeScore, awayScore, overtime, shootout);
  }

  /** Recording a result does not move the first match with the id. */
  lemma {:induction false} FindAfterRecord(matches: seq<Match>, matchId: string, homeScore: int,
                                           awayScore: int, overtime: bool, shootout: bool)
    ensures Find(RecordResult(matches, matchId, homeScore, awayScore, overtime, shootout), matchId)
            == Find(matches, matchId)
  {
    var rs := RecordResult(matches, matchId, homeScore, awayScore, overtime, shootout);
    if matches != [] {
      assert rs[0].id == matches[0].id;
      assert rs[1..] == RecordResult(matches[1..], matchId, homeScore, awayScore, overtime, shootout);
      FindAfterRecord(matches[1..], matchId, homeScore, awayScore, overtime, shootout);
    }
  }

  // ---------------------------------------------------------------------
  // The dialog's guard and the handler together

  /**
   * The dialog's guard, then the save handler: when the dialog saves for the
   * selected match and the page finds a match with that id between two
   * distinct teams, exactly one of the two teams gains a win, the other
   * gains exactly one of a loss or an overtime loss, and the points handed
   * out are two for a regulation result and three after overtime or a
   * shootout.
   */
  lemma GuardedSaveHasOneWinner(s: Snapshot, selected: Match, homeText: string, awayText: string,
                                overtime: bool, shootout: bool, hi: nat, ai: nat)
    requires Decide(Some(selected), homeText, awayText, overtime, shootout).Saved?
    requires Find(s.matches, selected.id).Some?
    requires var m := s.matches[Find(s.matches, selected.id).value];
      && hi < |s.teams| && ai < |s.teams|
      && s.teams[hi].id == m.homeTeam.id && s.teams[ai].id == m.awayTeam.id
      && m.homeTeam.id != m.awayTeam.id
    ensures var c := Decide(Some(selected), homeText, awayText, overtime, shootout).call;
      var after := Save(s, c.matchId, c.homeScore, c.awayScore, c.overtime, c.shootout).teams;
      var home, away := s.teams[hi], s.teams[ai];
      && |after| == |s.teams|
      && (after[hi].wins == home.wins + 1) != (after[ai].wins == away.wins + 1)
      && after[hi].wins + after[hi].losses + after[hi].overtimeLosses
         == home.wins + home.losses + home.overtimeLosses + 1
      && after[ai].wins + after[ai].losses + after[ai].overtimeLosses
         == away.wins + away.losses + away.overtimeLosses + 1
      && (after[hi].wins - home.wins) + (after[ai].wins - away.wins) == 1
      && (after[hi].losses - home.losses) + (after[hi].overtimeLosses - home.overtimeLosses)
         + (after[ai].losses - away.losses) + (after[ai].overtimeLosses - away.overtimeLosses) == 1
      && (Points(after[hi]) - Points(home)) + (Points(after[ai]) - Points(away))
         == if overtime || shootout then 3 else 2
  {
    SavedCallIsWellFormed(Some(selected), homeText, awayText, overtime, shootout);
    var c := Decide(Some(selected), homeText, awayText, overtime, shootout).call;
    SaveUpdatesTeams(s, c.matchId, c.homeScore, c.awayScore, c.overtime, c.shootout, hi);
    SaveUpdatesTeams(s, c.matchId, c.homeScore, c.awayScore, c.overtime, c.shootout, ai);
    CreditOutcome(s.teams[hi], c.homeScore, c.awayScore, overtime || shootout);
    CreditOutcome(s.teams[ai], c.awayScore, c.homeScore, overtime || shootout);
    CreditPoints(s.teams[hi], c.homeScore, c.awayScore, overtime || shootout);
    CreditPoints(s.teams[ai], c.awayScore, c.homeScore, overtime || shootout);
  }

  /**
   * The handler itself does not refuse a draw: called directly with equal
   * scores for a match it finds between two distinct teams, both teams are
   * recorded as losing and nobody wins.
   */
  lemma UnguardedDrawHasNoWinner(s: Snapshot, matchId: string, score: int,
                                 overtime: bool, shootout: bool, hi: nat, ai: nat)
    requires Find(s.matches, matchId).Some?
    requires var m := s.matches[Find(s.matches, matchId).value];
      && hi < |s.teams| && ai < |s.teams|
      && s.teams[hi].id == m.homeTeam.id && s.teams[ai].id == m.awayTeam.id
      && m.homeTeam.id != m.awayTeam.id
    ensures var after := Save(s, matchId, score, score, overtime, shootout).teams;
      var home, away := s.teams[hi], s.teams[ai];
      && |after| == |s.teams|
      && after[hi].wins == home.wins && after[ai].wins == away.wins
      && after[hi].losses + after[hi].overtimeLosses == home.losses + home.overtimeLosses + 1
      && after[ai].losses + after[ai].overtimeLosses == away.losses + away.overtimeLosses + 1
  {
    SaveUpdatesTeams(s, matchId, score, score, overtime, shootout, hi);
    SaveUpdatesTeams(s, matchId, score, score, overtime, shootout, ai);
  }

  // ---------------------------------------------------------------------
  // Seed data

  function SeedTeam(id: string, name: string, logo: string): Team {
    Team(id, name, logo, 0, 0, 0, 0, 0, 0)
  }

  const InitialTeams: seq<Team> := [
    SeedTeam("1", "Северные Волки", "🐺"),
    SeedTeam("2", "Ледяные Драконы", "🐉"),
    SeedTeam("3", "Стальные Медведи", "🐻"),
    SeedTeam("4", "Огненные Тигры", "🐯"),
    SeedTeam("5", "Морские Акулы", "🦈"),
    SeedTeam("6", "Снежные Барсы", "🐆"),
    SeedTeam("7", "Грозовые Орлы", "🦅"),
    SeedTeam("8", "Лесные Рыси", "🐱")
  ]

  function RefOf(t: Team): TeamRef {
    TeamRef(t.id, t.name, t.logo)
  }

  function Fixture(id: string, date: string, time: string, home: Team, away: Team): Match {
    Match(id, date, time, RefOf(home), RefOf(away), None, None, Scheduled, None, None)
  }

  const InitialMatches: seq<Match> := [
    Fixture("m1", "2024-12-20", "19:00", InitialTeams[0], InitialTeams[1]),
    Fixture("m2", "2024-12-20", "21:00", InitialTeams[2], InitialTeams[3]),
    Fixture("m3", "2024-12-21", "19:00", InitialTeams[4], InitialTeams[5]),
    Fixture("m4", "2024-12-21", "21:00", InitialTeams[6], InitialTeams[7]),
    Fixture("m5", "2024-12-22", "19:00", InitialTeams[1], InitialTeams[2]),
    Fixture("m6", "2024-12-22", "21:00", InitialTeams[3], InitialTeams[4])
  ]

  // ---------------------------------------------------------------------
  // The page's state

  class League {
    var teams: seq<Team>
    var matches: seq<Match>
    /** The match the result dialog is open for. */
    var selected: Option<Match>
    var adminOpen: bool

    function State(): Snapshot
      reads this
    {
      Snapshot(teams, matches)
    }

    constructor ()
      ensures teams == InitialTeams && matches == InitialMatches
      ensures selected == None && !adminOpen
    {
      teams := InitialTeams;
      matches := InitialMatches;
      selected := None;
      adminOpen := false;
    }

    /** Opens the result dialog for a match, if one has the id. */
    method EditResult(matchId: string)
      modifies this`selected, this`adminOpen
      ensures match Find(matches, matchId)
        case None => selected == old(selected) && adminOpen == old(adminOpen)
        case Some(k) => selected == Some(matches[k]) && adminOpen
    {
      var found := Find(matches, matchId);
      if found.Some? {
        selected := Some(matches[found.value]);
        adminOpen := true;
      }
    }

    /** The dialog's close callback. */
    method CloseAdmin()
      modifies this`selected, this`adminOpen
      ensures selected == None && !adminOpen
    {
      adminOpen := false;
      selected := None;
    }

    /**
     * The save handler: finds the match, records the result on the match
     * list, then builds the new team list one copied team at a time.
     */
    method SaveResult(matchId: string, homeScore: int, awayScore: int,
                      overtime: bool, shootout: bool)
      modifies this`teams, this`matches
      ensures State() == Save(old(State()), matchId, homeScore, awayScore, overtime, shootout)
      ensures AllBalanced(teams) <==> AllBalanced(old(teams))
    {
      ghost var before := State();
      var found := Find(matches, matchId);
      if found.None? {
        return;
      }
      var m := matches[found.value];
      matches := RecordResult(matches, matchId, homeScore, awayScore, overtime, shootout);

      var current := teams;
      var updated: seq<Team> := [];
      var i := 0;
      while i < |current|
        invariant 0 <= i <= |current|
        invariant |updated| == i
        invariant forall j :: 0 <= j < i ==>
          updated[j] == TeamAfter(current[j], m, homeScore, awayScore, overtime, shootout)
      {
        var team := current[i];
        var copy := team;
        if team.id == m.homeTeam.id {
          copy := copy.(gamesPlayed := copy.gamesPlayed + 1);
          copy := copy.(goalsFor := copy.goalsFor + homeScore);
          copy := copy.(goalsAgainst := copy.goalsAgainst + awayScore);
          if homeScore > awayScore {
            copy := copy.(wins := copy.wins + 1);
          } else if overtime || shootout {
            copy := copy.(overtimeLosses := copy.overtimeLosses + 1);
          } else {
            copy := copy.(losses := copy.losses + 1);
          }
        }
        if team.id == m.awayTeam.id {
          copy := copy.(gamesPlayed := copy.gamesPlayed + 1);
          copy := copy.(goalsFor := copy.goalsFor + awayScore);
          copy := copy.(goalsAgainst := copy.goalsAgainst + homeScore);
          if awayScore > homeScore {
            copy := copy.(wins := copy.wins + 1);
          } else if overtime || shootout {
            copy := copy.(overtimeLosses := copy.overtimeLosses + 1);
          } else {
            copy := copy.(losses := copy.losses + 1);
          }
        }
        updated := updated + [copy];
        i := i + 1;
      }
      teams := updated;
      assert teams == UpdateTeams(current, m, homeScore, awayScore, overtime, shootout);
      SaveKeepsImbalance(before, matchId, homeScore, awayScore, overtime, shootout);
      assert AllBalanced(teams) <==> AllBalanced(before.teams) by {
        if AllBalanced(before.teams) {
          forall j | 0 <= j < |teams| ensures Balanced(teams[j]) {
            assert Balanced(before.teams[j]);
          }
        }
        if AllBalanced(teams) {
          forall j | 0 <= j < |before.teams| ensures Balanced(before.teams[j]) {
            assert Balanced(teams[j]);
          }
        }
      }
    }
  }

  // ---------------------------------------------------------------------
  // Worked example: a regulation win, then an overtime result

  const GameAB := Match("g1", "2024-12-20", "19:00", RefOf(ExampleA), RefOf(ExampleB),
                        None, None, Scheduled, None, None)
  const GameBA := Match("g2", "2024-12-21", "19:00", RefOf(ExampleB), RefOf(ExampleA),
                        None, None, Scheduled, None, None)

  /**
   * A beats B 4:2 in regulation: A gains a win and its goals become 24:17,
   * B gains a loss and its goals become 20:20, and the match is finished
   * 4:2. Then B, at home, loses 3:4 in overtime: B's overtime losses rise,
   * not its losses.
   */
  lemma WorkedResults()
    ensures var first := Save(Snapshot([ExampleA, ExampleB], [GameAB, GameBA]), "g1", 4, 2, false, false);
      && first.teams[0] == ExampleA.(gamesPlayed := 7, wins := 6, goalsFor := 24, goalsAgainst := 17)
      && first.teams[1] == ExampleB.(gamesPlayed := 8, losses := 1, goalsFor := 20, goalsAgainst := 20)
      && first.matches[0].status == Finished
      && first.matches[0].homeScore == Some(4) && first.matches[0].awayScore == Some(2)
      && first.matches[1] == GameBA
      && var second := Save(first, "g2", 3, 4, true, false);
         && second.teams[1].overtimeLosses == first.teams[1].overtimeLosses + 1
         && second.teams[1].losses == first.teams[1].losses
         && second.teams[0].wins == first.teams[0].wins + 1
  {
  }
}
