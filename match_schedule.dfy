/**
 * The shape of a scheduled match as the schedule component declares it.
 * Only the record is modelled; the schedule's own date ordering and badge
 * table are presentation.
 */
module MatchSchedule {
  import opened Wrappers

  /** A lightweight snapshot of a team as a match refers to it. */
  datatype TeamRef = TeamRef(id: string, name: string, logo: string)

  datatype Status = Scheduled | Finished | Live

  /**
   * A match. The optional fields are absent until a result has been
   * recorded.
   */
  datatype Match = Match(
    id: string,
    date: string,
    time: string,
    homeTeam: TeamRef,
    awayTeam: TeamRef,
    homeScore: Option<int>,
    awayScore: Option<int>,
    status: Status,
    overtime: Option<bool>,
    shootout: Option<bool>)
}
