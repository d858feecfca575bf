/**
 * The result-entry dialog: the four pieces of form state, the reset on
 * close, the two mutually exclusive switches and the guard chain that
 * decides whether a score entry is handed to the save callback.
 *
 * React state setters become field assignments. The save callback is not
 * called here: `Submit` returns the call it would make (`Saved`), or why it
 * would not (`NoMatch`, or `Rejected` where the dialog raises an alert).
 */
module AdminPanel {
  import opened Wrappers
  import opened MatchSchedule

  /** The arguments of one call to the save callback. */
  datatype SaveCall = SaveCall(
    matchId: string,
    homeScore: int,
    awayScore: int,
    overtime: bool,
    shootout: bool)

  /** The two alerts of the guard chain. */
  datatype Rejection = InvalidScore | EqualScores

  datatype SubmitOutcome = NoMatch | Rejected(reason: Rejection) | Saved(call: SaveCall)

  // ---------------------------------------------------------------------
  // Score parsing

  predicate IsDigit(c: char) {
    '0' <= c <= '9'
  }

  /** The length of the longest prefix of `s` made of decimal digits. */
  function DigitPrefix(s: string): (n: nat)
    ensures n <= |s|
    ensures forall i :: 0 <= i < n ==> IsDigit(s[i])
    ensures n < |s| ==> !IsDigit(s[n])
  {
    if s == [] || !IsDigit(s[0]) then 0 else 1 + DigitPrefix(s[1..])
  }

  /** The value of a string of decimal digits. */
  function DigitsValue(ds: string): nat
    requires forall i :: 0 <= i < |ds| ==> IsDigit(ds[i])
  {
    if ds == [] then 0
    else
      assert IsDigit(ds[|ds| - 1]);
      DigitsValue(ds[..|ds| - 1]) * 10 + (ds[|ds| - 1] as int - '0' as int)
  }

  /**
   * Integer parsing of a score field: an optional sign, then the longest run
   * of decimal digits; anything after it is ignored. No digits at all is the
   * not-a-number case.
   */
  function ParseScore(s: string): Option<int> {
    if |s| > 0 && (s[0] == '-' || s[0] == '+') then
      var n := DigitPrefix(s[1..]);
      if n == 0 then None
      else
        var v := DigitsValue(s[1..][..n]);
        Some(if s[0] == '-' then -(v as int) else v)
    else
      var n := DigitPrefix(s);
      if n == 0 then None else Some(DigitsValue(s[..n]))
  }

  /** The decimal spelling of a natural number. */
  function Decimal(n: nat): (s: string)
    ensures |s| > 0 && forall i :: 0 <= i < |s| ==> IsDigit(s[i])
  {
    var d := ['0' + (n % 10) as char];
    if n < 10 then d else Decimal(n / 10) + d
  }

  lemma {:induction false} DecimalValue(n: nat)
    ensures DigitsValue(Decimal(n)) == n
  {
    var s := Decimal(n);
    if n >= 10 {
      DecimalValue(n / 10);
      assert s[..|s| - 1] == Decimal(n / 10);
    }
  }

  lemma AllDigitsPrefix(s: string)
    requires forall i :: 0 <= i < |s| ==> IsDigit(s[i])
    ensures DigitPrefix(s) == |s|
  {
  }

  /** A typed score reads back as its value, with or without a minus sign. */
  lemma ParseDecimal(n: nat)
    ensures ParseScore(Decimal(n)) == Some(n)
    ensures ParseScore("-" + Decimal(n)) == Some(-(n as int))
  {
    var s := Decimal(n);
    AllDigitsPrefix(s);
    DecimalValue(n);
    assert s[..|s|] == s;
    var m := "-" + s;
    assert m[1..] == s;
  }

  /** An empty field, or one that starts with neither a sign nor a digit, is not a number. */
  lemma ParseNotANumber(s: string)
    requires s == [] || !(s[0] == '-' || s[0] == '+' || IsDigit(s[0]))
    ensures ParseScore(s) == None
  {
  }

  // ---------------------------------------------------------------------
  // The guard chain

  /** What submitting the form decides, given the selected match and the form state. */
  function Decide(selected: Option<Match>, homeText: string, awayText: string,
                  overtime: bool, shootout: bool): SubmitOutcome
  {
    if selected.None? then NoMatch
    else
      var home := ParseScore(homeText);
      var away := ParseScore(awayText);
      if home.None? || away.None? || home.value < 0 || away.value < 0 then Rejected(InvalidScore)
      else if home.value == away.value then Rejected(EqualScores)
      else Saved(SaveCall(selected.value.id, home.value, away.value, overtime, shootout))
  }

  /** With no selected match nothing happens, whatever the form holds. */
  lemma DecideWithoutMatch(homeText: string, awayText: string, overtime: bool, shootout: bool)
    ensures Decide(None, homeText, awayText, overtime, shootout) == NoMatch
  {
  }

  /** A score that is not a number or is negative is rejected, and only such a score. */
  lemma DecideInvalid(m: Match, homeText: string, awayText: string, overtime: bool, shootout: bool)
    ensures Decide(Some(m), homeText, awayText, overtime, shootout) == Rejected(InvalidScore)
      <==> (|| ParseScore(homeText).None? || ParseScore(awayText).None?
            || ParseScore(homeText).value < 0 || ParseScore(awayText).value < 0)
  {
  }

  /** Two equal valid scores are rejected, and nothing else is rejected for equality. */
  lemma DecideEqual(m: Match, homeText: string, awayText: string, overtime: bool, shootout: bool)
    ensures Decide(Some(m), homeText, awayText, overtime, shootout) == Rejected(EqualScores)
      <==> exists v: nat :: ParseScore(homeText) == Some(v) && ParseScore(awayText) == Some(v)
  {
  }

  /**
   * A save call carries the selected match's id, the parsed scores, which
   * are non-negative and different, and the two flags as they were.
   */
  lemma SavedCallIsWellFormed(selected: Option<Match>, homeText: string, awayText: string,
                              overtime: bool, shootout: bool)
    requires Decide(selected, homeText, awayText, overtime, shootout).Saved?
    ensures var c := Decide(selected, homeText, awayText, overtime, shootout).call;
      && selected.Some? && c.matchId == selected.value.id
      && ParseScore(homeText) == Some(c.homeScore) && ParseScore(awayText) == Some(c.awayScore)
      && c.homeScore >= 0 && c.awayScore >= 0 && c.homeScore != c.awayScore
      && c.overtime == overtime && c.shootout == shootout
  {
  }

  /** Typing two different natural numbers into the fields saves them. */
  lemma DecideTypedScores(m: Match, home: nat, away: nat, overtime: bool, shootout: bool)
    requires home != away
    ensures Decide(Some(m), Decimal(home), Decimal(away), overtime, shootout)
            == Saved(SaveCall(m.id, home, away, overtime, shootout))
  {
    ParseDecimal(home);
    ParseDecimal(away);
  }

  // ---------------------------------------------------------------------
  // The dialog's state

  class ResultForm {
    var homeScore: string
    var awayScore: string
    var overtime: bool
    var shootout: bool

    /** The overtime and shootout switches are never both on. */
    predicate Exclusive()
      reads this
    {
      !(overtime && shootout)
    }

    /** Both fields empty and both switches off. */
    predicate IsReset()
      reads this
    {
      homeScore == "" && awayScore == "" && !overtime && !shootout
    }

    constructor ()
      ensures IsReset() && Exclusive()
    {
      homeScore := "";
      awayScore := "";
      overtime := false;
      shootout := false;
    }

    /**
     * The dialog's open-change handler. Closing clears the form and asks the
     * owner to close the dialog; opening changes nothing.
     */
    method HandleOpen(open: bool) returns (closeRequested: bool)
      modifies this
      ensures closeRequested == !open
      ensures !open ==> IsReset()
      ensures open ==> unchanged(this)
    {
      closeRequested := false;
      if !open {
        homeScore := "";
        awayScore := "";
        overtime := false;
        shootout := false;
        closeRequested := true;
      }
    }

    method EditHomeScore(value: string)
      modifies this`homeScore
      ensures homeScore == value
    {
      homeScore := value;
    }

    method EditAwayScore(value: string)
      modifies this`awayScore
      ensures awayScore == value
    {
      awayScore := value;
    }

    /** The overtime switch: turning it on turns the shootout switch off. */
    method OnOvertimeChange(checked: bool)
      modifies this`overtime, this`shootout
      ensures overtime == checked
      ensures shootout == (if checked then false else old(shootout))
      ensures Exclusive()
    {
      overtime := checked;
      if checked {
        shootout := false;
      }
    }

    /** The shootout switch: turning it on turns the overtime switch off. */
    method OnShootoutChange(checked: bool)
      modifies this`overtime, this`shootout
      ensures shootout == checked
      ensures overtime == (if checked then false else old(overtime))
      ensures Exclusive()
    {
      shootout := checked;
      if checked {
        overtime := false;
      }
    }

    /**
     * The submit handler: a guard chain with early returns. Only a save
     * resets the form and asks the owner to close the dialog; every other
     * outcome leaves the form as it was and keeps the dialog open.
     */
    method Submit(selected: Option<Match>) returns (outcome: SubmitOutcome, closeRequested: bool)
      modifies this
      ensures outcome == Decide(selected, old(homeScore), old(awayScore), old(overtime), old(shootout))
      ensures closeRequested <==> outcome.Saved?
      ensures outcome.Saved? ==> IsReset()
      ensures !outcome.Saved? ==> unchanged(this)
    {
      closeRequested := false;
      if selected.None? {
        return NoMatch, false;
      }
      var home := ParseScore(homeScore);
      var away := ParseScore(awayScore);
      if home.None? || away.None? || home.value < 0 || away.value < 0 {
        return Rejected(InvalidScore), false;
      }
      if home.value == away.value {
        return Rejected(EqualScores), false;
      }
      outcome := Saved(SaveCall(selected.value.id, home.value, away.value, overtime, shootout));
      closeRequested := HandleOpen(false);
    }
  }
}
