/**
 * The main loop of main3.py (484-516): for each discovered match, in
 * discovery order, it reads the match's odds through the scraper, runs
 * check_arbitrage when the odds list is not empty, and reports one of three
 * outcomes, with the total stake and the guaranteed profit when an
 * opportunity is found. The scraper is not modelled: each match comes with the
 * teams and the odds list it returned.
 */
module Report {
  import opened Wrappers
  import opened Arbitrage

  /** What scrape_match_odds returns: {'teams': [team1, team2], 'odds': [...]}. */
  datatype MatchOdds = MatchOdds(team1: string, team2: string, odds: seq<Entry>)

  /** The three messages a match can end with. */
  datatype Outcome = NoValidOdds | Found(opportunity: Opportunity) | NoArbitrage

  /** `total_stake` (main3.py:508). */
  function TotalStake(a: Opportunity): real {
    a.stakeTeam1 + a.stakeTeam2
  }

  /** `profit` (main3.py:509): the investment grossed up by the margin, less the investment. */
  function Profit(a: Opportunity): real
    requires a.arbitragePercent != 100.0
  {
    a.totalInvestment / (1.0 - a.arbitragePercent / 100.0) - a.totalInvestment
  }

  /**
   * For a reported opportunity the stakes use the whole investment, and the
   * printed profit is what either winning bet returns beyond the stakes, and
   * it is positive.
   */
  lemma ReportedFigures(team1: string, team2: string, entries: seq<Entry>, a: Opportunity)
    requires IsCheckResult(team1, team2, entries, Ok(Some(a)))
    ensures a.arbitragePercent != 100.0
    ensures TotalStake(a) == TotalInvestment
    ensures Profit(a) == Payout1(a) - TotalStake(a)
    ensures Profit(a) == Payout2(a) - TotalStake(a)
    ensures Profit(a) > 0.0
  {
    OpportunityFacts(team1, team2, entries, a);
    var m := 1.0 / a.team1Odds + 1.0 / a.team2Odds;
    assert Profit(a) == TotalInvestment / m - TotalInvestment;
    ProfitAlgebra(m);
  }

  /** The investment grossed up by an implied sum m below 1 exceeds the investment. */
  lemma ProfitAlgebra(m: real)
    requires 0.0 < m < 1.0
    ensures TotalInvestment / m - TotalInvestment > 0.0
  {
    assert TotalInvestment / m * m == TotalInvestment;
  }

  /**
   * The outcome printed for a match: "No valid odds" exactly when its odds
   * list is empty, otherwise what check_arbitrage returned.
   */
  ghost predicate IsOutcomeFor(m: MatchOdds, o: Outcome) {
    if m.odds == [] then o == NoValidOdds
    else match o
      case NoValidOdds => false
      case Found(a) => IsCheckResult(m.team1, m.team2, m.odds, Ok(Some(a)))
      case NoArbitrage => IsCheckResult(m.team1, m.team2, m.odds, Ok(None))
  }

  /** check_arbitrage raised for this match, ending the run. */
  ghost predicate FailsOn(m: MatchOdds, e: Error) {
    m.odds != [] && IsCheckResult(m.team1, m.team2, m.odds, Err(e))
  }

  /** Each match has at most one outcome. */
  lemma OutcomeDeterministic(m: MatchOdds, o1: Outcome, o2: Outcome)
    requires IsOutcomeFor(m, o1) && IsOutcomeFor(m, o2)
    ensures o1 == o2
  {
    if m.odds != [] {
      var r1: Result<Option<Opportunity>, Error> := Ok(if o1.Found? then Some(o1.opportunity) else None);
      var r2: Result<Option<Opportunity>, Error> := Ok(if o2.Found? then Some(o2.opportunity) else None);
      CheckResultDeterministic(m.team1, m.team2, m.odds, r1, r2);
    }
  }

  /**
   * Every match either has an outcome or makes check_arbitrage raise, never
   * both; with OutcomeDeterministic, a match that does not raise has exactly
   * one outcome.
   */
  lemma OutcomeOrFailure(m: MatchOdds)
    ensures (exists o :: IsOutcomeFor(m, o)) <==> !(exists e :: FailsOn(m, e))
  {
    if m.odds == [] {
      assert IsOutcomeFor(m, NoValidOdds);
    } else {
      CheckResultExists(m.team1, m.team2, m.odds);
      var r :| IsCheckResult(m.team1, m.team2, m.odds, r);
      match r
      case Err(e) =>
        assert FailsOn(m, e);
        if exists o :: IsOutcomeFor(m, o) {
          var o :| IsOutcomeFor(m, o);
          var r2: Result<Option<Opportunity>, Error> := Ok(if o.Found? then Some(o.opportunity) else None);
          CheckResultDeterministic(m.team1, m.team2, m.odds, r, r2);
        }
      case Ok(v) =>
        var o := if v.Some? then Found(v.value) else NoArbitrage;
        assert IsOutcomeFor(m, o);
        if exists e :: FailsOn(m, e) {
          var e :| FailsOn(m, e);
          CheckResultDeterministic(m.team1, m.team2, m.odds, r, Err(e));
        }
    }
  }

  /**
   * The main loop. A KeyError or ZeroDivisionError from check_arbitrage is not
   * caught there, so it ends the run: `failure` holds it and `outcomes` the
   * matches reported before it.
   */
  method RunReport(matches: seq<MatchOdds>) returns (outcomes: seq<Outcome>, failure: Option<Error>)
    requires forall k :: 0 <= k < |matches| ==> matches[k].team1 != ProviderKey && matches[k].team2 != ProviderKey
    ensures |outcomes| <= |matches|
    ensures forall k :: 0 <= k < |outcomes| ==> IsOutcomeFor(matches[k], outcomes[k])
    ensures failure.None? ==> |outcomes| == |matches|
    ensures failure.Some? ==> |outcomes| < |matches| && FailsOn(matches[|outcomes|], failure.value)
  {
    outcomes := [];
    failure := None;
    var i := 0;
    while i < |matches|
      invariant 0 <= i <= |matches| && |outcomes| == i
      invariant forall k :: 0 <= k < i ==> IsOutcomeFor(matches[k], outcomes[k])
    {
      var m := matches[i];
      var outcome;
      if m.odds != [] {
        var arbitrage := CheckArbitrage(m.team1, m.team2, m.odds);
        if arbitrage.Err? {
          failure := Some(arbitrage.error);
          return;
        }
        outcome := if arbitrage.value.Some? then Found(arbitrage.value.value) else NoArbitrage;
      } else {
        outcome := NoValidOdds;
      }
      outcomes := outcomes + [outcome];
      i := i + 1;
    }
  }
}
