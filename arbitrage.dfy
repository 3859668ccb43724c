/**
 * The two-way arbitrage detector `check_arbitrage` (main3.py:416-468).
 *
 * It reads each provider entry's two odds strings into numbers, skipping
 * entries it cannot read (430-442), then scans every ordered pair of parsed
 * entries from different providers for the smallest sum of implied
 * probabilities `1/odds1 + 1/odds2` (444-454), and reports the pair with a
 * stake split for a fixed investment of 100 when that sum is below 1
 * (456-468). Python's exceptions that escape the function (a KeyError, a
 * ZeroDivisionError) are `Err` results here.
 */
module Arbitrage {
  import opened Wrappers
  import opened OddsToken

  /** A provider row as the scraper hands it over: a dict from keys to odds text. */
  type Entry = map<string, string>

  const ProviderKey: string := "provider"

  /** The money check_arbitrage splits between the two bets. */
  const TotalInvestment: real := 100.0

  /** Python exceptions that leave check_arbitrage. */
  datatype Error = KeyError(key: string) | ZeroDivisionError

  /** An entry after parsing: the provider's name and its odds on each team. */
  datatype Quote = Quote(provider: string, odds1: real, odds2: real)

  /** The dict check_arbitrage returns when it finds an opportunity. */
  datatype Opportunity = Opportunity(
    team1Provider: string, team1Odds: real,
    team2Provider: string, team2Odds: real,
    arbitragePercent: real, totalInvestment: real,
    stakeTeam1: real, stakeTeam2: real)

  /**
   * The entry the scraper appends for a kept row (main3.py:397-401). As in a
   * Python dict display, a later key overwrites an equal earlier one.
   */
  function ScrapedEntry(provider: string, team1: string, team2: string, tok1: string, tok2: string): (e: Entry)
    ensures e.Keys == {ProviderKey, team1, team2}
    ensures e[team2] == tok2
    ensures team1 != team2 ==> e[team1] == tok1
    ensures ProviderKey != team1 && ProviderKey != team2 ==> e[ProviderKey] == provider
  {
    map[ProviderKey := provider, team1 := tok1, team2 := tok2]
  }

  /* ---------- Reading the entries (main3.py:430-442) ---------- */

  /**
   * The body of the `try` for one entry that has a provider: a missing team
   * key or an odds string `float` refuses gives None (the entry is skipped).
   */
  function ParseEntry(team1: string, team2: string, e: Entry): (q: Option<Quote>)
    requires ProviderKey in e
  {
    if team1 in e && team2 in e && ParseOdds(e[team1]).Some? && ParseOdds(e[team2]).Some? then
      Some(Quote(e[ProviderKey], ParseOdds(e[team1]).value, ParseOdds(e[team2]).value))
    else
      None
  }

  /**
   * An entry with a provider is read exactly when both team keys are present
   * and both tokens, once commas are dots, pass the scraper's filter; the
   * quote then carries the entry's provider and the odds its tokens denote.
   */
  lemma ParseEntryAcceptance(team1: string, team2: string, e: Entry)
    requires ProviderKey in e
    ensures ParseEntry(team1, team2, e).Some? <==>
      (team1 in e && team2 in e && PassesOddsFilter(Normalize(e[team1])) && PassesOddsFilter(Normalize(e[team2])))
    ensures ParseEntry(team1, team2, e).Some? ==>
      (var q := ParseEntry(team1, team2, e).value;
       q.provider == e[ProviderKey] && ParseOdds(e[team1]) == Some(q.odds1) && ParseOdds(e[team2]) == Some(q.odds2))
  {
    if team1 in e && team2 in e {
      ParseOddsAcceptance(e[team1]);
      ParseOddsAcceptance(e[team2]);
    }
  }

  /** Every entry has the key "provider". */
  ghost predicate AllHaveProvider(entries: seq<Entry>) {
    forall k :: 0 <= k < |entries| ==> ProviderKey in entries[k]
  }

  /**
   * The list `providers` after the first loop. An entry without a provider key
   * fails twice: at `entry['provider']` in the `try`, and again in the
   * handler's message, whose KeyError leaves the function.
   */
  function ParseEntries(team1: string, team2: string, entries: seq<Entry>): (r: Result<seq<Quote>, Error>)
    ensures r.Ok? <==> AllHaveProvider(entries)
    ensures r.Err? ==> r.error == KeyError(ProviderKey)
    ensures r.Ok? ==> |r.value| <= |entries|
    ensures r.Ok? ==> forall q :: q in r.value ==> q.odds1 >= 0.0 && q.odds2 >= 0.0
  {
    if |entries| == 0 then Ok([])
    else if ProviderKey !in entries[0] then Err(KeyError(ProviderKey))
    else
      var rest := ParseEntries(team1, team2, entries[1..]);
      assert AllHaveProvider(entries) <==> AllHaveProvider(entries[1..]) by {
        assert forall k :: 1 <= k < |entries| ==> entries[k] == entries[1..][k - 1];
      }
      if rest.Err? then rest
      else Ok(Kept(ParseEntry(team1, team2, entries[0])) + rest.value)
  }

  /** What one parsed entry adds to `providers`. */
  function Kept(q: Option<Quote>): seq<Quote> {
    if q.Some? then [q.value] else []
  }

  /**
   * Reading a list piece by piece gives the pieces' results in order: entries
   * are skipped, never reordered, and one entry's fate does not depend on the
   * others.
   */
  lemma {:induction false} ParseEntriesAppend(team1: string, team2: string, a: seq<Entry>, b: seq<Entry>)
    ensures ParseEntries(team1, team2, a + b) ==
      if ParseEntries(team1, team2, a).Ok? && ParseEntries(team1, team2, b).Ok? then
        Ok(ParseEntries(team1, team2, a).value + ParseEntries(team1, team2, b).value)
      else
        Err(KeyError(ProviderKey))
  {
    if |a| == 0 {
      assert a + b == b;
      if ParseEntries(team1, team2, b).Ok? {
        assert [] + ParseEntries(team1, team2, b).value == ParseEntries(team1, team2, b).value;
      }
    } else {
      assert (a + b)[0] == a[0];
      assert (a + b)[1..] == a[1..] + b;
      ParseEntriesAppend(team1, team2, a[1..], b);
      if ProviderKey in a[0] {
        var kept := Kept(ParseEntry(team1, team2, a[0]));
        var ra, rb := ParseEntries(team1, team2, a[1..]), ParseEntries(team1, team2, b);
        if ra.Ok? && rb.Ok? {
          assert kept + (ra.value + rb.value) == (kept + ra.value) + rb.value;
        }
      }
    }
  }

  /** One entry is kept, as the quote it parses to, or dropped. */
  lemma ParseSingleEntry(team1: string, team2: string, e: Entry)
    requires ProviderKey in e
    ensures ParseEntries(team1, team2, [e]) == Ok(Kept(ParseEntry(team1, team2, e)))
  {
    assert [e][1..] == [];
    assert ParseEntries(team1, team2, [e][1..]) == Ok([]);
    assert Kept(ParseEntry(team1, team2, e)) + [] == Kept(ParseEntry(team1, team2, e));
  }

  /** Reading one more entry of a list appends what that entry keeps. */
  lemma ParseOneMore(team1: string, team2: string, entries: seq<Entry>, i: nat)
    requires i < |entries| && ProviderKey in entries[i]
    requires ParseEntries(team1, team2, entries[..i]).Ok?
    ensures ParseEntries(team1, team2, entries[..i + 1]) ==
      Ok(ParseEntries(team1, team2, entries[..i]).value + Kept(ParseEntry(team1, team2, entries[i])))
  {
    assert entries[..i + 1] == entries[..i] + [entries[i]];
    ParseEntriesAppend(team1, team2, entries[..i], [entries[i]]);
    ParseSingleEntry(team1, team2, entries[i]);
  }

  /** The `try` body for one entry: None where Python raises KeyError or ValueError. */
  method ReadEntry(team1: string, team2: string, entry: Entry) returns (quote: Option<Quote>)
    requires ProviderKey in entry
    ensures quote == ParseEntry(team1, team2, entry)
  {
    quote := None;
    if team1 in entry && team2 in entry {
      var odds1 := ParseOdds(entry[team1]);
      var odds2 := ParseOdds(entry[team2]);
      if odds1.Some? && odds2.Some? {
        quote := Some(Quote(entry[ProviderKey], odds1.value, odds2.value));
      }
    }
  }

  /** An entry without a provider makes the whole first loop fail. */
  lemma MissingProviderFails(team1: string, team2: string, entries: seq<Entry>, i: int)
    requires 0 <= i < |entries| && ProviderKey !in entries[i]
    ensures ParseEntries(team1, team2, entries) == Err(KeyError(ProviderKey))
  {
    assert !AllHaveProvider(entries);
  }

  /** The first loop of check_arbitrage, appending to `providers`. */
  method ParseQuotes(team1: string, team2: string, entries: seq<Entry>) returns (r: Result<seq<Quote>, Error>)
    ensures r == ParseEntries(team1, team2, entries)
  {
    var providers: seq<Quote> := [];
    var i := 0;
    while i < |entries|
      invariant 0 <= i <= |entries|
      invariant ParseEntries(team1, team2, entries[..i]) == Ok(providers)
    {
      var entry := entries[i];
      if ProviderKey !in entry {
        MissingProviderFails(team1, team2, entries, i);
        return Err(KeyError(ProviderKey));
      }
      ghost var previous := providers;
      var quote := ReadEntry(team1, team2, entry);
      if quote.Some? {
        providers := providers + [quote.value];
      }
      assert providers == previous + Kept(quote);
      ParseOneMore(team1, team2, entries, i);
      i := i + 1;
    }
    assert entries[..i] == entries;
    r := Ok(providers);
  }

  /* ---------- Scanning the pairs (main3.py:444-454) ---------- */

  /** The scan looks at (p1, p2) = (qs[i], qs[j]) only when their provider names differ. */
  ghost predicate IsCandidate(qs: seq<Quote>, i: int, j: int) {
    0 <= i < |qs| && 0 <= j < |qs| && qs[i].provider != qs[j].provider
  }

  /** `1 / p1[team1]` and `1 / p2[team2]` can both be computed. */
  predicate Divisible(qs: seq<Quote>, i: int, j: int)
    requires 0 <= i < |qs| && 0 <= j < |qs|
  {
    qs[i].odds1 != 0.0 && qs[j].odds2 != 0.0
  }

  /** The combined implied probability of backing team 1 at qs[i] and team 2 at qs[j]. */
  function ImpliedSum(qs: seq<Quote>, i: int, j: int): real
    requires 0 <= i < |qs| && 0 <= j < |qs| && Divisible(qs, i, j)
  {
    1.0 / qs[i].odds1 + 1.0 / qs[j].odds2
  }

  /** (i', j') comes before (i, j) when p1 runs in the outer loop and p2 in the inner one. */
  ghost predicate ScannedBefore(i': int, j': int, i: int, j: int) {
    i' < i || (i' == i && j' < j)
  }

  ghost predicate HasCandidate(qs: seq<Quote>) {
    exists i, j :: IsCandidate(qs, i, j)
  }

  /** Some pair the scan reaches has a zero odds value: `1 / 0.0` raises. */
  ghost predicate RaisesZeroDivision(qs: seq<Quote>) {
    exists i, j :: IsCandidate(qs, i, j) && !Divisible(qs, i, j)
  }

  /**
   * (i, j) is the pair the scan keeps: a candidate with the least implied sum,
   * and, because the scan replaces its best pair only on a strictly smaller
   * sum, the first such pair in scan order.
   */
  ghost predicate IsFirstMinimum(qs: seq<Quote>, i: int, j: int) {
    IsCandidate(qs, i, j) && !RaisesZeroDivision(qs)
    && (forall i', j' :: IsCandidate(qs, i', j') ==> ImpliedSum(qs, i, j) <= ImpliedSum(qs, i', j'))
    && (forall i', j' :: IsCandidate(qs, i', j') && ScannedBefore(i', j', i, j) ==> ImpliedSum(qs, i, j) < ImpliedSum(qs, i', j'))
  }

  /** Every candidate pair scanned before (i, j) can be divided. */
  ghost predicate NoZeroBefore(qs: seq<Quote>, i: int, j: int) {
    forall i', j' :: IsCandidate(qs, i', j') && ScannedBefore(i', j', i, j) ==> Divisible(qs, i', j')
  }

  ghost predicate CandidateBefore(qs: seq<Quote>, i: int, j: int) {
    exists i', j' :: IsCandidate(qs, i', j') && ScannedBefore(i', j', i, j)
  }

  /** (bi, bj) is the pair the scan holds once it has looked at every pair before (i, j). */
  ghost predicate LeadsBefore(qs: seq<Quote>, bi: int, bj: int, minSum: real, i: int, j: int) {
    NoZeroBefore(qs, i, j)
    && IsCandidate(qs, bi, bj) && ScannedBefore(bi, bj, i, j)
    && Divisible(qs, bi, bj) && minSum == ImpliedSum(qs, bi, bj)
    && (forall i', j' :: IsCandidate(qs, i', j') && ScannedBefore(i', j', i, j) && Divisible(qs, i', j') ==> minSum <= ImpliedSum(qs, i', j'))
    && (forall i', j' :: IsCandidate(qs, i', j') && ScannedBefore(i', j', bi, bj) && Divisible(qs, i', j') ==> minSum < ImpliedSum(qs, i', j'))
  }

  /** What the nested loops end in. */
  datatype Scan = ZeroDivision | NoCandidate | Best(i: nat, j: nat)

  /** Stepping past a pair the scan skips finds no new candidate. */
  lemma NextPairNotCandidate(qs: seq<Quote>, i: int, j: int)
    requires !IsCandidate(qs, i, j)
    ensures CandidateBefore(qs, i, j + 1) <==> CandidateBefore(qs, i, j)
  {
    if CandidateBefore(qs, i, j + 1) {
      var i', j' :| IsCandidate(qs, i', j') && ScannedBefore(i', j', i, j + 1);
      assert ScannedBefore(i', j', i, j);
    }
  }

  /** Finishing row i of the scan is the same as starting row i + 1. */
  lemma RowDone(qs: seq<Quote>, i: int)
    ensures forall i', j' :: IsCandidate(qs, i', j') ==> (ScannedBefore(i', j', i, |qs|) <==> ScannedBefore(i', j', i + 1, 0))
  {
  }

  /**
   * The nested loops of check_arbitrage. `best == None` stands for
   * `min_sum == float('inf')` with `best_pair == None`.
   */
  method FindBestPair(qs: seq<Quote>) returns (s: Scan, minSum: real)
    ensures s.ZeroDivision? <==> RaisesZeroDivision(qs)
    ensures s.NoCandidate? <==> !RaisesZeroDivision(qs) && !HasCandidate(qs)
    ensures s.Best? ==> IsFirstMinimum(qs, s.i, s.j) && minSum == ImpliedSum(qs, s.i, s.j)
  {
    var best: Option<(nat, nat)> := None;
    minSum := 0.0;
    var i := 0;
    while i < |qs|
      invariant 0 <= i <= |qs|
      invariant NoZeroBefore(qs, i, 0)
      invariant best.None? <==> !CandidateBefore(qs, i, 0)
      invariant best.Some? ==> LeadsBefore(qs, best.value.0, best.value.1, minSum, i, 0)
    {
      var j := 0;
      while j < |qs|
        invariant 0 <= j <= |qs|
        invariant NoZeroBefore(qs, i, j)
        invariant best.None? <==> !CandidateBefore(qs, i, j)
        invariant best.Some? ==> LeadsBefore(qs, best.value.0, best.value.1, minSum, i, j)
      {
        if qs[i].provider != qs[j].provider {
          if qs[i].odds1 == 0.0 || qs[j].odds2 == 0.0 {
            assert IsCandidate(qs, i, j) && !Divisible(qs, i, j);
            return ZeroDivision, minSum;
          }
          var sumInv := 1.0 / qs[i].odds1 + 1.0 / qs[j].odds2;
          if best.None? || sumInv < minSum {
            minSum := sumInv;
            best := Some((i, j));
          }
          assert IsCandidate(qs, i, j) && ScannedBefore(i, j, i, j + 1);
        } else {
          NextPairNotCandidate(qs, i, j);
        }
        j := j + 1;
      }
      RowDone(qs, i);
      i := i + 1;
    }
    match best
    case None =>
      s := NoCandidate;
    case Some((bi, bj)) =>
      s := Best(bi, bj);
  }

  /* ---------- The opportunity (main3.py:456-466) ---------- */

  /** What the stake on team 1 returns when team 1 wins. */
  function Payout1(a: Opportunity): real {
    a.stakeTeam1 * a.team1Odds
  }

  /** What the stake on team 2 returns when team 2 wins. */
  function Payout2(a: Opportunity): real {
    a.stakeTeam2 * a.team2Odds
  }

  /** Whichever team wins, its bet returns the same amount. */
  predicate PaysSameEitherWay(a: Opportunity) {
    Payout1(a) == Payout2(a)
  }

  /**
   * The dict returned for the pair (p1, p2) whose implied sum is `minSum`:
   * stakes that pay the same whichever team wins and add up to the investment.
   */
  function MakeOpportunity(p1: Quote, p2: Quote, minSum: real): (a: Opportunity)
    requires p1.odds1 > 0.0 && p2.odds2 > 0.0
    requires minSum == 1.0 / p1.odds1 + 1.0 / p2.odds2
    ensures a.team1Provider == p1.provider && a.team2Provider == p2.provider
    ensures a.team1Odds == p1.odds1 && a.team2Odds == p2.odds2
    ensures a.totalInvestment == TotalInvestment
    ensures Payout1(a) == TotalInvestment / minSum
    ensures Payout2(a) == TotalInvestment / minSum
    ensures PaysSameEitherWay(a)
    ensures a.stakeTeam1 + a.stakeTeam2 == a.totalInvestment
    ensures 1.0 - a.arbitragePercent / 100.0 == minSum
    ensures minSum < 1.0 ==> 0.0 < a.arbitragePercent < 100.0
  {
    var stake1 := TotalInvestment / (minSum * p1.odds1);
    var stake2 := TotalInvestment / (minSum * p2.odds2);
    StakeAlgebra(p1.odds1, p2.odds2, minSum);
    Opportunity(p1.provider, p1.odds1, p2.provider, p2.odds2, (1.0 - minSum) * 100.0, TotalInvestment, stake1, stake2)
  }

  /** The equal-payout algebra behind the stake split. */
  lemma StakeAlgebra(o1: real, o2: real, m: real)
    requires o1 > 0.0 && o2 > 0.0 && m == 1.0 / o1 + 1.0 / o2
    ensures m > 0.0
    ensures TotalInvestment / (m * o1) * o1 == TotalInvestment / m
    ensures TotalInvestment / (m * o2) * o2 == TotalInvestment / m
    ensures TotalInvestment / (m * o1) + TotalInvestment / (m * o2) == TotalInvestment
  {
    assert 1.0 / o1 > 0.0 && 1.0 / o2 > 0.0;
    calc {
      TotalInvestment / (m * o1) + TotalInvestment / (m * o2);
      (TotalInvestment / m) * (1.0 / o1) + (TotalInvestment / m) * (1.0 / o2);
      (TotalInvestment / m) * m;
      TotalInvestment;
    }
  }

  /* ---------- check_arbitrage as a whole ---------- */

  /**
   * What check_arbitrage(teams, odds_data) returns or raises, for
   * teams == [team1, team2]: the KeyError of the first loop, the
   * ZeroDivisionError of the scan, None when no pair of different providers
   * exists, otherwise the first least pair, reported when its sum is below 1.
   */
  ghost predicate IsCheckResult(team1: string, team2: string, entries: seq<Entry>, r: Result<Option<Opportunity>, Error>) {
    match ParseEntries(team1, team2, entries)
    case Err(e) => r == Err(e)
    case Ok(qs) =>
      if RaisesZeroDivision(qs) then r == Err(ZeroDivisionError)
      else if !HasCandidate(qs) then r == Ok(None)
      else exists i, j :: IsFirstMinimum(qs, i, j) && r == Ok(Reported(qs, i, j))
  }

  /** The value returned for the kept pair (i, j): an opportunity when its sum is below 1, else None. */
  function Reported(qs: seq<Quote>, i: int, j: int): (o: Option<Opportunity>)
    requires IsFirstMinimum(qs, i, j)
    requires forall q :: q in qs ==> q.odds1 >= 0.0 && q.odds2 >= 0.0
    ensures o.Some? <==> ImpliedSum(qs, i, j) < 1.0
    ensures o.Some? ==> o.value.team1Provider != o.value.team2Provider
  {
    assert qs[i] in qs && qs[j] in qs;
    if ImpliedSum(qs, i, j) < 1.0 then Some(MakeOpportunity(qs[i], qs[j], ImpliedSum(qs, i, j))) else None
  }

  /** check_arbitrage(teams, odds_data) with teams == [team1, team2]. */
  method CheckArbitrage(team1: string, team2: string, entries: seq<Entry>) returns (r: Result<Option<Opportunity>, Error>)
    requires team1 != ProviderKey && team2 != ProviderKey
    ensures IsCheckResult(team1, team2, entries, r)
  {
    var parsed := ParseQuotes(team1, team2, entries);
    if parsed.Err? {
      return Err(parsed.error);
    }
    var qs := parsed.value;
    var scan, minSum := FindBestPair(qs);
    match scan
    case ZeroDivision =>
      r := Err(ZeroDivisionError);
    case NoCandidate =>
      r := Ok(None);
    case Best(i, j) =>
      assert qs[i] in qs && qs[j] in qs;
      if minSum < 1.0 {
        r := Ok(Some(MakeOpportunity(qs[i], qs[j], minSum)));
      } else {
        r := Ok(None);
      }
      assert r == Ok(Reported(qs, i, j));
  }

  /* ---------- What check_arbitrage promises ---------- */

  /** The scan's choice is deterministic: at most one pair is the first least one. */
  lemma FirstMinimumUnique(qs: seq<Quote>, i: int, j: int, i2: int, j2: int)
    requires IsFirstMinimum(qs, i, j) && IsFirstMinimum(qs, i2, j2)
    ensures i == i2 && j == j2
  {
  }

  /** Under the scan's preference, candidate (i', j') wins over candidate (i, j). */
  ghost predicate Beats(qs: seq<Quote>, i': int, j': int, i: int, j: int)
    requires !RaisesZeroDivision(qs)
  {
    IsCandidate(qs, i', j') && IsCandidate(qs, i, j)
    && (ImpliedSum(qs, i', j') < ImpliedSum(qs, i, j)
        || (ImpliedSum(qs, i', j') == ImpliedSum(qs, i, j) && ScannedBefore(i', j', i, j)))
  }

  /** The candidates that win over (i, j). */
  ghost function BeatenBy(qs: seq<Quote>, i: int, j: int): set<(int, int)>
    requires !RaisesZeroDivision(qs)
  {
    set i', j' | 0 <= i' < |qs| && 0 <= j' < |qs| && Beats(qs, i', j', i, j) :: (i', j')
  }

  /**
   * Whenever some pair is scanned and none raises, a first least pair exists:
   * from any candidate, following better candidates ends at one.
   */
  lemma {:induction false} FirstMinimumFrom(qs: seq<Quote>, i: int, j: int) returns (bi: int, bj: int)
    requires !RaisesZeroDivision(qs) && IsCandidate(qs, i, j)
    ensures IsFirstMinimum(qs, bi, bj)
    decreases |BeatenBy(qs, i, j)|
  {
    if IsFirstMinimum(qs, i, j) {
      return i, j;
    }
    var i', j';
    if forall a, b :: IsCandidate(qs, a, b) ==> ImpliedSum(qs, i, j) <= ImpliedSum(qs, a, b) {
      i', j' :| IsCandidate(qs, i', j') && ScannedBefore(i', j', i, j) && ImpliedSum(qs, i', j') <= ImpliedSum(qs, i, j);
    } else {
      i', j' :| IsCandidate(qs, i', j') && ImpliedSum(qs, i', j') < ImpliedSum(qs, i, j);
    }
    assert Beats(qs, i', j', i, j);
    assert BeatenBy(qs, i', j') < BeatenBy(qs, i, j) by {
      forall p | p in BeatenBy(qs, i', j') ensures p in BeatenBy(qs, i, j) {
        assert Beats(qs, p.0, p.1, i', j');
      }
      assert (i', j') in BeatenBy(qs, i, j);
    }
    ProperSubsetSmaller(BeatenBy(qs, i', j'), BeatenBy(qs, i, j));
    bi, bj := FirstMinimumFrom(qs, i', j');
  }

  lemma ProperSubsetSmaller<T>(a: set<T>, b: set<T>)
    requires a < b
    ensures |a| < |b|
  {
    var x :| x in b && x !in a;
    SubsetNoLarger(a, b - {x});
  }

  lemma {:induction false} SubsetNoLarger<T>(a: set<T>, b: set<T>)
    requires a <= b
    ensures |a| <= |b|
    decreases b
  {
    if b != {} {
      var y :| y in b;
      SubsetNoLarger(a - {y}, b - {y});
    }
  }

  /** check_arbitrage returns or raises on every input: IsCheckResult always allows some result. */
  lemma CheckResultExists(team1: string, team2: string, entries: seq<Entry>)
    ensures exists r :: IsCheckResult(team1, team2, entries, r)
  {
    match ParseEntries(team1, team2, entries)
    case Err(e) =>
      assert IsCheckResult(team1, team2, entries, Err(e));
    case Ok(qs) =>
      if RaisesZeroDivision(qs) {
        assert IsCheckResult(team1, team2, entries, Err(ZeroDivisionError));
      } else if !HasCandidate(qs) {
        assert IsCheckResult(team1, team2, entries, Ok(None));
      } else {
        var i, j :| IsCandidate(qs, i, j);
        var bi, bj := FirstMinimumFrom(qs, i, j);
        assert IsCheckResult(team1, team2, entries, Ok(Reported(qs, bi, bj)));
      }
  }

  /** The same entries always give the same answer. */
  lemma CheckResultDeterministic(team1: string, team2: string, entries: seq<Entry>, r1: Result<Option<Opportunity>, Error>, r2: Result<Option<Opportunity>, Error>)
    requires IsCheckResult(team1, team2, entries, r1) && IsCheckResult(team1, team2, entries, r2)
    ensures r1 == r2
  {
    var parsed := ParseEntries(team1, team2, entries);
    if parsed.Ok? {
      var qs := parsed.value;
      if !RaisesZeroDivision(qs) && HasCandidate(qs) {
        var i1, j1 :| IsFirstMinimum(qs, i1, j1) && r1 == Ok(Reported(qs, i1, j1));
        var i2, j2 :| IsFirstMinimum(qs, i2, j2) && r2 == Ok(Reported(qs, i2, j2));
        FirstMinimumUnique(qs, i1, j1, i2, j2);
      }
    }
  }

  /**
   * A reported opportunity backs the two teams at two different providers,
   * with odds taken from parsed entries, a margin strictly between 0 and 100
   * percent, and stakes that add up to the investment and pay the same
   * whichever team wins.
   */
  lemma OpportunityFacts(team1: string, team2: string, entries: seq<Entry>, a: Opportunity)
    requires IsCheckResult(team1, team2, entries, Ok(Some(a)))
    ensures a.team1Provider != a.team2Provider
    ensures exists q1, q2 ::
              q1 in ParseEntries(team1, team2, entries).value && q2 in ParseEntries(team1, team2, entries).value
              && q1.provider == a.team1Provider && q1.odds1 == a.team1Odds
              && q2.provider == a.team2Provider && q2.odds2 == a.team2Odds
    ensures a.team1Odds > 0.0 && a.team2Odds > 0.0
    ensures 1.0 - a.arbitragePercent / 100.0 == 1.0 / a.team1Odds + 1.0 / a.team2Odds
    ensures 0.0 < a.arbitragePercent < 100.0
    ensures a.totalInvestment == TotalInvestment
    ensures a.stakeTeam1 + a.stakeTeam2 == a.totalInvestment
    ensures Payout1(a) == TotalInvestment / (1.0 / a.team1Odds + 1.0 / a.team2Odds)
    ensures PaysSameEitherWay(a)
  {
    var qs := ParseEntries(team1, team2, entries).value;
    var i, j := KeptPair(team1, team2, entries, Some(a));
    assert qs[i] in qs && qs[j] in qs;
    var m := ImpliedSum(qs, i, j);
    assert qs[i].odds1 > 0.0 && qs[j].odds2 > 0.0;
    assert a == MakeOpportunity(qs[i], qs[j], m);
    OwnOddsFigures(qs[i], qs[j], m);
  }

  /** The figures of an opportunity, restated through its own odds. */
  lemma OwnOddsFigures(p1: Quote, p2: Quote, m: real)
    requires p1.odds1 > 0.0 && p2.odds2 > 0.0
    requires m == 1.0 / p1.odds1 + 1.0 / p2.odds2
    ensures var a := MakeOpportunity(p1, p2, m);
      && 1.0 - a.arbitragePercent / 100.0 == 1.0 / a.team1Odds + 1.0 / a.team2Odds
      && Payout1(a) == TotalInvestment / (1.0 / a.team1Odds + 1.0 / a.team2Odds)
  {
  }

  /** The pair behind a result that is not an exception. */
  lemma KeptPair(team1: string, team2: string, entries: seq<Entry>, o: Option<Opportunity>) returns (i: int, j: int)
    requires IsCheckResult(team1, team2, entries, Ok(o)) && o.Some?
    ensures ParseEntries(team1, team2, entries).Ok?
    ensures IsFirstMinimum(ParseEntries(team1, team2, entries).value, i, j)
    ensures Reported(ParseEntries(team1, team2, entries).value, i, j) == o
  {
    var qs := ParseEntries(team1, team2, entries).value;
    i, j :| IsFirstMinimum(qs, i, j) && Reported(qs, i, j) == o;
  }

  /**
   * check_arbitrage reports an opportunity exactly when SOME pair of different
   * providers has an implied sum below 1, not only the pair it keeps.
   */
  lemma FoundIffSomePairBelowOne(team1: string, team2: string, entries: seq<Entry>, o: Option<Opportunity>)
    requires IsCheckResult(team1, team2, entries, Ok(o))
    ensures ParseEntries(team1, team2, entries).Ok?
    ensures var qs := ParseEntries(team1, team2, entries).value;
      o.Some? <==> exists i, j :: IsCandidate(qs, i, j) && Divisible(qs, i, j) && ImpliedSum(qs, i, j) < 1.0
  {
    var qs := ParseEntries(team1, team2, entries).value;
    assert !RaisesZeroDivision(qs);
    if HasCandidate(qs) {
      var i, j :| IsFirstMinimum(qs, i, j) && Reported(qs, i, j) == o;
      if exists i', j' :: IsCandidate(qs, i', j') && Divisible(qs, i', j') && ImpliedSum(qs, i', j') < 1.0 {
        var i', j' :| IsCandidate(qs, i', j') && Divisible(qs, i', j') && ImpliedSum(qs, i', j') < 1.0;
        assert ImpliedSum(qs, i, j) <= ImpliedSum(qs, i', j');
      }
    }
  }

  /**
   * Entries that all name one provider never give an opportunity: no pair is
   * scanned and `min_sum` stays infinite.
   */
  lemma OneProviderNoArbitrage(team1: string, team2: string, entries: seq<Entry>, r: Result<Option<Opportunity>, Error>)
    requires ParseEntries(team1, team2, entries).Ok?
    requires forall q :: q in ParseEntries(team1, team2, entries).value ==> q.provider == ParseEntries(team1, team2, entries).value[0].provider
    requires IsCheckResult(team1, team2, entries, r)
    ensures r == Ok(None)
  {
  }

  /** qs2 is qs with the odds of entry k raised (or kept) on both teams. */
  ghost predicate RaisedAt(qs: seq<Quote>, qs2: seq<Quote>, k: int) {
    |qs2| == |qs| && 0 <= k < |qs|
    && (forall m :: 0 <= m < |qs| && m != k ==> qs2[m] == qs[m])
    && qs2[k].provider == qs[k].provider
    && 0.0 < qs[k].odds1 <= qs2[k].odds1 && 0.0 < qs[k].odds2 <= qs2[k].odds2
  }

  lemma InverseAntitone(x: real, y: real)
    requires 0.0 < x <= y
    ensures 1.0 / y <= 1.0 / x
  {
    assert 1.0 / y * y == 1.0 && 1.0 / x * x == 1.0;
    assert (1.0 / x - 1.0 / y) * (x * y) == y - x;
  }

  /**
   * Raising one provider's odds never makes the best implied sum larger: an
   * opportunity cannot get worse.
   */
  lemma RaisingOddsNeverWorsens(qs: seq<Quote>, qs2: seq<Quote>, k: int, i: int, j: int, i2: int, j2: int)
    requires RaisedAt(qs, qs2, k)
    requires IsFirstMinimum(qs, i, j) && IsFirstMinimum(qs2, i2, j2)
    ensures ImpliedSum(qs2, i2, j2) <= ImpliedSum(qs, i, j)
  {
    assert IsCandidate(qs2, i, j);
    assert Divisible(qs2, i, j);
    if i == k {
      InverseAntitone(qs[k].odds1, qs2[k].odds1);
    }
    if j == k {
      InverseAntitone(qs[k].odds2, qs2[k].odds2);
    }
    assert ImpliedSum(qs2, i, j) <= ImpliedSum(qs, i, j);
  }

  /**
   * Entries the scraper builds from tokens that passed its filter are all
   * read, whatever the team names (equal, or "provider"): none is skipped.
   */
  lemma {:induction false} ScrapedEntriesAllRead(team1: string, team2: string, rows: seq<(string, string, string)>)
    requires forall m :: 0 <= m < |rows| ==> PassesOddsFilter(rows[m].1) && PassesOddsFilter(rows[m].2)
    ensures var entries := ScrapedEntries(team1, team2, rows);
      ParseEntries(team1, team2, entries).Ok? && |ParseEntries(team1, team2, entries).value| == |rows|
  {
    if |rows| > 0 {
      var e := ScrapedEntry(rows[0].0, team1, team2, rows[0].1, rows[0].2);
      ParseOddsAcceptance(rows[0].1);
      ParseOddsAcceptance(rows[0].2);
      assert ParseEntry(team1, team2, e).Some?;
      ScrapedEntriesAllRead(team1, team2, rows[1..]);
      assert ScrapedEntries(team1, team2, rows)[1..] == ScrapedEntries(team1, team2, rows[1..]);
    }
  }

  /** The entries for rows of (provider name, team 1 token, team 2 token). */
  function ScrapedEntries(team1: string, team2: string, rows: seq<(string, string, string)>): (entries: seq<Entry>)
    ensures |entries| == |rows|
    ensures forall k :: 0 <= k < |rows| ==> entries[k] == ScrapedEntry(rows[k].0, team1, team2, rows[k].1, rows[k].2)
  {
    if |rows| == 0 then []
    else [ScrapedEntry(rows[0].0, team1, team2, rows[0].1, rows[0].2)] + ScrapedEntries(team1, team2, rows[1..])
  }

  /* ---------- Worked examples ---------- */

  /**
   * Two providers, {X: 2.10, 1.90} and {Y: 1.80, 2.30}: team 1 at X and
   * team 2 at Y give 10/21 + 10/23 = 440/483 < 1, a margin of 4300/483
   * (about 8.90) percent.
   */
  lemma TwoProviderExample()
    ensures var qs := [Quote("X", 2.1, 1.9), Quote("Y", 1.8, 2.3)];
      IsFirstMinimum(qs, 0, 1) && ImpliedSum(qs, 0, 1) == 440.0 / 483.0
      && Reported(qs, 0, 1).Some? && Reported(qs, 0, 1).value.arbitragePercent == 4300.0 / 483.0
  {
    var qs := [Quote("X", 2.1, 1.9), Quote("Y", 1.8, 2.3)];
    assert ImpliedSum(qs, 0, 1) == 440.0 / 483.0;
    assert ImpliedSum(qs, 1, 0) == 1.0 / 1.8 + 1.0 / 1.9;
    forall i', j' | IsCandidate(qs, i', j') ensures (i', j') == (0, 1) || (i', j') == (1, 0) {
    }
  }

  /** A row whose team 1 cell had no odds ("-") is dropped before any pair is formed. */
  lemma MissingOddsExample(team1: string, team2: string)
    requires team1 != team2 && team1 != ProviderKey && team2 != ProviderKey
    ensures ParseEntries(team1, team2, [ScrapedEntry("X", team1, team2, Missing, "2.0")]) == Ok([])
  {
    var e := ScrapedEntry("X", team1, team2, Missing, "2.0");
    FilterRejectsExamples();
    ParseOddsAcceptance(Missing);
    assert Normalize(Missing) == Missing;
    ParseSingleEntry(team1, team2, e);
  }
}
