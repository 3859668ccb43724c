# Two-way arbitrage detection over scraped betting odds

This project models the decision logic of the HLTV odds scraper (BetSure-CS,
`main3.py`) and proves what it does. It covers three parts:

- **The odds-token filter.** While scraping, a provider row is kept only when
  both odds tokens pass the test "delete the first `.`, and what is left is a
  non-empty string of digits". A cell with no link reads as `"-"`.
  Modelled in `odds_token.dfy` (module `OddsToken`).
- **`check_arbitrage`.** It reads every entry's two odds strings (commas
  become dots, then `float`) and skips entries it cannot read. It then scans
  every ordered pair of entries from different providers for the smallest
  implied-probability sum `1/odds1 + 1/odds2`. When that sum is below 1, it
  reports the pair with a stake split of an investment of 100. The parse loop
  and the nested scan are methods with loop invariants. They are proved
  against a specification predicate (`Arbitrage.IsCheckResult`), and the
  promises of check_arbitrage are proved as lemmas about that predicate.
  Modelled in `arbitrage.dfy` (module `Arbitrage`).
- **The main loop.** For each match, in discovery order, the outcome is one of:
  - "no valid odds" when its odds list is empty;
  - "arbitrage found", with the total stake and the guaranteed profit;
  - "no arbitrage".

  Modelled in `report.dfy` (module `Report`).

Modelling decisions:

- **Odds are exact reals.** The decimal tokens the filter admits denote
  rationals exactly.
- **Entries are maps.** An entry is the dict the scraper builds, as a
  `map<string, string>`. So a missing key, or a team name that collides with
  another key, behaves as it does in Python, except a team named
  `"provider"` in check_arbitrage (see Left out).
- **Escaping exceptions are `Err` values.** Two Python exceptions escape
  `check_arbitrage`. Both end the program's run, because the main loop
  catches nothing:
  - A `KeyError` comes from an entry without a `"provider"` key. Its handler
    at main3.py:441 reads `entry['provider']` again.
  - A `ZeroDivisionError` comes from an odds value of zero at main3.py:451.
    The filter accepts `"0"`, `"0.0"` and `".0"`.

Three facts about the code that the model keeps:

- The code does not reject odds of 1.0 or less; `"0"` passes the filter.
- The two stakes add up to the investment `T`; `T / min_sum` is what either
  winning bet pays.
- Both exceptions above abort the run.

## Model

| member | source | states |
|---|---|---|
| OddsToken.CellText | main3.py:310-311 | a cell without a link reads as "-", which the filter rejects; a cell with a link reads as its text |
| OddsToken.RemoveFirstAbsent | main3.py:314 | `replace('.', '', 1)` leaves a token without '.' unchanged |
| OddsToken.RemoveFirstSplices | main3.py:314 | `replace('.', '', 1)` splices out exactly the first '.', keeping everything before and after it |
| OddsToken.FilterAcceptsExactlyDecimals | main3.py:314-316 | a token passes the filter if and only if it is a non-empty digit run, or one '.' with digit runs on both sides that are not both empty |
| OddsToken.FilterRejectsExamples | main3.py:314-316 | "-", "", ".", "1.2.3" and "1,85" are rejected |
| OddsToken.FilterAcceptsExamples | main3.py:392-394 | "1.", ".5", "1.85", "0" and "1.0" are accepted |
| OddsToken.Normalize | main3.py:433-434 | `replace(',', '.')` keeps the length and turns each ',' into '.', leaving every other character alone |
| OddsToken.NormalizeIdempotent | main3.py:433-434 | after the replacement no ',' is left, so a second replacement changes nothing |
| OddsToken.SeparatorsNormalizeAlike | main3.py:433-434 | tokens that differ only in ',' versus '.' normalise to the same string |
| OddsToken.FilteredTokensAreNormal | main3.py:433-434 | a token the scraper kept has no ',', so the comma replacement leaves it unchanged |
| OddsToken.ParseFloat | main3.py:433-434 | `float` of a decimal token is a non-negative number (other tokens read as None; see Left out) |
| OddsToken.ParseFloatValue | main3.py:433-434 | `float` of a token the filter keeps is the integer its digits spell once the '.' is deleted, over ten to the number of digits after the '.' |
| OddsToken.ParseFloatReadsFilteredTokens | main3.py:433-434 | with `isdigit` on ASCII digits, the modelled `float` reads a token if and only if the token passes the scraper's filter |
| OddsToken.ParseOdds | main3.py:433-434 | the odds read from a decimal token are never negative (other tokens read as None; see Left out) |
| OddsToken.ParseOddsAcceptance | main3.py:433-434 | check_arbitrage reads a token if and only if its comma-normalised form passes the filter, so every token the scraper kept is read |
| OddsToken.SeparatorsParseAlike | main3.py:433-434 | tokens that differ only in ',' versus '.' give the same odds |
| OddsToken.CommaAndDotExample | main3.py:433-434 | "1,85" and "1.85" both read as 1.85 |
| OddsToken.ZeroOddsTokens | main3.py:433-434 | a token `float` reads (the token after the comma replacement) gives 0, the value that makes `1 / odds` raise at line 451, if and only if every character is '0' or '.' |
| Arbitrage.ScrapedEntry | main3.py:397-401 | the scraper's entry has exactly the keys "provider", team 1 and team 2; the later key wins when two coincide |
| Arbitrage.ParseEntries | main3.py:430-442 | the first loop succeeds if and only if every entry has a "provider" key, otherwise it fails with KeyError("provider"); it keeps at most one quote per entry, with non-negative odds |
| Arbitrage.ParseEntriesAppend | main3.py:430-442 | reading two lists one after the other gives the concatenation of their results: entries are skipped, never reordered, and each is read independently |
| Arbitrage.ParseEntryAcceptance | main3.py:431-439 | an entry with a provider is read if and only if both team keys are present and both tokens, once commas are dots, pass the scraper's filter; the quote then carries the entry's provider and the odds its tokens denote |
| Arbitrage.MissingProviderFails | main3.py:441 | an entry without a "provider" key makes the first loop raise KeyError("provider"), whatever the other entries hold |
| Arbitrage.ReadEntry | main3.py:432-439 | the `try` body for one entry returns exactly ParseEntry, whose acceptance ParseEntryAcceptance states |
| Arbitrage.ParseQuotes | main3.py:428-442 | the loop appending to `providers` computes exactly ParseEntries |
| Arbitrage.FindBestPair | main3.py:444-454 | the nested scan raises ZeroDivisionError if and only if some pair of different providers has a zero odds value; it finds no pair if and only if no two entries have different providers; otherwise it returns the least sum over all such pairs, and the first pair in outer-p1/inner-p2 order that attains it |
| Arbitrage.MakeOpportunity | main3.py:456-466 | the returned stakes pay TotalInvestment/min_sum whichever team wins and add up to the investment; the margin satisfies 1 - pct/100 = min_sum and lies strictly between 0 and 100 when min_sum < 1 |
| Arbitrage.Reported | main3.py:456-468 | check_arbitrage returns a dict if and only if the least sum is below 1, and the dict names two different providers |
| Arbitrage.CheckArbitrage | main3.py:416-468 | the method returns or raises exactly what IsCheckResult describes: KeyError, ZeroDivisionError, None when no pair exists, or the reported first least pair |
| Arbitrage.FirstMinimumUnique | main3.py:447-454 | with the strict `<`, at most one pair is the first least one |
| Arbitrage.CheckResultDeterministic | main3.py:416-468 | the same entries always give the same result |
| Arbitrage.FirstMinimumFrom | main3.py:447-454 | when some pair of different providers is scanned and none raises, a first least pair exists |
| Arbitrage.CheckResultExists | main3.py:416-468 | check_arbitrage has a result (a return value or an exception) on every input |
| Arbitrage.OpportunityFacts | main3.py:456-466 | a reported opportunity uses two different providers, with odds taken from parsed entries; both odds are positive; 1 - pct/100 equals the odds' implied sum; the margin is strictly between 0 and 100; the stakes add up to 100 and pay the same whichever team wins |
| Arbitrage.FoundIffSomePairBelowOne | main3.py:444-468 | an opportunity is reported if and only if SOME pair of different providers has an implied sum below 1 |
| Arbitrage.OneProviderNoArbitrage | main3.py:444-468 | entries that all name one provider give None |
| Arbitrage.RaisingOddsNeverWorsens | main3.py:447-454 | raising one provider's odds never raises the least implied sum the scan finds |
| Arbitrage.ScrapedEntriesAllRead | main3.py:430-442 | with `isdigit` on ASCII digits, every entry the scraper built from filtered tokens is read by check_arbitrage, none skipped, whatever the two team names are (equal ones included) |
| Arbitrage.ScrapedEntries | main3.py:397-401 | one entry per kept row, in row order: entry k is the dict built from row k |
| Arbitrage.TwoProviderExample | main3.py:447-462 | {X: 2.10, 1.90} and {Y: 1.80, 2.30}: the pair (X, Y) is kept, with sum 440/483 and margin 4300/483 percent |
| Arbitrage.MissingOddsExample | main3.py:430-442 | a row whose team 1 cell read "-" is dropped by check_arbitrage |
| Report.ReportedFigures | main3.py:508-509 | for a reported opportunity the total stake is 100, and the printed profit equals either winning payout minus the total stake and is positive |
| Report.OutcomeDeterministic | main3.py:491-515 | each match has at most one outcome |
| Report.OutcomeOrFailure | main3.py:491-515 | each match has an outcome if and only if check_arbitrage does not raise on it; with OutcomeDeterministic, such a match has exactly one outcome |
| Report.RunReport | main3.py:484-516 | outcomes come in discovery order, one per match: "no valid odds" exactly for an empty odds list, otherwise check_arbitrage's answer; an exception from check_arbitrage stops the run at that match |

## Left out

- Browser automation (driver setup, consent dialogs, element lookups, waits) and match discovery. These are I/O against an external page. Each match reaches RunReport as its team names and the odds list the scraper returned.
- main.py is not part of this model. It is the same scraping code without the arbitrage logic.
- Date windows and ISO-week grouping. They depend on the local clock and time zone.
- Exceptions raised while scraping one provider row. The scraper catches and skips them; they belong to the browser layer.
- `text.strip()` on the odds cells. Tokens are taken after stripping.
- Console output and the `:.2f` rounding of the printed figures.
- OddsToken.ParseFloat: reads only unsigned decimal tokens (digits with at most one '.' and at least one digit). Python's `float` also reads signed tokens ("-2"), exponents ("2.5e0"), padded tokens (" 2.5"), underscores ("1_0"), `inf` and `nan`; the model reads each of these as None.
- OddsToken.ParseOdds: for the tokens listed on the ParseFloat line, Python keeps the entry and the model skips it. So "the odds are never negative" holds only for decimal tokens.
- Arbitrage.CheckArbitrage: on an entry holding one of those tokens, Python can report a pair that the model does not see. For example, [{X: "2.5e0", "3"}, {Y: "3", "2.5e0"}] gives the (Y, X) opportunity in Python and None in the model. The contracts of ParseEntries, CheckArbitrage, OpportunityFacts and ReportedFigures describe check_arbitrage only on decimal tokens. Those are the only tokens the scraper's filter at main3.py:392 passes on.
- OddsToken.ParseFloat: reals are exact, so IEEE-754 rounding of the odds, the sums and the stakes is not modelled.
- OddsToken.IsDigit: `str.isdigit` is modelled for ASCII digits only. In Python, `isdigit` is also true of characters such as '²', which `float` refuses: a scraped "²" passes the filter at main3.py:392 and is then skipped at main3.py:433. OddsToken.ParseFloatReadsFilteredTokens and Arbitrage.ScrapedEntriesAllRead therefore hold for ASCII tokens only.
- Arbitrage.CheckArbitrage: requires that neither team is named "provider". With such a name, the dict built at main3.py:435-439 would overwrite the provider name with a number.
- Report.RunReport: requires the same of every match's team names, because it runs CheckArbitrage on each match.
- Arbitrage.FindBestPair: `min_sum = inf` is represented by the absence of a best pair rather than by an infinite float.
