# MidEx Cup scoring pipeline in Dafny

The MidEx Cup is a season-long golf order of merit, shown as a small
Streamlit page. Each event's results are kept in a Google Sheets worksheet.
This project models the scoring pipeline behind that page and proves what it
promises:

- **Configuration.** `EVENT_TABS` lists the twelve events of the season in
  processing order, each with its event type. `POINTS_TABLE` is the payout
  schedule of each of the four event types. Both are in `points.dfy`.
- **Points lookup** (`calculate_points`). A finishing position maps to the
  points of its place in the event type's schedule. An unknown event type
  scores 0, and so does a place outside the schedule.
- **Row normalisation** (the part of `load_event_results` after the fetch).
  Each worksheet row keeps its first two cells, as Name and Position.
  Position is coerced to an integer, and rows where that fails are dropped;
  this includes the header row. Names are stripped and rows are sorted by
  Position. This is in `results.dfy`, with the generic filter in
  `filtering.dfy` and the sort in `sorting.dfy`.
- **Aggregation** (`aggregate_points`). Events are visited in `EVENT_TABS`
  order, and an event whose load raises is skipped. Every row adds its points
  to the player's running total and appends `(event, points)` to the player's
  breakdown. Both are kept in dictionaries updated in place. One row per
  player is then built and sorted by Points, highest first. This is in
  `leaderboard.dfy`.
- **Rank numbering.** Row `k` of the sorted leaderboard is shown at Position
  `k + 1`.
- **Points distribution table.** A `Place` column runs from 1 to the longest
  schedule's length. Each schedule becomes a column padded with zeros to that
  length.

The worksheet fetch is an input to the model. For each event it is either the
grid of cell strings, or `None` when the client raised. The aggregation
methods take the event list as a parameter; the page always passes
`Points.EventTabs`.

`app.py` does not parse ordinal positions such as "1st", does not skip empty
names, applies no eligibility list, does not hide players with 0 points and
defines no tie-break between equal totals. The model follows `app.py` in each
of these. An ordinal such as "1st" coerces to nothing, so its row is dropped.
An empty name is scored like any other name. Every scored player appears,
including a player with 0 points. Equal totals are left in whatever order the
unstable sort produces.

## Model

| member | source | states |
|---|---|---|
| Points.PointsTableWellFormed | app.py:24-29 | The four event types are distinct. Each schedule has 16 places, never increases from one place to the next, and is never negative. |
| Points.PointsTableLabelsDistinct | app.py:24-29 | No event type appears twice in the points table, so the lookup by event type is unambiguous. |
| Points.PointsTableMonotone | app.py:24-29 | Within every schedule, an earlier place is worth at least as much as any later place. |
| Points.EventTabsListed | app.py:9-22 | Every event type used in `EVENT_TABS` has a schedule in `POINTS_TABLE`. |
| Points.Schedule | app.py:63 | `POINTS_TABLE.get(event_type, [])`: the empty list for an unknown event type, otherwise a schedule listed under that event type. |
| Points.ScheduleOfListed | app.py:63 | With distinct event types, looking up a listed event type returns exactly its own schedule. |
| Points.CalculatePoints | app.py:62-64 | The result is never negative. It is 0 for a position below 1 or above 16, and 0 for an unknown event type. Otherwise it is the schedule entry at `position - 1`. |
| Points.BetterFinishNeverScoresFewer | app.py:62-64 | For `1 <= p <= q`, finishing at `p` scores at least as much as finishing at `q`, for every event type. |
| Points.MaxPlaces | app.py:201 | No schedule is longer than the result, and some schedule has exactly that length. |
| Points.PointsDistribution | app.py:201-208 | `Place` runs from 1 to the longest schedule's length, with one column per event type in table order. Each column has that length, starts with its schedule and is 0 after it. |
| Results.Strip | app.py:58 | The stripped name is never longer than the cell, and it neither starts nor ends with whitespace. |
| Results.StripTrims | app.py:58 | The stripped name neither starts nor ends with whitespace. It is a contiguous slice of the cell, and everything outside that slice is whitespace. |
| Results.StripIdempotent | app.py:78 | Stripping an already stripped name changes nothing, so the second strip in the aggregation loop is harmless. |
| Results.ParseInteger | app.py:55-57 | A cell coerces exactly when it is an optionally signed run of decimal digits. A minus sign gives a value of at most 0; no sign or a plus sign gives a value of at least 0. |
| Results.ParseDigit | app.py:55-57 | A single digit coerces to its own value. |
| Results.ParseAppendDigit | app.py:55-57 | One more digit multiplies the value by ten and adds that digit. With ParseDigit, this fixes the value of every unsigned digit string. |
| Results.LeadingZeroValue | app.py:55-57 | A leading zero leaves a digit string's value unchanged. |
| Results.ParseLeadingZero | app.py:55-57 | Leading zeros are ignored: "007" coerces to the same value as "7". |
| Results.ParsePlusSign | app.py:55-57 | A plus sign is ignored: "+5" coerces to the same value as "5". |
| Results.ParseMinusSign | app.py:55-57 | A minus sign negates the value of the digits after it. |
| Results.ParseRender | app.py:55-57 | Every integer written in decimal, with a minus sign when negative, coerces back to itself. |
| Filtering.FilterMapMembers | app.py:55-56 | Coerce-then-drop keeps exactly the values produced for some input element. |
| Filtering.FilterMapCounts | app.py:55-56 | Coerce-then-drop keeps each value exactly as many times as input elements produce it: nothing is merged and nothing is lost. |
| Results.CoerceRow | app.py:54-56 | A row survives coercion exactly when it has a Position cell holding integer text. A surviving row's name is stripped and no longer than its Name cell. |
| Results.ValidRows | app.py:54-56 | No more rows come out than went in. A row is kept exactly when some worksheet row coerces to it, and it appears once for each worksheet row that coerces to it. |
| Sorting.SortBy | app.py:59 | The output is sorted by the key and is a permutation of the input. |
| Results.LoadEventResults | app.py:50-59 | An empty sheet gives no rows. Loading fails exactly when the sheet is non-empty and none of its rows has two cells. Otherwise the rows are sorted by Position and are a permutation of the surviving rows. They hold exactly the rows that coerce, and every name is stripped. |
| Results.ReorderedRows | app.py:58-59 | Any reordering of the surviving rows holds exactly the coercing rows, each with a stripped name. |
| Results.HeaderRowDropped | app.py:55-56 | A row whose Position cell reads "Position" (the header) is dropped. |
| Results.RowKept | app.py:54-58 | A row with integer text in its second cell appears in the loaded result, with its stripped name and coerced position. |
| Leaderboard.Load | app.py:71-75 | An event is skipped exactly when the fetch raised, or when its sheet is non-empty and none of its rows has two cells. An empty sheet loads as no rows. A loaded event's rows are sorted by Position. |
| Leaderboard.RowEntry | app.py:78-86 | One row's award goes to a stripped name, is recorded under the event's sheet name, and is never negative. A position outside places 1 to 16 is worth 0. |
| Leaderboard.EventEntries | app.py:77-86 | A loaded event makes exactly one award per result row. |
| Leaderboard.EntriesOfRows | app.py:77-86 | The award for row `k` goes to the row's stripped name and is worth `calculate_points` of the event type and the row's position. |
| Leaderboard.EntriesAppend | app.py:70-75 | The awards of two consecutive runs of events are the awards of the first run followed by those of the second. |
| Leaderboard.TotalSplits | app.py:85 | A player's total over consecutive runs of awards is the sum of the totals of each run. |
| Leaderboard.BreakdownSplits | app.py:86 | A player's breakdown over consecutive runs of awards lists the first run's awards, then the second run's. |
| Leaderboard.BreakdownByEvent | app.py:70-86 | Adding one more event appends that event's awards, row by row, to each player's breakdown, and adds that event's points to each player's total. |
| Leaderboard.TotalIsBreakdownSum | app.py:85-86 | A player's total is the sum of the points in their breakdown. |
| Leaderboard.NamedIffAwarded | app.py:85-86 | A name is in the dictionaries exactly when its breakdown is non-empty. |
| Leaderboard.UnnamedScoresZero | app.py:67-68 | A player with no award has total 0 and an empty breakdown, which are the defaultdict defaults. |
| Leaderboard.FailedEventAwardsNothing | app.py:71-75 | An event whose load raised makes no award. |
| Leaderboard.FailedEventContributesNothing | app.py:71-75 | Wherever a failed event stands in the season, the awards are exactly those of the other events, so every later event is still scored. |
| Leaderboard.FailedEventLeavesTotals | app.py:71-75 | A failed event changes no player's total or breakdown. |
| Leaderboard.NamesStep | app.py:84-86 | One more award adds its name to the set of awarded names and nothing else. |
| Leaderboard.TallyPointsStep | app.py:85 | `player_points[name] += pts` on the defaultdict keeps every total equal to the sum of that player's awards. |
| Leaderboard.TallyBreakdownStep | app.py:86 | Appending `(sheet, pts)` to the defaultdict keeps every breakdown equal to that player's awards in order. |
| Leaderboard.TallyOrderStep | app.py:84-86 | A name enters the dictionaries' insertion order on its first award only, so each name is listed once. |
| Leaderboard.TallyStep | app.py:84-86 | Recording one award keeps both dictionaries and the insertion order in step with the awards made so far. |
| Leaderboard.Record | app.py:84-86 | The in-place dictionary update for one row leaves a tally of the awards so far plus this one. |
| Leaderboard.ScoreEvent | app.py:77-86 | The row loop of one event extends the tally by that event's awards, in row order. |
| Leaderboard.ScoreNextEvent | app.py:70-86 | One pass of the event loop turns the tally of the events before `i` into the tally of the events up to `i`. A failed load returns both dictionaries and the insertion order unchanged. |
| Leaderboard.TallyEvents | app.py:66-86 | After the event loop, every total and breakdown is exactly that of every award of every loaded event. The insertion order lists each awarded name once and no other name. |
| Leaderboard.StandingsOf | app.py:91-94 | One row per name of the insertion order, in that order, each under its own name. |
| Leaderboard.TalliedRows | app.py:91-94 | The rows built from the finished dictionaries are one per awarded player, each with that player's total and breakdown, and no two are equal. |
| Leaderboard.SortedRowsAreLeaderboard | app.py:91-95 | Sorting those rows by Points, highest first, gives a leaderboard as `IsLeaderboard` describes below. |
| Leaderboard.BuildLeaderboard | app.py:88-95 | See the definition of `IsLeaderboard` below. |
| Leaderboard.AggregatePoints | app.py:66-95 | `IsLeaderboard` holds of the result, for every award of every event that loaded. |
| Leaderboard.Ranked | app.py:130 | Positions run from 1 to n down the board. Each row keeps its name and points. |
| Leaderboard.RankedPositions | app.py:130 | On a board sorted by Points, a better (smaller) position never has fewer points. |

`IsLeaderboard`, as used in the BuildLeaderboard and AggregatePoints rows, holds when the board meets all of these:

- it is empty exactly when no row was scored;
- Points never increase down the board;
- no name appears twice;
- it has a row for every awarded name and for no other name;
- each row's Points is the player's total and its Events is the player's breakdown;
- each row's Points equals the sum of its Events.

## Left out

- The Streamlit page is left out: page configuration, markdown, tabs, metrics, styling and the event-results tab. It is presentation only.
- The Google Sheets client, credentials and the `get_all_values` call are left out. They are network I/O. The model takes each worksheet's cells, or a failed fetch, as input.
- The `st.cache_resource` and `st.cache_data` caching is left out. It is time-based, and the results do not depend on it.
- The `st.warning` shown for a skipped event is left out. It is a display side effect; the model skips the event exactly as the loop does.
- `pd.isna(pos) or not isinstance(pos, int)` in the row loop is left out. After `astype(int)` every position is an integer, so the guard never skips a row.
- The event date list zipped with `EVENT_TABS` is left out. It is static display data.
- Results.ParseInteger: only models `pd.to_numeric` on optionally signed decimal digit strings. Decimals ("3.0"), exponents, surrounding spaces and other numeric forms coerce to nothing in the model, so only their row is dropped. pandas accepts some of these as floats, and `astype(int)` then truncates them.
- Results.ParseInteger: "inf", "-inf", "+inf" and "infinity" coerce to an infinite float in pandas and survive `dropna`. `astype(int)` then raises, so the whole event is skipped. The model drops only that row.
- Results.ParseInteger: integers are unbounded in the model. A digit string outside the 64-bit range does not survive `astype(int)` unchanged in pandas, but the model keeps its exact value.
- Results.Strip: removes ASCII whitespace only (space, tab, line feed, carriage return, vertical tab, form feed). Python's `str.strip` also removes other Unicode whitespace.
- Results.LoadEventResults: when a non-empty sheet has no row with two cells, building the two-column frame raises. The model returns `None` in that case, which the aggregation treats as a failed load. Other pandas construction errors are not modelled.
- Sorting.SortBy: pandas' default quicksort is not stable, so the model promises only "sorted by the key, and a permutation". The order of equal Positions or equal Points is not fixed, and the insertion sort used here is one admissible order.
- Points.PointsDistribution: builds the table as a `Place` list and a list of columns. It does not model a pandas DataFrame, and it requires a non-empty table because `max` of nothing raises.
