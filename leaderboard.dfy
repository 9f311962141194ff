/** Season aggregation (`aggregate_points`) and rank numbering: points per
    result row are summed per player over every event that loaded, each award
    is recorded in that player's breakdown, and the standings are sorted by
    Points, highest first. */
module Leaderboard {
  import opened Wrappers
  import opened Sorting
  import opened Points
  import opened Results

  /** One award in a player's breakdown: the event's worksheet and the points won there. */
  datatype Award = Award(event: string, points: int)

  /** One scored result row, attributed to the (stripped) player name. */
  datatype Entry = Entry(name: string, award: Award)

  /** A leaderboard row: Name, Points and Events. */
  datatype Standing = Standing(name: string, points: int, events: seq<Award>)

  /** A displayed leaderboard row: Position, Name, Points. */
  datatype RankedStanding = RankedStanding(position: int, name: string, points: int)

  /** What the worksheet fetch returned: the cell grid, or None when it raised. */
  type Fetched = Option<seq<seq<string>>>

  // ---------------------------------------------------------------- specification

  /** The result rows of one event, or None when the fetch or the frame construction raised. */
  function Load(fetched: Fetched): (r: Option<seq<ResultRow>>)
    ensures r.None? <==> fetched.None? || TooNarrow(fetched.value)
    ensures fetched == Some([]) ==> r == Some([])
    ensures r.Some? ==> SortedBy(r.value, PositionKey)
  {
    match fetched
    case None => None
    case Some(data) => LoadEventResults(data)
  }

  /** What the loop body records for one row: the stripped name and the points of its position. */
  function RowEntry(tab: EventTab, row: ResultRow): (e: Entry)
    ensures IsStripped(e.name)
    ensures e.award.event == tab.sheet
    ensures e.award.points >= 0
    ensures row.position < 1 || row.position > ScoringPlaces ==> e.award.points == 0
  {
    Entry(Strip(row.name), Award(tab.sheet, CalculatePoints(tab.eventType, row.position)))
  }

  /** The awards of one event's rows, in row order. */
  function EventEntries(tab: EventTab, rows: seq<ResultRow>): (es: seq<Entry>)
    ensures |es| == |rows|
  {
    if rows == [] then [] else EventEntries(tab, rows[..|rows| - 1]) + [RowEntry(tab, rows[|rows| - 1])]
  }

  /** What `load_event_results` gave for each event, None where it raised. */
  function Loads(fetched: seq<Fetched>): (loads: seq<Option<seq<ResultRow>>>)
    ensures |loads| == |fetched|
  {
    seq(|fetched|, k requires 0 <= k < |fetched| => Load(fetched[k]))
  }

  /** The awards of one event; an event that did not load awards nothing. */
  function Awarded(tab: EventTab, loaded: Option<seq<ResultRow>>): seq<Entry> {
    match loaded
    case None => []
    case Some(rows) => EventEntries(tab, rows)
  }

  /** Every award of the season, event by event in configuration order, then row by row. */
  function Entries(tabs: seq<EventTab>, loads: seq<Option<seq<ResultRow>>>): seq<Entry>
    requires |tabs| == |loads|
  {
    if tabs == [] then []
    else
      var n := |tabs| - 1;
      Entries(tabs[..n], loads[..n]) + Awarded(tabs[n], loads[n])
  }

  /** The names that have at least one award. */
  function Names(es: seq<Entry>): set<string> {
    if es == [] then {} else Names(es[..|es| - 1]) + {es[|es| - 1].name}
  }

  /** `name`'s total points. */
  function Total(es: seq<Entry>, name: string): int {
    if es == [] then 0
    else
      var e := es[|es| - 1];
      Total(es[..|es| - 1], name) + (if e.name == name then e.award.points else 0)
  }

  /** `name`'s awards, in the order they were made. */
  function Breakdown(es: seq<Entry>, name: string): seq<Award> {
    if es == [] then []
    else
      var e := es[|es| - 1];
      Breakdown(es[..|es| - 1], name) + (if e.name == name then [e.award] else [])
  }

  /** Sum of the points of a list of awards. */
  function SumAwards(awards: seq<Award>): int {
    if awards == [] then 0 else SumAwards(awards[..|awards| - 1]) + awards[|awards| - 1].points
  }

  /** The Name column of a leaderboard, top to bottom. */
  function BoardNames(board: seq<Standing>): (r: seq<string>)
    ensures |r| == |board|
  {
    seq(|board|, k requires 0 <= k < |board| => board[k].name)
  }

  // ---------------------------------------------------------------- properties

  /** A player's total is the sum of their breakdown. */
  lemma {:induction false} TotalIsBreakdownSum(es: seq<Entry>, name: string)
    ensures Total(es, name) == SumAwards(Breakdown(es, name))
  {
    if es != [] {
      var init := es[..|es| - 1];
      var e := es[|es| - 1];
      TotalIsBreakdownSum(init, name);
      var b := Breakdown(es, name);
      if e.name == name {
        assert b == Breakdown(init, name) + [e.award];
        assert b[..|b| - 1] == Breakdown(init, name);
      } else {
        assert b == Breakdown(init, name);
      }
    }
  }

  /** A player has a name on the leaderboard exactly when they have at least one award. */
  lemma {:induction false} NamedIffAwarded(es: seq<Entry>, name: string)
    ensures name in Names(es) <==> Breakdown(es, name) != []
  {
    if es != [] {
      NamedIffAwarded(es[..|es| - 1], name);
    }
  }

  /** A player with no award scores 0. */
  lemma {:induction false} UnnamedScoresZero(es: seq<Entry>, name: string)
    requires name !in Names(es)
    ensures Total(es, name) == 0 && Breakdown(es, name) == []
  {
    if es != [] {
      UnnamedScoresZero(es[..|es| - 1], name);
    }
  }

  /** Every award goes to a player with a row in some loaded event and is worth the points of that row's position. */
  lemma {:induction false} EntriesOfRows(tab: EventTab, rows: seq<ResultRow>, k: nat)
    requires k < |rows|
    ensures EventEntries(tab, rows)[k]
              == Entry(Strip(rows[k].name), Award(tab.sheet, CalculatePoints(tab.eventType, rows[k].position)))
  {
    var n := |rows| - 1;
    var init := EventEntries(tab, rows[..n]);
    EventEntriesStep(tab, rows, n);
    assert rows[..n + 1] == rows;
    if k < n {
      EntriesOfRows(tab, rows[..n], k);
      assert rows[..n][k] == rows[k];
      assert EventEntries(tab, rows)[k] == init[k];
    }
  }

  /** The awards of consecutive runs of events are the awards of each run, concatenated. */
  lemma {:induction false} EntriesAppend(t1: seq<EventTab>, f1: seq<Option<seq<ResultRow>>>, t2: seq<EventTab>, f2: seq<Option<seq<ResultRow>>>)
    requires |t1| == |f1| && |t2| == |f2|
    ensures Entries(t1 + t2, f1 + f2) == Entries(t1, f1) + Entries(t2, f2)
    decreases |t2|
  {
    if t2 != [] {
      var n := |t2| - 1;
      var t, f := t1 + t2, f1 + f2;
      assert t[..|t| - 1] == t1 + t2[..n] && t[|t| - 1] == t2[n];
      assert f[..|f| - 1] == f1 + f2[..n] && f[|f| - 1] == f2[n];
      var last := Awarded(t2[n], f2[n]);
      assert Entries(t, f) == Entries(t1 + t2[..n], f1 + f2[..n]) + last;
      EntriesAppend(t1, f1, t2[..n], f2[..n]);
      assert Entries(t2, f2) == Entries(t2[..n], f2[..n]) + last;
    } else {
      assert t1 + t2 == t1 && f1 + f2 == f1;
    }
  }

  /** Totals add up over consecutive runs of awards. */
  lemma {:induction false} TotalSplits(es1: seq<Entry>, es2: seq<Entry>, name: string)
    ensures Total(es1 + es2, name) == Total(es1, name) + Total(es2, name)
    decreases |es2|
  {
    if es2 == [] {
      assert es1 + es2 == es1;
    } else {
      var es := es1 + es2;
      var n := |es2| - 1;
      assert es[..|es| - 1] == es1 + es2[..n];
      TotalSplits(es1, es2[..n], name);
    }
  }

  /** Breakdowns concatenate over consecutive runs of awards: the earlier awards come first. */
  lemma {:induction false} BreakdownSplits(es1: seq<Entry>, es2: seq<Entry>, name: string)
    ensures Breakdown(es1 + es2, name) == Breakdown(es1, name) + Breakdown(es2, name)
    decreases |es2|
  {
    if es2 == [] {
      assert es1 + es2 == es1;
    } else {
      var es := es1 + es2;
      var n := |es2| - 1;
      assert es[..|es| - 1] == es1 + es2[..n];
      BreakdownSplits(es1, es2[..n], name);
    }
  }

  /** A player's breakdown follows the configured event order: the awards of
      the events before one event, then that event's own, row by row. */
  lemma BreakdownByEvent(tabs: seq<EventTab>, loads: seq<Option<seq<ResultRow>>>, tab: EventTab,
                         loaded: Option<seq<ResultRow>>, name: string)
    requires |tabs| == |loads|
    ensures Breakdown(Entries(tabs + [tab], loads + [loaded]), name)
              == Breakdown(Entries(tabs, loads), name) + Breakdown(Awarded(tab, loaded), name)
    ensures Total(Entries(tabs + [tab], loads + [loaded]), name)
              == Total(Entries(tabs, loads), name) + Total(Awarded(tab, loaded), name)
  {
    EntriesAppend(tabs, loads, [tab], [loaded]);
    var single: seq<Option<seq<ResultRow>>> := [loaded];
    assert [tab][..0] == [] && single[..0] == [];
    assert Entries([tab], single) == Awarded(tab, loaded);
    TotalSplits(Entries(tabs, loads), Awarded(tab, loaded), name);
    BreakdownSplits(Entries(tabs, loads), Awarded(tab, loaded), name);
  }

  /** A single event whose load raised awards nothing. */
  lemma FailedEventAwardsNothing(tab: EventTab)
    ensures Entries([tab], [None]) == []
  {
    var loads: seq<Option<seq<ResultRow>>> := [None];
    assert [tab][..0] == [] && loads[..0] == [];
  }

  /** An event whose load fails contributes nothing: wherever it stands among
      the configured events, the season's awards are exactly those of the other
      events, so every later event is still scored. */
  lemma FailedEventContributesNothing(before: seq<EventTab>, tab: EventTab, after: seq<EventTab>,
                                      loadsBefore: seq<Option<seq<ResultRow>>>, loadsAfter: seq<Option<seq<ResultRow>>>)
    requires |before| == |loadsBefore| && |after| == |loadsAfter|
    ensures Entries(before + [tab] + after, loadsBefore + [None] + loadsAfter) == Entries(before + after, loadsBefore + loadsAfter)
  {
    EntriesAppend(before + [tab], loadsBefore + [None], after, loadsAfter);
    EntriesAppend(before, loadsBefore, [tab], [None]);
    FailedEventAwardsNothing(tab);
    EntriesAppend(before, loadsBefore, after, loadsAfter);
  }

  /** The counterpart for totals: a failed event changes no player's total or breakdown. */
  lemma FailedEventLeavesTotals(before: seq<EventTab>, tab: EventTab, after: seq<EventTab>,
                                loadsBefore: seq<Option<seq<ResultRow>>>, loadsAfter: seq<Option<seq<ResultRow>>>, name: string)
    requires |before| == |loadsBefore| && |after| == |loadsAfter|
    ensures Total(Entries(before + [tab] + after, loadsBefore + [None] + loadsAfter), name)
              == Total(Entries(before + after, loadsBefore + loadsAfter), name)
    ensures Breakdown(Entries(before + [tab] + after, loadsBefore + [None] + loadsAfter), name)
              == Breakdown(Entries(before + after, loadsBefore + loadsAfter), name)
  {
    FailedEventContributesNothing(before, tab, after, loadsBefore, loadsAfter);
  }

  // ---------------------------------------------------------------- aggregation

  /** The running totals agree with the awards `es` made so far: one entry per
      awarded name in each dictionary, and `order` lists those names once each. */
  ghost predicate Tallied(points: map<string, int>, breakdown: map<string, seq<Award>>, order: seq<string>, es: seq<Entry>) {
    && points.Keys == Names(es)
    && breakdown.Keys == Names(es)
    && (forall n :: n in points ==> points[n] == Total(es, n))
    && (forall n :: n in breakdown ==> breakdown[n] == Breakdown(es, n))
    && (forall n :: n in order <==> n in Names(es))
    && Distinct(order)
  }

  /** Adding one award the way the defaultdicts do (a missing name starts at 0
      and []) keeps the tally in step with the awards. */
  lemma TallyStep(points: map<string, int>, breakdown: map<string, seq<Award>>, order: seq<string>, es: seq<Entry>, e: Entry,
                  points': map<string, int>, breakdown': map<string, seq<Award>>, order': seq<string>)
    requires Tallied(points, breakdown, order, es)
    requires order' == if e.name in points then order else order + [e.name]
    requires points' == points[e.name := (if e.name in points then points[e.name] else 0) + e.award.points]
    requires breakdown' == breakdown[e.name := (if e.name in breakdown then breakdown[e.name] else []) + [e.award]]
    ensures Tallied(points', breakdown', order', es + [e])
  {
    TallyPointsStep(points, es, e, points');
    TallyBreakdownStep(breakdown, es, e, breakdown');
    TallyOrderStep(points, order, es, e, order');
  }

  /** The players of one more award: the earlier ones and the award's own. */
  lemma NamesStep(es: seq<Entry>, e: Entry)
    ensures Names(es + [e]) == Names(es) + {e.name}
  {
    var es' := es + [e];
    assert es'[..|es'| - 1] == es;
  }

  /** `player_points[name] += pts` keeps every total right. */
  lemma TallyPointsStep(points: map<string, int>, es: seq<Entry>, e: Entry, points': map<string, int>)
    requires points.Keys == Names(es)
    requires forall n :: n in points ==> points[n] == Total(es, n)
    requires points' == points[e.name := (if e.name in points then points[e.name] else 0) + e.award.points]
    ensures points'.Keys == Names(es + [e])
    ensures forall n :: n in points' ==> points'[n] == Total(es + [e], n)
  {
    NamesStep(es, e);
    var es' := es + [e];
    assert es'[..|es'| - 1] == es;
    if e.name !in points {
      UnnamedScoresZero(es, e.name);
    }
  }

  /** `event_breakdown[name].append(...)` keeps every breakdown right. */
  lemma TallyBreakdownStep(breakdown: map<string, seq<Award>>, es: seq<Entry>, e: Entry, breakdown': map<string, seq<Award>>)
    requires breakdown.Keys == Names(es)
    requires forall n :: n in breakdown ==> breakdown[n] == Breakdown(es, n)
    requires breakdown' == breakdown[e.name := (if e.name in breakdown then breakdown[e.name] else []) + [e.award]]
    ensures breakdown'.Keys == Names(es + [e])
    ensures forall n :: n in breakdown' ==> breakdown'[n] == Breakdown(es + [e], n)
  {
    NamesStep(es, e);
    var es' := es + [e];
    assert es'[..|es'| - 1] == es;
    if e.name !in breakdown {
      UnnamedScoresZero(es, e.name);
    }
  }

  /** A name enters the insertion order the first time it is awarded, and only then. */
  lemma TallyOrderStep(points: map<string, int>, order: seq<string>, es: seq<Entry>, e: Entry, order': seq<string>)
    requires points.Keys == Names(es)
    requires (forall n :: n in order <==> n in Names(es)) && Distinct(order)
    requires order' == if e.name in points then order else order + [e.name]
    ensures forall n :: n in order' <==> n in Names(es + [e])
    ensures Distinct(order')
  {
    NamesStep(es, e);
  }

  /** `player_points[name] += pts` and `event_breakdown[name].append((sheet_name, pts))`
      on the defaultdicts, plus the dictionaries' insertion order. */
  method Record(points: map<string, int>, breakdown: map<string, seq<Award>>, order: seq<string>, ghost es: seq<Entry>, e: Entry)
    returns (points': map<string, int>, breakdown': map<string, seq<Award>>, order': seq<string>)
    requires Tallied(points, breakdown, order, es)
    ensures Tallied(points', breakdown', order', es + [e])
  {
    order' := if e.name in points then order else order + [e.name];
    points' := points[e.name := (if e.name in points then points[e.name] else 0) + e.award.points];
    breakdown' := breakdown[e.name := (if e.name in breakdown then breakdown[e.name] else []) + [e.award]];
    TallyStep(points, breakdown, order, es, e, points', breakdown', order');
  }

  /** The inner loop over one event's rows (`for _, row in df.iterrows()`):
      records every row's award in row order. */
  method ScoreEvent(tab: EventTab, rows: seq<ResultRow>,
                    points: map<string, int>, breakdown: map<string, seq<Award>>, order: seq<string>, ghost done: seq<Entry>)
    returns (points': map<string, int>, breakdown': map<string, seq<Award>>, order': seq<string>)
    requires Tallied(points, breakdown, order, done)
    ensures Tallied(points', breakdown', order', done + EventEntries(tab, rows))
  {
    points', breakdown', order' := points, breakdown, order;
    ghost var es := done;
    for j := 0 to |rows|
      invariant es == done + EventEntries(tab, rows[..j])
      invariant Tallied(points', breakdown', order', es)
    {
      var e := RowEntry(tab, rows[j]);
      EventEntriesExtend(done, tab, rows, j, es);
      points', breakdown', order' := Record(points', breakdown', order', es, e);
      es := es + [e];
    }
    assert rows[..|rows|] == rows;
  }

  /** Sort key for the descending sort on Points. */
  function PointsKey(s: Standing): int {
    -s.points
  }

  /** The awards of the first i + 1 events extend those of the first i by event i's. */
  lemma EntriesStep(tabs: seq<EventTab>, loads: seq<Option<seq<ResultRow>>>, i: nat)
    requires |tabs| == |loads| && i < |tabs|
    ensures Entries(tabs[..i + 1], loads[..i + 1]) == Entries(tabs[..i], loads[..i]) + Awarded(tabs[i], loads[i])
  {
    assert tabs[..i + 1][..i] == tabs[..i] && loads[..i + 1][..i] == loads[..i];
  }

  /** The awards of the first j + 1 rows extend those of the first j by row j's. */
  lemma EventEntriesStep(tab: EventTab, rows: seq<ResultRow>, j: nat)
    requires j < |rows|
    ensures EventEntries(tab, rows[..j + 1]) == EventEntries(tab, rows[..j]) + [RowEntry(tab, rows[j])]
  {
    assert rows[..j + 1][..j] == rows[..j];
  }

  /** The loop invariant of the row loop, carried one row further. */
  lemma EventEntriesExtend(done: seq<Entry>, tab: EventTab, rows: seq<ResultRow>, j: nat, es: seq<Entry>)
    requires j < |rows| && es == done + EventEntries(tab, rows[..j])
    ensures es + [RowEntry(tab, rows[j])] == done + EventEntries(tab, rows[..j + 1])
  {
    EventEntriesStep(tab, rows, j);
  }

  /** Reordering keeps exactly the same rows. */
  lemma PermutedRows(rows: seq<Standing>, board: seq<Standing>)
    requires multiset(rows) == multiset(board)
    ensures |board| == |rows|
    ensures forall k :: 0 <= k < |board| ==> board[k] in rows
    ensures forall k :: 0 <= k < |rows| ==> rows[k] in board
  {
    assert |board| == |multiset(board)|;
    forall k | 0 <= k < |board|
      ensures board[k] in rows
    {
      assert board[k] in multiset(board);
    }
    forall k | 0 <= k < |rows|
      ensures rows[k] in board
    {
      assert rows[k] in multiset(rows);
    }
  }

  /** The row of a tallied player: name, total and breakdown. */
  ghost predicate RowOfPlayer(row: Standing, es: seq<Entry>) {
    && row.name in Names(es)
    && row.points == Total(es, row.name)
    && row.events == Breakdown(es, row.name)
  }

  /** One row per awarded player, each with that player's total and breakdown. */
  ghost predicate RowsOfPlayers(rows: seq<Standing>, es: seq<Entry>) {
    && (forall k :: 0 <= k < |rows| ==> RowOfPlayer(rows[k], es))
    && (forall n :: n in Names(es) ==> exists k :: 0 <= k < |rows| && rows[k].name == n)
  }

  /** One leaderboard row per name, in dictionary order (the list comprehension over `player_points.items()`). */
  function StandingsOf(points: map<string, int>, breakdown: map<string, seq<Award>>, order: seq<string>): (r: seq<Standing>)
    requires forall n :: n in order ==> n in points && n in breakdown
    ensures |r| == |order|
    ensures forall k :: 0 <= k < |r| ==> r[k].name == order[k]
  {
    seq(|order|, k requires 0 <= k < |order| => Standing(order[k], points[order[k]], breakdown[order[k]]))
  }

  /** The rows read off a finished tally: one per awarded player, no two alike. */
  lemma TalliedRows(points: map<string, int>, breakdown: map<string, seq<Award>>, order: seq<string>, es: seq<Entry>)
    requires Tallied(points, breakdown, order, es)
    ensures RowsOfPlayers(StandingsOf(points, breakdown, order), es)
    ensures Distinct(StandingsOf(points, breakdown, order))
  {
    var rows := StandingsOf(points, breakdown, order);
    forall i, j | 0 <= i < j < |rows|
      ensures rows[i] != rows[j]
    {
      assert rows[i].name == order[i] && rows[j].name == order[j];
    }
    forall n | n in Names(es)
      ensures exists k :: 0 <= k < |rows| && rows[k].name == n
    {
      var k :| 0 <= k < |order| && order[k] == n;
      assert rows[k].name == n;
    }
  }

  /** Sorting the rows by Points, highest first, gives a leaderboard. */
  lemma SortedRowsAreLeaderboard(rows: seq<Standing>, board: seq<Standing>, es: seq<Entry>)
    requires multiset(rows) == multiset(board)
    requires SortedBy(board, PointsKey)
    requires RowsOfPlayers(rows, es) && Distinct(rows) && rows != []
    ensures IsLeaderboard(board, es)
  {
    PermutedRows(rows, board);
    PermutationKeepsDistinct(rows, board);
    forall k | 0 <= k < |board|
      ensures RowOfPlayer(board[k], es)
      ensures board[k].points == SumAwards(board[k].events)
    {
      TotalIsBreakdownSum(es, board[k].name);
    }
    forall i, j | 0 <= i < j < |board|
      ensures BoardNames(board)[i] != BoardNames(board)[j]
    {
      assert RowOfPlayer(board[i], es) && RowOfPlayer(board[j], es);
    }
    forall n | n in Names(es)
      ensures exists k :: 0 <= k < |board| && board[k].name == n
    {
      var k :| 0 <= k < |rows| && rows[k].name == n;
      assert rows[k] in board;
    }
    assert es != [] by {
      assert RowOfPlayer(rows[0], es);
    }
  }

  /** What `aggregate_points` promises of its result for the season's awards `es`:
      empty exactly when nothing was scored, Points never increasing down the
      board, one row per awarded name and no other, and each row holding that
      player's total and breakdown, the total being the sum of the breakdown. */
  ghost predicate IsLeaderboard(board: seq<Standing>, es: seq<Entry>) {
    && (board == [] <==> es == [])
    && SortedBy(board, PointsKey)
    && Distinct(BoardNames(board))
    && (forall n :: n in Names(es) <==> exists k :: 0 <= k < |board| && board[k].name == n)
    && (forall k :: 0 <= k < |board| ==>
          && board[k].points == Total(es, board[k].name)
          && board[k].events == Breakdown(es, board[k].name)
          && board[k].points == SumAwards(board[k].events))
  }

  /** The loop over `EVENT_TABS`: loads each event, skips it when the load
      raises, and otherwise records every row's award. */
  method TallyEvents(tabs: seq<EventTab>, fetched: seq<Fetched>)
    returns (points: map<string, int>, breakdown: map<string, seq<Award>>, order: seq<string>)
    requires |tabs| == |fetched|
    ensures Tallied(points, breakdown, order, Entries(tabs, Loads(fetched)))
  {
    points, breakdown, order := map[], map[], [];
    for i := 0 to |tabs|
      invariant Tallied(points, breakdown, order, Entries(tabs[..i], Loads(fetched)[..i]))
    {
      points, breakdown, order := ScoreNextEvent(tabs, fetched, i, points, breakdown, order);
    }
    assert tabs[..|tabs|] == tabs && Loads(fetched)[..|tabs|] == Loads(fetched);
  }

  /** One pass of the event loop: load worksheet `i`, skip the event when
      loading raised, otherwise score its rows. The tally of the events before
      `i` becomes the tally of the events up to and including `i`. */
  method ScoreNextEvent(tabs: seq<EventTab>, fetched: seq<Fetched>, i: nat,
                        points: map<string, int>, breakdown: map<string, seq<Award>>, order: seq<string>)
    returns (points': map<string, int>, breakdown': map<string, seq<Award>>, order': seq<string>)
    requires |tabs| == |fetched| && i < |tabs|
    requires Tallied(points, breakdown, order, Entries(tabs[..i], Loads(fetched)[..i]))
    ensures Tallied(points', breakdown', order', Entries(tabs[..i + 1], Loads(fetched)[..i + 1]))
    ensures Load(fetched[i]).None? ==> points' == points && breakdown' == breakdown && order' == order
  {
    ghost var loads := Loads(fetched);
    ghost var done := Entries(tabs[..i], loads[..i]);
    EntriesStep(tabs, loads, i);
    var loaded := Load(fetched[i]);
    assert loaded == loads[i];
    if loaded.None? {
      assert done + Awarded(tabs[i], loaded) == done;
      return points, breakdown, order;
    }
    points', breakdown', order' := ScoreEvent(tabs[i], loaded.value, points, breakdown, order, done);
  }

  /** Builds the leaderboard from the finished tally: empty when no player was
      scored, otherwise one row per player sorted by Points, highest first. */
  method BuildLeaderboard(points: map<string, int>, breakdown: map<string, seq<Award>>, order: seq<string>, ghost es: seq<Entry>)
    returns (board: seq<Standing>)
    requires Tallied(points, breakdown, order, es)
    ensures IsLeaderboard(board, es)
  {
    if |order| == 0 {
      return [];
    }
    var rows := StandingsOf(points, breakdown, order);
    TalliedRows(points, breakdown, order, es);
    board := SortBy(rows, PointsKey);
    SortedRowsAreLeaderboard(rows, board, es);
  }

  /** `aggregate_points`: scores every configured event whose worksheet loaded
      and returns the standings sorted by Points, highest first. */
  method AggregatePoints(tabs: seq<EventTab>, fetched: seq<Fetched>) returns (board: seq<Standing>)
    requires |tabs| == |fetched|
    ensures IsLeaderboard(board, Entries(tabs, Loads(fetched)))
  {
    var points, breakdown, order := TallyEvents(tabs, fetched);
    board := BuildLeaderboard(points, breakdown, order, Entries(tabs, Loads(fetched)));
  }

  /** Rank numbering: row k of the sorted leaderboard is shown at Position k + 1. */
  function Ranked(board: seq<Standing>): (r: seq<RankedStanding>)
    ensures |r| == |board|
    ensures forall k :: 0 <= k < |r| ==> r[k].position == k + 1 && r[k].name == board[k].name && r[k].points == board[k].points
  {
    seq(|board|, k requires 0 <= k < |board| => RankedStanding(k + 1, board[k].name, board[k].points))
  }

  /** On a sorted leaderboard a better (smaller) position never has fewer points. */
  lemma RankedPositions(board: seq<Standing>)
    requires SortedBy(board, PointsKey)
    ensures forall k, l :: 0 <= k < |board| && 0 <= l < |board| && Ranked(board)[k].position < Ranked(board)[l].position
              ==> Ranked(board)[k].points >= Ranked(board)[l].points
  {
  }
}
