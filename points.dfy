/** The tour configuration (`EVENT_TABS`, `POINTS_TABLE`), the finishing
    position to points lookup (`calculate_points`) and the padded points
    distribution table shown on the rules page. */
module Points {
  import opened Sorting

  /** One payout schedule: the points for 1st, 2nd, ... place in an event of
      this type. A column of the points distribution table has the same shape. */
  datatype Tier = Tier(eventType: string, points: seq<int>)

  /** A scored event: the worksheet holding its results and the event type that selects its schedule. */
  datatype EventTab = EventTab(sheet: string, eventType: string)

  /** The events of the season, in the order they are processed. */
  const EventTabs: seq<EventTab> := [
    EventTab("May Stableford", "Standard Event"),
    EventTab("May Medal", "Elevated Event"),
    EventTab("Rover Medal", "Major"),
    EventTab("Stableford Handicap Trophy", "Major"),
    EventTab("Club Championships (r1)", "Playoff Event"),
    EventTab("Club Championships (r2)", "Playoff Event"),
    EventTab("July Stableford", "Standard Event"),
    EventTab("August Stableford (Red Tee)", "Standard Event"),
    EventTab("August Medal", "Elevated Event"),
    EventTab("August Stableford", "Standard Event"),
    EventTab("Mid Sussex Masters", "Major"),
    EventTab("September Stableford", "Standard Event")
  ]

  /** The payout schedule of each event type, in declaration order. */
  const PointsTable: seq<Tier> := [
    Tier("Standard Event", StandardPoints),
    Tier("Elevated Event", ElevatedPoints),
    Tier("Major", MajorPoints),
    Tier("Playoff Event", PlayoffPoints)
  ]

  const StandardPoints: seq<int> := [300, 180, 114, 81, 66, 60, 54, 51, 48, 45, 42, 39, 36, 34, 33, 32]
  const ElevatedPoints: seq<int> := [550, 330, 209, 149, 121, 110, 99, 94, 88, 83, 77, 72, 66, 63, 61, 58]
  const MajorPoints: seq<int> := [750, 450, 285, 203, 165, 150, 135, 128, 120, 113, 105, 98, 90, 86, 83, 80]
  const PlayoffPoints: seq<int> := [1200, 720, 456, 324, 264, 240, 216, 204, 192, 180, 168, 156, 144, 137, 132, 127]

  /** Number of places that score in every schedule. */
  const ScoringPlaces := 16

  /** Each place scores no more than the place before it. */
  predicate NonIncreasing(s: seq<int>) {
    forall i :: 0 < i < |s| ==> s[i - 1] >= s[i]
  }

  /** Every schedule has `ScoringPlaces` non-negative, non-increasing entries. */
  predicate WellFormedSchedule(s: seq<int>) {
    |s| == ScoringPlaces && NonIncreasing(s) && forall i :: 0 <= i < |s| ==> s[i] >= 0
  }

  /** The event types of `table`, in table order. */
  function EventTypes(table: seq<Tier>): (r: seq<string>)
    ensures |r| == |table|
  {
    seq(|table|, k requires 0 <= k < |table| => table[k].eventType)
  }

  /** `eventType` has an entry in `table`. */
  predicate Listed(table: seq<Tier>, eventType: string) {
    exists k :: 0 <= k < |table| && table[k].eventType == eventType
  }

  /** The schedule registered for `eventType`, or [] when there is none (`POINTS_TABLE.get(event_type, [])`). */
  function Schedule(table: seq<Tier>, eventType: string): (s: seq<int>)
    ensures !Listed(table, eventType) ==> s == []
    ensures Listed(table, eventType) ==> exists k :: 0 <= k < |table| && table[k].eventType == eventType && table[k].points == s
  {
    if |table| == 0 then []
    else if table[0].eventType == eventType then table[0].points
    else
      var s := Schedule(table[1..], eventType);
      assert Listed(table, eventType) ==> Listed(table[1..], eventType) by {
        if Listed(table, eventType) {
          var k :| 0 <= k < |table| && table[k].eventType == eventType;
          assert table[1..][k - 1].eventType == eventType;
        }
      }
      assert Listed(table[1..], eventType) ==> exists k :: 0 <= k < |table| && table[k].eventType == eventType && table[k].points == s by {
        if Listed(table[1..], eventType) {
          var k :| 0 <= k < |table[1..]| && table[1..][k].eventType == eventType && table[1..][k].points == s;
          assert table[k + 1] == table[1..][k];
        }
      }
      s
  }

  /** With distinct labels, the lookup finds exactly the schedule declared under a eventType. */
  lemma {:induction false} ScheduleOfListed(table: seq<Tier>, k: nat)
    requires Distinct(EventTypes(table))
    requires k < |table|
    ensures Schedule(table, table[k].eventType) == table[k].points
  {
    if k > 0 {
      assert EventTypes(table)[0] != EventTypes(table)[k];
      assert EventTypes(table[1..]) == EventTypes(table)[1..];
      assert table[1..][k - 1] == table[k];
      ScheduleOfListed(table[1..], k - 1);
    }
  }

  /** `1 <= i <= 15`, spelled out so that a proof can take the values one at a time. */
  predicate InOneToFifteen(i: int) {
    i == 1 || i == 2 || i == 3 || i == 4 || i == 5 || i == 6 || i == 7 || i == 8
    || i == 9 || i == 10 || i == 11 || i == 12 || i == 13 || i == 14 || i == 15
  }

  /** A 16-entry schedule whose adjacent entries step down and whose last entry is non-negative is well formed. */
  lemma SixteenPlaceSchedule(s: seq<int>)
    requires |s| == 16
    requires s[0] >= s[1] >= s[2] >= s[3] >= s[4] >= s[5] >= s[6] >= s[7] >= s[8]
    requires s[8] >= s[9] >= s[10] >= s[11] >= s[12] >= s[13] >= s[14] >= s[15] >= 0
    ensures WellFormedSchedule(s)
  {
    forall i | 0 < i < |s|
      ensures s[i - 1] >= s[i]
    {
      assert InOneToFifteen(i);
    }
    forall i | 0 <= i < |s|
      ensures s[i] >= 0
    {
      assert i == 0 || InOneToFifteen(i);
      NonIncreasingBetween(s, i, 15);
    }
  }

  /** The four configured event types differ (in their first letters). */
  lemma PointsTableLabelsDistinct()
    ensures Distinct(EventTypes(PointsTable))
  {
    assert PointsTable[0].eventType[0] == 'S' && PointsTable[1].eventType[0] == 'E';
    assert PointsTable[2].eventType[0] == 'M' && PointsTable[3].eventType[0] == 'P';
  }

  /** The configured table: four distinct event types, each with a well-formed 16-place schedule. */
  lemma PointsTableWellFormed()
    ensures Distinct(EventTypes(PointsTable))
    ensures forall k :: 0 <= k < |PointsTable| ==> WellFormedSchedule(PointsTable[k].points)
  {
    PointsTableLabelsDistinct();
    SixteenPlaceSchedule(StandardPoints);
    SixteenPlaceSchedule(ElevatedPoints);
    SixteenPlaceSchedule(MajorPoints);
    SixteenPlaceSchedule(PlayoffPoints);
    forall k | 0 <= k < |PointsTable|
      ensures WellFormedSchedule(PointsTable[k].points)
    {
      assert k == 0 || k == 1 || k == 2 || k == 3;
    }
  }

  /** Every configured event names an event type that has a schedule. */
  lemma EventTabsListed()
    ensures forall k :: 0 <= k < |EventTabs| ==> Listed(PointsTable, EventTabs[k].eventType)
  {
    var standard, elevated, major, playoff := PointsTable[0], PointsTable[1], PointsTable[2], PointsTable[3];
    assert Listed(PointsTable, standard.eventType) && Listed(PointsTable, elevated.eventType);
    assert Listed(PointsTable, major.eventType) && Listed(PointsTable, playoff.eventType);
    forall k | 0 <= k < |EventTabs|
      ensures Listed(PointsTable, EventTabs[k].eventType)
    {
      assert k == 0 || InOneToFifteen(k);
    }
  }

  /** A non-increasing sequence is non-increasing between any two places, not only adjacent ones. */
  lemma {:induction false} NonIncreasingBetween(s: seq<int>, i: nat, j: nat)
    requires NonIncreasing(s)
    requires i <= j < |s|
    ensures s[i] >= s[j]
    decreases j - i
  {
    if i < j {
      NonIncreasingBetween(s, i, j - 1);
    }
  }

  /** Points for finishing at `position` in an event of type `eventType` (`calculate_points`). */
  function CalculatePoints(eventType: string, position: int): (r: int)
    ensures r >= 0
    ensures position < 1 || position > ScoringPlaces ==> r == 0
    ensures !Listed(PointsTable, eventType) ==> r == 0
    ensures forall k :: 0 <= k < |PointsTable| && PointsTable[k].eventType == eventType && 1 <= position <= ScoringPlaces ==>
              r == PointsTable[k].points[position - 1]
  {
    PointsTableWellFormed();
    var table := Schedule(PointsTable, eventType);
    assert forall k :: 0 <= k < |PointsTable| && PointsTable[k].eventType == eventType ==> table == PointsTable[k].points by {
      forall k | 0 <= k < |PointsTable| && PointsTable[k].eventType == eventType
        ensures table == PointsTable[k].points
      {
        ScheduleOfListed(PointsTable, k);
      }
    }
    if 1 <= position <= |table| then table[position - 1] else 0
  }

  /** Within every configured schedule, an earlier place is worth at least as much as a later one. */
  lemma PointsTableMonotone()
    ensures forall k, i, j :: 0 <= k < |PointsTable| && 0 <= i <= j < |PointsTable[k].points| ==>
              PointsTable[k].points[i] >= PointsTable[k].points[j]
  {
    PointsTableWellFormed();
    forall k, i, j | 0 <= k < |PointsTable| && 0 <= i <= j < |PointsTable[k].points|
      ensures PointsTable[k].points[i] >= PointsTable[k].points[j]
    {
      NonIncreasingBetween(PointsTable[k].points, i, j);
    }
  }

  /** A better (smaller) finishing position never scores fewer points. */
  lemma BetterFinishNeverScoresFewer(eventType: string, p: int, q: int)
    requires 1 <= p <= q
    ensures CalculatePoints(eventType, p) >= CalculatePoints(eventType, q)
  {
    if q <= ScoringPlaces && Listed(PointsTable, eventType) {
      PointsTableMonotone();
      PointsTableWellFormed();
    }
  }

  /** Length of the longest schedule (`max(len(v) for v in POINTS_TABLE.values())`). */
  function MaxPlaces(table: seq<Tier>): (m: nat)
    requires |table| > 0
    ensures forall k :: 0 <= k < |table| ==> |table[k].points| <= m
    ensures exists k :: 0 <= k < |table| && |table[k].points| == m
  {
    if |table| == 1 then |table[0].points|
    else
      var rest := MaxPlaces(table[1..]);
      assert forall k :: 1 <= k < |table| ==> table[k] == table[1..][k - 1];
      if |table[0].points| >= rest then |table[0].points| else rest
  }

  /** `n` zeros. */
  function Zeros(n: nat): (z: seq<int>)
    ensures |z| == n && forall i :: 0 <= i < n ==> z[i] == 0
  {
    seq(n, _ => 0)
  }

  /** Builds the points distribution table: a `Place` column 1..max and one column
      per event type, each schedule padded with zeros to the longest one. */
  method PointsDistribution(table: seq<Tier>) returns (places: seq<int>, columns: seq<Tier>)
    requires |table| > 0
    ensures |places| == MaxPlaces(table)
    ensures forall i :: 0 <= i < |places| ==> places[i] == i + 1
    ensures |columns| == |table|
    ensures forall k :: 0 <= k < |table| ==>
              && columns[k].eventType == table[k].eventType
              && |columns[k].points| == MaxPlaces(table)
              && columns[k].points[..|table[k].points|] == table[k].points
              && forall i :: |table[k].points| <= i < MaxPlaces(table) ==> columns[k].points[i] == 0
  {
    var width := MaxPlaces(table);
    places := seq(width, i => i + 1);
    columns := [];
    var k := 0;
    while k < |table|
      invariant 0 <= k <= |table|
      invariant |columns| == k
      invariant forall c :: 0 <= c < k ==>
                  && columns[c].eventType == table[c].eventType
                  && |columns[c].points| == width
                  && columns[c].points[..|table[c].points|] == table[c].points
                  && forall i :: |table[c].points| <= i < width ==> columns[c].points[i] == 0
    {
      var points := table[k].points;
      var padded := points + Zeros(width - |points|);
      assert padded[..|points|] == points;
      columns := columns + [Tier(table[k].eventType, padded)];
      k := k + 1;
    }
  }
}
