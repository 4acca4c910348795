/**
 * The per-exercise analytics of app.py over an in-memory table of training
 * records: the last session, the personal record, the maximum weight, the
 * estimated one-rep maximum and the guard and features of the weight
 * prediction. Dates are whole day numbers; a weight cell is the result of
 * numeric parsing, None where the cell is not a number.
 */
module Analytics {
  import opened Wrappers

  /** One row of the data frame after parsing. */
  datatype Record = Record(date: int, part: string, exercise: string, weight: Option<real>, reps: Option<int>)

  /** Numeric coercion with fill 0: a cell that is not a number counts as 0. */
  function Coerced(w: Option<real>): (r: real)
  {
    match w
    case Some(x) => x
    case None => 0.0
  }

  function Weight(x: Record): (r: real)
  {
    Coerced(x.weight)
  }

  /** The rows of one exercise, in table order: each row of that exercise as
      many times as the table holds it, and no other row. */
  function ForExercise(rs: seq<Record>, name: string): (r: seq<Record>)
    ensures forall x :: x in r <==> x in rs && x.exercise == name
    ensures forall x :: multiset(r)[x] == if x.exercise == name then multiset(rs)[x] else 0
  {
    if rs == [] then []
    else
      var rest := ForExercise(rs[1..], name);
      assert rs == [rs[0]] + rs[1..];
      assert forall x :: x in rs[1..] ==> x in rs;
      if rs[0].exercise == name then [rs[0]] + rest else rest
  }

  /** The latest row of a non-empty table: what sorting by date and taking the
      last row yields (among rows of the same date this picks the last one). */
  function Latest(s: seq<Record>): (r: Option<Record>)
    ensures r.None? <==> s == []
    ensures r.Some? ==> r.value in s && forall x :: x in s ==> x.date <= r.value.date
  {
    if s == [] then None
    else
      var p := Latest(s[..|s| - 1]);
      assert s == s[..|s| - 1] + [s[|s| - 1]];
      if p.None? || s[|s| - 1].date >= p.value.date then Some(s[|s| - 1]) else p
  }

  /** The last session of an exercise; None is the "first time" outcome. */
  function LastSession(rs: seq<Record>, name: string): (r: Option<Record>)
  {
    Latest(ForExercise(rs, name))
  }

  /** The last session has no later-dated record of the same exercise, and is
      missing exactly when the exercise has no record. */
  lemma LastSessionIsLatest(rs: seq<Record>, name: string)
    ensures LastSession(rs, name).None? <==> forall x :: x in rs ==> x.exercise != name
    ensures LastSession(rs, name).Some? ==>
      var last := LastSession(rs, name).value;
      last in rs && last.exercise == name &&
      forall x :: x in rs && x.exercise == name ==> x.date <= last.date
  {
  }

  /** The row idxmax picks in the date-sorted rows: the greatest coerced weight,
      and the earliest date among rows of that weight. */
  function Best(s: seq<Record>): (r: Option<Record>)
    ensures r.None? <==> s == []
    ensures r.Some? ==> r.value in s
    ensures r.Some? ==> forall x :: x in s ==> Weight(x) <= Weight(r.value)
    ensures r.Some? ==> forall x :: x in s && Weight(x) == Weight(r.value) ==> r.value.date <= x.date
  {
    if s == [] then None
    else
      var p := Best(s[..|s| - 1]);
      var x := s[|s| - 1];
      assert s == s[..|s| - 1] + [x];
      if p.None? || Weight(x) > Weight(p.value) || (Weight(x) == Weight(p.value) && x.date < p.value.date)
      then Some(x) else p
  }

  /** The personal record of an exercise; None when it has no record. */
  function PersonalRecord(rs: seq<Record>, name: string): (r: Option<Record>)
  {
    Best(ForExercise(rs, name))
  }

  /** The personal record outweighs every record of the exercise (cells that
      are not numbers counting as 0), and no earlier-dated record reaches it. */
  lemma PersonalRecordIsBest(rs: seq<Record>, name: string)
    ensures PersonalRecord(rs, name).None? <==> forall x :: x in rs ==> x.exercise != name
    ensures PersonalRecord(rs, name).Some? ==>
      var pr := PersonalRecord(rs, name).value;
      pr in rs && pr.exercise == name &&
      (forall x :: x in rs && x.exercise == name ==> Weight(x) <= Weight(pr)) &&
      (forall x :: x in rs && x.exercise == name && x.date < pr.date ==> Weight(x) < Weight(pr))
  {
  }

  /** The column maximum of the coerced weights, defined independently. */
  function MaxWeight(s: seq<Record>): (r: real)
    requires s != []
  {
    if |s| == 1 then Weight(s[0])
    else
      var m := MaxWeight(s[1..]);
      if Weight(s[0]) > m then Weight(s[0]) else m
  }

  lemma {:induction false} MaxWeightBounds(s: seq<Record>)
    requires s != []
    ensures forall x :: x in s ==> Weight(x) <= MaxWeight(s)
    ensures exists x :: x in s && Weight(x) == MaxWeight(s)
  {
    if |s| == 1 {
      assert s[0] in s;
    } else {
      MaxWeightBounds(s[1..]);
      assert s == [s[0]] + s[1..];
      var y :| y in s[1..] && Weight(y) == MaxWeight(s[1..]);
      assert y in s;
    }
  }

  /** The maximum the detail view shows is the personal record's weight. */
  lemma PersonalRecordWeighsMax(rs: seq<Record>, name: string)
    requires ForExercise(rs, name) != []
    ensures PersonalRecord(rs, name).Some?
    ensures Weight(PersonalRecord(rs, name).value) == MaxWeight(ForExercise(rs, name))
  {
    MaxWeightBounds(ForExercise(rs, name));
  }

  /** Epley's estimate of the one-rep maximum. */
  function OneRepMax(weight: real, reps: real): (r: real)
  {
    weight * (1.0 + reps / 30.0)
  }

  /** At zero repetitions the estimate is the weight itself, and for a positive
      weight it grows with the repetitions. */
  lemma OneRepMaxProperties(weight: real, r1: real, r2: real)
    ensures OneRepMax(weight, 0.0) == weight
    ensures weight > 0.0 && r1 < r2 ==> OneRepMax(weight, r1) < OneRepMax(weight, r2)
  {
  }

  /** The rows fewer than which no prediction is made. */
  const MinRows: nat := 3

  /** One training point of the trend fit: days since the first date, weight. */
  datatype Point = Point(days: int, weight: real)

  /** What the prediction fits and where it evaluates: the day offset of every
      row, the points of the rows whose weight is a number, and the offset of
      today. */
  datatype Features = Features(offsets: seq<int>, points: seq<Point>, todayOffset: int)

  /** The earliest date of a non-empty table. */
  function Earliest(s: seq<Record>): (r: int)
    requires s != []
    ensures forall x :: x in s ==> r <= x.date
    ensures exists x :: x in s && x.date == r
  {
    if |s| == 1 then s[0].date
    else
      var m := Earliest(s[1..]);
      assert s == [s[0]] + s[1..];
      if s[0].date < m then s[0].date else m
  }

  /** Days elapsed since start for every row. */
  function Offsets(s: seq<Record>, start: int): (r: seq<int>)
    ensures |r| == |s|
    ensures forall k :: 0 <= k < |s| ==> r[k] == s[k].date - start
  {
    seq(|s|, k requires 0 <= k < |s| => s[k].date - start)
  }

  /** The point a row contributes to the fit, None where dropna removes it. */
  function PointOf(x: Record, start: int): (r: Option<Point>)
    ensures r.Some? <==> x.weight.Some?
    ensures r.Some? ==> r.value.days == x.date - start && r.value.weight == x.weight.value
  {
    if x.weight.Some? then Some(Point(x.date - start, x.weight.value)) else None
  }

  /** What each row contributes, row by row: the reference definition against
      which Points counts each point. */
  function Contributions(s: seq<Record>, start: int): (r: seq<Option<Point>>)
  {
    seq(|s|, k requires 0 <= k < |s| => PointOf(s[k], start))
  }

  /** The rows that survive dropping non-numeric weights, as points: each point
      occurs as often as rows contribute it, so duplicate sets are all kept. */
  function Points(s: seq<Record>, start: int): (r: seq<Point>)
    ensures forall p :: p in r <==> exists x :: x in s && x.weight.Some? && p == Point(x.date - start, x.weight.value)
    ensures forall p :: multiset(r)[p] == multiset(Contributions(s, start))[Some(p)]
  {
    if s == [] then []
    else
      var rest := Points(s[1..], start);
      var head := PointOf(s[0], start);
      assert forall x :: x in s <==> x == s[0] || x in s[1..];
      ContributionsSplit(s, start);
      if head.Some? then [head.value] + rest else rest
  }

  lemma ContributionsSplit(s: seq<Record>, start: int)
    requires s != []
    ensures multiset(Contributions(s, start)) == multiset{PointOf(s[0], start)} + multiset(Contributions(s[1..], start))
  {
    assert Contributions(s, start) == [PointOf(s[0], start)] + Contributions(s[1..], start);
  }

  /** The guard and the feature construction of the weight prediction. */
  function PredictionInput(rs: seq<Record>, name: string, today: int): (r: Option<Features>)
  {
    var s := ForExercise(rs, name);
    if |s| < MinRows then None
    else
      var start := Earliest(s);
      Some(Features(Offsets(s, start), Points(s, start), today - start))
  }

  /** No prediction below three rows of the exercise. Otherwise every row's
      offset is non-negative, the earliest row's offset is 0, every point comes
      from a row with a numeric weight at that row's offset, and today's offset
      is at least every row's when today is not before the last session. */
  lemma PredictionGuard(rs: seq<Record>, name: string, today: int)
    ensures PredictionInput(rs, name, today).None? <==> |ForExercise(rs, name)| < MinRows
    ensures PredictionInput(rs, name, today).Some? ==>
      var f := PredictionInput(rs, name, today).value;
      var s := ForExercise(rs, name);
      |f.offsets| == |s| &&
      (forall k :: 0 <= k < |f.offsets| ==> f.offsets[k] >= 0) &&
      (exists k :: 0 <= k < |f.offsets| && f.offsets[k] == 0) &&
      (forall p :: p in f.points ==> p.days >= 0 && exists x :: x in s && x.weight == Some(p.weight)) &&
      ((forall x :: x in s ==> x.date <= today) ==> forall k :: 0 <= k < |f.offsets| ==> f.offsets[k] <= f.todayOffset)
  {
  }

  /** The guard counts rows before non-numeric weights are dropped: three rows
      of which only one weight is a number already pass it. */
  lemma GuardCountsRowsNotWeights()
    ensures var rs := [Record(0, "胸", "ベンチプレス", Some(50.0), Some(10)),
                       Record(7, "胸", "ベンチプレス", None, Some(10)),
                       Record(14, "胸", "ベンチプレス", None, Some(8))];
      PredictionInput(rs, "ベンチプレス", 21).Some? &&
      |PredictionInput(rs, "ベンチプレス", 21).value.points| == 1
  {
  }

  /** Three bench-press sessions a week apart at 50, 52.5 and 55 kg. */
  const RisingBench: seq<Record> := [
    Record(0, "胸", "ベンチプレス", Some(50.0), Some(10)),
    Record(7, "胸", "ベンチプレス", Some(52.5), Some(10)),
    Record(14, "胸", "ベンチプレス", Some(55.0), Some(10))
  ]

  /** The last session and the personal record are both the day-14 set. */
  lemma RisingBenchPressRecords()
    ensures LastSession(RisingBench, "ベンチプレス") == Some(RisingBench[2])
    ensures PersonalRecord(RisingBench, "ベンチプレス") == Some(RisingBench[2])
  {
    var rs := RisingBench;
    RisingBenchPressFiltered();
    assert rs[..2][..1][..0] == [];
    assert Latest(rs[..1]) == Some(rs[0]);
    assert Latest(rs[..2]) == Some(rs[1]);
    assert Best(rs[..1]) == Some(rs[0]);
    assert Best(rs[..2]) == Some(rs[1]);
  }

  /** The prediction fits all three points, offsets 0, 7 and 14, and evaluates
      one week after the last session at offset 21. */
  lemma RisingBenchPressFeatures()
    ensures PredictionInput(RisingBench, "ベンチプレス", 21).Some?
    ensures PredictionInput(RisingBench, "ベンチプレス", 21).value.offsets == [0, 7, 14]
    ensures PredictionInput(RisingBench, "ベンチプレス", 21).value.points == [Point(0, 50.0), Point(7, 52.5), Point(14, 55.0)]
    ensures PredictionInput(RisingBench, "ベンチプレス", 21).value.todayOffset == 21
  {
    var rs := RisingBench;
    RisingBenchPressFiltered();
    RisingBenchPressStart();
    RisingBenchPressPoints();
    RisingBenchPressOffsets();
    PredictionInputOf(rs, "ベンチプレス", 21);
  }

  /** PredictionInput once the exercise has enough rows: the features of its
      rows, counted from their earliest date. */
  lemma PredictionInputOf(rs: seq<Record>, name: string, today: int)
    requires |ForExercise(rs, name)| >= MinRows
    ensures PredictionInput(rs, name, today).Some?
    ensures PredictionInput(rs, name, today).value.offsets ==
      Offsets(ForExercise(rs, name), Earliest(ForExercise(rs, name)))
    ensures PredictionInput(rs, name, today).value.points ==
      Points(ForExercise(rs, name), Earliest(ForExercise(rs, name)))
    ensures PredictionInput(rs, name, today).value.todayOffset ==
      today - Earliest(ForExercise(rs, name))
  {
  }

  lemma RisingBenchPressOffsets()
    ensures Offsets(RisingBench, 0) == [0, 7, 14]
  {
  }

  lemma RisingBenchPressStart()
    ensures Earliest(RisingBench) == 0
  {
    var rs := RisingBench;
    assert rs[1..][1..][1..] == [];
    assert Earliest(rs[2..]) == 14;
    assert Earliest(rs[1..]) == 7;
  }

  lemma RisingBenchPressFiltered()
    ensures ForExercise(RisingBench, "ベンチプレス") == RisingBench
  {
    assert RisingBench[1..][1..][1..] == [];
  }

  lemma RisingBenchPressPoints()
    ensures Points(RisingBench, 0) == [Point(0, 50.0), Point(7, 52.5), Point(14, 55.0)]
  {
    var rs := RisingBench;
    assert rs[1..][1..][1..] == [];
    assert Points(rs[2..], 0) == [Point(14, 55.0)];
    assert Points(rs[1..], 0) == [Point(7, 52.5), Point(14, 55.0)];
  }
}
