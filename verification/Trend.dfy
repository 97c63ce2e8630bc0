/** Down-sampling of trend rows: the window-function query of the collector's dashboard
    and the cloud's form of it. Rows of one device have distinct times. */
module Trend {
  datatype Row = Row(device: nat, time: real)

  function Clamp(points: int): (m: int)
    ensures 20 <= m <= 600 && (20 <= points <= 600 ==> m == points)
  {
    var low := if points < 600 then points else 600;
    if low < 20 then 20 else low
  }

  // ----- the query --------------------------------------------------------

  function Partition(rows: set<Row>, device: nat): set<Row> {
    set r | r in rows && r.device == device
  }

  // ROW_NUMBER() - 1 over the device's rows in time order.
  function Position(rows: set<Row>, r: Row): nat {
    |set x | x in Partition(rows, r.device) && x.time < r.time|
  }

  // Integer division, as SQLite does it.
  function BucketAt(i: nat, n: nat, m: nat): nat
    requires m >= 1
  {
    if n <= 1 then 0 else i * (m - 1) / (n - 1)
  }

  function Bucket(rows: set<Row>, r: Row, m: nat): nat
    requires m >= 1
  {
    BucketAt(Position(rows, r), |Partition(rows, r.device)|, m)
  }

  // bucket_rank = 1: the earliest row of its device and bucket.
  ghost predicate Kept(rows: set<Row>, r: Row, m: nat)
    requires m >= 1
  {
    && r in rows
    && forall x :: x in Partition(rows, r.device) && Bucket(rows, x, m) == Bucket(rows, r, m) ==>
         r.time <= x.time
  }

  // A numeric quotient in units of 1/scale, rounded half up, and its FLOOR.
  function NumericQuotient(a: nat, d: nat, scale: nat): nat
    requires d > 0
  {
    (2 * (a * scale) + d) / (2 * d)
  }

  function NumericFloor(a: nat, d: nat, scale: nat): nat
    requires d > 0 && scale > 0
  {
    NumericQuotient(a, d, scale) / scale
  }

  // The cloud's bucket and selection, on a numeric quotient of the given scale.
  function NumericBucket(rows: set<Row>, r: Row, m: nat, scale: nat): nat
    requires m >= 1 && scale > 0
  {
    var n := |Partition(rows, r.device)|;
    if n <= 1 then 0 else NumericFloor(Position(rows, r) * (m - 1), n - 1, scale)
  }

  ghost predicate NumericKept(rows: set<Row>, r: Row, m: nat, scale: nat)
    requires m >= 1 && scale > 0
  {
    && r in rows
    && forall x :: x in Partition(rows, r.device)
                   && NumericBucket(rows, x, m, scale) == NumericBucket(rows, r, m, scale) ==>
         r.time <= x.time
  }

  predicate DistinctTimes(rows: set<Row>) {
    forall r, x :: r in rows && x in rows && r.device == x.device && r.time == x.time ==> r == x
  }

  // ----- division ---------------------------------------------------------

  lemma DivGe(x: nat, d: nat, b: nat)
    requires d > 0
    ensures x / d >= b <==> x >= b * d
  {
    var q, r := x / d, x % d;
    assert x == q * d + r;
    if q >= b {
      assert q * d >= b * d;
    } else {
      assert (q + 1) * d <= b * d;
    }
  }

  function CeilDiv(x: nat, d: nat): nat
    requires d > 0
  {
    (x + d - 1) / d
  }

  lemma CeilLe(i: nat, x: nat, d: nat)
    requires d > 0
    ensures i >= CeilDiv(x, d) <==> i * d >= x
  {
    DivGe(x + d - 1, d, i + 1);
    assert (i + 1) * d == i * d + d;
  }

  /** Both engines compute the same bucket while the count is below twice the scale of
      the numeric quotient, which is at least ten to the sixteenth. */
  lemma EnginesAgree(a: nat, d: nat, scale: nat)
    requires 0 < d < 2 * scale
    ensures NumericFloor(a, d, scale) == a / d
  {
    hide NumericQuotient;
    var t := QuotientSplit(a, d, scale);
    DivUnique(NumericQuotient(a, d, scale), scale, a / d, t);
  }

  /** So the collector's dashboard and the cloud select the same rows, the scale being
      at least ten to the sixteenth. */
  lemma SameRowsSelected(rows: set<Row>, r: Row, m: nat, scale: nat)
    requires m >= 1 && scale > 0 && |Partition(rows, r.device)| - 1 < 2 * scale
    ensures Kept(rows, r, m) <==> NumericKept(rows, r, m, scale)
  {
    hide NumericFloor, Position;
    forall x | x in Partition(rows, r.device) || x == r ensures NumericBucket(rows, x, m, scale) == Bucket(rows, x, m) {
      var n := |Partition(rows, x.device)|;
      if n > 1 {
        EnginesAgree(Position(rows, x) * (m - 1), n - 1, scale);
      }
    }
  }

  lemma QuotientSplit(a: nat, d: nat, scale: nat) returns (t: nat)
    requires 0 < d < 2 * scale
    ensures NumericQuotient(a, d, scale) == scale * (a / d) + t && t < scale
  {
    var k, r := a / d, a % d;
    DivMod(a, d);
    t := NumericQuotient(r, d, scale);
    ScaleSplit(a, k, d, r, scale);
    TakeOut(a * scale, d, k * scale, r * scale);
    RemainderSmall(r, d, scale);
    Commute(k, scale);
  }

  lemma DivMod(a: nat, d: nat)
    requires d > 0
    ensures a == a / d * d + a % d && a % d < d
  {
  }

  lemma TakeOut(x: nat, d: nat, y: nat, p: nat)
    requires d > 0 && x == d * y + p
    ensures (2 * x + d) / (2 * d) == y + (2 * p + d) / (2 * d)
  {
    DoubleOut(d, y);
    ShiftDiv(y, 2 * d, 2 * p + d);
  }

  lemma RemainderSmall(r: nat, d: nat, scale: nat)
    requires r < d < 2 * scale
    ensures (2 * (r * scale) + d) / (2 * d) < scale
  {
    MulLe(r + 1, d, scale);
    Spread(r, 1, scale);
    DoubleOut(d, scale);
    Commute(scale, 2 * d);
    DivGe(2 * (r * scale) + d, 2 * d, scale);
  }

  lemma ScaleSplit(a: nat, k: nat, d: nat, r: nat, scale: nat)
    requires a == k * d + r
    ensures a * scale == d * (k * scale) + r * scale
  {
    Spread(k * d, r, scale);
    assert k * d * scale == d * (k * scale);
  }

  lemma Spread(a: int, b: int, c: int)
    ensures (a + b) * c == a * c + b * c
  {
  }

  lemma Commute(a: int, b: int)
    ensures a * b == b * a
  {
  }

  lemma DoubleOut(a: nat, b: nat)
    ensures 2 * a * b == 2 * (a * b)
  {
  }

  lemma MulLe(a: nat, b: nat, c: nat)
    requires a <= b
    ensures a * c <= b * c
  {
  }

  lemma ShiftDiv(k: nat, d: nat, part: nat)
    requires d > 0
    ensures (d * k + part) / d == k + part / d
  {
    var q, r := part / d, part % d;
    assert part == d * q + r;
    assert d * k + part == d * (k + q) + r;
    DivUnique(d * k + part, d, k + q, r);
  }

  lemma DivUnique(x: nat, d: nat, q: nat, r: nat)
    requires d > 0 && r < d && x == d * q + r
    ensures x / d == q
  {
    DivGe(x, d, q);
    DivGe(x, d, q + 1);
    assert q * d == d * q && (q + 1) * d == d * q + d;
  }

  // ----- positions kept ---------------------------------------------------

  // The first position of bucket b when there are at least as many rows as buckets.
  function FirstOf(b: nat, n: nat, m: nat): nat
    requires n >= m >= 2
  {
    CeilDiv(b * (n - 1), m - 1)
  }

  lemma BucketReached(i: nat, b: nat, n: nat, m: nat)
    requires n >= m >= 2
    ensures BucketAt(i, n, m) >= b <==> i >= FirstOf(b, n, m)
  {
    DivGe(i * (m - 1), n - 1, b);
    CeilLe(i, b * (n - 1), m - 1);
  }

  lemma BucketsMonotone(i: nat, j: nat, n: nat, m: nat)
    requires i <= j && m >= 1
    ensures BucketAt(i, n, m) <= BucketAt(j, n, m)
  {
    if n > 1 {
      assert i * (m - 1) <= j * (m - 1);
      DivGe(i * (m - 1), n - 1, BucketAt(i, n, m));
      DivGe(j * (m - 1), n - 1, BucketAt(i, n, m));
    }
  }

  lemma FirstOfEnds(n: nat, m: nat)
    requires n >= m >= 2
    ensures FirstOf(0, n, m) == 0 && FirstOf(m - 1, n, m) == n - 1
  {
    CeilLe(0, 0, m - 1);
    CeilLe(n - 1, (m - 1) * (n - 1), m - 1);
    assert (n - 1) * (m - 1) == (m - 1) * (n - 1);
    if n >= 2 {
      CeilLe(n - 2, (m - 1) * (n - 1), m - 1);
      assert (n - 2) * (m - 1) == (n - 1) * (m - 1) - (m - 1);
    }
  }

  /** Neighbouring first positions are the floor or the ceiling of (n-1)/(m-1) apart. */
  lemma GapsEven(b: nat, n: nat, m: nat)
    requires n >= m >= 2
    ensures FirstOf(b + 1, n, m) - FirstOf(b, n, m) in {(n - 1) / (m - 1), CeilDiv(n - 1, m - 1)}
    ensures FirstOf(b, n, m) < FirstOf(b + 1, n, m)
  {
    Spread(b, 1, n - 1);
    CeilStep(b * (n - 1), n - 1, m - 1);
  }

  lemma CeilStep(x: nat, d: nat, w: nat)
    requires d >= w >= 1
    ensures CeilDiv(x + d, w) - CeilDiv(x, w) in {d / w, CeilDiv(d, w)}
    ensures CeilDiv(x, w) < CeilDiv(x + d, w)
  {
    var p, q, lo, hi := CeilDiv(x, w), CeilDiv(x + d, w), d / w, CeilDiv(d, w);
    hide CeilDiv;
    DivGe(d, w, 1);
    DivGe(d, w, lo);
    CeilLe(hi, d, w);
    CeilIsNear(d, w);
    CeilLe(p, x, w);
    Spread(p, hi, w);
    CeilLe(p + hi, x + d, w);
    if p > 0 {
      CeilLe(p - 1, x, w);
    }
    Spread(p - 1, lo, w);
    CeilLe(p + lo - 1, x + d, w);
    assert (p - 1) * w == p * w - w by { Spread(p, -1, w); }
  }

  lemma CeilIsNear(d: nat, w: nat)
    requires w >= 1
    ensures d / w <= CeilDiv(d, w) <= d / w + 1
  {
    CeilLe(d / w + 1, d, w);
    DivGe(d, w, d / w + 1);
    CeilLe(CeilDiv(d, w), d, w);
    DivGe(d, w, d / w);
    if CeilDiv(d, w) < d / w {
      MulLe(CeilDiv(d, w) + 1, d / w, w);
      Spread(CeilDiv(d, w), 1, w);
    }
  }

  predicate Starts(i: nat, n: nat, m: nat)
    requires m >= 1
  {
    i == 0 || BucketAt(i - 1, n, m) != BucketAt(i, n, m)
  }

  lemma StartsIff(i: nat, n: nat, m: nat)
    requires n >= m >= 2 && i < n
    ensures Starts(i, n, m) <==> exists b :: 0 <= b < m && i == FirstOf(b, n, m)
  {
    FirstOfEnds(n, m);
    var b := BucketAt(i, n, m);
    BucketReached(i, b, n, m);
    BucketReached(i, m, n, m);
    assert b < m by { BucketReached(n - 1, m, n, m); GapsEven(m - 1, n, m); }
    if i > 0 {
      BucketReached(i - 1, b, n, m);
      BucketsMonotone(i - 1, i, n, m);
      if Starts(i, n, m) {
        assert i == FirstOf(b, n, m);
      }
      forall c: nat | c < m && i == FirstOf(c, n, m) ensures Starts(i, n, m) {
        BucketReached(i, c, n, m);
        BucketReached(i - 1, c, n, m);
      }
    } else {
      assert i == FirstOf(0, n, m);
    }
  }

  lemma AllStart(i: nat, n: nat, m: nat)
    requires n <= m && i < n && m >= 1
    ensures Starts(i, n, m)
  {
    if i > 0 {
      var b := BucketAt(i - 1, n, m);
      DivGe((i - 1) * (m - 1), n - 1, b);
      DivGe(i * (m - 1), n - 1, b + 1);
      assert i * (m - 1) == (i - 1) * (m - 1) + (m - 1);
      assert (b + 1) * (n - 1) == b * (n - 1) + (n - 1);
    }
  }

  // ----- from positions to rows -------------------------------------------

  predicate Ordered(line: seq<Row>) { forall i, j :: 0 <= i < j < |line| ==> line[i].time < line[j].time }

  // The rows of one device listed in time order.
  ghost predicate Lists(line: seq<Row>, part: set<Row>) {
    Ordered(line) && |line| == |part| && (forall r :: r in part <==> r in line)
  }

  predicate OneDevice(part: set<Row>, device: nat) { forall r :: r in part ==> r.device == device }

  lemma {:induction false} LineUp(part: set<Row>, device: nat) returns (line: seq<Row>)
    requires DistinctTimes(part) && OneDevice(part, device)
    ensures Lists(line, part)
    decreases |part|
  {
    if part == {} {
      line := [];
    } else {
      var last := Latest(part, device);
      var before := LineUp(part - {last}, device);
      line := before + [last];
    }
  }

  lemma {:induction false} Latest(part: set<Row>, device: nat) returns (last: Row)
    requires part != {} && DistinctTimes(part) && OneDevice(part, device)
    ensures last in part && forall r :: r in part && r != last ==> r.time < last.time
    decreases |part|
  {
    var r :| r in part;
    last := r;
    if part != {r} {
      assert part - {r} != {};
      var other := Latest(part - {r}, device);
      if r.time < other.time {
        last := other;
      }
    }
  }

  function Elements(line: seq<Row>): set<Row> { set r | r in line }

  lemma {:induction false} Numbered(line: seq<Row>)
    requires Ordered(line)
    ensures |Elements(line)| == |line|
    decreases |line|
  {
    if line != [] {
      var before, last := line[..|line| - 1], line[|line| - 1];
      Numbered(before);
      assert last !in before;
      WithLast(before, last);
      assert line == before + [last];
    }
  }

  lemma WithLast(before: seq<Row>, last: Row)
    ensures Elements(before + [last]) == Elements(before) + {last}
  {
  }

  lemma PositionIs(rows: set<Row>, device: nat, line: seq<Row>, i: nat)
    requires Lists(line, Partition(rows, device)) && i < |line|
    ensures Position(rows, line[i]) == i && line[i].device == device
  {
    Numbered(line[..i]);
    assert line[i] in Partition(rows, device);
    var part := Partition(rows, device);
    assert (set x | x in part && x.time < line[i].time) == Elements(line[..i]) by {
      forall x | x in part && x.time < line[i].time ensures x in line[..i] {
        var j :| 0 <= j < |line| && line[j] == x;
        assert line[..i][j] == x;
      }
    }
  }

  /** A row is kept exactly when it starts its bucket. */
  lemma KeptIff(rows: set<Row>, device: nat, line: seq<Row>, i: nat, m: nat)
    requires Lists(line, Partition(rows, device)) && i < |line| && m >= 1
    ensures Kept(rows, line[i], m) <==> Starts(i, |line|, m)
  {
    var part := Partition(rows, device);
    PositionIs(rows, device, line, i);
    assert line[i] in part;
    if i > 0 {
      PositionIs(rows, device, line, i - 1);
      assert line[i - 1] in part && line[i - 1].time < line[i].time;
    }
    if Starts(i, |line|, m) {
      forall x | x in part && Bucket(rows, x, m) == Bucket(rows, line[i], m) ensures line[i].time <= x.time {
        var j :| 0 <= j < |line| && line[j] == x;
        PositionIs(rows, device, line, j);
        if j < i {
          BucketsMonotone(j, i - 1, |line|, m);
          BucketsMonotone(i - 1, i, |line|, m);
          assert false;
        }
      }
    }
  }

  // ----- what a chart shows -----------------------------------------------

  // The rows the query returns for one device, in time order.
  ghost predicate Shows(rows: set<Row>, device: nat, m: nat, shown: seq<Row>)
    requires m >= 1
  {
    Ordered(shown) && forall r :: r in shown <==> r.device == device && Kept(rows, r, m)
  }

  lemma ShowsAll(rows: set<Row>, device: nat, line: seq<Row>, m: nat)
    requires Lists(line, Partition(rows, device)) && |line| <= m && m >= 1
    ensures Shows(rows, device, m, line)
  {
    forall r ensures r in line <==> r.device == device && Kept(rows, r, m) {
      if r in Partition(rows, device) {
        var i :| 0 <= i < |line| && line[i] == r;
        AllStart(i, |line|, m);
        KeptIff(rows, device, line, i, m);
      }
    }
  }

  function Picked(line: seq<Row>, m: nat): (shown: seq<Row>)
    requires |line| >= m >= 2
    requires forall b :: 0 <= b < m ==> FirstOf(b, |line|, m) < |line|
    ensures |shown| == m
  {
    seq(m, b requires 0 <= b < m => line[FirstOf(b, |line|, m)])
  }

  lemma {:induction false} FirstOfOrdered(b: nat, c: nat, n: nat, m: nat)
    requires n >= m >= 2 && b < c
    ensures FirstOf(b, n, m) < FirstOf(c, n, m)
    decreases c
  {
    GapsEven(c - 1, n, m);
    if b < c - 1 {
      FirstOfOrdered(b, c - 1, n, m);
    }
  }

  lemma FirstOfBelow(n: nat, m: nat)
    requires n >= m >= 2
    ensures forall b :: 0 <= b < m ==> FirstOf(b, n, m) < n
  {
    FirstOfEnds(n, m);
    forall b | 0 <= b < m ensures FirstOf(b, n, m) < n {
      if b < m - 1 {
        FirstOfOrdered(b, m - 1, n, m);
      }
    }
  }

  lemma ShowsPicked(rows: set<Row>, device: nat, line: seq<Row>, m: nat)
    requires Lists(line, Partition(rows, device)) && |line| >= m >= 2
    requires forall b :: 0 <= b < m ==> FirstOf(b, |line|, m) < |line|
    ensures Shows(rows, device, m, Picked(line, m))
  {
    var shown := Picked(line, m);
    forall b, c | 0 <= b < c < m ensures shown[b].time < shown[c].time {
      FirstOfOrdered(b, c, |line|, m);
    }
    forall r | r in shown ensures r.device == device && Kept(rows, r, m) {
      var b :| 0 <= b < m && shown[b] == r;
      var i := FirstOf(b, |line|, m);
      StartsIff(i, |line|, m);
      KeptIff(rows, device, line, i, m);
      PositionIs(rows, device, line, i);
    }
    forall r: Row | r.device == device && Kept(rows, r, m) ensures r in shown {
      assert r in Partition(rows, device);
      var i :| 0 <= i < |line| && line[i] == r;
      KeptIff(rows, device, line, i, m);
      StartsIff(i, |line|, m);
      var b :| 0 <= b < m && i == FirstOf(b, |line|, m);
      assert shown[b] == r;
    }
  }

  predicate EvenGaps(line: seq<Row>, shown: seq<Row>, m: nat)
    requires |line| >= m >= 2
  {
    forall b :: 0 <= b < |shown| ==>
      FirstOf(b, |line|, m) < |line| && shown[b] == line[FirstOf(b, |line|, m)]
  }

  lemma PartitionFacts(rows: set<Row>, device: nat)
    requires DistinctTimes(rows)
    ensures DistinctTimes(Partition(rows, device)) && OneDevice(Partition(rows, device), device)
  {
  }

  lemma ExactFirst(b: nat, m: nat)
    requires m >= 2
    ensures FirstOf(b, m, m) == b
  {
    CeilLe(b, b * (m - 1), m - 1);
    if b > 0 {
      CeilLe(b - 1, b * (m - 1), m - 1);
      Spread(b, -1, m - 1);
    }
  }

  /** Whatever other devices recorded, a device with n rows is shown exactly min(n, m)
      of them, in order, its first and its last included; all of them when n <= m; and
      with n >= m those at the evenly spaced positions whose gaps GapsEven bounds. */
  lemma TrendShown(rows: set<Row>, device: nat, m: nat) returns (line: seq<Row>, shown: seq<Row>)
    requires DistinctTimes(rows) && m >= 2
    ensures Lists(line, Partition(rows, device)) && Shows(rows, device, m, shown)
    ensures |shown| == if |line| <= m then |line| else m
    ensures |line| <= m ==> shown == line
    ensures line != [] ==> shown != [] && shown[0] == line[0] && shown[|shown| - 1] == line[|line| - 1]
    ensures |line| >= m ==> EvenGaps(line, shown, m)
  {
    hide FirstOf, Kept, Shows, Lists, DistinctTimes, Partition;
    PartitionFacts(rows, device);
    line := LineUp(Partition(rows, device), device);
    if |line| < m {
      shown := line;
      ShowsAll(rows, device, line, m);
    } else {
      FirstOfBelow(|line|, m);
      FirstOfEnds(|line|, m);
      shown := Picked(line, m);
      ShowsPicked(rows, device, line, m);
      if |line| == m {
        forall b | 0 <= b < m ensures shown[b] == line[b] {
          ExactFirst(b, m);
        }
      }
    }
  }
}
