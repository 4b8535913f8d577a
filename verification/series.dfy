/** Folding aggregates of the request log into chart rows (internal/router/reqlog/series.go,
    assembleSeries). Times are nanoseconds since the clock's zero, from
    which it truncates; cost is a real, since rounding is not the point. */
module Series {

  // ----- Go's integer division ----------------------------------------------------------

  /** Rounds toward zero. */
  function TruncDiv(a: int, b: int): int
    requires b > 0
  {
    if a >= 0 then a / b else -(-a / b)
  }

  lemma TruncBounds(a: int, b: int, lo: int, hi: int)
    requires b > 0 && lo * b <= a <= hi * b
    ensures lo <= TruncDiv(a, b) <= hi
  {
    if a >= 0 {
      DivBounds(a, b, lo, hi);
    } else {
      assert -hi * b == -(hi * b) && -lo * b == -(lo * b);
      DivBounds(-a, b, -hi, -lo);
    }
  }

  lemma DivBounds(a: int, b: int, lo: int, hi: int)
    requires b > 0 && a >= 0 && lo * b <= a <= hi * b
    ensures lo <= a / b <= hi
  {
    var q := a / b;
    assert q * b <= a < q * b + b;
    if q < lo {
      MulGap(q + 1, lo, b);
    }
    if q > hi {
      MulGap(hi + 1, q, b);
    }
  }

  lemma MulGap(x: int, y: int, b: int)
    requires x <= y && b > 0
    ensures x * b <= y * b
  {
  }

  // ----- buckets ------------------------------------------------------------------------

  /** What adds up. */
  datatype Sums = Sums(requests: nat, errors: int, prompt: int, completion: int, cost: real)

  const ZERO := Sums(0, 0, 0, 0, 0.0)

  function Plus(a: Sums, b: Sums): Sums {
    Sums(a.requests + b.requests, a.errors + b.errors, a.prompt + b.prompt, a.completion + b.completion, a.cost + b.cost)
  }

  lemma PlusAssoc(a: Sums, b: Sums, c: Sums)
    ensures Plus(Plus(a, b), c) == Plus(a, Plus(b, c)) && Plus(Plus(a, b), c) == Plus(Plus(a, c), b)
  {
  }

  lemma PlusSwap(a: Sums, b: Sums, c: Sums, d: Sums)
    ensures Plus(Plus(a, b), Plus(c, d)) == Plus(Plus(a, c), Plus(b, d))
  {
  }

  lemma PlusZero(a: Sums)
    ensures Plus(a, ZERO) == a && Plus(ZERO, a) == a
  {
  }

  datatype Bucket = Bucket(start: int, sums: Sums, latency: int)

  /** One aggregate of the log: everything one key did in one bucket. */
  datatype Point = Point(key: string, b: Bucket)

  datatype Row = Row(key: string, requests: nat, buckets: seq<Bucket>)

  /** Adds one bucket to another, averaging the latency by requests. */
  function Add(dst: Bucket, src: Bucket): Bucket {
    var n := dst.sums.requests + src.sums.requests;
    dst.(sums := Plus(dst.sums, src.sums),
         latency := if n > 0 then TruncDiv(dst.latency * dst.sums.requests + src.latency * src.sums.requests, n) else dst.latency)
  }

  /** The latency of a bucket with traffic lies in this range. */
  predicate InRange(b: Bucket, lo: int, hi: int) {
    b.sums.requests > 0 ==> lo <= b.latency <= hi
  }

  /** The merged latency is the mean over all requests of both, rounded toward zero: less than one unit per request
      off, and never away from zero. */
  lemma MeanIsWeighted(dst: Bucket, src: Bucket)
    requires dst.sums.requests + src.sums.requests > 0
    ensures var (n, sum) := (dst.sums.requests + src.sums.requests, dst.latency * dst.sums.requests + src.latency * src.sums.requests);
            var gap := sum - Add(dst, src).latency * n;
            (sum >= 0 ==> 0 <= gap < n) && (sum <= 0 ==> -n < gap <= 0)
  {
    var (n, sum) := (dst.sums.requests + src.sums.requests, dst.latency * dst.sums.requests + src.latency * src.sums.requests);
    RoundsTowardZero(sum, n);
  }

  lemma RoundsTowardZero(a: int, b: int)
    requires b > 0
    ensures var gap := a - TruncDiv(a, b) * b;
            (a >= 0 ==> 0 <= gap < b) && (a <= 0 ==> -b < gap <= 0)
  {
    if a < 0 {
      var q := -a / b;
      assert -a - b < q * b <= -a;
      assert -q * b == -(q * b);
    }
  }

  /** A mean of means stays between them. */
  lemma MeanInRange(dst: Bucket, src: Bucket, lo: int, hi: int)
    requires InRange(dst, lo, hi) && InRange(src, lo, hi)
    ensures InRange(Add(dst, src), lo, hi)
  {
    var (m, n) := (dst.sums.requests, src.sums.requests);
    Weighted(dst.latency, m, lo, hi);
    Weighted(src.latency, n, lo, hi);
    var (x, y) := (dst.latency * m, src.latency * n);
    Distributes(lo, m, n);
    Distributes(hi, m, n);
    hide TruncDiv;
    if m + n > 0 {
      TruncBounds(x + y, m + n, lo, hi);
    }
  }

  lemma Distributes(x: int, m: nat, n: nat)
    ensures x * (m + n) == x * m + x * n
  {
  }

  lemma Weighted(x: int, m: nat, lo: int, hi: int)
    requires m > 0 ==> lo <= x <= hi
    ensures lo * m <= x * m <= hi * m
  {
    if m > 0 {
      MulGap(lo, x, m);
      MulGap(x, hi, m);
    }
  }

  // ----- the grid -----------------------------------------------------------------------

  datatype Grid = Grid(start: int, width: int, n: nat)

  const HOUR := 3_600_000_000_000

  function GridOf(since: nat, bucket: int, now: int): (g: Grid)
    ensures g.width > 0 && g.n >= 1 && g.start <= since < g.start + g.width
    ensures now >= since ==> g.start + (g.n - 1) * g.width <= now < g.start + g.n * g.width
  {
    var width := if bucket <= 0 then HOUR else bucket;
    var start := since - since % width;
    var n := TruncDiv(now - start, width) + 1;
    Grid(start, width, if n < 1 then 1 else n)
  }

  predicate Proper(g: Grid) {
    g.width > 0 && g.n >= 1
  }

  function Slot(g: Grid, p: Point): int
    requires g.width > 0
  {
    TruncDiv(p.b.start - g.start, g.width)
  }

  predicate OnGrid(g: Grid, p: Point)
    requires g.width > 0
  {
    0 <= Slot(g, p) < g.n
  }

  /** Because the division rounds toward zero, a point that starts less than one width before the grid
      still counts, in the first bucket; for aligned points the grid is what it looks like. */
  lemma OnGridExactly(g: Grid, p: Point)
    requires Proper(g)
    ensures OnGrid(g, p) <==> g.start - g.width < p.b.start < g.start + g.n * g.width
    ensures (p.b.start - g.start) % g.width == 0 ==> (OnGrid(g, p) <==> g.start <= p.b.start < g.start + g.n * g.width)
  {
    var d := p.b.start - g.start;
    TruncWithin(d, g.width, g.n);
    if d < 0 && d % g.width == 0 {
      AlignedNegative(d, g.width);
    }
    hide TruncDiv;
  }

  /** A point five units before the grid's start counts in its first bucket. */
  lemma EarlyPointWitness()
    ensures var (g, p) := (GridOf(20, 10, 35), Point("k", Bucket(15, Sums(1, 0, 0, 0, 0.0), 0)));
            g.start == 20 && p.b.start < g.start && OnGrid(g, p) && Slot(g, p) == 0 && SlotSum([p], g, 0) == p.b.sums
  {
    var (g, p) := (GridOf(20, 10, 35), Point("k", Bucket(15, Sums(1, 0, 0, 0, 0.0), 0)));
    assert [p][..0] == [];
    OnGridExactly(g, p);
  }

  lemma TruncWithin(a: int, b: int, n: int)
    requires b > 0 && n >= 1
    ensures 0 <= TruncDiv(a, b) < n <==> -b < a < n * b
  {
    MulGap(1, n, b);
    if a >= 0 {
      DivBelow(a, b, n);
      DivSign(a, b);
    } else {
      DivBelow(-a, b, 1);
      DivSign(-a, b);
    }
  }

  lemma DivSign(a: int, b: int)
    requires b > 0 && a >= 0
    ensures a / b >= 0
  {
  }

  lemma DivBelow(a: int, b: int, n: int)
    requires b > 0 && a >= 0
    ensures a / b < n <==> a < n * b
  {
    var q := a / b;
    assert q * b <= a < q * b + b;
    if q < n {
      MulGap(q + 1, n, b);
    } else {
      MulGap(n, q, b);
    }
  }

  lemma AlignedNegative(d: int, b: int)
    requires b > 0 && d < 0 && d % b == 0
    ensures -d >= b
  {
    var k := d / b;
    assert d == k * b;
    if k >= 0 {
      MulGap(0, k, b);
    } else {
      MulGap(k, -1, b);
    }
  }

  // ----- what the rows should say -------------------------------------------------------

  function Blank(g: Grid, i: nat): Bucket {
    Bucket(g.start + i * g.width, ZERO, 0)
  }

  /** One key's bucket: its points of that slot, added in order. */
  function KeyBucket(points: seq<Point>, g: Grid, key: string, i: nat): Bucket
    requires g.width > 0
  {
    if points == [] then Blank(g, i)
    else
      var (before, p) := (KeyBucket(points[..|points| - 1], g, key, i), points[|points| - 1]);
      if p.key == key && OnGrid(g, p) && Slot(g, p) == i then Add(before, p.b) else before
  }

  /** Everything in one slot, whatever its key. */
  function SlotSum(points: seq<Point>, g: Grid, i: nat): Sums
    requires g.width > 0
  {
    if points == [] then ZERO
    else
      var (before, p) := (SlotSum(points[..|points| - 1], g, i), points[|points| - 1]);
      if OnGrid(g, p) && Slot(g, p) == i then Plus(before, p.b.sums) else before
  }

  predicate Full(g: Grid, r: Row) {
    |r.buckets| == g.n && forall i | 0 <= i < g.n :: r.buckets[i].start == g.start + i * g.width
  }

  function RowTotal(buckets: seq<Bucket>): nat {
    if buckets == [] then 0 else RowTotal(buckets[..|buckets| - 1]) + buckets[|buckets| - 1].sums.requests
  }

  function RowsSum(rows: seq<Row>, i: nat): Sums
    requires forall r | r in rows :: i < |r.buckets|
  {
    if rows == [] then ZERO
    else
      assert rows[|rows| - 1] in rows;
      Plus(RowsSum(rows[..|rows| - 1], i), rows[|rows| - 1].buckets[i].sums)
  }

  predicate AllFull(g: Grid, rows: seq<Row>) {
    forall r | r in rows :: Full(g, r) && r.requests == RowTotal(r.buckets)
  }

  /** The rows add up to the points, slot by slot. */
  ghost predicate AddUp(points: seq<Point>, g: Grid, rows: seq<Row>)
    requires g.width > 0 && AllFull(g, rows)
  {
    forall i: nat | i < g.n :: SumsAgree(points, g, rows, i)
  }

  ghost predicate SumsAgree(points: seq<Point>, g: Grid, rows: seq<Row>, i: nat)
    requires g.width > 0 && AllFull(g, rows) && i < g.n
  {
    RowsSum(rows, i) == SlotSum(points, g, i)
  }

  /** Every row is its key's, bucket by bucket. */
  ghost predicate ByKey(points: seq<Point>, g: Grid, rows: seq<Row>)
    requires g.width > 0 && AllFull(g, rows)
  {
    forall r | r in rows :: IsKeyRow(points, g, r)
  }

  ghost predicate IsKeyRow(points: seq<Point>, g: Grid, r: Row)
    requires g.width > 0
  {
    |r.buckets| == g.n && forall i | 0 <= i < g.n :: r.buckets[i] == KeyBucket(points, g, r.key, i)
  }

  /** A key's mean latency lies within the range of its points. */
  lemma {:induction false} KeyMeanInRange(points: seq<Point>, g: Grid, key: string, i: nat, lo: int, hi: int)
    requires g.width > 0
    requires forall p | p in points && p.key == key && OnGrid(g, p) && Slot(g, p) == i :: InRange(p.b, lo, hi)
    ensures InRange(KeyBucket(points, g, key, i), lo, hi)
  {
    if points != [] {
      var p := points[|points| - 1];
      KeyMeanInRange(points[..|points| - 1], g, key, i, lo, hi);
      hide TruncDiv, Add;
      if p.key == key && OnGrid(g, p) && Slot(g, p) == i {
        assert p in points;
        MeanInRange(KeyBucket(points[..|points| - 1], g, key, i), p.b, lo, hi);
      }
    }
  }

  // ----- the fold -----------------------------------------------------------------------

  lemma {:induction false} RowTotalAfter(buckets: seq<Bucket>, i: nat, b: Bucket)
    requires i < |buckets|
    ensures RowTotal(buckets[i := b]) == RowTotal(buckets) - buckets[i].sums.requests + b.sums.requests
  {
    var n := |buckets| - 1;
    if i < n {
      RowTotalAfter(buckets[..n], i, b);
      assert buckets[i := b][..n] == buckets[..n][i := b];
    } else {
      assert buckets[i := b][..n] == buckets[..n];
    }
  }

  lemma {:induction false} RowsSumAfter(rows: seq<Row>, k: nat, r: Row, i: nat)
    requires k < |rows| && i < |r.buckets| && forall x | x in rows :: i < |x.buckets|
    ensures forall x | x in rows[k := r] :: i < |x.buckets|
    ensures Plus(RowsSum(rows[k := r], i), rows[k].buckets[i].sums) == Plus(RowsSum(rows, i), r.buckets[i].sums)
  {
    var n := |rows| - 1;
    assert forall x | x in rows[..n] :: x in rows;
    if k < n {
      RowsSumAfter(rows[..n], k, r, i);
      assert rows[k := r][..n] == rows[..n][k := r];
    } else {
      assert rows[k := r][..n] == rows[..n];
    }
  }

  /** The rows so far, and where each key's row is. */
  ghost predicate Indexed(rows: seq<Row>, at: map<string, nat>) {
    && (forall key | key in at :: at[key] < |rows| && rows[at[key]].key == key)
    && forall k: nat | k < |rows| :: rows[k].key in at && at[rows[k].key] == k
  }

  ghost predicate Folded(points: seq<Point>, g: Grid, rows: seq<Row>, at: map<string, nat>) {
    && g.width > 0 && Indexed(rows, at) && AllFull(g, rows)
    && ByKey(points, g, rows) && AddUp(points, g, rows)
    && forall key | key !in at :: Unseen(points, g, key)
  }

  /** The key has nothing on the grid yet. */
  ghost predicate Unseen(points: seq<Point>, g: Grid, key: string)
    requires g.width > 0
  {
    forall i: nat :: KeyBucket(points, g, key, i) == Blank(g, i)
  }

  function BlankRow(g: Grid, key: string): Row {
    Row(key, 0, seq(g.n, i requires 0 <= i < g.n => Blank(g, i)))
  }

  lemma {:induction false} BlankTotal(buckets: seq<Bucket>)
    requires forall b | b in buckets :: b.sums.requests == 0
    ensures RowTotal(buckets) == 0
  {
    if buckets != [] {
      BlankTotal(buckets[..|buckets| - 1]);
    }
  }

  /** A row made on first sight of a key. */
  lemma NewRow(points: seq<Point>, g: Grid, rows: seq<Row>, at: map<string, nat>, key: string)
    requires Proper(g) && Folded(points, g, rows, at) && key !in at
    ensures Folded(points, g, rows + [BlankRow(g, key)], at[key := |rows|])
  {
    var r := BlankRow(g, key);
    var more := rows + [r];
    BlankRowIs(points, g, key);
    hide KeyBucket, TruncDiv, RowTotal, BlankRow, IsKeyRow, Full;
    assert forall x | x in more :: x in rows || x == r;
    assert AllFull(g, more);
    assert ByKey(points, g, more);
    forall i: nat | i < g.n
      ensures SumsAgree(points, g, more, i)
    {
      assert SumsAgree(points, g, rows, i);
      BlankAddsNothing(points, g, rows, r, i);
    }
    hide SumsAgree, Unseen;
    IndexedMore(rows, at, r);
  }

  lemma IndexedMore(rows: seq<Row>, at: map<string, nat>, r: Row)
    requires Indexed(rows, at) && r.key !in at
    ensures Indexed(rows + [r], at[r.key := |rows|])
  {
  }

  lemma BlankRowIs(points: seq<Point>, g: Grid, key: string)
    requires Proper(g) && Unseen(points, g, key)
    ensures var r := BlankRow(g, key);
            r.key == key && Full(g, r) && r.requests == RowTotal(r.buckets) && IsKeyRow(points, g, r)
            && forall i | 0 <= i < g.n :: r.buckets[i].sums == ZERO
  {
    BlankTotal(BlankRow(g, key).buckets);
    hide KeyBucket, RowTotal;
  }

  lemma BlankAddsNothing(points: seq<Point>, g: Grid, rows: seq<Row>, r: Row, i: nat)
    requires g.width > 0 && AllFull(g, rows) && i < g.n && SumsAgree(points, g, rows, i)
    requires AllFull(g, rows + [r]) && |r.buckets| == g.n && r.buckets[i].sums == ZERO
    ensures SumsAgree(points, g, rows + [r], i)
  {
    hide SlotSum, RowTotal, Plus, RowsSum, Full;
    FullHas(g, rows, i);
    FullHas(g, rows + [r], i);
    RowsSumSnoc(rows, r, i);
    PlusZero(RowsSum(rows, i));
  }

  lemma RowsSumSnoc(rows: seq<Row>, r: Row, i: nat)
    requires (forall x | x in rows :: i < |x.buckets|) && i < |r.buckets|
    ensures forall x | x in rows + [r] :: i < |x.buckets|
    ensures RowsSum(rows + [r], i) == Plus(RowsSum(rows, i), r.buckets[i].sums)
  {
    assert (rows + [r])[..|rows|] == rows;
    hide Plus;
  }

  lemma FullHas(g: Grid, rows: seq<Row>, i: nat)
    requires AllFull(g, rows) && i < g.n
    ensures forall x | x in rows :: i < |x.buckets|
  {
    hide RowTotal;
  }

  function Bumped(g: Grid, r: Row, i: nat, b: Bucket): Row
    requires i < |r.buckets|
  {
    r.(requests := r.requests + b.sums.requests, buckets := r.buckets[i := Add(r.buckets[i], b)])
  }

  lemma BumpedFull(g: Grid, r: Row, i: nat, b: Bucket)
    requires Full(g, r) && r.requests == RowTotal(r.buckets) && i < g.n
    ensures Full(g, Bumped(g, r, i, b)) && Bumped(g, r, i, b).requests == RowTotal(Bumped(g, r, i, b).buckets)
  {
    RowTotalAfter(r.buckets, i, Add(r.buckets[i], b));
    hide TruncDiv;
  }

  lemma BumpedIsKeyRow(points: seq<Point>, g: Grid, r: Row, p: Point)
    requires g.width > 0 && IsKeyRow(points, g, r) && OnGrid(g, p)
    ensures r.key == p.key ==> IsKeyRow(points + [p], g, Bumped(g, r, Slot(g, p), p.b))
    ensures r.key != p.key ==> IsKeyRow(points + [p], g, r)
  {
    assert (points + [p])[..|points|] == points;
    hide TruncDiv, Add;
  }

  /** One more point on the grid goes into its key's row, in its slot, and nowhere else. */
  lemma OneMorePoint(points: seq<Point>, g: Grid, rows: seq<Row>, at: map<string, nat>, p: Point)
    requires Folded(points, g, rows, at) && OnGrid(g, p) && p.key in at
    ensures var k := at[p.key];
            Full(g, rows[k]) && Folded(points + [p], g, rows[k := Bumped(g, rows[k], Slot(g, p), p.b)], at)
  {
    var (k, s) := (at[p.key], Slot(g, p));
    var r := rows[k];
    assert r in rows;
    var bumped := Bumped(g, r, s, p.b);
    var more := rows[k := bumped];
    BumpedFull(g, r, s, p.b);
    assert AllFull(g, more) by {
      forall x | x in more
        ensures Full(g, x) && x.requests == RowTotal(x.buckets)
      {
        assert x == bumped || x in rows;
      }
    }
    assert ByKey(points + [p], g, more) by { BumpedByKey(points, g, rows, at, p); }
    forall i: nat | i < g.n
      ensures SumsAgree(points + [p], g, more, i)
    {
      assert SumsAgree(points, g, rows, i);
      BumpedSums(points, g, rows, k, p, i);
    }
    forall key | key !in at
      ensures Unseen(points + [p], g, key)
    {
      assert Unseen(points, g, key);
      StillUnseen(points, g, key, p);
    }
    hide AllFull, ByKey, KeyBucket, IsKeyRow, TruncDiv, SumsAgree, Unseen;
  }

  lemma BumpedByKey(points: seq<Point>, g: Grid, rows: seq<Row>, at: map<string, nat>, p: Point)
    requires Folded(points, g, rows, at) && OnGrid(g, p) && p.key in at
    ensures var k := at[p.key];
            Full(g, rows[k]) && forall x | x in rows[k := Bumped(g, rows[k], Slot(g, p), p.b)] :: IsKeyRow(points + [p], g, x)
  {
    var (k, s) := (at[p.key], Slot(g, p));
    assert rows[k] in rows;
    var more := rows[k := Bumped(g, rows[k], s, p.b)];
    hide IsKeyRow, KeyBucket, TruncDiv, SumsAgree, Unseen, RowTotal;
    forall x | x in more
      ensures IsKeyRow(points + [p], g, x)
    {
      var j :| 0 <= j < |more| && more[j] == x;
      assert rows[j] in rows;
      BumpedIsKeyRow(points, g, rows[j], p);
      assert j != k ==> rows[j].key != p.key;
    }
  }

  lemma BumpedSums(points: seq<Point>, g: Grid, rows: seq<Row>, k: nat, p: Point, i: nat)
    requires g.width > 0 && AllFull(g, rows) && i < g.n && k < |rows| && OnGrid(g, p) && SumsAgree(points, g, rows, i) && Full(g, rows[k])
    requires AllFull(g, rows[k := Bumped(g, rows[k], Slot(g, p), p.b)])
    ensures SumsAgree(points + [p], g, rows[k := Bumped(g, rows[k], Slot(g, p), p.b)], i)
  {
    assert (points + [p])[..|points|] == points;
    RowsSumAfter(rows, k, Bumped(g, rows[k], Slot(g, p), p.b), i);
    hide TruncDiv, RowTotal, RowsSum;
  }

  lemma StillUnseen(points: seq<Point>, g: Grid, key: string, p: Point)
    requires g.width > 0 && Unseen(points, g, key) && (p.key != key || !OnGrid(g, p))
    ensures Unseen(points + [p], g, key)
  {
    assert (points + [p])[..|points|] == points;
    hide TruncDiv, Add;
  }

  /** A point off the grid changes nothing. */
  lemma OffGrid(points: seq<Point>, g: Grid, rows: seq<Row>, at: map<string, nat>, p: Point)
    requires Folded(points, g, rows, at) && !OnGrid(g, p)
    ensures Folded(points + [p], g, rows, at)
  {
    assert (points + [p])[..|points|] == points;
    hide TruncDiv, Add, RowTotal, RowsSum;
    forall r | r in rows
      ensures IsKeyRow(points + [p], g, r)
    {
      assert IsKeyRow(points, g, r);
    }
    forall i: nat | i < g.n
      ensures SumsAgree(points + [p], g, rows, i)
    {
      assert SumsAgree(points, g, rows, i);
    }
    forall key | key !in at
      ensures Unseen(points + [p], g, key)
    {
      assert Unseen(points, g, key);
    }
  }

  /** The key has a point on the grid. */
  ghost predicate Seen(points: seq<Point>, g: Grid, key: string)
    requires g.width > 0
  {
    exists p :: p in points && p.key == key && OnGrid(g, p)
  }

  /** The rows' keys are those with a point on the grid. */
  ghost predicate EveryKey(points: seq<Point>, g: Grid, rows: seq<Row>)
    requires g.width > 0
  {
    forall key :: Seen(points, g, key) <==> exists r :: r in rows && r.key == key
  }

  lemma SeenMore(points: seq<Point>, g: Grid, p: Point)
    requires g.width > 0
    ensures forall key :: Seen(points + [p], g, key) <==> Seen(points, g, key) || (key == p.key && OnGrid(g, p))
  {
    hide OnGrid;
    assert forall x :: x in points + [p] <==> x in points || x == p;
  }

  /** One row per key seen on the grid, holding exactly its points. */
  method FoldPoints(points: seq<Point>, g: Grid) returns (rows: seq<Row>)
    requires Proper(g)
    ensures AllFull(g, rows) && ByKey(points, g, rows) && AddUp(points, g, rows)
    ensures DistinctKeys(rows) && EveryKey(points, g, rows)
  {
    hide KeyBucket, SlotSum, TruncDiv, Add, Folded, Seen, AllFull, ByKey, AddUp, DistinctKeys, EveryKey;
    rows := [];
    var index: map<string, nat> := map[];
    NothingFolded(g);
    NothingSeen(g);
    for n := 0 to |points|
      invariant Folded(points[..n], g, rows, index)
      invariant forall key :: key in index <==> Seen(points[..n], g, key)
    {
      var p := points[n];
      assert points[..n + 1] == points[..n] + [p];
      SeenMore(points[..n], g, p);
      if !OnGrid(g, p) {
        OffGrid(points[..n], g, rows, index, p);
        continue;
      }
      if p.key !in index {
        NewRow(points[..n], g, rows, index, p.key);
        index := index[p.key := |rows|];
        rows := rows + [BlankRow(g, p.key)];
      }
      RowOfKey(points[..n], g, rows, index, p);
      var k := index[p.key];
      OneMorePoint(points[..n], g, rows, index, p);
      rows := rows[k := Bumped(g, rows[k], Slot(g, p), p.b)];
    }
    assert points[..|points|] == points;
    FoldedRows(points, g, rows, index);
  }

  lemma NothingSeen(g: Grid)
    requires g.width > 0
    ensures forall key :: !Seen([], g, key)
  {
  }

  /** Where an indexed key's point goes. */
  lemma RowOfKey(points: seq<Point>, g: Grid, rows: seq<Row>, at: map<string, nat>, p: Point)
    requires Folded(points, g, rows, at) && p.key in at && OnGrid(g, p)
    ensures at[p.key] < |rows| && 0 <= Slot(g, p) < |rows[at[p.key]].buckets|
  {
    assert rows[at[p.key]] in rows;
    hide KeyBucket, SlotSum, TruncDiv, Add;
  }

  lemma FoldedRows(points: seq<Point>, g: Grid, rows: seq<Row>, at: map<string, nat>)
    requires Folded(points, g, rows, at) && forall key :: key in at <==> Seen(points, g, key)
    ensures AllFull(g, rows) && ByKey(points, g, rows) && AddUp(points, g, rows) && DistinctKeys(rows) && EveryKey(points, g, rows)
  {
    hide KeyBucket, SlotSum, TruncDiv, Add, Seen;
    IndexIsKeys(rows, at);
  }

  lemma IndexIsKeys(rows: seq<Row>, at: map<string, nat>)
    requires Indexed(rows, at)
    ensures DistinctKeys(rows) && forall key :: key in at <==> exists r :: r in rows && r.key == key
  {
    forall key
      ensures key in at <==> exists r :: r in rows && r.key == key
    {
      if key in at {
        assert rows[at[key]] in rows;
      }
    }
  }

  lemma NothingFolded(g: Grid)
    requires Proper(g)
    ensures Folded([], g, [], map[])
  {
  }

  // ----- order and limit ----------------------------------------------------------------

  /** Go's order of strings. */
  predicate Less(a: string, b: string) {
    b != [] && (a == [] || a[0] < b[0] || (a[0] == b[0] && Less(a[1..], b[1..])))
  }

  lemma {:induction false} LessIsTotal(a: string, b: string)
    ensures !Less(a, a) && !(Less(a, b) && Less(b, a)) && (Less(a, b) || a == b || Less(b, a))
  {
    if a != [] && b != [] {
      LessIsTotal(a[1..], b[1..]);
      assert a == [a[0]] + a[1..] && b == [b[0]] + b[1..];
    } else if a != [] {
      LessIsTotal(a[1..], []);
    }
  }

  lemma {:induction false} NotLessIsTransitive(a: string, b: string, c: string)
    requires !Less(b, a) && !Less(c, b)
    ensures !Less(c, a)
  {
    if a != [] && b != [] && c != [] && a[0] == b[0] == c[0] {
      NotLessIsTransitive(a[1..], b[1..], c[1..]);
    }
  }

  predicate Ahead(a: Row, b: Row) {
    a.requests > b.requests || (a.requests == b.requests && Less(a.key, b.key))
  }

  /** Most requests first, and by key among equals. */
  predicate Ranked(rows: seq<Row>) {
    forall i, j | 0 <= i < j < |rows| :: !Ahead(rows[j], rows[i])
  }

  /** The keys part at the k-th character, or the first ends there. */
  predicate PartsAt(a: string, b: string, k: nat) {
    k <= |a| && k < |b| && a[..k] == b[..k] && (k == |a| || a[k] < b[k])
  }

  /** Keys are in dictionary order. */
  lemma {:induction false} LessSays(a: string, b: string)
    ensures Less(a, b) <==> exists k: nat :: PartsAt(a, b, k)
  {
    if a == [] || b == [] {
      if b != [] {
        assert PartsAt(a, b, 0);
      }
    } else {
      LessSays(a[1..], b[1..]);
      if a[0] < b[0] {
        assert PartsAt(a, b, 0);
      } else if k: nat :| PartsAt(a[1..], b[1..], k) && a[0] == b[0] {
        assert a[..k + 1] == [a[0]] + a[1..][..k] && b[..k + 1] == [b[0]] + b[1..][..k];
        assert PartsAt(a, b, k + 1);
      }
      if k: nat :| PartsAt(a, b, k) && k > 0 {
        assert a[..k][0] == a[0] && b[..k][0] == b[0];
        assert a[..k][1..] == a[1..][..k - 1] && b[..k][1..] == b[1..][..k - 1];
        assert PartsAt(a[1..], b[1..], k - 1);
      }
    }
  }

  /** No row has more requests than one before it, and among equals the keys go up. */
  lemma RankedSays(rows: seq<Row>, i: nat, j: nat)
    requires Ranked(rows) && i < j < |rows|
    ensures rows[i].requests > rows[j].requests ||
            (rows[i].requests == rows[j].requests && (rows[i].key == rows[j].key || exists k: nat :: PartsAt(rows[i].key, rows[j].key, k)))
  {
    LessIsTotal(rows[i].key, rows[j].key);
    LessSays(rows[i].key, rows[j].key);
    hide Less;
    assert !Ahead(rows[j], rows[i]);
  }

  predicate DistinctKeys(rows: seq<Row>) {
    forall i, j | 0 <= i < j < |rows| :: rows[i].key != rows[j].key
  }

  lemma NotAheadIsTransitive(a: Row, b: Row, c: Row)
    requires !Ahead(b, a) && !Ahead(c, b)
    ensures !Ahead(c, a)
  {
    hide Less;
    if a.requests == b.requests == c.requests {
      NotLessIsTransitive(a.key, b.key, c.key);
    }
  }

  /** With distinct keys the order leaves no choice: of any two rows exactly one goes first. */
  lemma RankedIsStrict(rows: seq<Row>, i: nat, j: nat)
    requires Ranked(rows) && DistinctKeys(rows) && i < j < |rows|
    ensures Ahead(rows[i], rows[j])
  {
    LessIsTotal(rows[i].key, rows[j].key);
    hide Less;
  }

  /** Sorts by requests, most first, and by key. */
  method SortRows(rows: seq<Row>) returns (out: seq<Row>)
    ensures Ranked(out) && multiset(out) == multiset(rows)
    ensures DistinctKeys(rows) ==> DistinctKeys(out)
  {
    hide Ahead;
    out := [];
    for n := 0 to |rows|
      invariant Ranked(out) && multiset(out) == multiset(rows[..n])
      invariant DistinctKeys(rows) ==> DistinctKeys(out)
    {
      var r := rows[n];
      assert rows[..n + 1] == rows[..n] + [r];
      var at := |out|;
      while at > 0 && Ahead(r, out[at - 1])
        invariant 0 <= at <= |out|
        invariant forall k | at <= k < |out| :: Ahead(r, out[k])
      {
        at := at - 1;
      }
      RankedInsert(out, r, at);
      InsertedMultiset(out, r, at);
      if DistinctKeys(rows) {
        DistinctInsert(rows, n, out, at);
      }
      out := out[..at] + [r] + out[at..];
    }
    assert rows[..|rows|] == rows;
  }

  lemma DistinctInsert(rows: seq<Row>, n: nat, out: seq<Row>, at: nat)
    requires n < |rows| && DistinctKeys(rows) && DistinctKeys(out) && at <= |out| && multiset(out) == multiset(rows[..n])
    ensures DistinctKeys(out[..at] + [rows[n]] + out[at..])
  {
    var more := out[..at] + [rows[n]] + out[at..];
    forall k | 0 <= k < |out|
      ensures out[k].key != rows[n].key
    {
      assert out[k] in multiset(out);
      assert out[k] in multiset(rows[..n]);
      var m :| 0 <= m < n && rows[m] == out[k];
    }
    forall i, j | 0 <= i < j < |more|
      ensures more[i].key != more[j].key
    {
      InsertedAt(out, rows[n], at, i);
      InsertedAt(out, rows[n], at, j);
    }
  }

  lemma AheadIsAsymmetric(a: Row, b: Row)
    ensures !(Ahead(a, b) && Ahead(b, a))
  {
    LessIsTotal(a.key, b.key);
    hide Less;
  }

  lemma RankedInsert(out: seq<Row>, r: Row, at: nat)
    requires Ranked(out) && at <= |out|
    requires (forall k | at <= k < |out| :: Ahead(r, out[k])) && (at > 0 ==> !Ahead(r, out[at - 1]))
    ensures Ranked(out[..at] + [r] + out[at..])
  {
    hide Ahead;
    var more := out[..at] + [r] + out[at..];
    forall i, j | 0 <= i < j < |more|
      ensures !Ahead(more[j], more[i])
    {
      InsertedAt(out, r, at, i);
      InsertedAt(out, r, at, j);
      if i == at {
        AheadIsAsymmetric(r, out[j - 1]);
      } else if j == at && i < at - 1 {
        NotAheadIsTransitive(out[i], out[at - 1], r);
      }
    }
  }

  lemma InsertedMultiset<T>(xs: seq<T>, x: T, at: nat)
    requires at <= |xs|
    ensures multiset(xs[..at] + [x] + xs[at..]) == multiset(xs) + multiset{x}
  {
    assert xs == xs[..at] + xs[at..];
  }

  lemma InsertedAt<T>(xs: seq<T>, x: T, at: nat, i: nat)
    requires at <= |xs| && i <= |xs|
    ensures (xs[..at] + [x] + xs[at..])[i] == if i < at then xs[i] else if i == at then x else xs[i - 1]
  {
  }

  /** The sum over rows is the sum over the rows as a collection. */
  lemma {:induction false} RowsSumOfMultiset(a: seq<Row>, b: seq<Row>, i: nat)
    requires multiset(a) == multiset(b) && forall x | x in a :: i < |x.buckets|
    ensures forall x | x in b :: i < |x.buckets|
    ensures RowsSum(a, i) == RowsSum(b, i)
    decreases |a|
  {
    hide Plus, RowsSum;
    assert forall x :: x in b <==> x in multiset(b);
    assert forall x :: x in a <==> x in multiset(a);
    SameLength(a, b);
    if a != [] {
      var (n, r) := (|a| - 1, a[|a| - 1]);
      assert a == a[..n] + [r];
      assert r in multiset(b);
      var k :| 0 <= k < |b| && b[k] == r;
      TakeOut(a[..n], r, b, k);
      RowsSumOfMultiset(a[..n], b[..k] + b[k + 1..], i);
      RowsSumInsert(b[..k], b[k + 1..], r, i);
      RowsSumSnoc(a[..n], r, i);
    }
  }

  lemma SameLength<T>(a: seq<T>, b: seq<T>)
    requires multiset(a) == multiset(b)
    ensures |a| == |b|
  {
    assert |a| == |multiset(a)| == |multiset(b)| == |b|;
  }

  lemma TakeOut<T>(front: seq<T>, r: T, b: seq<T>, k: nat)
    requires k < |b| && b[k] == r && multiset(front + [r]) == multiset(b)
    ensures b == b[..k] + [r] + b[k + 1..] && multiset(front) == multiset(b[..k] + b[k + 1..])
  {
    assert b == b[..k] + [r] + b[k + 1..];
    assert multiset(b) == multiset(b[..k] + b[k + 1..]) + multiset{r};
    assert multiset(front + [r]) == multiset(front) + multiset{r};
    Cancel(multiset(front), multiset(b[..k] + b[k + 1..]), r);
  }

  lemma Cancel<T>(a: multiset<T>, b: multiset<T>, r: T)
    requires a + multiset{r} == b + multiset{r}
    ensures a == b
  {
    assert a == a + multiset{r} - multiset{r};
    assert b == b + multiset{r} - multiset{r};
  }

  lemma {:induction false} RowsSumInsert(a: seq<Row>, b: seq<Row>, r: Row, i: nat)
    requires i < |r.buckets| && (forall x | x in a :: i < |x.buckets|) && forall x | x in b :: i < |x.buckets|
    ensures RowsSum(a + [r] + b, i) == Plus(RowsSum(a + b, i), r.buckets[i].sums)
  {
    hide Plus, RowsSum;
    if b == [] {
      assert a + [r] + b == a + [r] && a + b == a;
      RowsSumSnoc(a, r, i);
    } else {
      var (front, x) := (b[..|b| - 1], b[|b| - 1]);
      RowsSumInsert(a, front, r, i);
      assert a + [r] + b == (a + [r] + front) + [x] && a + b == (a + front) + [x];
      RowsSumSnoc(a + [r] + front, x, i);
      RowsSumSnoc(a + front, x, i);
      PlusAssoc(RowsSum(a + front, i), r.buckets[i].sums, x.buckets[i].sums);
    }
  }

  lemma {:induction false} RowsSumSplit(a: seq<Row>, b: seq<Row>, i: nat)
    requires (forall x | x in a :: i < |x.buckets|) && forall x | x in b :: i < |x.buckets|
    ensures RowsSum(a + b, i) == Plus(RowsSum(a, i), RowsSum(b, i))
  {
    if b == [] {
      assert a + b == a;
      PlusZero(RowsSum(a, i));
    } else {
      var (front, r) := (b[..|b| - 1], b[|b| - 1]);
      hide Plus, RowsSum;
      RowsSumSplit(a, front, i);
      assert a + b == (a + front) + [r] && b == front + [r];
      RowsSumSnoc(a + front, r, i);
      RowsSumSnoc(front, r, i);
      PlusAssoc(RowsSum(a, i), RowsSum(front, i), r.buckets[i].sums);
    }
  }

  const OTHER := "other"

  /** The bucket that folds the buckets of these rows. */
  function OtherBucket(rows: seq<Row>, g: Grid, i: nat): Bucket
    requires forall r | r in rows :: i < |r.buckets|
  {
    if rows == [] then Blank(g, i)
    else
      assert rows[|rows| - 1] in rows;
      Add(OtherBucket(rows[..|rows| - 1], g, i), rows[|rows| - 1].buckets[i])
  }

  lemma {:induction false} OtherSums(rows: seq<Row>, g: Grid, i: nat)
    requires forall r | r in rows :: i < |r.buckets|
    ensures OtherBucket(rows, g, i).sums == RowsSum(rows, i) && OtherBucket(rows, g, i).start == g.start + i * g.width
  {
    if rows != [] {
      OtherSums(rows[..|rows| - 1], g, i);
      hide TruncDiv;
    }
  }

  /** The mean of a folded bucket lies within the range of what was folded. */
  lemma {:induction false} OtherMeanInRange(rows: seq<Row>, g: Grid, i: nat, lo: int, hi: int)
    requires forall r | r in rows :: i < |r.buckets| && InRange(r.buckets[i], lo, hi)
    ensures InRange(OtherBucket(rows, g, i), lo, hi)
  {
    if rows != [] {
      OtherMeanInRange(rows[..|rows| - 1], g, i, lo, hi);
      assert rows[|rows| - 1] in rows;
      MeanInRange(OtherBucket(rows[..|rows| - 1], g, i), rows[|rows| - 1].buckets[i], lo, hi);
    }
  }

  method FoldOther(rows: seq<Row>, g: Grid) returns (other: Row)
    requires AllFull(g, rows) && Proper(g)
    ensures other.key == OTHER && Full(g, other) && other.requests == RowTotal(other.buckets)
    ensures forall i | 0 <= i < g.n :: other.buckets[i] == OtherBucket(rows, g, i)
  {
    other := BlankRow(g, OTHER);
    BlankTotal(other.buckets);
    for n := 0 to |rows|
      invariant Full(g, other) && other.key == OTHER && other.requests == RowTotal(other.buckets)
      invariant forall i | 0 <= i < g.n :: other.buckets[i] == OtherBucket(rows[..n], g, i)
    {
      assert rows[n] in rows;
      other := AddRow(other, rows[n], g);
      assert rows[..n + 1][..n] == rows[..n];
    }
    assert rows[..|rows|] == rows;
  }

  method AddRow(dst: Row, src: Row, g: Grid) returns (out: Row)
    requires Full(g, dst) && Full(g, src) && dst.requests == RowTotal(dst.buckets) && src.requests == RowTotal(src.buckets)
    ensures out.key == dst.key && Full(g, out) && out.requests == RowTotal(out.buckets)
    ensures forall i | 0 <= i < g.n :: out.buckets[i] == Add(dst.buckets[i], src.buckets[i])
  {
    hide TruncDiv;
    out := dst.(requests := dst.requests + src.requests);
    ghost var total := dst.requests;
    for i := 0 to |src.buckets|
      invariant out.key == dst.key && |out.buckets| == g.n && out.requests == dst.requests + src.requests
      invariant forall k | 0 <= k < g.n :: out.buckets[k] == if k < i then Add(dst.buckets[k], src.buckets[k]) else dst.buckets[k]
      invariant RowTotal(out.buckets) == dst.requests + RowTotal(src.buckets[..i])
    {
      RowTotalAfter(out.buckets, i, Add(out.buckets[i], src.buckets[i]));
      assert src.buckets[..i + 1][..i] == src.buckets[..i];
      out := out.(buckets := out.buckets[i := Add(out.buckets[i], src.buckets[i])]);
    }
    assert src.buckets[..|src.buckets|] == src.buckets;
  }

  /** The rows kept and the rows folded: all of them the keys' own, one for each key on the grid, in order of
      requests and then of keys, and the last row shown the bucket-wise fold of those not kept. */
  ghost predicate Cut(points: seq<Point>, g: Grid, limit: int, out: seq<Row>, folded: seq<Row>)
    requires g.width > 0
  {
    && AllFull(g, folded) && ByKey(points, g, folded)
    && if folded == [] then
         AllFull(g, out) && ByKey(points, g, out) && (limit <= 0 || |out| <= limit)
         && Ranked(out) && DistinctKeys(out) && EveryKey(points, g, out)
       else
         && limit > 0 && |out| == limit + 1 && out[limit].key == OTHER
         && AllFull(g, out[..limit]) && ByKey(points, g, out[..limit])
         && Ranked(out[..limit] + folded) && DistinctKeys(out[..limit] + folded) && EveryKey(points, g, out[..limit] + folded)
         && |out[limit].buckets| == g.n && forall i | 0 <= i < g.n :: out[limit].buckets[i] == OtherBucket(folded, g, i)
  }

  // ----- overall ------------------------------------------------------------------------

  /** Everything in these buckets. */
  function BucketsSum(buckets: seq<Bucket>): Sums {
    if buckets == [] then ZERO else Plus(BucketsSum(buckets[..|buckets| - 1]), buckets[|buckets| - 1].sums)
  }

  /** Everything the rows say. */
  function GrandTotal(rows: seq<Row>): Sums {
    if rows == [] then ZERO else Plus(GrandTotal(rows[..|rows| - 1]), BucketsSum(rows[|rows| - 1].buckets))
  }

  /** Everything on the grid. */
  function GridTotal(points: seq<Point>, g: Grid): Sums
    requires g.width > 0
  {
    if points == [] then ZERO
    else
      var (before, p) := (GridTotal(points[..|points| - 1], g), points[|points| - 1]);
      if OnGrid(g, p) then Plus(before, p.b.sums) else before
  }

  /** The first n slots together. */
  function SlotsTotal(points: seq<Point>, g: Grid, n: nat): Sums
    requires g.width > 0
  {
    if n == 0 then ZERO else Plus(SlotsTotal(points, g, n - 1), SlotSum(points, g, n - 1))
  }

  lemma {:induction false} SlotsMore(points: seq<Point>, g: Grid, p: Point, n: nat)
    requires g.width > 0 && n <= g.n
    ensures SlotsTotal(points + [p], g, n) ==
            if 0 <= Slot(g, p) < n then Plus(SlotsTotal(points, g, n), p.b.sums) else SlotsTotal(points, g, n)
  {
    assert (points + [p])[..|points|] == points;
    if n > 0 {
      SlotsMore(points, g, p, n - 1);
      hide TruncDiv;
    }
  }

  lemma {:induction false} NoPoints(g: Grid, n: nat)
    requires g.width > 0
    ensures SlotsTotal([], g, n) == ZERO
  {
    if n > 0 {
      NoPoints(g, n - 1);
    }
  }

  lemma {:induction false} SlotsAreAll(points: seq<Point>, g: Grid)
    requires g.width > 0
    ensures SlotsTotal(points, g, g.n) == GridTotal(points, g)
  {
    if points == [] {
      NoPoints(g, g.n);
    } else {
      var (front, p) := (points[..|points| - 1], points[|points| - 1]);
      SlotsAreAll(front, g);
      SlotsMore(front, g, p, g.n);
      assert points == front + [p];
      hide SlotsTotal, Slot;
    }
  }

  /** The first n slots of the rows together. */
  function Across(rows: seq<Row>, n: nat): Sums
    requires forall r | r in rows :: n <= |r.buckets|
  {
    if n == 0 then ZERO else Plus(Across(rows, n - 1), RowsSum(rows, n - 1))
  }

  lemma {:induction false} AcrossMore(rows: seq<Row>, r: Row, n: nat)
    requires n <= |r.buckets| && forall x | x in rows :: n <= |x.buckets|
    ensures forall x | x in rows + [r] :: n <= |x.buckets|
    ensures Across(rows + [r], n) == Plus(Across(rows, n), BucketsSum(r.buckets[..n]))
  {
    hide RowsSum, Plus;
    if n == 0 {
      PlusZero(ZERO);
    }
    if n > 0 {
      AcrossMore(rows, r, n - 1);
      RowsSumSnoc(rows, r, n - 1);
      assert r.buckets[..n][..n - 1] == r.buckets[..n - 1];
      PlusSwap(Across(rows, n - 1), BucketsSum(r.buckets[..n - 1]), RowsSum(rows, n - 1), r.buckets[n - 1].sums);
    }
  }

  lemma {:induction false} NoRows(n: nat)
    ensures Across([], n) == ZERO
  {
    if n > 0 {
      NoRows(n - 1);
    }
  }

  lemma {:induction false} RowsAreAll(rows: seq<Row>, n: nat)
    requires forall r | r in rows :: |r.buckets| == n
    ensures Across(rows, n) == GrandTotal(rows)
  {
    if rows == [] {
      NoRows(n);
    } else {
      var (front, r) := (rows[..|rows| - 1], rows[|rows| - 1]);
      assert r in rows && forall x | x in front :: x in rows;
      RowsAreAll(front, n);
      AcrossMore(front, r, n);
      assert rows == front + [r] && r.buckets[..n] == r.buckets;
      hide Across, BucketsSum;
    }
  }

  lemma {:induction false} SlotsAgree(points: seq<Point>, g: Grid, rows: seq<Row>, n: nat)
    requires g.width > 0 && AllFull(g, rows) && AddUp(points, g, rows) && n <= g.n
    ensures forall r | r in rows :: n <= |r.buckets|
    ensures Across(rows, n) == SlotsTotal(points, g, n)
  {
    hide RowsSum, SlotSum, RowTotal;
    if n > 0 {
      SlotsAgree(points, g, rows, n - 1);
      assert SumsAgree(points, g, rows, n - 1);
    }
  }

  /** Rows that add up slot by slot add up overall. */
  lemma TotalsConserved(points: seq<Point>, g: Grid, rows: seq<Row>)
    requires g.width > 0 && AllFull(g, rows) && AddUp(points, g, rows)
    ensures GrandTotal(rows) == GridTotal(points, g)
  {
    SlotsAgree(points, g, rows, g.n);
    SlotsAreAll(points, g);
    RowsAreAll(rows, g.n);
  }

  /** The chart's rows: slot by slot and overall they add up to everything on the grid; each row's total is
      the sum of its buckets; there is one row for each key on the grid, kept or folded; and the kept ones
      come first by requests and then by key. */
  method AssembleSeries(points: seq<Point>, since: nat, bucket: int, limit: int, now: int)
    returns (out: seq<Row>)
    ensures var g := GridOf(since, bucket, now);
            && AllFull(g, out) && AddUp(points, g, out) && GrandTotal(out) == GridTotal(points, g)
            && exists folded :: Cut(points, g, limit, out, folded)
  {
    hide TruncDiv, KeyBucket, SlotSum, OtherBucket, RowTotal, Full, IsKeyRow, Ahead, EveryKey, DistinctKeys, GrandTotal, GridTotal;
    var g := GridOf(since, bucket, now);
    var rows := FoldPoints(points, g);
    out := SortRows(rows);
    SortedStillFolded(points, g, rows, out);
    SameKeys(points, g, rows, out);
    if limit > 0 && |out| > limit {
      ghost var sorted := out;
      CutFull(points, g, out, limit);
      var other := FoldOther(out[limit..], g);
      out := out[..limit] + [other];
      assert out[..limit] == sorted[..limit] && sorted[..limit] + sorted[limit..] == sorted;
      OtherAddsUp(points, g, sorted, limit, other);
      assert Cut(points, g, limit, out, sorted[limit..]) by { FullLength(g, other); }
    } else {
      assert Cut(points, g, limit, out, []);
    }
    TotalsConserved(points, g, out);
  }

  lemma SameKeys(points: seq<Point>, g: Grid, rows: seq<Row>, out: seq<Row>)
    requires g.width > 0 && multiset(rows) == multiset(out) && EveryKey(points, g, rows)
    ensures EveryKey(points, g, out)
  {
    hide Seen;
    assert forall x :: x in out <==> x in multiset(out);
    assert forall x :: x in rows <==> x in multiset(rows);
  }

  lemma FullLength(g: Grid, r: Row)
    requires Full(g, r)
    ensures |r.buckets| == g.n
  {
  }

  lemma SortedStillFolded(points: seq<Point>, g: Grid, rows: seq<Row>, out: seq<Row>)
    requires g.width > 0 && multiset(rows) == multiset(out) && AllFull(g, rows) && ByKey(points, g, rows) && AddUp(points, g, rows)
    ensures AllFull(g, out) && ByKey(points, g, out) && AddUp(points, g, out)
  {
    hide TruncDiv, KeyBucket, SlotSum, RowTotal, IsKeyRow, Full;
    assert forall x :: x in out <==> x in multiset(out);
    assert forall x :: x in rows <==> x in multiset(rows);
    assert AllFull(g, out);
    forall i: nat | i < g.n
      ensures SumsAgree(points, g, out, i)
    {
      assert SumsAgree(points, g, rows, i);
      FullHas(g, rows, i);
      RowsSumOfMultiset(rows, out, i);
    }
  }

  lemma CutFull(points: seq<Point>, g: Grid, rows: seq<Row>, limit: nat)
    requires g.width > 0 && AllFull(g, rows) && ByKey(points, g, rows) && limit <= |rows|
    ensures AllFull(g, rows[..limit]) && ByKey(points, g, rows[..limit])
    ensures AllFull(g, rows[limit..]) && ByKey(points, g, rows[limit..])
  {
    hide Full, IsKeyRow, RowTotal;
    assert forall x | x in rows[..limit] :: x in rows;
    assert forall x | x in rows[limit..] :: x in rows;
  }

  lemma OtherAddsUp(points: seq<Point>, g: Grid, rows: seq<Row>, limit: nat, other: Row)
    requires Proper(g) && limit <= |rows| && AllFull(g, rows) && AddUp(points, g, rows)
    requires AllFull(g, rows[limit..]) && AllFull(g, rows[..limit])
    requires Full(g, other) && other.requests == RowTotal(other.buckets)
    requires forall i | 0 <= i < g.n :: other.buckets[i] == OtherBucket(rows[limit..], g, i)
    ensures AllFull(g, rows[..limit] + [other]) && AddUp(points, g, rows[..limit] + [other])
  {
    hide TruncDiv, SlotSum, RowTotal, OtherBucket;
    assert forall x | x in rows[..limit] + [other] :: x in rows[..limit] || x == other;
    forall i: nat | i < g.n
      ensures SumsAgree(points, g, rows[..limit] + [other], i)
    {
      assert SumsAgree(points, g, rows, i);
      FullHas(g, rows[..limit], i);
      FullHas(g, rows[limit..], i);
      RowsSumSplit(rows[..limit], rows[limit..], i);
      assert rows == rows[..limit] + rows[limit..];
      OtherSums(rows[limit..], g, i);
      assert (rows[..limit] + [other])[..limit] == rows[..limit];
    }
  }
}
