/** The meaning of the usage history: what a row of any tier must say about the raw samples,
    stated without the incremental roll-up. Averages are exact reals. */
module TelemetrySpec {

  // ----- tiers (app/telemetry/tiers.py) -----

  datatype Tier = FiveSeconds | Minute | Hour | Day

  const TIERS: seq<Tier> := [FiveSeconds, Minute, Hour, Day]

  function Step(t: Tier): int {
    match t
    case FiveSeconds => 5
    case Minute => 60
    case Hour => 3600
    case Day => 86400
  }

  function Keep(t: Tier): int {
    match t
    case FiveSeconds => 3600
    case Minute => 24 * 3600
    case Hour => 30 * 24 * 3600
    case Day => 365 * 24 * 3600
  }

  /** The finer tier a coarse tier is averaged from. */
  function Source(t: Tier): Tier
    requires t != FiveSeconds
  {
    match t
    case Minute => FiveSeconds
    case Hour => Minute
    case Day => Hour
  }

  /** `int(ts)` truncates toward zero; `//` floors. */
  function Truncate(ts: real): int {
    if ts >= 0.0 then ts.Floor else -((-ts).Floor)
  }

  function Bucket(ts: real, step: int): int
    requires step > 0
  {
    Truncate(ts) / step * step
  }

  // ----- samples and totals -----

  datatype Usage = Usage(cpu: real, memory: real)

  /** The raw samples of one model: 5-second bucket start to the last measurement in that bucket. */
  type History = map<int, Usage>

  ghost predicate IsHistory(h: History) {
    forall ts :: ts in h ==> ts >= 0 && ts % 5 == 0
  }

  datatype Totals = Totals(n: nat, cpu: real, cpuMax: real, mem: real, memMax: real)

  const NOTHING := Totals(0, 0.0, 0.0, 0.0, 0.0)

  function Max(a: real, b: real): real { if a >= b then a else b }

  function Plus(a: Totals, b: Totals): Totals {
    if a.n == 0 then b
    else if b.n == 0 then a
    else Totals(a.n + b.n, a.cpu + b.cpu, Max(a.cpuMax, b.cpuMax), a.mem + b.mem, Max(a.memMax, b.memMax))
  }

  function One(u: Usage): Totals { Totals(1, u.cpu, u.cpu, u.memory, u.memory) }

  /** The one-shot aggregate of every raw sample with a time in [lo, hi). */
  ghost function Batch(h: History, lo: int, hi: int): Totals
    decreases hi - lo
  {
    if hi <= lo then NOTHING
    else Plus(Batch(h, lo, hi - 1), if hi - 1 in h then One(h[hi - 1]) else NOTHING)
  }

  lemma {:induction false} BatchSplit(h: History, lo: int, mid: int, hi: int)
    requires lo <= mid <= hi
    ensures Batch(h, lo, hi) == Plus(Batch(h, lo, mid), Batch(h, mid, hi))
    decreases hi - mid
  {
    if mid < hi {
      BatchSplit(h, lo, mid, hi - 1);
    }
  }

  lemma {:induction false} BatchOfNothing(h: History, lo: int, hi: int)
    ensures Batch(h, lo, hi).n == 0 <==> forall ts :: lo <= ts < hi ==> ts !in h
    ensures Batch(h, lo, hi).n == 0 ==> Batch(h, lo, hi) == NOTHING
    decreases hi - lo
  {
    if lo < hi {
      BatchOfNothing(h, lo, hi - 1);
    }
  }

  lemma {:induction false} BatchAgrees(h: History, h': History, lo: int, hi: int)
    requires forall ts :: lo <= ts < hi ==> (ts in h <==> ts in h') && (ts in h ==> h[ts] == h'[ts])
    ensures Batch(h, lo, hi) == Batch(h', lo, hi)
    decreases hi - lo
  {
    if lo < hi {
      BatchAgrees(h, h', lo, hi - 1);
    }
  }

  /** The count of a batch is the number of its samples. */
  lemma {:induction false} BatchCounts(h: History, lo: int, hi: int)
    ensures Batch(h, lo, hi).n == |set ts | ts in h && lo <= ts < hi|
    decreases hi - lo
  {
    var all := set ts | ts in h && lo <= ts < hi;
    if lo < hi {
      BatchCounts(h, lo, hi - 1);
      var front := set ts | ts in h && lo <= ts < hi - 1;
      assert all == front + (if hi - 1 in h then {hi - 1} else {});
    } else {
      assert all == {};
    }
  }

  /** The maxima of a batch bound every sample and are reached. */
  lemma {:induction false} BatchPeaks(h: History, lo: int, hi: int)
    ensures forall ts :: ts in h && lo <= ts < hi ==>
      h[ts].cpu <= Batch(h, lo, hi).cpuMax && h[ts].memory <= Batch(h, lo, hi).memMax
    ensures Batch(h, lo, hi).n > 0 ==> exists ts :: ts in h && lo <= ts < hi && h[ts].cpu == Batch(h, lo, hi).cpuMax
    ensures Batch(h, lo, hi).n > 0 ==> exists ts :: ts in h && lo <= ts < hi && h[ts].memory == Batch(h, lo, hi).memMax
    decreases hi - lo
  {
    if lo < hi {
      BatchPeaks(h, lo, hi - 1);
      BatchOfNothing(h, lo, hi - 1);
    }
  }

  // ----- rows -----

  datatype Row = Row(n: nat, cpuAvg: real, cpuMax: real, memAvg: real, memMax: real)

  datatype Key = Key(model: string, tier: Tier, ts: int)

  type Table = map<Key, Row>

  function RowOf(t: Totals): Row
    requires t.n > 0
  {
    Row(t.n, t.cpu / t.n as real, t.cpuMax, t.mem / t.n as real, t.memMax)
  }

  /** The totals a row stands for: its averages weighted by its sample count. */
  function Weight(r: Row): Totals {
    Totals(r.n, r.cpuAvg * r.n as real, r.cpuMax, r.memAvg * r.n as real, r.memMax)
  }

  lemma DivideMultiply(x: real, n: real)
    requires n != 0.0
    ensures x / n * n == x
  {
  }

  lemma WeightOfRow(t: Totals)
    requires t.n > 0
    ensures Weight(RowOf(t)) == t
  {
    DivideMultiply(t.cpu, t.n as real);
    DivideMultiply(t.mem, t.n as real);
  }

  /** A bucket of tier `t` has a final value: it is aligned, holds samples and (except in the finest
      tier) was over at the last roll-up. */
  ghost predicate Due(h: History, t: Tier, ts: int, rolled: real) {
    && ts % Step(t) == 0
    && Batch(h, ts, ts + Step(t)).n > 0
    && (t == FiveSeconds || (ts + Step(t)) as real <= rolled)
  }

  ghost predicate Kept(t: Tier, ts: int, pruned: real) {
    ts as real >= pruned - Keep(t) as real
  }

  /** The rows of one model in one tier are exactly the batch aggregates of its due and kept buckets. */
  ghost predicate SlotRefines(rows: Table, h: History, m: string, t: Tier, rolled: real, pruned: real) {
    && (forall ts :: Key(m, t, ts) in rows <==> Due(h, t, ts, rolled) && Kept(t, ts, pruned))
    && (forall ts :: Key(m, t, ts) in rows ==> rows[Key(m, t, ts)] == RowOf(Batch(h, ts, ts + Step(t))))
  }

  // ----- groups of source rows -----

  datatype Point = Point(ts: int, row: Row)

  // ----- what a row says, sample by sample -----

  ghost function Samples(h: History, lo: int, hi: int): set<int> { set ts | ts in h && lo <= ts < hi }

  ghost function SumCpu(h: History, lo: int, hi: int): real
    decreases hi - lo
  {
    if hi <= lo then 0.0 else SumCpu(h, lo, hi - 1) + (if hi - 1 in h then h[hi - 1].cpu else 0.0)
  }

  ghost function SumMemory(h: History, lo: int, hi: int): real
    decreases hi - lo
  {
    if hi <= lo then 0.0 else SumMemory(h, lo, hi - 1) + (if hi - 1 in h then h[hi - 1].memory else 0.0)
  }

  lemma {:induction false} BatchSums(h: History, lo: int, hi: int)
    ensures Batch(h, lo, hi).cpu == SumCpu(h, lo, hi) && Batch(h, lo, hi).mem == SumMemory(h, lo, hi)
    decreases hi - lo
  {
    if lo < hi {
      BatchSums(h, lo, hi - 1);
      BatchOfNothing(h, lo, hi - 1);
    }
  }

  ghost predicate Averages(r: Row, h: History, lo: int, hi: int) {
    && r.cpuAvg * r.n as real == SumCpu(h, lo, hi)
    && r.memAvg * r.n as real == SumMemory(h, lo, hi)
  }

  ghost predicate Peaks(r: Row, h: History, lo: int, hi: int) {
    && (forall ts :: ts in Samples(h, lo, hi) ==> h[ts].cpu <= r.cpuMax && h[ts].memory <= r.memMax)
    && (exists ts :: ts in Samples(h, lo, hi) && h[ts].cpu == r.cpuMax)
    && (exists ts :: ts in Samples(h, lo, hi) && h[ts].memory == r.memMax)
  }

  /** The row's count is the number of samples in [lo, hi), its averages are their averages, and its maxima are the
      largest of their values. */
  ghost predicate Describes(r: Row, h: History, lo: int, hi: int) {
    r.n > 0 && r.n == |Samples(h, lo, hi)| && Averages(r, h, lo, hi) && Peaks(r, h, lo, hi)
  }

  lemma RowAverages(t: Totals)
    requires t.n > 0
    ensures RowOf(t).cpuAvg * t.n as real == t.cpu && RowOf(t).memAvg * t.n as real == t.mem
  {
    DivideMultiply(t.cpu, t.n as real);
    DivideMultiply(t.mem, t.n as real);
  }

  lemma BatchAverages(h: History, lo: int, hi: int)
    requires Batch(h, lo, hi).n > 0
    ensures Averages(RowOf(Batch(h, lo, hi)), h, lo, hi)
  {
    BatchSums(h, lo, hi);
    RowAverages(Batch(h, lo, hi));
  }

  lemma BatchHasPeaks(h: History, lo: int, hi: int)
    requires Batch(h, lo, hi).n > 0
    ensures Peaks(RowOf(Batch(h, lo, hi)), h, lo, hi)
  {
    BatchPeaks(h, lo, hi);
    var c :| c in h && lo <= c < hi && h[c].cpu == Batch(h, lo, hi).cpuMax;
    var m :| m in h && lo <= m < hi && h[m].memory == Batch(h, lo, hi).memMax;
    assert c in Samples(h, lo, hi) && m in Samples(h, lo, hi);
  }

  lemma BatchDescribes(h: History, lo: int, hi: int)
    requires Batch(h, lo, hi).n > 0
    ensures Describes(RowOf(Batch(h, lo, hi)), h, lo, hi)
  {
    BatchCounts(h, lo, hi);
    BatchAverages(h, lo, hi);
    BatchHasPeaks(h, lo, hi);
  }

  /** So for every row of a table that refines the history. */
  lemma RowsDescribe(rows: Table, h: History, m: string, t: Tier, rolled: real, pruned: real)
    requires SlotRefines(rows, h, m, t, rolled, pruned)
    ensures forall ts :: Key(m, t, ts) in rows ==> Describes(rows[Key(m, t, ts)], h, ts, ts + Step(t))
  {
    forall ts | Key(m, t, ts) in rows ensures Describes(rows[Key(m, t, ts)], h, ts, ts + Step(t)) {
      BatchDescribes(h, ts, ts + Step(t));
    }
  }

  /** A bucket is due exactly when it is aligned, closed and not empty. */
  lemma DueIff(h: History, t: Tier, ts: int, rolled: real)
    ensures Due(h, t, ts, rolled) <==>
      ts % Step(t) == 0 && Samples(h, ts, ts + Step(t)) != {} && (t == FiveSeconds || (ts + Step(t)) as real <= rolled)
  {
    BatchOfNothing(h, ts, ts + Step(t));
    if Batch(h, ts, ts + Step(t)).n > 0 {
      var x :| ts <= x < ts + Step(t) && x in h;
      assert x in Samples(h, ts, ts + Step(t));
    }
  }

  /** `g` lists, in time order, exactly the rows of (m, t) with a time in [lo, hi). */
  ghost predicate Lists(g: seq<Point>, rows: Table, m: string, t: Tier, lo: int, hi: int) {
    if g == [] then
      forall ts :: lo <= ts < hi ==> Key(m, t, ts) !in rows
    else
      var p := g[|g| - 1];
      && lo <= p.ts < hi && Key(m, t, p.ts) in rows && rows[Key(m, t, p.ts)] == p.row
      && (forall ts :: p.ts < ts < hi ==> Key(m, t, ts) !in rows)
      && Lists(g[..|g| - 1], rows, m, t, lo, p.ts)
  }

  /** Sum of the counts, sums of the weighted averages, and maxima of a group of rows. */
  function Summed(g: seq<Point>): Totals {
    if g == [] then NOTHING else Plus(Summed(g[..|g| - 1]), Weight(g[|g| - 1].row))
  }

  /** In [lo, hi) the source tier still has every non-empty bucket, each with its batch value. */
  ghost predicate Complete(rows: Table, h: History, m: string, t: Tier, lo: int, hi: int) {
    && (forall ts :: lo <= ts < hi ==>
          (Key(m, t, ts) in rows <==> ts % Step(t) == 0 && Batch(h, ts, ts + Step(t)).n > 0))
    && (forall ts :: lo <= ts < hi && Key(m, t, ts) in rows ==>
          rows[Key(m, t, ts)] == RowOf(Batch(h, ts, ts + Step(t))))
  }

  /** Adding up the rows of a complete stretch gives the batch aggregate of its raw samples. */
  lemma {:induction false} GroupTotals(g: seq<Point>, rows: Table, h: History, m: string, t: Tier, lo: int, hi: int)
    requires lo <= hi && lo % Step(t) == 0 && hi % Step(t) == 0
    requires Lists(g, rows, m, t, lo, hi) && Complete(rows, h, m, t, lo, hi)
    ensures Summed(g) == Batch(h, lo, hi)
    decreases hi - lo
  {
    if lo == hi {
      if g != [] { assert false; }
    } else {
      var last := hi - Step(t);
      AlignedGap(lo, hi, Step(t));
      forall ts | last < ts < hi ensures Key(m, t, ts) !in rows {
        if ts % Step(t) == 0 { AlignedGap(ts, hi, Step(t)); }
      }
      BatchSplit(h, lo, last, hi);
      BatchOfNothing(h, last, hi);
      if Key(m, t, last) in rows {
        GroupTotals(g[..|g| - 1], rows, h, m, t, lo, last);
        WeightOfRow(Batch(h, last, hi));
      } else {
        GroupTotals(g, rows, h, m, t, lo, last);
      }
    }
  }

  /** Two different multiples of `step` are at least `step` apart. */
  lemma AlignedGap(a: int, b: int, step: int)
    requires step > 0 && a % step == 0 && b % step == 0 && a < b
    ensures a + step <= b && (b - step) % step == 0
  {
    var p, q := a / step, b / step;
    assert a == p * step && b == q * step;
    assert p < q;
    assert (p + 1) * step <= q * step by { MultiplyMonotone(p + 1, q, step); }
    assert b - step == (q - 1) * step;
    MultipleIsAligned(q - 1, step);
  }

  lemma MultiplyMonotone(a: int, b: int, step: int)
    requires a <= b && step > 0
    ensures a * step <= b * step
  {
  }

  lemma MultipleIsAligned(k: int, step: int)
    requires step > 0
    ensures k * step % step == 0
  {
    var q, r := k * step / step, k * step % step;
    assert k * step == q * step + r;
    assert (k - q) * step == r;
    if k - q >= 1 { MultiplyMonotone(1, k - q, step); } else if k - q <= -1 { MultiplyMonotone(k - q, -1, step); }
  }
}
