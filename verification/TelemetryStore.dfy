/** The incremental usage store (app/telemetry/store.py) and the collector that drives it
    (app/telemetry/collector.py). The table it keeps is, at every moment, the one-shot aggregation of
    the whole sample history. */
module TelemetryStore {
  import opened Options
  import opened TelemetrySpec
  import opened TelemetryRollup
  import opened Ordered

  ghost function HistoryOf(hist: map<string, History>, m: string): History {
    if m in hist then hist[m] else map[]
  }

  /** One model in one tier: its rows are the due and kept buckets, and the coarse buckets ever written
      are exactly the due ones. */
  ghost predicate Slot(rows: Table, written: set<Key>, h: History, m: string, t: Tier, rolled: real, pruned: real) {
    && SlotRefines(rows, h, m, t, rolled, pruned)
    && (forall ts :: Key(m, t, ts) in written <==> t != FiveSeconds && Due(h, t, ts, rolled))
  }

  ghost function Recorded(hist: map<string, History>, model: string, usage: Usage, now: real): map<string, History> {
    hist[model := HistoryOf(hist, model)[BucketOf(Truncate(now), 5) := usage]]
  }

  lemma RecordTime(now: real)
    requires now >= 0.0
    ensures var ts := BucketOf(Truncate(now), 5); ts >= 0 && ts % 5 == 0 && ts as real <= now < (ts + 5) as real
  {
    BucketRange(Truncate(now), 5);
  }

  lemma SampleBucket(h: History, ts: int)
    requires IsHistory(h) && ts in h
    ensures Batch(h, ts, ts + 5) == One(h[ts])
  {
    forall x | ts + 1 <= x < ts + 5 ensures x !in h {
      if x in h { AlignedGap(ts, x, 5); }
    }
    BatchOfNothing(h, ts + 1, ts + 5);
    BatchSplit(h, ts, ts + 1, ts + 5);
    assert Batch(h, ts, ts) == NOTHING;
    assert Batch(h, ts, ts + 1) == One(h[ts]);
  }

  /** A sample recorded now lies outside every bucket that a roll-up has already closed, and outside every
      other bucket of the finest tier. */
  lemma RecordAgrees(h: History, ts: int, u: Usage, rolled: real, t: Tier, a: int)
    requires IsHistory(h) && ts >= 0 && ts % 5 == 0 && rolled < (ts + 5) as real && a % Step(t) == 0
    requires if t == FiveSeconds then a != ts else (a + Step(t)) as real <= rolled
    ensures Batch(h[ts := u], a, a + Step(t)) == Batch(h, a, a + Step(t))
  {
    if t != FiveSeconds && ts < a + Step(t) {
      FiveAligned(t, a);
      AlignedGap(ts, a + Step(t), 5);
      assert false;
    }
    BatchAgrees(h[ts := u], h, a, a + Step(t));
  }

  lemma FiveAligned(t: Tier, a: int)
    requires a % Step(t) == 0
    ensures (a + Step(t)) % 5 == 0
  {
    NextAligned(a, Step(t));
    if t != FiveSeconds {
      AlignedInSource(t, a + Step(t));
      if Source(t) != FiveSeconds {
        AlignedInSource(Source(t), a + Step(t));
        if Source(Source(t)) != FiveSeconds { AlignedInSource(Source(Source(t)), a + Step(t)); }
      }
    }
  }

  lemma RecordDue(h: History, ts: int, u: Usage, rolled: real, t: Tier, a: int)
    requires IsHistory(h) && ts >= 0 && ts % 5 == 0 && rolled < (ts + 5) as real
    requires t == FiveSeconds ==> a != ts
    ensures Due(h[ts := u], t, a, rolled) <==> Due(h, t, a, rolled)
    ensures Due(h, t, a, rolled) ==> Batch(h[ts := u], a, a + Step(t)) == Batch(h, a, a + Step(t))
  {
    if a % Step(t) == 0 && (t == FiveSeconds || (a + Step(t)) as real <= rolled) {
      RecordAgrees(h, ts, u, rolled, t, a);
    }
  }

  lemma RecordFive(rows: Table, written: set<Key>, h: History, m: string, ts: int, u: Usage, rolled: real, pruned: real)
    requires IsHistory(h) && ts >= 0 && ts % 5 == 0 && pruned <= rolled < (ts + 5) as real
    requires Slot(rows, written, h, m, FiveSeconds, rolled, pruned)
    ensures Slot(rows[Key(m, FiveSeconds, ts) := Row(1, u.cpu, u.cpu, u.memory, u.memory)],
                 written, h[ts := u], m, FiveSeconds, rolled, pruned)
  {
    var h' := h[ts := u];
    forall a | a != ts
      ensures Due(h', FiveSeconds, a, rolled) <==> Due(h, FiveSeconds, a, rolled)
      ensures Due(h, FiveSeconds, a, rolled) ==> Batch(h', a, a + 5) == Batch(h, a, a + 5)
    {
      RecordDue(h, ts, u, rolled, FiveSeconds, a);
    }
    SampleBucket(h', ts);
    assert RowOf(One(u)) == Row(1, u.cpu, u.cpu, u.memory, u.memory);
  }

  lemma RecordCoarse(
    rows: Table, written: set<Key>, h: History, m: string, t: Tier, ts: int, u: Usage, rolled: real, pruned: real)
    requires IsHistory(h) && ts >= 0 && ts % 5 == 0 && pruned <= rolled < (ts + 5) as real && t != FiveSeconds
    requires Slot(rows, written, h, m, t, rolled, pruned)
    ensures Slot(rows, written, h[ts := u], m, t, rolled, pruned)
  {
    forall a
      ensures Due(h[ts := u], t, a, rolled) <==> Due(h, t, a, rolled)
      ensures Due(h, t, a, rolled) ==> Batch(h[ts := u], a, a + Step(t)) == Batch(h, a, a + Step(t))
    {
      RecordDue(h, ts, u, rolled, t, a);
    }
  }

  /** Any slot, after a sample of `model` has been recorded in the bucket `ts`. */
  lemma RecordSlot(
    rows: Table, written: set<Key>, hist: map<string, History>, model: string, ts: int, u: Usage, m: string, t: Tier,
    rolled: real, pruned: real)
    requires IsHistory(HistoryOf(hist, model)) && ts >= 0 && ts % 5 == 0 && pruned <= rolled < (ts + 5) as real
    requires Slot(rows, written, HistoryOf(hist, m), m, t, rolled, pruned)
    ensures var rows' := rows[Key(model, FiveSeconds, ts) := Row(1, u.cpu, u.cpu, u.memory, u.memory)];
      var hist' := hist[model := HistoryOf(hist, model)[ts := u]];
      Slot(rows', written, HistoryOf(hist', m), m, t, rolled, pruned)
  {
    var rows' := rows[Key(model, FiveSeconds, ts) := Row(1, u.cpu, u.cpu, u.memory, u.memory)];
    if m != model {
      SlotFrame(rows, rows', written, written, HistoryOf(hist, m), m, t, rolled, pruned);
    } else if t == FiveSeconds {
      RecordFive(rows, written, HistoryOf(hist, m), m, ts, u, rolled, pruned);
    } else {
      RecordCoarse(rows, written, HistoryOf(hist, m), m, t, ts, u, rolled, pruned);
      SlotFrame(rows, rows', written, written, HistoryOf(hist, m)[ts := u], m, t, rolled, pruned);
    }
  }

  lemma NoHistorySlot(rows: Table, written: set<Key>, m: string, t: Tier, rolled: real, pruned: real)
    requires forall ts :: Key(m, t, ts) !in rows && Key(m, t, ts) !in written
    ensures Slot(rows, written, map[], m, t, rolled, pruned)
  {
    forall ts ensures !Due(map[], t, ts, rolled) {
      BatchOfNothing(map[], ts, ts + Step(t));
    }
  }

  /** A slot only depends on its own keys. */
  lemma SlotFrame(
    rows: Table, rows': Table, written: set<Key>, written': set<Key>, h: History, m: string, t: Tier, rolled: real,
    pruned: real)
    requires Slot(rows, written, h, m, t, rolled, pruned)
    requires forall ts ::
      (Key(m, t, ts) in rows' <==> Key(m, t, ts) in rows) && (Key(m, t, ts) in written' <==> Key(m, t, ts) in written)
    requires forall ts :: Key(m, t, ts) in rows ==> rows'[Key(m, t, ts)] == rows[Key(m, t, ts)]
    ensures Slot(rows', written', h, m, t, rolled, pruned)
  {
  }

  lemma RefinesFrame(rows: Table, rows': Table, h: History, m: string, t: Tier, rolled: real, pruned: real)
    requires SlotRefines(rows, h, m, t, rolled, pruned)
    requires forall ts :: Key(m, t, ts) in rows' <==> Key(m, t, ts) in rows
    requires forall ts :: Key(m, t, ts) in rows ==> rows'[Key(m, t, ts)] == rows[Key(m, t, ts)]
    ensures SlotRefines(rows', h, m, t, rolled, pruned)
  {
  }

  /** A model without source rows has nothing new to roll up. */
  lemma NothingToRoll(
    rows: Table, written: set<Key>, h: History, m: string, t: Tier, rolled: real, pruned: real, now: real, floor: int)
    requires Ready(rows, h, m, t, rolled, pruned, now) && IsFloor(rows, m, t, floor)
    requires Slot(rows, written, h, m, t, rolled, pruned)
    requires forall ts :: Key(m, Source(t), ts) !in rows
    ensures Slot(rows, written, h, m, t, now, pruned)
  {
    forall start | Due(h, t, start, now) ensures Due(h, t, start, rolled) {
      if !Due(h, t, start, rolled) {
        FreshMeansComplete(rows, h, m, t, rolled, pruned, now, floor, start);
        assert false;
      }
    }
  }

  function Rank(t: Tier): nat {
    match t
    case FiveSeconds => 0
    case Minute => 1
    case Hour => 2
    case Day => 3
  }

  /** The groups of one model are its newly due buckets, each with its batch aggregate. */
  ghost predicate Fresh(buckets: map<int, seq<Point>>, h: History, t: Tier, rolled: real, pruned: real, now: real) {
    && (forall s :: s in buckets <==> Due(h, t, s, now) && !Due(h, t, s, rolled))
    && (forall s :: s in buckets ==> Kept(t, s, pruned) && Summed(buckets[s]) == Batch(h, s, s + Step(t)))
  }

  lemma GroupIffFresh(
    points: seq<Point>, buckets: map<int, seq<Point>>, rows: Table, h: History, m: string, t: Tier,
    rolled: real, pruned: real, now: real, floor: int, hi: int, s: int)
    requires Ready(rows, h, m, t, rolled, pruned, now) && IsSelected(points, rows, m, t, floor, hi)
    requires GroupKeys(buckets, points, Step(t), now)
    ensures s in buckets <==> Due(h, t, s, now) && !Due(h, t, s, rolled)
  {
    assert s in buckets <==> HasGroup(points, s, Step(t), now);
    if s % Step(t) == 0 && (s + Step(t)) as real <= now {
      GroupIsFresh(points, rows, h, m, t, rolled, pruned, now, floor, hi, s);
    }
  }

  lemma FreshGroupIsBatch(
    points: seq<Point>, buckets: map<int, seq<Point>>, rows: Table, h: History, m: string, t: Tier,
    rolled: real, pruned: real, now: real, floor: int, hi: int, s: int)
    requires Ready(rows, h, m, t, rolled, pruned, now) && IsSelected(points, rows, m, t, floor, hi)
    requires GroupValues(buckets, points, Step(t)) && s in buckets && Due(h, t, s, now) && !Due(h, t, s, rolled)
    ensures Kept(t, s, pruned) && Summed(buckets[s]) == Batch(h, s, s + Step(t))
  {
    FreshMeansComplete(rows, h, m, t, rolled, pruned, now, floor, s);
    GroupIsBatch(points, rows, h, m, t, floor, hi, s);
  }

  lemma GroupsAreFresh(
    points: seq<Point>, buckets: map<int, seq<Point>>, rows: Table, h: History, m: string, t: Tier,
    rolled: real, pruned: real, now: real, floor: int, hi: int)
    requires Ready(rows, h, m, t, rolled, pruned, now) && IsSelected(points, rows, m, t, floor, hi)
    requires Grouped(buckets, points, Step(t), now)
    ensures Fresh(buckets, h, t, rolled, pruned, now)
  {
    forall s ensures s in buckets <==> Due(h, t, s, now) && !Due(h, t, s, rolled) {
      GroupIffFresh(points, buckets, rows, h, m, t, rolled, pruned, now, floor, hi, s);
    }
    forall s | s in buckets ensures Kept(t, s, pruned) && Summed(buckets[s]) == Batch(h, s, s + Step(t)) {
      FreshGroupIsBatch(points, buckets, rows, h, m, t, rolled, pruned, now, floor, hi, s);
    }
  }

  /** What writing one row per group does to the table. */
  ghost predicate Wrote(
    rows: Table, rows': Table, written: set<Key>, written': set<Key>, m: string, t: Tier,
    buckets: map<int, seq<Point>>) {
    && (forall k :: k in rows' <==> k in rows || (k.model == m && k.tier == t && k.ts in buckets))
    && (forall k :: k in written' <==> k in written || (k.model == m && k.tier == t && k.ts in buckets))
    && (forall k :: k in rows ==> rows'[k] == rows[k])
    && (forall s :: s in buckets ==> Summed(buckets[s]).n > 0 && rows'[Key(m, t, s)] == RowOf(Summed(buckets[s])))
  }

  lemma WroteSlot(
    rows: Table, rows': Table, written: set<Key>, written': set<Key>, h: History, m: string, t: Tier,
    buckets: map<int, seq<Point>>, rolled: real, pruned: real, now: real)
    requires t != FiveSeconds && rolled <= now && Slot(rows, written, h, m, t, rolled, pruned)
    requires Fresh(buckets, h, t, rolled, pruned, now)
    requires forall s :: s in buckets ==> Key(m, t, s) !in rows
    requires Wrote(rows, rows', written, written', m, t, buckets)
    ensures Slot(rows', written', h, m, t, now, pruned) && AddedTo(rows, rows', written, written', m, t)
  {
  }

  /** Rows were only added, and only to tier `t` of model `m`. */
  ghost predicate AddedTo(rows: Table, rows': Table, written: set<Key>, written': set<Key>, m: string, t: Tier) {
    && (forall k :: k in rows ==> k in rows' && rows'[k] == rows[k])
    && (forall k: Key :: k.tier != t || k.model != m ==>
          (k in rows' <==> k in rows) && (k in written' <==> k in written))
  }

  /** The state of a tier while its models are being rolled up one after the other. */
  ghost predicate Rolling(
    rows0: Table, rows: Table, written0: set<Key>, written: set<Key>, hist: map<string, History>, t: Tier,
    todo: set<string>, rolled: real, pruned: real, now: real) {
    && (forall k :: k in rows0 ==> k in rows && rows[k] == rows0[k])
    && (forall k: Key :: k.tier != t ==> (k in rows <==> k in rows0) && (k in written <==> k in written0))
    && (forall m, ts :: m in todo ==> (Key(m, t, ts) in rows <==> Key(m, t, ts) in rows0))
    && (forall m :: Slot(rows, written, HistoryOf(hist, m), m, t, if m in todo then rolled else now, pruned))
  }

  lemma RollingOn(
    rows0: Table, rows: Table, rows': Table, written0: set<Key>, written: set<Key>, written': set<Key>,
    hist: map<string, History>, t: Tier, todo: set<string>, m: string, rolled: real, pruned: real, now: real)
    requires Rolling(rows0, rows, written0, written, hist, t, todo, rolled, pruned, now) && m in todo
    requires AddedTo(rows, rows', written, written', m, t)
    requires Slot(rows', written', HistoryOf(hist, m), m, t, now, pruned)
    ensures Rolling(rows0, rows', written0, written', hist, t, todo - {m}, rolled, pruned, now)
  {
    forall m' | m' != m
      ensures Slot(rows', written', HistoryOf(hist, m'), m', t, if m' in todo - {m} then rolled else now, pruned)
    {
      SlotFrame(rows, rows', written, written', HistoryOf(hist, m'), m', t, if m' in todo then rolled else now, pruned);
    }
  }

  lemma RollingStart(
    rows: Table, written: set<Key>, hist: map<string, History>, t: Tier, models: set<string>,
    newest: map<string, int>, rolled: real, pruned: real, now: real)
    requires t != FiveSeconds && pruned <= rolled <= now && forall m :: IsHistory(HistoryOf(hist, m))
    requires forall m :: SlotRefines(rows, HistoryOf(hist, m), m, Source(t), now, pruned)
    requires forall m :: Slot(rows, written, HistoryOf(hist, m), m, t, rolled, pruned)
    requires forall m, ts :: Key(m, Source(t), ts) in rows ==> m in models
    requires forall m :: IsFloor(rows, m, t, FloorOf(newest, m, t))
    ensures Rolling(rows, rows, written, written, hist, t, models, rolled, pruned, now)
  {
    forall m | m !in models ensures Slot(rows, written, HistoryOf(hist, m), m, t, now, pruned) {
      NothingToRoll(rows, written, HistoryOf(hist, m), m, t, rolled, pruned, now, FloorOf(newest, m, t));
    }
  }

  lemma RollingReady(
    rows0: Table, rows: Table, written0: set<Key>, written: set<Key>, hist: map<string, History>, t: Tier,
    todo: set<string>, m: string, floor: int, rolled: real, pruned: real, now: real)
    requires t != FiveSeconds && pruned <= rolled <= now && IsHistory(HistoryOf(hist, m)) && m in todo
    requires SlotRefines(rows0, HistoryOf(hist, m), m, Source(t), now, pruned) && IsFloor(rows0, m, t, floor)
    requires Rolling(rows0, rows, written0, written, hist, t, todo, rolled, pruned, now)
    ensures Ready(rows, HistoryOf(hist, m), m, t, rolled, pruned, now) && IsFloor(rows, m, t, floor)
    ensures Slot(rows, written, HistoryOf(hist, m), m, t, rolled, pruned)
  {
    RefinesFrame(rows0, rows, HistoryOf(hist, m), m, Source(t), now, pruned);
    assert Slot(rows, written, HistoryOf(hist, m), m, t, if m in todo then rolled else now, pruned);
  }

  /** The bucket holds samples, and is over (a bucket of the finest tier is as soon as it holds one). */
  ghost predicate Closed(hist: map<string, History>, m: string, t: Tier, ts: int, now: real) {
    && ts % Step(t) == 0 && Samples(HistoryOf(hist, m), ts, ts + Step(t)) != {}
    && (t == FiveSeconds || (ts + Step(t)) as real <= now)
  }

  /** Every row describes the samples of its bucket. */
  ghost predicate RowsAreHonest(rows: Table, hist: map<string, History>) {
    forall k :: k in rows ==> Describes(rows[k], HistoryOf(hist, k.model), k.ts, k.ts + Step(k.tier))
  }

  function Ceiling(x: real): int { -((-x).Floor) }

  /** The points are in time order, each is a due bucket inside the window and describes its samples, and, unless a
      later prune has been made, all of those are there. */
  ghost predicate IsChart(g: seq<Point>, h: History, t: Tier, rolled: real, pruned: real, now: real) {
    && (forall i, j :: 0 <= i < j < |g| ==> g[i].ts < g[j].ts)
    && (forall i :: 0 <= i < |g| ==> Due(h, t, g[i].ts, rolled) && Kept(t, g[i].ts, now))
    && (forall i :: 0 <= i < |g| ==> Describes(g[i].row, h, g[i].ts, g[i].ts + Step(t)))
    && (pruned <= now ==>
          forall ts :: Due(h, t, ts, rolled) && Kept(t, ts, now) ==> exists i :: 0 <= i < |g| && g[i].ts == ts)
  }

  lemma RowInChart(rows: Table, h: History, m: string, t: Tier, ts: int, rolled: real, pruned: real, now: real)
    requires SlotRefines(rows, h, m, t, rolled, pruned) && Key(m, t, ts) in rows && Ceiling(now - Keep(t) as real) <= ts
    ensures Due(h, t, ts, rolled) && Kept(t, ts, now) && Describes(rows[Key(m, t, ts)], h, ts, ts + Step(t))
  {
    RowIsDue(rows, h, m, t, rolled, pruned, ts);
    BatchDescribes(h, ts, ts + Step(t));
  }

  lemma ChartRow(
    rows: Table, h: History, m: string, t: Tier, ts: int, hi: int, rolled: real, pruned: real, now: real)
    requires SlotRefines(rows, h, m, t, rolled, pruned) && pruned <= now
    requires forall x :: Key(m, t, x) in rows ==> x < hi
    requires Due(h, t, ts, rolled) && Kept(t, ts, now)
    ensures Key(m, t, ts) in rows && Ceiling(now - Keep(t) as real) <= ts < hi
  {
    DueIsRow(rows, h, m, t, rolled, pruned, ts);
  }

  lemma ListIsChart(
    g: seq<Point>, rows: Table, h: History, m: string, t: Tier, hi: int, rolled: real, pruned: real, now: real)
    requires Lists(g, rows, m, t, Ceiling(now - Keep(t) as real), hi) && SlotRefines(rows, h, m, t, rolled, pruned)
    requires forall ts :: Key(m, t, ts) in rows ==> ts < hi
    ensures IsChart(g, h, t, rolled, pruned, now)
  {
    var floor := Ceiling(now - Keep(t) as real);
    ListsPoints(g, rows, m, t, floor, hi);
    forall i | 0 <= i < |g|
      ensures Due(h, t, g[i].ts, rolled) && Kept(t, g[i].ts, now)
      ensures Describes(g[i].row, h, g[i].ts, g[i].ts + Step(t))
    {
      RowInChart(rows, h, m, t, g[i].ts, rolled, pruned, now);
    }
    if pruned <= now {
      forall ts | Due(h, t, ts, rolled) && Kept(t, ts, now) ensures exists i :: 0 <= i < |g| && g[i].ts == ts {
        ChartRow(rows, h, m, t, ts, hi, rolled, pruned, now);
      }
    }
  }

  lemma TableIsHonest(rows: Table, written: set<Key>, hist: map<string, History>, rolled: real, pruned: real)
    requires forall m, t :: Slot(rows, written, HistoryOf(hist, m), m, t, rolled, pruned)
    ensures RowsAreHonest(rows, hist)
    ensures forall m, t, ts :: Closed(hist, m, t, ts, rolled) && Kept(t, ts, pruned) ==> Key(m, t, ts) in rows
  {
    forall k | k in rows ensures Describes(rows[k], HistoryOf(hist, k.model), k.ts, k.ts + Step(k.tier)) {
      assert k == Key(k.model, k.tier, k.ts);
      assert Slot(rows, written, HistoryOf(hist, k.model), k.model, k.tier, rolled, pruned);
      RowsDescribe(rows, HistoryOf(hist, k.model), k.model, k.tier, rolled, pruned);
    }
    forall m, t, ts | Closed(hist, m, t, ts, rolled) && Kept(t, ts, pruned) ensures Key(m, t, ts) in rows {
      DueIff(HistoryOf(hist, m), t, ts, rolled);
      assert Slot(rows, written, HistoryOf(hist, m), m, t, rolled, pruned);
    }
  }

  /** The tiers have the steps of their names, and a chart is drawn from the tier that is kept for just as long as the
      chart's range. */
  lemma RangesAreKept()
    ensures Step(FiveSeconds) == 5 && Step(Minute) == 60 && Step(Hour) == 60 * 60 && Step(Day) == 24 * 60 * 60
    ensures RangeTier("1h").Some? && Keep(RangeTier("1h").value) == 60 * 60
    ensures RangeTier("24h").Some? && Keep(RangeTier("24h").value) == 24 * 60 * 60
    ensures RangeTier("30d").Some? && Keep(RangeTier("30d").value) == 30 * 24 * 60 * 60
    ensures RangeTier("1y").Some? && Keep(RangeTier("1y").value) == 365 * 24 * 60 * 60
    ensures forall range :: RangeTier(range).Some? ==> range == "1h" || range == "24h" || range == "30d" || range == "1y"
  {
  }

  function FloorOf(newest: map<string, int>, m: string, t: Tier): int {
    if m in newest then newest[m] + Step(t) else 0
  }

  class UsageStore {
    var rows: Table

    ghost var hist: map<string, History>  // every sample recorded since the model was last deleted
    ghost var rolled: real                // time of the last roll-up
    ghost var pruned: real                // time of the last prune
    ghost var written: set<Key>           // coarse buckets ever written

    ghost predicate Sane()
      reads this
    {
      && 0.0 <= pruned <= rolled
      && (forall m :: IsHistory(HistoryOf(hist, m)))
    }

    ghost predicate Valid()
      reads this
    {
      && Sane()
      && (forall m, t :: Slot(rows, written, HistoryOf(hist, m), m, t, rolled, pruned))
    }

    constructor ()
      ensures Valid() && rows == map[] && hist == map[] && rolled == 0.0
    {
      rows, hist, rolled, pruned, written := map[], map[], 0.0, 0.0, {};
      new;
      forall m, t ensures Slot(rows, written, HistoryOf(hist, m), m, t, rolled, pruned) {
        NoHistorySlot(rows, written, m, t, rolled, pruned);
      }
    }

    /** The unique constraint on (model, tier, ts): inserting a key twice would raise. */
    method Insert(k: Key, r: Row)
      requires k !in rows && k !in written
      modifies this`rows, this`written
      ensures rows == old(rows)[k := r] && written == old(written) + {k}
    {
      rows := rows[k := r];
      written := written + {k};
    }

    /** SELECT model, max(ts) ... GROUP BY model. */
    method Newest(t: Tier) returns (newest: map<string, int>)
      ensures forall m :: m in newest <==> exists ts :: Key(m, t, ts) in rows
      ensures forall m :: m in newest ==> Key(m, t, newest[m]) in rows
      ensures forall m, ts :: m in newest && Key(m, t, ts) in rows ==> ts <= newest[m]
    {
      newest := map[];
      var todo := rows.Keys;
      while todo != {}
        invariant todo <= rows.Keys
        invariant forall m :: m in newest ==> Key(m, t, newest[m]) in rows
        invariant forall m, ts :: Key(m, t, ts) in rows && Key(m, t, ts) !in todo ==> m in newest && ts <= newest[m]
      {
        var k :| k in todo;
        todo := todo - {k};
        if k.tier == t && (k.model !in newest || newest[k.model] < k.ts) {
          newest := newest[k.model := k.ts];
        }
      }
    }

    /** SELECT ... WHERE ts >= floor ORDER BY ts. `hi` is above every row of the slot. */
    method Select(m: string, t: Tier, floor: int) returns (points: seq<Point>, ghost hi: int)
      ensures floor <= hi && Lists(points, rows, m, t, floor, hi)
      ensures forall ts :: Key(m, t, ts) in rows ==> ts < hi
    {
      var todo := set k | k in rows && k.model == m && k.tier == t && k.ts >= floor :: k.ts;
      ghost var all := todo;
      points, hi := [], floor;
      while todo != {}
        invariant floor <= hi && todo <= all
        invariant forall ts :: ts in all <==> Key(m, t, ts) in rows && ts >= floor
        invariant forall ts :: ts in all && ts !in todo ==> ts < hi
        invariant forall ts :: ts in todo ==> hi <= ts
        invariant Lists(points, rows, m, t, floor, hi)
      {
        var ts := Least(todo);
        AppendAbove(points, rows, m, t, floor, hi, Point(ts, rows[Key(m, t, ts)]));
        points := points + [Point(ts, rows[Key(m, t, ts)])];
        todo, hi := todo - {ts}, ts + 1;
      }
    }

    /** Stores a live measurement in the finest tier; a second one in the same bucket replaces the first. */
    method Record(model: string, usage: Usage, now: real)
      requires Valid() && rolled <= now
      modifies this`rows, this`hist
      ensures Valid()
      ensures hist == Recorded(old(hist), model, usage, now)
    {
      var ts := BucketOf(Truncate(now), Step(FiveSeconds));
      var k := Key(model, FiveSeconds, ts);
      ghost var h, h' := HistoryOf(hist, model), HistoryOf(hist, model)[ts := usage];
      RecordTime(now);
      SampleBucket(h', ts);
      assert Slot(rows, written, h, model, FiveSeconds, rolled, pruned);
      if k !in rows {
        rows := rows[k := Row(1, usage.cpu, usage.cpu, usage.memory, usage.memory)];
      } else {
        assert Due(h, FiveSeconds, ts, rolled);
        BatchOfNothing(h, ts, ts + 5);
        assert ts in h;
        SampleBucket(h, ts);
        rows := rows[k := Row(rows[k].n, usage.cpu, usage.cpu, usage.memory, usage.memory)];
      }
      hist := hist[model := h'];
      forall m ensures IsHistory(HistoryOf(hist, m)) {
        assert m != model ==> HistoryOf(hist, m) == HistoryOf(old(hist), m);
      }
      forall m, t ensures Slot(rows, written, HistoryOf(hist, m), m, t, rolled, pruned) {
        assert Slot(old(rows), written, HistoryOf(old(hist), m), m, t, rolled, pruned);
        RecordSlot(old(rows), written, old(hist), model, ts, usage, m, t, rolled, pruned);
      }
    }

    /** DELETE ... WHERE tier = ? AND ts < now - keep, tier by tier. The rows that go are exactly the expired
        ones; when a roll-up at the same time or later came first, the store stays exact. */
    method Prune(now: real)
      requires Valid()
      modifies this`rows, this`pruned
      ensures forall k :: k in rows <==> k in old(rows) && Kept(k.tier, k.ts, now)
      ensures forall k :: k in rows ==> rows[k] == old(rows)[k]
      ensures now <= rolled ==> Valid()
      ensures pruned == if old(pruned) < now then now else old(pruned)
    {
      for i := 0 to |TIERS|
        invariant unchanged(this`hist) && unchanged(this`rolled) && unchanged(this`pruned) && unchanged(this`written)
        invariant forall k :: k in rows <==> k in old(rows) && (Rank(k.tier) < i ==> Kept(k.tier, k.ts, now))
        invariant forall k :: k in rows ==> rows[k] == old(rows)[k]
      {
        var t := TIERS[i];
        assert Rank(t) == i;
        rows := map k | k in rows && !(k.tier == t && k.ts as real < now - Keep(t) as real) :: rows[k];
      }
      ghost var before := pruned;
      pruned := if pruned < now then now else pruned;
      if now <= rolled {
        forall m, t ensures Slot(rows, written, HistoryOf(hist, m), m, t, rolled, pruned) {
          assert Slot(old(rows), written, HistoryOf(hist, m), m, t, rolled, before);
        }
      }
    }

    /** Forgets every tier of one model, and with it the model's history. */
    method DeleteModel(model: string)
      requires Valid()
      modifies this`rows, this`hist, this`written
      ensures Valid()
      ensures hist == old(hist) - {model}
      ensures forall k: Key :: k in rows <==> k in old(rows) && k.model != model
      ensures forall k: Key :: k in rows ==> rows[k] == old(rows)[k]
    {
      rows := map k | k in rows && k.model != model :: rows[k];
      hist := hist - {model};
      written := set k | k in written && k.model != model;
      forall m ensures IsHistory(HistoryOf(hist, m)) {
        assert m != model ==> HistoryOf(hist, m) == HistoryOf(old(hist), m);
      }
      forall m, t ensures Slot(rows, written, HistoryOf(hist, m), m, t, rolled, pruned) {
        if m == model {
          NoHistorySlot(rows, written, m, t, rolled, pruned);
        } else {
          assert HistoryOf(hist, m) == HistoryOf(old(hist), m);
          assert Slot(old(rows), old(written), HistoryOf(old(hist), m), m, t, rolled, pruned);
          SlotFrame(old(rows), rows, old(written), written, HistoryOf(hist, m), m, t, rolled, pruned);
        }
      }
    }

    /** Builds every coarser tier from the finer one, for each bucket that is completely over. */
    method Rollup(now: real)
      requires Valid() && rolled <= now
      modifies this`rows, this`rolled, this`written
      ensures Valid() && rolled == now
      ensures forall k :: k in old(rows) ==> k in rows && rows[k] == old(rows)[k]
      ensures RowsAreHonest(rows, hist)
      ensures forall m, t, ts :: Closed(hist, m, t, ts, now) && Kept(t, ts, pruned) ==> Key(m, t, ts) in rows
    {
      for i := 0 to |TIERS|
        invariant unchanged(this`hist) && unchanged(this`rolled) && unchanged(this`pruned) && Sane()
        invariant forall k :: k in old(rows) ==> k in rows && rows[k] == old(rows)[k]
        invariant forall m, t ::
          Slot(rows, written, HistoryOf(hist, m), m, t, if Rank(t) < i then now else rolled, pruned)
      {
        var t := TIERS[i];
        assert Rank(t) == i;
        if t != FiveSeconds {
          ghost var rows0, written0 := rows, written;
          forall m ensures SlotRefines(rows, HistoryOf(hist, m), m, Source(t), now, pruned) {
            assert Slot(rows, written, HistoryOf(hist, m), m, Source(t),
                   if Rank(Source(t)) < i then now else rolled, pruned);
          }
          RollTier(t, now);
          forall m, t' | t' != t
            ensures Slot(rows, written, HistoryOf(hist, m), m, t', if Rank(t') < i + 1 then now else rolled, pruned)
          {
            SlotFrame(rows0, rows, written0, written, HistoryOf(hist, m), m, t',
                      if Rank(t') < i then now else rolled, pruned);
          }
        } else {
          forall m ensures Slot(rows, written, HistoryOf(hist, m), m, t, now, pruned) {
            assert Slot(rows, written, HistoryOf(hist, m), m, t, rolled, pruned);
          }
        }
      }
      ghost var before := rolled;
      rolled := now;
      forall m, t ensures Slot(rows, written, HistoryOf(hist, m), m, t, now, pruned) {
        assert Slot(rows, written, HistoryOf(hist, m), m, t, if Rank(t) < |TIERS| then now else before, pruned);
      }
      TableIsHonest(rows, written, hist, now, pruned);
    }

    method RollTier(t: Tier, now: real)
      requires Sane() && t != FiveSeconds && rolled <= now
      requires forall m :: SlotRefines(rows, HistoryOf(hist, m), m, Source(t), now, pruned)
      requires forall m :: Slot(rows, written, HistoryOf(hist, m), m, t, rolled, pruned)
      modifies this`rows, this`written
      ensures Rolling(old(rows), rows, old(written), written, hist, t, {}, rolled, pruned, now)
    {
      var todo := set k | k in rows && k.tier == Source(t) :: k.model;
      forall m, ts | Key(m, Source(t), ts) in rows ensures m in todo {
        assert Key(m, Source(t), ts).model in todo;
      }
      var newest := Newest(t);
      RollingStart(rows, written, hist, t, todo, newest, rolled, pruned, now);
      while todo != {}
        invariant Rolling(old(rows), rows, old(written), written, hist, t, todo, rolled, pruned, now)
      {
        var m :| m in todo;
        ghost var rows0, written0 := rows, written;
        RollingReady(old(rows), rows, old(written), written, hist, t,
                     todo, m, FloorOf(newest, m, t), rolled, pruned, now);
        RollModel(m, t, FloorOf(newest, m, t), now);
        RollingOn(old(rows), rows0, rows, old(written), written0, written, hist, t, todo, m, rolled, pruned, now);
        todo := todo - {m};
      }
    }

    /** The points a chart of `range` needs, oldest first; None for an unknown range. Every finished bucket
        inside the window is there, with the aggregate of all its samples: pruning never cuts a chart short. */
    method Series(model: string, range: string, now: real) returns (r: Option<seq<Point>>)
      requires Valid()
      ensures r.Some? <==> RangeTier(range).Some?
      ensures r.Some? ==> IsChart(r.value, HistoryOf(hist, model), RangeTier(range).value, rolled, pruned, now)
    {
      if RangeTier(range).None? { return None; }
      var t := RangeTier(range).value;
      var floor := Ceiling(now - Keep(t) as real);
      var points, hi := Select(model, t, floor);
      assert Slot(rows, written, HistoryOf(hist, model), model, t, rolled, pruned);
      ListIsChart(points, rows, HistoryOf(hist, model), model, t, hi, rolled, pruned, now);
      r := Some(points);
    }

    /** Rolls one model up from the source of `t`: nothing outside its slot changes, every coarse bucket
        that is over by `now` gets its row, and no bucket is written a second time. */
    method RollModel(m: string, t: Tier, floor: int, now: real)
      requires Sane() && t != FiveSeconds && IsFloor(rows, m, t, floor)
      requires Ready(rows, HistoryOf(hist, m), m, t, rolled, pruned, now)
      requires Slot(rows, written, HistoryOf(hist, m), m, t, rolled, pruned)
      modifies this`rows, this`written
      ensures Slot(rows, written, HistoryOf(hist, m), m, t, now, pruned)
      ensures AddedTo(old(rows), rows, old(written), written, m, t)
    {
      var points, hi := Select(m, Source(t), floor);
      var buckets := GroupPoints(points, Step(t), now);
      GroupsAreFresh(points, buckets, rows, HistoryOf(hist, m), m, t, rolled, pruned, now, floor, hi);
      InsertAll(m, t, buckets);
      WroteSlot(old(rows), rows, old(written), written, HistoryOf(hist, m), m, t, buckets, rolled, pruned, now);
    }

    /** Writes one row per group, oldest first. */
    method InsertAll(m: string, t: Tier, buckets: map<int, seq<Point>>)
      requires forall s :: s in buckets ==> Summed(buckets[s]).n > 0
      requires forall s :: s in buckets ==> Key(m, t, s) !in rows && Key(m, t, s) !in written
      modifies this`rows, this`written
      ensures Wrote(old(rows), rows, old(written), written, m, t, buckets)
    {
      var todo := buckets.Keys;
      while todo != {}
        invariant todo <= buckets.Keys
        invariant forall k :: k in rows <==>
          k in old(rows) || (k.model == m && k.tier == t && k.ts in buckets && k.ts !in todo)
        invariant forall k :: k in written <==>
          k in old(written) || (k.model == m && k.tier == t && k.ts in buckets && k.ts !in todo)
        invariant forall k :: k in old(rows) ==> rows[k] == old(rows)[k]
        invariant forall s :: s in buckets && s !in todo ==> rows[Key(m, t, s)] == RowOf(Summed(buckets[s]))
      {
        var start := Least(todo);
        Insert(Key(m, t, start), RowOf(Summed(buckets[start])));
        todo := todo - {start};
      }
    }
  }

  lemma AppendAbove(g: seq<Point>, rows: Table, m: string, t: Tier, lo: int, hi: int, p: Point)
    requires lo <= hi <= p.ts && Lists(g, rows, m, t, lo, hi)
    requires Key(m, t, p.ts) in rows && rows[Key(m, t, p.ts)] == p.row
    requires forall ts :: hi <= ts < p.ts ==> Key(m, t, ts) !in rows
    ensures Lists(g + [p], rows, m, t, lo, p.ts + 1)
  {
    assert (g + [p])[..|g|] == g;
  }

  /** Groups the selected rows by bucket and keeps the buckets that are completely over. */
  method GroupPoints(points: seq<Point>, step: int, now: real) returns (buckets: map<int, seq<Point>>)
    requires step > 0
    ensures Grouped(buckets, points, step, now)
  {
    buckets := map[];
    for i := 0 to |points|
      invariant Grouped(buckets, points[..i], step, now)
    {
      var start := BucketOf(points[i].ts, step);
      GroupOne(buckets, points[..i], points[i], start, step, now);
      assert points[..i] + [points[i]] == points[..i + 1];
      if (start + step) as real <= now {
        buckets := buckets[start := (if start in buckets then buckets[start] else []) + [points[i]]];
      }
    }
    assert points[..|points|] == points;
  }

  // ----- the collector -----

  ghost function RecordedAll(
    hist: map<string, History>, readings: seq<(string, Option<Usage>)>, now: real): map<string, History> {
    if readings == [] then hist
    else
      var (name, usage) := readings[|readings| - 1];
      var before := RecordedAll(hist, readings[..|readings| - 1], now);
      if usage.Some? then Recorded(before, name, usage.value, now) else before
  }

  class UsageCollector {
    const store: UsageStore
    var lastPrune: real

    constructor (store: UsageStore)
      ensures this.store == store && lastPrune == 0.0
    {
      this.store, lastPrune := store, 0.0;
    }

    /** One measurement round: record, then roll up, then (every five minutes) prune, all at the same `now`. */
    method Tick(readings: seq<(string, Option<Usage>)>, now: real)
      requires store.Valid() && store.rolled <= now
      modifies this`lastPrune, store
      ensures store.Valid() && store.rolled == now
      ensures store.hist == RecordedAll(old(store.hist), readings, now)
      ensures now - old(lastPrune) >= 5.0 * 60.0 ==> store.pruned == now
      ensures now - old(lastPrune) < 5.0 * 60.0 ==> store.pruned == old(store.pruned)
      ensures lastPrune == if now - old(lastPrune) >= 5.0 * 60.0 then now else old(lastPrune)
      ensures RowsAreHonest(store.rows, store.hist)
    {
      for i := 0 to |readings|
        invariant lastPrune == old(lastPrune)
        invariant store.Valid() && store.rolled == old(store.rolled) && store.pruned == old(store.pruned)
        invariant store.hist == RecordedAll(old(store.hist), readings[..i], now)
      {
        assert readings[..i + 1][..i] == readings[..i];
        if readings[i].1.Some? {
          store.Record(readings[i].0, readings[i].1.value, now);
        }
      }
      assert readings[..|readings|] == readings;
      store.Rollup(now);
      if now - lastPrune >= PRUNE_EVERY {
        store.Prune(now);
        lastPrune := now;
      }
      TableIsHonest(store.rows, store.written, store.hist, store.rolled, store.pruned);
    }
  }

  const PRUNE_EVERY: real := 300.0

  function RangeTier(range: string): Option<Tier> {
    if range == "1h" then Some(FiveSeconds)
    else if range == "24h" then Some(Minute)
    else if range == "30d" then Some(Hour)
    else if range == "1y" then Some(Day)
    else None
  }

  // ----- what the store's invariant means -----

  /** The table is a function of the samples and of the last roll-up and prune times: how often the
      collector ticked in between, and when, leaves no trace. */
  lemma StoreIsDetermined(rows: Table, rows': Table, hist: map<string, History>, rolled: real, pruned: real)
    requires forall m, t :: SlotRefines(rows, HistoryOf(hist, m), m, t, rolled, pruned)
    requires forall m, t :: SlotRefines(rows', HistoryOf(hist, m), m, t, rolled, pruned)
    ensures rows == rows'
  {
    forall k ensures k in rows <==> k in rows' {
      assert k == Key(k.model, k.tier, k.ts);
      assert SlotRefines(rows, HistoryOf(hist, k.model), k.model, k.tier, rolled, pruned);
      assert SlotRefines(rows', HistoryOf(hist, k.model), k.model, k.tier, rolled, pruned);
    }
    forall k | k in rows ensures rows[k] == rows'[k] {
      assert k == Key(k.model, k.tier, k.ts);
      assert SlotRefines(rows, HistoryOf(hist, k.model), k.model, k.tier, rolled, pruned);
      assert SlotRefines(rows', HistoryOf(hist, k.model), k.model, k.tier, rolled, pruned);
    }
  }

  /** A row that a prune may delete already lies in a coarser bucket that has been written. */
  lemma PrunedIsCovered(
    rows: Table, written: set<Key>, h: History, m: string, t: Tier, ts: int, rolled: real, pruned: real, now: real)
    requires t != FiveSeconds && IsHistory(h) && now <= rolled
    requires Slot(rows, written, h, m, Source(t), rolled, pruned) && Slot(rows, written, h, m, t, rolled, pruned)
    requires Key(m, Source(t), ts) in rows && !Kept(Source(t), ts, now)
    ensures Key(m, t, BucketOf(ts, Step(t))) in written
  {
    var start := BucketOf(ts, Step(t));
    BucketRange(ts, Step(t));
    TiersFit(t);
    InsideCoarse(t, start, ts, ts);
    BatchOfNothing(h, ts, ts + Step(Source(t)));
    BatchOfNothing(h, start, start + Step(t));
  }

  lemma {:induction false} ListsPoints(g: seq<Point>, rows: Table, m: string, t: Tier, lo: int, hi: int)
    requires Lists(g, rows, m, t, lo, hi)
    ensures forall i, j :: 0 <= i < j < |g| ==> g[i].ts < g[j].ts
    ensures forall i :: 0 <= i < |g| ==>
      lo <= g[i].ts < hi && Key(m, t, g[i].ts) in rows && rows[Key(m, t, g[i].ts)] == g[i].row
    ensures forall ts :: lo <= ts < hi && Key(m, t, ts) in rows ==> exists i :: 0 <= i < |g| && g[i].ts == ts
  {
    if g != [] {
      var front, p := g[..|g| - 1], g[|g| - 1];
      ListsPoints(front, rows, m, t, lo, p.ts);
      forall i | 0 <= i < |g|
        ensures lo <= g[i].ts < hi && Key(m, t, g[i].ts) in rows && rows[Key(m, t, g[i].ts)] == g[i].row
        ensures i < |g| - 1 ==> g[i].ts < p.ts
      {
        if i < |g| - 1 { assert front[i] == g[i]; }
      }
      forall i, j | 0 <= i < j < |g| ensures g[i].ts < g[j].ts {
        if j < |g| - 1 { assert front[i].ts < front[j].ts; }
      }
      forall ts | lo <= ts < hi && Key(m, t, ts) in rows ensures exists i :: 0 <= i < |g| && g[i].ts == ts {
        if ts < p.ts {
          var i :| 0 <= i < |front| && front[i].ts == ts;
          assert g[i].ts == ts;
        } else {
          assert g[|g| - 1].ts == ts;
        }
      }
    }
  }
}
