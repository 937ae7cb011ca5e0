/** Why one roll-up step is right: which groups of source rows it finds above its floor, and what their
    combined row says (app/telemetry/store.py, `rollup`). */
module TelemetryRollup {
  import opened TelemetrySpec

  // ----- facts about one roll-up step -----

  function BucketOf(ts: int, step: int): int
    requires step > 0
  {
    ts / step * step
  }

  lemma BucketRange(ts: int, step: int)
    requires step > 0
    ensures BucketOf(ts, step) % step == 0
    ensures BucketOf(ts, step) <= ts < BucketOf(ts, step) + step
  {
    MultipleIsAligned(ts / step, step);
  }

  lemma BucketUnique(ts: int, start: int, step: int)
    requires step > 0 && start % step == 0
    ensures BucketOf(ts, step) == start <==> start <= ts < start + step
  {
    BucketRange(ts, step);
    var b := BucketOf(ts, step);
    if start < b { AlignedGap(start, b, step); } else if b < start { AlignedGap(b, start, step); }
  }

  /** The steps and retentions fit: a coarse bucket is a whole number of fine ones, it closes long before
      its fine rows are pruned, and it outlives every fine row it covers. */
  lemma TiersFit(t: Tier)
    requires t != FiveSeconds
    ensures Step(t) % Step(Source(t)) == 0
    ensures Step(t) <= Keep(Source(t)) && Keep(Source(t)) + Step(t) <= Keep(t)
  {
  }

  lemma AlignedInSource(t: Tier, ts: int)
    requires t != FiveSeconds && ts % Step(t) == 0
    ensures ts % Step(Source(t)) == 0
  {
    var ratio := Step(t) / Step(Source(t));
    assert ts == ts / Step(t) * ratio * Step(Source(t));
    MultipleIsAligned(ts / Step(t) * ratio, Step(Source(t)));
  }

  /** `newest + step` for a tier that has rows of the model, 0 for one that has none. */
  ghost predicate IsFloor(rows: Table, m: string, t: Tier, floor: int) {
    if exists ts :: Key(m, t, ts) in rows then
      Key(m, t, floor - Step(t)) in rows && forall ts :: Key(m, t, ts) in rows ==> ts + Step(t) <= floor
    else
      floor == 0
  }

  ghost predicate HasSource(rows: Table, m: string, t: Tier, floor: int, start: int)
    requires t != FiveSeconds
  {
    exists ts :: floor <= ts && start <= ts < start + Step(t) && Key(m, Source(t), ts) in rows
  }

  /** What both tiers of a roll-up look like for one model just before it. */
  ghost predicate Ready(rows: Table, h: History, m: string, t: Tier, rolled: real, pruned: real, now: real) {
    && t != FiveSeconds && IsHistory(h) && pruned <= rolled <= now
    && SlotRefines(rows, h, m, Source(t), now, pruned)
    && SlotRefines(rows, h, m, t, rolled, pruned)
  }

  /** A non-empty coarse bucket has a non-empty fine bucket, and the other way round. */
  lemma FineBucket(h: History, t: Tier, start: int) returns (ts: int)
    requires t != FiveSeconds && IsHistory(h) && start % Step(t) == 0 && Batch(h, start, start + Step(t)).n > 0
    ensures start <= ts && ts + Step(Source(t)) <= start + Step(t) && ts % Step(Source(t)) == 0
    ensures Batch(h, ts, ts + Step(Source(t))).n > 0
  {
    BatchOfNothing(h, start, start + Step(t));
    var x :| start <= x < start + Step(t) && x in h;
    ts := BucketOf(x, Step(Source(t)));
    BucketRange(x, Step(Source(t)));
    AlignedInSource(t, start);
    InsideCoarse(t, start, ts, x);
    BatchOfNothing(h, ts, ts + Step(Source(t)));
  }

  lemma InsideCoarse(t: Tier, start: int, ts: int, x: int)
    requires t != FiveSeconds && start % Step(t) == 0 && ts % Step(Source(t)) == 0
    requires start <= x < start + Step(t) && ts <= x < ts + Step(Source(t))
    ensures start <= ts && ts + Step(Source(t)) <= start + Step(t)
  {
    AlignedInSource(t, start);
    AlignedInSource(t, start + Step(t));
    if ts < start { AlignedGap(ts, start, Step(Source(t))); }
    AlignedGap(ts, start + Step(t), Step(Source(t)));
  }

  /** A source row below the retention of its coarse bucket is gone itself. */
  lemma SourceRowKeepsBucket(t: Tier, ts: int, start: int, pruned: real)
    requires t != FiveSeconds && start <= ts < start + Step(t) && Kept(Source(t), ts, pruned)
    ensures Kept(t, start, pruned)
  {
    TiersFit(t);
  }

  lemma NonEmptyInside(h: History, lo: int, hi: int, lo': int, hi': int)
    requires lo' <= lo && hi <= hi' && Batch(h, lo, hi).n > 0
    ensures Batch(h, lo', hi').n > 0
  {
    BatchOfNothing(h, lo, hi);
    BatchOfNothing(h, lo', hi');
  }

  /** A closed bucket that still has source rows at or above the floor has never been rolled up. */
  lemma SourceMeansFresh(
    rows: Table, h: History, m: string, t: Tier, rolled: real, pruned: real, now: real, floor: int, start: int)
    requires Ready(rows, h, m, t, rolled, pruned, now) && IsFloor(rows, m, t, floor)
    requires start % Step(t) == 0 && (start + Step(t)) as real <= now && HasSource(rows, m, t, floor, start)
    ensures Due(h, t, start, now) && !Due(h, t, start, rolled)
  {
    var ts :| floor <= ts && start <= ts < start + Step(t) && Key(m, Source(t), ts) in rows;
    RowIsDue(rows, h, m, Source(t), now, pruned, ts);
    InsideCoarse(t, start, ts, ts);
    NonEmptyInside(h, ts, ts + Step(Source(t)), start, start + Step(t));
    SourceRowKeepsBucket(t, ts, start, pruned);
    if Due(h, t, start, rolled) {
      DueIsRow(rows, h, m, t, rolled, pruned, start);
      assert false;
    }
  }

  lemma RowIsDue(rows: Table, h: History, m: string, t: Tier, rolled: real, pruned: real, ts: int)
    requires SlotRefines(rows, h, m, t, rolled, pruned) && Key(m, t, ts) in rows
    ensures Due(h, t, ts, rolled) && Kept(t, ts, pruned) && rows[Key(m, t, ts)] == RowOf(Batch(h, ts, ts + Step(t)))
  {
  }

  lemma DueIsRow(rows: Table, h: History, m: string, t: Tier, rolled: real, pruned: real, ts: int)
    requires SlotRefines(rows, h, m, t, rolled, pruned) && Due(h, t, ts, rolled) && Kept(t, ts, pruned)
    ensures Key(m, t, ts) in rows
  {
  }

  /** The floor lies at or below every bucket that has not been rolled up yet. */
  lemma FloorBelow(rows: Table, h: History, m: string, t: Tier, rolled: real, pruned: real, floor: int, start: int)
    requires IsHistory(h) && SlotRefines(rows, h, m, t, rolled, pruned) && IsFloor(rows, m, t, floor)
    requires t != FiveSeconds
    requires start % Step(t) == 0 && Batch(h, start, start + Step(t)).n > 0 && rolled < (start + Step(t)) as real
    ensures floor <= start
  {
    if Key(m, t, floor - Step(t)) in rows {
      RowIsDue(rows, h, m, t, rolled, pruned, floor - Step(t));
      AlignedGap(floor - Step(t), start, Step(t));
    } else {
      BatchOfNothing(h, start, start + Step(t));
      var x :| start <= x < start + Step(t) && x in h;
      if start < 0 { AlignedGap(start, 0, Step(t)); }
    }
  }

  /** In a bucket that closed after the last prune, every fine bucket still has its row. */
  lemma FineRow(rows: Table, h: History, m: string, t: Tier, pruned: real, now: real, start: int, ts: int)
    requires t != FiveSeconds && SlotRefines(rows, h, m, Source(t), now, pruned)
    requires start % Step(t) == 0 && pruned < (start + Step(t)) as real <= now && start <= ts < start + Step(t)
    ensures Key(m, Source(t), ts) in rows <==> ts % Step(Source(t)) == 0 && Batch(h, ts, ts + Step(Source(t))).n > 0
    ensures Key(m, Source(t), ts) in rows ==> rows[Key(m, Source(t), ts)] == RowOf(Batch(h, ts, ts + Step(Source(t))))
  {
    TiersFit(t);
    if Key(m, Source(t), ts) in rows {
      RowIsDue(rows, h, m, Source(t), now, pruned, ts);
    }
    if ts % Step(Source(t)) == 0 && Batch(h, ts, ts + Step(Source(t))).n > 0 {
      InsideCoarse(t, start, ts, ts);
      DueIsRow(rows, h, m, Source(t), now, pruned, ts);
    }
  }

  /** A bucket that has just become due starts at or above the floor and its source rows are all there. */
  lemma FreshMeansComplete(
    rows: Table, h: History, m: string, t: Tier, rolled: real, pruned: real, now: real, floor: int, start: int)
    requires Ready(rows, h, m, t, rolled, pruned, now) && IsFloor(rows, m, t, floor)
    requires Due(h, t, start, now) && !Due(h, t, start, rolled)
    ensures floor <= start && Kept(t, start, pruned)
    ensures Complete(rows, h, m, Source(t), start, start + Step(t))
    ensures HasSource(rows, m, t, floor, start)
  {
    TiersFit(t);
    FloorBelow(rows, h, m, t, rolled, pruned, floor, start);
    forall ts | start <= ts < start + Step(t)
      ensures Key(m, Source(t), ts) in rows <==> ts % Step(Source(t)) == 0 && Batch(h, ts, ts + Step(Source(t))).n > 0
      ensures Key(m, Source(t), ts) in rows ==> rows[Key(m, Source(t), ts)] == RowOf(Batch(h, ts, ts + Step(Source(t))))
    {
      FineRow(rows, h, m, t, pruned, now, start, ts);
    }
    var ts := FineBucket(h, t, start);
    assert Key(m, Source(t), ts) in rows;
  }

  // ----- grouping source rows into buckets -----

  /** The points of `g` with a time in [lo, hi). */
  function Within(g: seq<Point>, lo: int, hi: int): seq<Point> {
    if g == [] then []
    else
      var p := g[|g| - 1];
      Within(g[..|g| - 1], lo, hi) + (if lo <= p.ts < hi then [p] else [])
  }

  lemma {:induction false} WithinLists(g: seq<Point>, rows: Table, m: string, t: Tier, lo: int, hi: int, a: int, b: int)
    requires lo <= a < b && Lists(g, rows, m, t, lo, hi)
    ensures hi <= a ==> Within(g, a, b) == []
    ensures a < hi ==> Lists(Within(g, a, b), rows, m, t, a, if hi < b then hi else b)
  {
    if g != [] {
      var p := g[|g| - 1];
      var front := Within(g[..|g| - 1], a, b);
      WithinLists(g[..|g| - 1], rows, m, t, lo, p.ts, a, b);
      if a <= p.ts < b {
        if p.ts == a { ListsNothing(rows, m, t, a); }
        AppendPoint(front, rows, m, t, a, p, if hi < b then hi else b);
      } else {
        assert Within(g, a, b) == front;
      }
    }
  }

  lemma ListsNothing(rows: Table, m: string, t: Tier, lo: int)
    ensures Lists([], rows, m, t, lo, lo)
  {
  }

  lemma AppendPoint(front: seq<Point>, rows: Table, m: string, t: Tier, lo: int, p: Point, hi: int)
    requires lo <= p.ts < hi && Lists(front, rows, m, t, lo, p.ts)
    requires Key(m, t, p.ts) in rows && rows[Key(m, t, p.ts)] == p.row
    requires forall ts :: p.ts < ts < hi ==> Key(m, t, ts) !in rows
    ensures Lists(front + [p], rows, m, t, lo, hi)
  {
    assert (front + [p])[..|front|] == front;
  }

  lemma {:induction false} WithinNonEmpty(
    g: seq<Point>, rows: Table, m: string, t: Tier, lo: int, hi: int, ts: int, a: int, b: int)
    requires Lists(g, rows, m, t, lo, hi) && lo <= ts < hi && Key(m, t, ts) in rows && a <= ts < b
    ensures Within(g, a, b) != []
  {
    if g != [] && g[|g| - 1].ts != ts {
      WithinNonEmpty(g[..|g| - 1], rows, m, t, lo, g[|g| - 1].ts, ts, a, b);
    }
  }

  lemma {:induction false} WithinMember(
    g: seq<Point>, rows: Table, m: string, t: Tier, lo: int, hi: int, a: int, b: int) returns (ts: int)
    requires Lists(g, rows, m, t, lo, hi) && Within(g, a, b) != []
    ensures lo <= ts < hi && Key(m, t, ts) in rows && a <= ts < b
  {
    var p := g[|g| - 1];
    if a <= p.ts < b {
      ts := p.ts;
    } else {
      ts := WithinMember(g[..|g| - 1], rows, m, t, lo, p.ts, a, b);
    }
  }

  /** `g` is what the roll-up of `t` reads: the source rows of the model at or above the floor. */
  ghost predicate IsSelected(g: seq<Point>, rows: Table, m: string, t: Tier, floor: int, hi: int)
    requires t != FiveSeconds
  {
    && IsFloor(rows, m, t, floor)
    && Lists(g, rows, m, Source(t), floor, hi)
    && (forall ts :: Key(m, Source(t), ts) in rows ==> ts < hi)
  }

  /** Among the closed buckets, the non-empty groups are exactly the buckets that have just become due. */
  lemma GroupIsFresh(
    g: seq<Point>, rows: Table, h: History, m: string, t: Tier, rolled: real, pruned: real, now: real, floor: int,
    hi: int, start: int)
    requires Ready(rows, h, m, t, rolled, pruned, now) && IsSelected(g, rows, m, t, floor, hi)
    requires start % Step(t) == 0 && (start + Step(t)) as real <= now
    ensures Within(g, start, start + Step(t)) != [] <==> Due(h, t, start, now) && !Due(h, t, start, rolled)
  {
    if Within(g, start, start + Step(t)) != [] {
      var ts := WithinMember(g, rows, m, Source(t), floor, hi, start, start + Step(t));
      SourceMeansFresh(rows, h, m, t, rolled, pruned, now, floor, start);
    }
    if Due(h, t, start, now) && !Due(h, t, start, rolled) {
      FreshMeansComplete(rows, h, m, t, rolled, pruned, now, floor, start);
      var ts :| floor <= ts && start <= ts < start + Step(t) && Key(m, Source(t), ts) in rows;
      WithinNonEmpty(g, rows, m, Source(t), floor, hi, ts, start, start + Step(t));
    }
  }

  /** The row computed from such a group is the batch aggregate of its bucket. */
  lemma GroupIsBatch(g: seq<Point>, rows: Table, h: History, m: string, t: Tier, floor: int, hi: int, start: int)
    requires t != FiveSeconds && IsSelected(g, rows, m, t, floor, hi) && start % Step(t) == 0 && floor <= start
    requires Complete(rows, h, m, Source(t), start, start + Step(t)) && HasSource(rows, m, t, floor, start)
    ensures Summed(Within(g, start, start + Step(t))) == Batch(h, start, start + Step(t))
  {
    var end := start + Step(t);
    WithinLists(g, rows, m, Source(t), floor, hi, start, end);
    var group := Within(g, start, end);
    if hi < end { WidenLists(group, rows, m, Source(t), start, hi, end); }
    NextAligned(start, Step(t));
    AlignedInSource(t, start);
    AlignedInSource(t, end);
    GroupTotals(group, rows, h, m, Source(t), start, end);
  }

  lemma NextAligned(a: int, step: int)
    requires step > 0 && a % step == 0
    ensures (a + step) % step == 0
  {
    assert a + step == (a / step + 1) * step;
    MultipleIsAligned(a / step + 1, step);
  }

  lemma WidenLists(g: seq<Point>, rows: Table, m: string, t: Tier, lo: int, hi: int, hi': int)
    requires Lists(g, rows, m, t, lo, hi) && hi <= hi' && forall ts :: Key(m, t, ts) in rows ==> ts < hi
    ensures Lists(g, rows, m, t, lo, hi')
  {
  }

  // ----- grouping loop -----

  /** The bucket is over, and some point of `g` falls into it. */
  predicate HasGroup(g: seq<Point>, s: int, step: int, now: real)
    requires step > 0
  {
    s % step == 0 && (s + step) as real <= now && Within(g, s, s + step) != []
  }

  ghost predicate GroupKeys(buckets: map<int, seq<Point>>, g: seq<Point>, step: int, now: real)
    requires step > 0
  {
    forall s :: s in buckets <==> HasGroup(g, s, step, now)
  }

  ghost predicate GroupValues(buckets: map<int, seq<Point>>, g: seq<Point>, step: int) {
    forall s :: s in buckets ==> buckets[s] == Within(g, s, s + step)
  }

  /** `buckets` holds the non-empty groups of `g` whose bucket is over at `now`. */
  ghost predicate Grouped(buckets: map<int, seq<Point>>, g: seq<Point>, step: int, now: real)
    requires step > 0
  {
    GroupKeys(buckets, g, step, now) && GroupValues(buckets, g, step)
  }

  lemma WithinAppend(g: seq<Point>, p: Point, lo: int, hi: int)
    ensures Within(g + [p], lo, hi) == Within(g, lo, hi) + (if lo <= p.ts < hi then [p] else [])
  {
    assert (g + [p])[..|g|] == g;
  }

  /** One more point joins the group of its own bucket, and no other. */
  lemma WithinGrows(g: seq<Point>, p: Point, s: int, step: int)
    requires step > 0 && s % step == 0
    ensures Within(g + [p], s, s + step) == Within(g, s, s + step) + (if s == BucketOf(p.ts, step) then [p] else [])
  {
    WithinAppend(g, p, s, s + step);
    BucketUnique(p.ts, s, step);
  }

  /** `buckets` with the point in bucket `start`, if that is over. */
  function Added(buckets: map<int, seq<Point>>, start: int, p: Point, over: bool): map<int, seq<Point>> {
    if over then buckets[start := (if start in buckets then buckets[start] else []) + [p]] else buckets
  }

  lemma AddedKeys(buckets: map<int, seq<Point>>, g: seq<Point>, p: Point, start: int, step: int, now: real)
    requires step > 0 && GroupKeys(buckets, g, step, now) && start == BucketOf(p.ts, step)
    ensures GroupKeys(Added(buckets, start, p, (start + step) as real <= now), g + [p], step, now)
  {
    BucketRange(p.ts, step);
    forall s ensures s in Added(buckets, start, p, (start + step) as real <= now) <==> HasGroup(g + [p], s, step, now) {
      assert s in buckets <==> HasGroup(g, s, step, now);
      if s % step == 0 { WithinGrows(g, p, s, step); }
    }
  }

  lemma AddedValue(
    buckets: map<int, seq<Point>>, g: seq<Point>, p: Point, start: int, step: int, now: real, over: bool, s: int)
    requires step > 0 && Grouped(buckets, g, step, now) && start == BucketOf(p.ts, step) && s % step == 0
    requires over <==> (start + step) as real <= now
    requires s in Added(buckets, start, p, over)
    ensures Added(buckets, start, p, over)[s] == Within(g + [p], s, s + step)
  {
    assert s in buckets <==> HasGroup(g, s, step, now);
    WithinGrows(g, p, s, step);
  }

  lemma AddedValues(
    buckets: map<int, seq<Point>>, g: seq<Point>, p: Point, start: int, step: int, now: real, over: bool)
    requires step > 0 && Grouped(buckets, g, step, now) && start == BucketOf(p.ts, step)
    requires over <==> (start + step) as real <= now
    ensures GroupValues(Added(buckets, start, p, over), g + [p], step)
  {
    var added := Added(buckets, start, p, over);
    forall s | s in added ensures added[s] == Within(g + [p], s, s + step) {
      if s == start { BucketRange(p.ts, step); } else { assert HasGroup(g, s, step, now); }
      AddedValue(buckets, g, p, start, step, now, over, s);
    }
  }

  lemma GroupOne(buckets: map<int, seq<Point>>, g: seq<Point>, p: Point, start: int, step: int, now: real)
    requires step > 0 && Grouped(buckets, g, step, now) && start == BucketOf(p.ts, step)
    ensures Grouped(Added(buckets, start, p, (start + step) as real <= now), g + [p], step, now)
  {
    AddedKeys(buckets, g, p, start, step, now);
    AddedValues(buckets, g, p, start, step, now, (start + step) as real <= now);
  }
}
