/** The orphan sweeps interleaved with registrations, removals, deploys and anything else that makes or drops workloads,
    routes and schemas (app/lifecycle/reconciler.py, the second half of `tick`). */
module OrphanSweep {

  datatype Kind = Workload | Route | Schema

  datatype Sweep =
    | Idle
    | Listing(kind: Kind, seen: set<string>)
    | Deleting(doomed: Kind, left: set<string>)

  datatype Sys = Sys(active: set<string>, things: set<(Kind, string)>, sweep: Sweep)

  datatype Step =
    | Register(name: string)               // the commit of a row that is not removed
    | Remove(name: string)                 // the commit that marks it removed
    | Make(what: Kind, name: string)
    | Drop(what: Kind, name: string)
    | Begin(what: Kind)                    // one sweep starts listing; the one before is over or was cut short
    | See(name: string)                    // listing is not atomic: it meets one thing at a time
    | Reread                               // the active names are read once, after the listing
    | Delete(name: string)

  predicate Enabled(s: Sys, e: Step) {
    match e
    case See(n) => s.sweep.Listing? && (s.sweep.kind, n) in s.things
    case Reread => s.sweep.Listing?
    case Delete(n) => s.sweep.Deleting? && n in s.sweep.left
    case _ => true
  }

  function Do(s: Sys, e: Step): Sys
    requires Enabled(s, e)
  {
    match e
    case Register(n) => s.(active := s.active + {n})
    case Remove(n) => s.(active := s.active - {n})
    case Make(k, n) => s.(things := s.things + {(k, n)})
    case Drop(k, n) => s.(things := s.things - {(k, n)})
    case Begin(k) => s.(sweep := Listing(k, {}))
    case See(n) => s.(sweep := Listing(s.sweep.kind, s.sweep.seen + {n}))
    case Reread => s.(sweep := Deleting(s.sweep.kind, s.sweep.seen - s.active))
    case Delete(n) =>
      s.(things := s.things - {(s.sweep.doomed, n)}, sweep := Deleting(s.sweep.doomed, s.sweep.left - {n}))
  }

  /** A thing is there after a step if the step made it, or if it was there and the step did not drop or delete it. */
  lemma ThereIff(s: Sys, e: Step, k: Kind, n: string)
    requires Enabled(s, e)
    ensures (k, n) in Do(s, e).things <==>
      || e == Make(k, n)
      || ((k, n) in s.things && e != Drop(k, n) && !(e == Delete(n) && s.sweep.doomed == k))
  {
  }

  // ----- a sweep by itself -----

  ghost predicate Runs(s: Sys, es: seq<Step>)
    decreases es
  {
    es == [] || (Enabled(s, es[0]) && Runs(Do(s, es[0]), es[1..]))
  }

  ghost function Ends(s: Sys, es: seq<Step>): Sys
    requires Runs(s, es)
    decreases es
  {
    if es == [] then s else Ends(Do(s, es[0]), es[1..])
  }

  predicate OfSweep(e: Step) { e.Begin? || e.See? || e.Reread? || e.Delete? }

  lemma Prepend(s: Sys, e: Step, es: seq<Step>)
    requires Enabled(s, e) && Runs(Do(s, e), es)
    ensures Runs(s, [e] + es) && Ends(s, [e] + es) == Ends(Do(s, e), es)
  {
    assert ([e] + es)[1..] == es;
  }

  lemma {:induction false} Deletions(s: Sys) returns (es: seq<Step>)
    requires s.sweep.Deleting?
    ensures Runs(s, es) && |es| == |s.sweep.left| && forall e :: e in es ==> OfSweep(e)
    ensures var s' := Ends(s, es);
      && s'.active == s.active && s'.sweep == Deleting(s.sweep.doomed, {})
      && s'.things == s.things - (set n | n in s.sweep.left :: (s.sweep.doomed, n))
    decreases |s.sweep.left|
  {
    es := [];
    if s.sweep.left != {} {
      var n :| n in s.sweep.left;
      var rest := Deletions(Do(s, Delete(n)));
      Prepend(s, Delete(n), rest);
      es := [Delete(n)] + rest;
    }
  }

  /** What a listing has still to meet. */
  ghost function Unseen(s: Sys): set<string>
    requires s.sweep.Listing?
  {
    (set t | t in s.things && t.0 == s.sweep.kind :: t.1) - s.sweep.seen
  }

  lemma {:induction false} Sightings(s: Sys) returns (es: seq<Step>)
    requires s.sweep.Listing?
    ensures Runs(s, es) && |es| == |Unseen(s)| && forall e :: e in es ==> OfSweep(e)
    ensures Ends(s, es) == s.(sweep := Listing(s.sweep.kind, s.sweep.seen + Unseen(s)))
    decreases |Unseen(s)|
  {
    es := [];
    if Unseen(s) == {} {
      assert s.sweep.seen + Unseen(s) == s.sweep.seen;
    } else {
      var n :| n in Unseen(s);
      var s' := Do(s, See(n));
      assert Unseen(s') == Unseen(s) - {n};
      var rest := Sightings(s');
      assert s'.sweep.seen + Unseen(s') == s.sweep.seen + Unseen(s);
      Prepend(s, See(n), rest);
      es := [See(n)] + rest;
    }
  }

  /** A sweep that nothing disturbs leaves exactly the things of active names, of its kind, and everything of the other
      kinds. */
  lemma SweepCompletes(s: Sys, k: Kind) returns (es: seq<Step>)
    ensures Runs(s, es) && forall e :: e in es ==> OfSweep(e)
    ensures var s' := Ends(s, es);
      && s'.active == s.active && s'.sweep == Deleting(k, {})
      && forall t :: t in s'.things <==> t in s.things && (t.0 == k ==> t.1 in s.active)
  {
    var s1 := Do(s, Begin(k));
    var seeing := Sightings(s1);
    var s2 := Ends(s1, seeing);
    var s3 := Do(s2, Reread);
    var deleting := Deletions(s3);
    Prepend(s2, Reread, deleting);
    Joins(s1, seeing, [Reread] + deleting);
    Prepend(s, Begin(k), seeing + ([Reread] + deleting));
    es := [Begin(k)] + (seeing + ([Reread] + deleting));
  }

  lemma {:induction false} Joins(s: Sys, es: seq<Step>, more: seq<Step>)
    requires Runs(s, es) && Runs(Ends(s, es), more)
    ensures Runs(s, es + more) && Ends(s, es + more) == Ends(Ends(s, es), more)
    decreases es
  {
    if es == [] {
      assert es + more == more;
    } else {
      assert (es + more)[1..] == es[1..] + more;
      Joins(Do(s, es[0]), es[1..], more);
    }
  }

  // ----- a sweep amid everything else -----

  /** `states` is the run of `steps`. */
  ghost predicate IsRun(states: seq<Sys>, steps: seq<Step>) {
    && |states| == |steps| + 1
    && states[0].sweep.Idle?
    && forall i :: 0 <= i < |steps| ==> Enabled(states[i], steps[i]) && states[i + 1] == Do(states[i], steps[i])
  }

  /** The sweep under way met the name at step `k`, and none has begun since. */
  ghost predicate SeenAt(states: seq<Sys>, steps: seq<Step>, i: nat, n: string, k: nat)
    requires |states| == |steps| + 1 && i <= |steps|
  {
    && k < i && steps[k] == See(n) && states[k].sweep.Listing?
    && (states[k].sweep.kind, n) in states[k].things
    && forall m :: k < m < i ==> !steps[m].Begin?
  }

  lemma {:induction false} ListedWasSeen(states: seq<Sys>, steps: seq<Step>, i: nat, n: string) returns (k: nat)
    requires IsRun(states, steps) && i <= |steps|
    requires states[i].sweep.Listing? && n in states[i].sweep.seen
    ensures SeenAt(states, steps, i, n, k) && states[k].sweep.kind == states[i].sweep.kind
  {
    assert states[i] == Do(states[i - 1], steps[i - 1]);
    if steps[i - 1] == See(n) {
      k := i - 1;
    } else {
      k := ListedWasSeen(states, steps, i - 1, n);
    }
  }

  lemma {:induction false} DoomedWasInactive(states: seq<Sys>, steps: seq<Step>, i: nat, n: string)
    returns (k: nat, j: nat)
    requires IsRun(states, steps) && i <= |steps|
    requires states[i].sweep.Deleting? && n in states[i].sweep.left
    ensures SeenAt(states, steps, i, n, k) && k < j < i
    ensures states[k].sweep.kind == states[i].sweep.doomed
    ensures steps[j] == Reread && n !in states[j].active
  {
    assert states[i] == Do(states[i - 1], steps[i - 1]);
    if steps[i - 1].Reread? {
      k := ListedWasSeen(states, steps, i - 1, n);
      j := i - 1;
    } else {
      k, j := DoomedWasInactive(states, steps, i - 1, n);
    }
  }

  lemma {:induction false} BecameActive(states: seq<Sys>, steps: seq<Step>, j: nat, i: nat, n: string) returns (r: nat)
    requires IsRun(states, steps) && j <= i <= |steps|
    requires n !in states[j].active && n in states[i].active
    ensures j <= r < i && steps[r] == Register(n)
  {
    assert states[i] == Do(states[i - 1], steps[i - 1]);
    if steps[i - 1] == Register(n) {
      r := i - 1;
    } else {
      r := BecameActive(states, steps, j, i - 1, n);
    }
  }

  /** The name was registered at step `r`, before step `i`, and has not been removed since. */
  ghost predicate RegisteredAt(steps: seq<Step>, r: nat, i: nat, n: string)
    requires i <= |steps|
  {
    r < i && steps[r] == Register(n) && forall m :: r < m < i ==> steps[m] != Remove(n)
  }

  lemma {:induction false} ActiveIff(states: seq<Sys>, steps: seq<Step>, j: nat, i: nat, n: string)
    requires IsRun(states, steps) && j <= i <= |steps| && n !in states[j].active
    ensures n in states[i].active <==> exists r: nat :: j <= r && RegisteredAt(steps, r, i, n)
    decreases i - j
  {
    if j < i {
      ActiveIff(states, steps, j, i - 1, n);
      assert states[i] == Do(states[i - 1], steps[i - 1]);
      if n in states[i].active {
        if steps[i - 1] == Register(n) {
          assert RegisteredAt(steps, i - 1, i, n);
        } else {
          var r: nat :| j <= r && RegisteredAt(steps, r, i - 1, n);
          assert RegisteredAt(steps, r, i, n);
        }
      }
      if r: nat :| j <= r && RegisteredAt(steps, r, i, n) {
        if r < i - 1 { assert RegisteredAt(steps, r, i - 1, n); }
      }
    }
  }

  /** What a sweep deletes was met by its listing and belonged to an inactive name when the active names were read
      again. It is taken from an active model if and only if the name was registered after that, and not removed. */
  lemma LossIff(states: seq<Sys>, steps: seq<Step>, i: nat, n: string) returns (k: nat, j: nat)
    requires IsRun(states, steps) && i < |steps| && steps[i] == Delete(n)
    ensures SeenAt(states, steps, i, n, k) && states[k].sweep.kind == states[i].sweep.doomed
    ensures k < j < i && steps[j] == Reread && n !in states[j].active
    ensures n in states[i].active <==> exists r: nat :: j < r && RegisteredAt(steps, r, i, n)
  {
    k, j := DoomedWasInactive(states, steps, i, n);
    assert states[j + 1] == Do(states[j], steps[j]);
    ActiveIff(states, steps, j + 1, i, n);
  }

  /** What a sweep takes from a model that is active at that moment was there when it listed, belonged to an inactive
      name when the active names were read again, and the name was registered after that read. */
  lemma LossNeedsReturn(states: seq<Sys>, steps: seq<Step>, i: nat, n: string) returns (k: nat, j: nat, r: nat)
    requires IsRun(states, steps) && i < |steps|
    requires steps[i] == Delete(n) && n in states[i].active
    ensures SeenAt(states, steps, i, n, k) && states[k].sweep.kind == states[i].sweep.doomed
    ensures k < j < r < i && steps[j] == Reread && n !in states[j].active && steps[r] == Register(n)
  {
    k, j := DoomedWasInactive(states, steps, i, n);
    assert states[j + 1] == Do(states[j], steps[j]);
    r := BecameActive(states, steps, j + 1, i, n);
  }

  /** The name is never removed once registered, and nothing bears it before. */
  ghost predicate Stays(states: seq<Sys>, n: string) {
    && (forall a, b :: 0 <= a < b < |states| && n in states[a].active ==> n in states[b].active)
    && (forall a, k: Kind :: 0 <= a < |states| && (k, n) in states[a].things ==> n in states[a].active)
  }

  /** However the steps interleave. */
  lemma SweepsSpareLiving(states: seq<Sys>, steps: seq<Step>, n: string)
    requires IsRun(states, steps) && Stays(states, n)
    ensures forall i :: 0 <= i < |steps| ==> steps[i] != Delete(n)
  {
    forall i | 0 <= i < |steps| && steps[i] == Delete(n) ensures false {
      var k, j := DoomedWasInactive(states, steps, i, n);
    }
  }

  /** A name that comes back while a sweep is about to delete its leftovers loses its new workload, route or schema. */
  lemma ReturnLoses(s: Sys, kind: Kind, n: string) returns (states: seq<Sys>)
    requires (kind, n) in s.things && n !in s.active && s.sweep.Idle?
    ensures IsRun(states, [Begin(kind), See(n), Reread, Register(n), Make(kind, n), Delete(n)]) && states[0] == s
    ensures n in states[5].active && n in states[6].active
    ensures (kind, n) in states[5].things && (kind, n) !in states[6].things
  {
    var steps := [Begin(kind), See(n), Reread, Register(n), Make(kind, n), Delete(n)];
    var s1 := Do(s, steps[0]);
    var s2 := Do(s1, steps[1]);
    var s3 := Do(s2, steps[2]);
    var s4 := Do(s3, steps[3]);
    var s5 := Do(s4, steps[4]);
    states := [s, s1, s2, s3, s4, s5, Do(s5, steps[5])];
    assert IsRun(states, steps);
  }
}
