// The panic barrier: a record of panicked threads that the panic hook
// fills in place, queried by `check`, `wait` and `wait_timeout`.
//
// Blocking on the condition variable is modelled by a finite schedule of
// wake-ups supplied by the caller. At each wake-up the other threads'
// panics that happened meanwhile are recorded by running the hook body,
// the only code that writes the record, so the record can only grow.

module Barrier {
  import opened Panicked

  /** What a blocking call did within the given schedule of wake-ups. */
  datatype WaitResult<T> = Returned(value: T) | StillBlocked

  /** One wake-up of `wait_timeout`: the threads that panicked while it was
      waiting, whether the condition variable reported a timeout, and the
      measured elapsed time (nanoseconds, say). */
  datatype Wakeup = Wakeup(arrivals: seq<Thread>, timedOut: bool, elapsed: nat)

  /** All panics of a schedule of wait wake-ups, in order. */
  function Flatten(wakeups: seq<seq<Thread>>): seq<Thread>
    decreases |wakeups|
  {
    if wakeups == [] then []
    else Flatten(wakeups[..|wakeups| - 1]) + wakeups[|wakeups| - 1]
  }

  /** All panics of a schedule of timed wake-ups, in order. */
  function Arrivals(wakeups: seq<Wakeup>): seq<Thread>
    decreases |wakeups|
  {
    if wakeups == [] then []
    else Arrivals(wakeups[..|wakeups| - 1]) + wakeups[|wakeups| - 1].arrivals
  }

  /** Total time measured over a schedule of timed wake-ups. */
  function Spent(wakeups: seq<Wakeup>): nat
    decreases |wakeups|
  {
    if wakeups == [] then 0
    else Spent(wakeups[..|wakeups| - 1]) + wakeups[|wakeups| - 1].elapsed
  }

  /** Wake-up `j` of `wait_timeout(_, dur)` leads to another wait: it did not
      time out and the time measured so far is still under `dur`. */
  predicate Rearms(dur: nat, wakeups: seq<Wakeup>, j: nat)
    requires j < |wakeups|
  {
    !wakeups[j].timedOut && Spent(wakeups[..j + 1]) < dur
  }

  /** Each of the first `k` wake-ups led to another wait. */
  predicate RearmedBefore(dur: nat, wakeups: seq<Wakeup>, k: nat)
    requires k <= |wakeups|
  {
    forall j :: 0 <= j < k ==> Rearms(dur, wakeups, j)
  }

  /** One more wake-up adds its panics and its elapsed time, and it re-arms
      exactly when it neither timed out nor used up what is left of `dur`. */
  lemma WakeupStep(dur: nat, wakeups: seq<Wakeup>, k: nat)
    requires k < |wakeups|
    requires Spent(wakeups[..k]) <= dur
    ensures Arrivals(wakeups[..k + 1]) == Arrivals(wakeups[..k]) + wakeups[k].arrivals
    ensures Spent(wakeups[..k + 1]) == Spent(wakeups[..k]) + wakeups[k].elapsed
    ensures Rearms(dur, wakeups, k) <==>
              !(wakeups[k].timedOut || wakeups[k].elapsed >= dur - Spent(wakeups[..k]))
  {
    assert wakeups[..k + 1][..k] == wakeups[..k];
  }

  class PanicBarrier {
    /** All threads which have historically panicked. */
    var panicked: PanicMap

    ghost predicate Valid()
      reads this
    {
      WellKeyed(panicked)
    }

    /** `new`: an empty record. */
    constructor ()
      ensures Valid()
      ensures panicked == map[]
    {
      panicked := map[];
    }

    /** The body of the panic hook installed by `init`: record the current
        thread under its id; nothing is removed and no other entry changes. */
    method RecordPanic(current: Thread)
      requires Valid()
      modifies this
      ensures Valid()
      ensures current.id in panicked && panicked[current.id] == current
      ensures panicked.Keys == old(panicked).Keys + {current.id}
      ensures forall id :: id in old(panicked) && id != current.id ==> panicked[id] == old(panicked)[id]
    {
      panicked := panicked[current.id := current];
    }

    /** Other threads panic, one after the other, each running the hook. */
    method OthersPanic(ps: seq<Thread>)
      requires Valid()
      modifies this
      ensures Valid()
      ensures old(panicked).Keys <= panicked.Keys
      ensures panicked == Recorded(old(panicked), ps)
    {
      for i := 0 to |ps|
        invariant Valid()
        invariant old(panicked).Keys <= panicked.Keys
        invariant panicked == Recorded(old(panicked), ps[..i])
      {
        RecordPanic(ps[i]);
        assert ps[..i + 1][..i] == ps[..i];
      }
      assert ps[..|ps|] == ps;
    }

    /** `check`: the filtering pass over the current record. */
    method Check(watch: seq<ThreadId>) returns (found: seq<Thread>)
      ensures found == Filter(watch, panicked)
    {
      found := [];
      for i := 0 to |watch|
        invariant found == Filter(watch[..i], panicked)
      {
        var tid := watch[i];
        if tid in panicked {
          found := found + [panicked[tid]];
        }
        assert watch[..i + 1][..i] == watch[..i];
      }
      assert watch[..|watch|] == watch;
    }

    /** `wait`: filter, and while nothing watched is recorded, block until
        the next wake-up and filter again. `rounds` is the number of
        wake-ups consumed. The result is never empty, it is the filter of the
        record at the moment of return, and every earlier pass was empty. */
    method Wait(watch: seq<ThreadId>, wakeups: seq<seq<Thread>>)
      returns (r: WaitResult<seq<Thread>>, rounds: nat)
      requires Valid()
      modifies this
      ensures Valid()
      ensures rounds <= |wakeups|
      ensures panicked == Recorded(old(panicked), Flatten(wakeups[..rounds]))
      ensures old(panicked).Keys <= panicked.Keys
      ensures forall j :: 0 <= j < rounds ==>
                Filter(watch, Recorded(old(panicked), Flatten(wakeups[..j]))) == []
      ensures r.Returned? ==> r.value != [] && r.value == Filter(watch, panicked)
      ensures r.StillBlocked? ==> rounds == |wakeups| && Filter(watch, panicked) == []
      ensures Filter(watch, old(panicked)) != [] ==>
                rounds == 0 && r == Returned(Filter(watch, old(panicked)))
    {
      ghost var m0 := panicked;
      rounds := 0;
      while true
        invariant Valid()
        invariant rounds <= |wakeups|
        invariant m0.Keys <= panicked.Keys
        invariant panicked == Recorded(m0, Flatten(wakeups[..rounds]))
        invariant forall j :: 0 <= j < rounds ==>
                    Filter(watch, Recorded(m0, Flatten(wakeups[..j]))) == []
        decreases |wakeups| - rounds
      {
        var found := Check(watch);
        if found != [] {
          return Returned(found), rounds;
        }
        if rounds == |wakeups| {
          return StillBlocked, rounds;
        }
        OthersPanic(wakeups[rounds]);
        assert wakeups[..rounds + 1][..rounds] == wakeups[..rounds];
        RecordedAppend(m0, Flatten(wakeups[..rounds]), wakeups[rounds]);
        rounds := rounds + 1;
      }
    }

    /** `wait_timeout`: as `wait`, but after each wake-up it gives up with an
        empty result if the wait timed out or the elapsed time reached the
        remaining budget; otherwise the budget is reduced by the elapsed time
        and it waits again. The result is empty exactly when it gave up. */
    method WaitTimeout(watch: seq<ThreadId>, dur: nat, wakeups: seq<Wakeup>)
      returns (r: WaitResult<seq<Thread>>, rounds: nat)
      requires Valid()
      modifies this
      ensures Valid()
      ensures rounds <= |wakeups|
      ensures panicked == Recorded(old(panicked), Arrivals(wakeups[..rounds]))
      ensures old(panicked).Keys <= panicked.Keys
      ensures forall j :: 0 <= j < rounds ==>
                Filter(watch, Recorded(old(panicked), Arrivals(wakeups[..j]))) == []
      ensures r == Returned([]) <==>
                0 < rounds && RearmedBefore(dur, wakeups, rounds - 1) && !Rearms(dur, wakeups, rounds - 1)
      ensures r != Returned([]) ==> RearmedBefore(dur, wakeups, rounds)
      ensures r.Returned? && r.value != [] ==> r.value == Filter(watch, panicked)
      ensures r.StillBlocked? ==> rounds == |wakeups| && Filter(watch, panicked) == []
      ensures Filter(watch, old(panicked)) != [] ==>
                rounds == 0 && r == Returned(Filter(watch, old(panicked)))
    {
      ghost var m0 := panicked;
      var remaining := dur;
      rounds := 0;
      while true
        invariant Valid()
        invariant rounds <= |wakeups|
        invariant m0.Keys <= panicked.Keys
        invariant panicked == Recorded(m0, Arrivals(wakeups[..rounds]))
        invariant forall j :: 0 <= j < rounds ==>
                    Filter(watch, Recorded(m0, Arrivals(wakeups[..j]))) == []
        invariant RearmedBefore(dur, wakeups, rounds)
        // the budget never underflows: it is what is left of `dur`
        invariant Spent(wakeups[..rounds]) <= dur
        invariant remaining == dur - Spent(wakeups[..rounds])
        invariant 0 < rounds ==> 0 < remaining
        decreases |wakeups| - rounds
      {
        var found := Check(watch);
        if found != [] {
          return Returned(found), rounds;
        }
        if rounds == |wakeups| {
          return StillBlocked, rounds;
        }
        var w := wakeups[rounds];
        OthersPanic(w.arrivals);
        WakeupStep(dur, wakeups, rounds);
        RecordedAppend(m0, Arrivals(wakeups[..rounds]), w.arrivals);
        rounds := rounds + 1;
        if w.timedOut || w.elapsed >= remaining {
          return Returned([]), rounds;
        }
        remaining := remaining - w.elapsed;
      }
    }
  }

  /** The scenario of the crate's test: `good` exits normally and `bad`
      panics. The first wait sees a spurious wake-up, then `bad`'s panic,
      and reports `[bad]`; the second returns `[bad]` at once. */
  method WatcherScenario(good: Thread, bad: Thread)
    returns (first: WaitResult<seq<Thread>>, second: WaitResult<seq<Thread>>)
    requires good.id != bad.id
    ensures first == Returned([bad]) && second == Returned([bad])
  {
    var barrier := new PanicBarrier();
    var watch := [good.id, bad.id];
    var wakeups := [[], [bad]];
    assert Flatten(wakeups[..0]) == [];
    assert Flatten(wakeups[..1]) == [];
    assert Flatten(wakeups[..2]) == [bad];
    assert Filter(watch, map[]) == [];
    assert Filter(watch, map[bad.id := bad]) == [bad] by {
      assert watch[..1] == [good.id];
      assert Filter(watch[..1], map[bad.id := bad]) == [];
    }
    var rounds;
    first, rounds := barrier.Wait(watch, wakeups);
    assert barrier.panicked == map[bad.id := bad];
    second, rounds := barrier.Wait(watch, []);
  }

  /** A timed wait on a thread that never panics: a spurious wake-up after
      20 units re-arms the wait with 30 left, the next wake-up times out,
      and the result is empty. */
  method TimeoutScenario(other: ThreadId) returns (r: WaitResult<seq<Thread>>)
    ensures r == Returned([])
  {
    var barrier := new PanicBarrier();
    var wakeups := [Wakeup([], false, 20), Wakeup([], true, 30)];
    var rounds;
    r, rounds := barrier.WaitTimeout([other], 50, wakeups);
    assert Arrivals(wakeups[..0]) == [] && Arrivals(wakeups[..1]) == [];
    assert Arrivals(wakeups[..2]) == [];
    assert Filter([other], map[]) == [];
    assert Spent(wakeups[..1]) == 20;
    assert Rearms(50, wakeups, 0);
    assert !Rearms(50, wakeups, 1);
  }

  /** A wake-up caused by a watched thread's panic that arrives once the
      whole budget has elapsed still yields the empty result: after the
      wait there is no second filtering pass. */
  method LateWakeupScenario(bad: Thread) returns (r: WaitResult<seq<Thread>>, recorded: bool)
    ensures r == Returned([]) && recorded
  {
    var barrier := new PanicBarrier();
    var wakeups := [Wakeup([bad], false, 50)];
    var rounds;
    r, rounds := barrier.WaitTimeout([bad.id], 50, wakeups);
    assert Arrivals(wakeups[..0]) == [];
    assert Arrivals(wakeups[..1]) == [bad];
    assert Filter([bad.id], map[]) == [];
    assert Spent(wakeups[..1]) == 50;
    recorded := bad.id in barrier.panicked;
  }
}
