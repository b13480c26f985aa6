// The record of panicked threads and the filtering step shared by
// `check`, `wait` and `wait_timeout`, as specification functions, with the
// properties the barrier's callers rely on.

module Panicked {

  datatype Option<T> = None | Some(value: T)

  /** An opaque, comparable thread identity (std's `ThreadId`). */
  datatype ThreadId = ThreadId(raw: nat)

  /** A thread descriptor (std's `Thread`): its identity and optional name. */
  datatype Thread = Thread(id: ThreadId, name: Option<string>)

  /** All threads which have panicked since the hook was installed. */
  type PanicMap = map<ThreadId, Thread>

  /** Every entry is keyed by its own thread's id: the hook only ever inserts
      `current.id() -> current`. */
  ghost predicate WellKeyed(m: PanicMap) {
    forall id :: id in m ==> m[id].id == id
  }

  /** The ids of a result vector, in order. */
  function Ids(ts: seq<Thread>): seq<ThreadId> {
    seq(|ts|, i requires 0 <= i < |ts| => ts[i].id)
  }

  /** The filtering pass: one descriptor per occurrence, in watch-list order,
      of each watched id that is in the record. Duplicates are kept. */
  function Filter(watch: seq<ThreadId>, m: PanicMap): (r: seq<Thread>)
    ensures |r| <= |watch|
    decreases |watch|
  {
    if watch == [] then []
    else
      var front := Filter(watch[..|watch| - 1], m);
      var tid := watch[|watch| - 1];
      if tid in m then front + [m[tid]] else front
  }

  /** The record after the hook has run for each thread of `ps`, in order. */
  function Recorded(m: PanicMap, ps: seq<Thread>): PanicMap
    decreases |ps|
  {
    if ps == [] then m
    else
      var last := ps[|ps| - 1];
      Recorded(m, ps[..|ps| - 1])[last.id := last]
  }

  /** The ids of a sequence of panicking threads, as a set. */
  function IdSet(ps: seq<Thread>): set<ThreadId> {
    set p | p in ps :: p.id
  }

  // ---------------------------------------------------------------------
  // The filter

  /** The result is in watch-list order: filtering a concatenation is the
      concatenation of the filtered parts. */
  lemma {:induction false} FilterAppend(a: seq<ThreadId>, b: seq<ThreadId>, m: PanicMap)
    ensures Filter(a + b, m) == Filter(a, m) + Filter(b, m)
    decreases |b|
  {
    if b == [] {
      assert a + b == a;
    } else {
      var b' := b[..|b| - 1];
      assert (a + b)[..|a + b| - 1] == a + b';
      assert (a + b)[|a + b| - 1] == b[|b| - 1];
      FilterAppend(a, b', m);
    }
  }

  /** No false positives and no false negatives: a descriptor is in the
      result exactly when it is recorded under some watched id. */
  lemma {:induction false} FilterMember(watch: seq<ThreadId>, m: PanicMap, t: Thread)
    ensures t in Filter(watch, m) <==>
            exists i :: 0 <= i < |watch| && watch[i] in m && m[watch[i]] == t
    decreases |watch|
  {
    if watch != [] {
      var front := watch[..|watch| - 1];
      FilterMember(front, m, t);
      if exists i :: 0 <= i < |watch| && watch[i] in m && m[watch[i]] == t {
        var i :| 0 <= i < |watch| && watch[i] in m && m[watch[i]] == t;
        if i < |front| {
          assert front[i] == watch[i];
        }
      }
      if exists i :: 0 <= i < |front| && front[i] in m && m[front[i]] == t {
        var i :| 0 <= i < |front| && front[i] in m && m[front[i]] == t;
        assert watch[i] == front[i];
      }
    }
  }

  /** The result is empty exactly when no watched id is recorded. */
  lemma {:induction false} FilterEmpty(watch: seq<ThreadId>, m: PanicMap)
    ensures Filter(watch, m) == [] <==> forall w :: w in watch ==> w !in m
    decreases |watch|
  {
    if watch != [] {
      var front := watch[..|watch| - 1];
      FilterEmpty(front, m);
      assert watch == front + [watch[|watch| - 1]];
    }
  }

  /** At the level of ids: an id is reported exactly when it is watched and
      recorded. */
  lemma {:induction false} FilterIds(watch: seq<ThreadId>, m: PanicMap, w: ThreadId)
    requires WellKeyed(m)
    ensures w in Ids(Filter(watch, m)) <==> w in watch && w in m
    decreases |watch|
  {
    if watch != [] {
      var front := watch[..|watch| - 1];
      var tid := watch[|watch| - 1];
      FilterIds(front, m, w);
      assert watch == front + [tid];
      if tid in m {
        assert Filter(watch, m) == Filter(front, m) + [m[tid]];
        assert Ids(Filter(watch, m)) == Ids(Filter(front, m)) + [tid];
      }
    }
  }

  /** One entry per occurrence: a recorded thread appears in the result as
      many times as its id appears in the watch list. */
  lemma {:induction false} FilterCount(watch: seq<ThreadId>, m: PanicMap, w: ThreadId)
    requires WellKeyed(m)
    requires w in m
    ensures multiset(Filter(watch, m))[m[w]] == multiset(watch)[w]
    decreases |watch|
  {
    if watch != [] {
      var front := watch[..|watch| - 1];
      var tid := watch[|watch| - 1];
      FilterCount(front, m, w);
      assert watch == front + [tid];
      assert multiset(watch) == multiset(front) + multiset{tid};
      if tid in m {
        assert multiset(Filter(watch, m)) == multiset(Filter(front, m)) + multiset{m[tid]};
        assert m[tid] == m[w] <==> tid == w;
      }
    }
  }

  /** The result depends only on the entries of the watched ids. */
  lemma {:induction false} FilterStable(watch: seq<ThreadId>, m: PanicMap, m': PanicMap)
    requires forall w :: w in watch ==> (w in m <==> w in m')
    requires forall w :: w in watch && w in m ==> m[w] == m'[w]
    ensures Filter(watch, m) == Filter(watch, m')
    decreases |watch|
  {
    if watch != [] {
      var front := watch[..|watch| - 1];
      assert forall w :: w in front ==> w in watch;
      FilterStable(front, m, m');
    }
  }

  // ---------------------------------------------------------------------
  // The record

  /** Recording two runs of panics one after the other is recording their
      concatenation. */
  lemma {:induction false} RecordedAppend(m: PanicMap, a: seq<Thread>, b: seq<Thread>)
    ensures Recorded(m, a + b) == Recorded(Recorded(m, a), b)
    decreases |b|
  {
    if b == [] {
      assert a + b == a;
    } else {
      var b' := b[..|b| - 1];
      assert (a + b)[..|a + b| - 1] == a + b';
      assert (a + b)[|a + b| - 1] == b[|b| - 1];
      RecordedAppend(m, a, b');
    }
  }

  /** The record only grows: its keys become the old keys plus the ids of the
      panicking threads, every entry is keyed by its own thread, and an entry
      whose id did not panic again keeps its descriptor. */
  lemma {:induction false} RecordedGrows(m: PanicMap, ps: seq<Thread>)
    ensures Recorded(m, ps).Keys == m.Keys + IdSet(ps)
    ensures forall id :: id in m && id !in IdSet(ps) ==> Recorded(m, ps)[id] == m[id]
    ensures WellKeyed(m) ==> WellKeyed(Recorded(m, ps))
    decreases |ps|
  {
    if ps != [] {
      var front := ps[..|ps| - 1];
      var last := ps[|ps| - 1];
      RecordedGrows(m, front);
      assert ps == front + [last];
      assert IdSet(ps) == IdSet(front) + {last.id};
    }
  }

  /** Idempotence: while only unwatched threads panic, the result of the
      filtering pass stays the same. */
  lemma {:induction false} ResultStable(watch: seq<ThreadId>, m: PanicMap, ps: seq<Thread>)
    requires forall p :: p in ps ==> p.id !in watch
    ensures Filter(watch, Recorded(m, ps)) == Filter(watch, m)
  {
    RecordedGrows(m, ps);
    FilterStable(watch, m, Recorded(m, ps));
  }

  /** Monotonicity: once an id is reported for some watch list, it is
      reported by every later pass over any watch list containing it. */
  lemma {:induction false} ResultMonotone(watch: seq<ThreadId>, watch': seq<ThreadId>,
                                          m: PanicMap, ps: seq<Thread>, w: ThreadId)
    requires WellKeyed(m)
    requires w in Ids(Filter(watch, m)) && w in watch'
    ensures w in Ids(Filter(watch', Recorded(m, ps)))
  {
    FilterIds(watch, m, w);
    RecordedGrows(m, ps);
    FilterIds(watch', Recorded(m, ps), w);
  }
}
