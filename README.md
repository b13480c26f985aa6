# panic_barrier in Dafny

A model of `PanicBarrier`, a barrier that lets any number of threads block
until one of a list of watched threads panics. The barrier keeps a record of
every thread that has panicked since its hook was installed, a map from
thread id to thread descriptor. The panic hook inserts the panicking thread
into that record. Three queries filter a watch list against it:

- `check` returns at once;
- `wait` blocks until the result is non-empty;
- `wait_timeout` also gives up after a duration.

Files:

- `panicked.dfy` (module `Panicked`): thread ids and descriptors, the record
  (`PanicMap`), and two specification functions. `Filter` is the filtering
  pass shared by all three queries. `Recorded` is the record after a run of
  panics. The module also holds the lemmas about both functions.
- `barrier.dfy` (module `Barrier`): the class `PanicBarrier`. Its `panicked`
  map field is updated in place by `RecordPanic`, the hook body. The queries
  are the methods `Check`, `Wait` and `WaitTimeout`, each built from the
  source's loops and proved against `Filter` and `Recorded`. The module also
  holds three scenario methods.

Blocking on the condition variable is modelled by a finite schedule of
wake-ups that the caller supplies. At each wake-up, the threads that panicked
in the meantime are recorded by running the hook body (`OthersPanic` calls
`RecordPanic` once per thread). The hook is the only writer of the record, so
the record can only grow. When the schedule runs out before the call would
return, the method reports `StillBlocked`. For `wait_timeout`, each wake-up
also carries the condition variable's timed-out flag and the measured elapsed
time (a `nat`, in nanoseconds for example).

The code does not deduplicate: a watched id that appears twice yields its
descriptor twice (`FilterCount`).

The code checks once more only before each wait, not after it. So
`wait_timeout` returns empty when a wake-up times out or uses up the budget,
even if a watched thread was recorded during that last wait.
`LateWakeupScenario` shows this case. The doc comment's "empty if and only if
the timeout expired" holds in this sense: `WaitTimeout`'s contract states it
with "expired" meaning that the timed-out flag was set or the budget was used
up.

## Model

| member | source | states |
|---|---|---|
| Barrier.PanicBarrier.constructor | src/lib.rs:62-67 | `new` gives a barrier whose record is empty |
| Barrier.PanicBarrier.RecordPanic | src/lib.rs:81-83 | the hook maps the current thread's id to the current thread, adds exactly that key, and leaves every other key and descriptor unchanged |
| Barrier.PanicBarrier.OthersPanic | src/lib.rs:81-83 | running the hook for a series of panicking threads keeps every entry keyed by its own thread, never removes a key, and yields `Recorded(old record, threads)` |
| Barrier.PanicBarrier.Check | src/lib.rs:136-145 | the loop that pushes matching descriptors returns exactly `Filter(watch, record)` and does not change the record |
| Barrier.PanicBarrier.Wait | src/lib.rs:95-107 | the result is never empty; it is the filter of the record at the moment of return; every earlier pass was empty; the record only grows, and only through the scheduled panics; if a watched thread is already recorded at call time, the call returns that filter on the first pass with no wake-up (level-triggered) |
| Barrier.PanicBarrier.WaitTimeout | src/lib.rs:115-132 | the result is empty exactly when, after some wake-up, the wait timed out or the total elapsed time reached `dur`, with every earlier wake-up having re-armed; a non-empty result is the filter of the current record; the immediate match consumes no wake-up; the remaining budget is always `dur` minus the elapsed times so far and stays positive after each retry, so it never underflows |
| Panicked.Filter | src/lib.rs:139-143 | the filtering pass yields at most one descriptor per watch-list entry |
| Panicked.FilterAppend | src/lib.rs:139-143 | results come back in watch-list order: filtering `a + b` gives the filter of `a` followed by the filter of `b` |
| Panicked.FilterMember | src/lib.rs:139-143 | no false positives and no false negatives: a descriptor is in the result exactly when it is recorded under some watched id |
| Panicked.FilterEmpty | src/lib.rs:99-104 | the result is empty exactly when no watched id is in the record, so `wait` returns exactly when one is |
| Panicked.FilterIds | src/lib.rs:139-143 | for a record keyed by thread ids, an id is reported exactly when it is both watched and recorded |
| Panicked.FilterCount | src/lib.rs:139-143 | no deduplication: a recorded thread appears in the result as many times as its id occurs in the watch list |
| Panicked.FilterStable | src/lib.rs:139-143 | the result depends only on the record's entries for the watched ids |
| Panicked.RecordedAppend | src/lib.rs:81-83 | recording two runs of panics one after the other is the same as recording their concatenation |
| Panicked.RecordedGrows | src/lib.rs:57 | the record only grows: its keys become the old keys plus the panicking ids; a key not hit again keeps its descriptor; entries stay keyed by their own thread |
| Panicked.ResultStable | src/lib.rs:92-94 | repeating a query returns the same result as long as only unwatched threads panic in between |
| Panicked.ResultMonotone | src/lib.rs:57 | once an id is reported, every later pass over any watch list that contains it reports it again, whatever panics happen in between |
| Barrier.WatcherScenario | tests/test.rs:17-29 | watching `[good, bad]` where only `bad` panics: the first `wait` returns `[bad]` after a spurious wake-up and `bad`'s panic, and the second `wait` returns `[bad]` at once |
| Barrier.TimeoutScenario | src/lib.rs:124-130 | a spurious wake-up after 20 of 50 units re-arms the wait; a timed-out wake-up then gives the empty result |
| Barrier.LateWakeupScenario | src/lib.rs:126-129 | a wake-up that brings the watched thread's panic but uses up the whole budget still gives the empty result, with the thread recorded |

## Left out

- Barrier.PanicBarrier.Wait: the model has no liveness guarantee. The source blocks until a matching panic happens, possibly forever. The model consumes a finite schedule of wake-ups and reports `StillBlocked` when the schedule runs out.
- Barrier.PanicBarrier.WaitTimeout: real time is not modelled. The elapsed time and the timed-out flag of each wake-up are inputs, so the model does not promise that the call blocks for about `dur`. It only covers the loop's decisions given those measurements.
- `init`'s `panic::take_hook`/`panic::set_hook` and the forwarding to the previous hook (src/lib.rs:79-80, 85) are calls into std's global hook slot. They are not modelled. The previous hook runs after the insert and the notify, while the record's lock is still held: the guard taken at src/lib.rs:81 lives until the closure ends at line 86.
- Calling `init` twice is not modelled, although src/lib.rs:75 calls it reasonably harmless. The previous hook is then this barrier's own hook, so on a panic it runs line 81 again on the same thread while the lock is held. std's `Mutex` may then deadlock or panic, and a panic inside the hook aborts the process.
- `Condvar::notify_all` and the `Mutex` are not modelled. The record's critical sections are atomic steps in the model, and a notification is a wake-up in the schedule.
- Lock poisoning and the `expect(POISON_MSG)` aborts (src/lib.rs:54) are failure plumbing. They have no sequential behaviour.
- `Instant::now`/`elapsed` measurement is replaced by the `elapsed` input of each wake-up.
- `thread::current()`, `Thread` and `ThreadId` are opaque std types. They are modelled as `ThreadId(raw: nat)` and `Thread(id, name)`, with the current thread passed to `RecordPanic` as a parameter.
- The `wait` and `wait_timeout` loops repeat the filtering loop of `check` inline. The model calls `Check` for each pass instead, so there is one filtering loop.
- The `lazy_static` usage in the crate documentation, and the thread spawning and sleeps of tests/test.rs, are harness and timing code. The test's watcher is modelled only as `WatcherScenario`.
