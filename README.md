# Base-object lifetime and suspend kernel of xdispatch

This project models `core/object.c` of xdispatch, the header that every
dispatch object (queue, source, semaphore, group) embeds and the code that
governs its life:

- two reference counts: the client-held external count `do_xref_cnt`
  (`dispatch_retain` / `dispatch_release`) and the runtime-held internal
  count `do_ref_cnt` (`_dispatch_retain` / `_dispatch_release`), with every
  misuse (resurrection, over-release, release of a suspended object, release
  while enqueued or while clients still hold references) ending in a crash;
- teardown (`_dispatch_dispose`): capture target queue, finalizer and
  context, poison the vtable, free, schedule the finalizer, release the
  target queue;
- the suspend counter `do_suspend_cnt`, counted in suspend intervals, whose
  resume wakes the object exactly when the depth goes from one interval to 0;
- the context and finalizer setters and getter.

Layout:

- `word32.dfy` (module `Word32`): `unsigned int` arithmetic with explicit
  wrap-around modulo 2^32. The counters are unsigned, and the code detects
  over-release through that wrap (`dispatch_atomic_dec(...) + 1` gives back
  the prior value, 0 when the counter was already 0).
- `object_model.dfy` (module `ObjectModel`): the constants, the header as a
  datatype, the vtable tag, the hooks as `Event`s, the two crash macros as
  `Crash` (carrying the source's exact messages) and `Outcome`, the result of
  one call (the header it leaves, the hooks it fired, and the crash if it
  crashed).
- `object_spec.dfy` (module `ObjectSpec`): one pure function per operation,
  computing exactly what the C code computes on 32-bit words, with contracts
  stated in plain integers; plus the suspend/resume and retain/release round
  trips.
- `object_traces.dfy` (module `ObjectTraces`): sequences of calls (`Run`) and
  the properties of all of them: teardown at most once, wake exactly once per
  one-interval-to-zero crossing, immortal objects untouched, the runtime
  count outliving the client count, and the balanced retain/release and
  suspend/resume scenarios.
- `dispatch_object.dfy` (module `DispatchObjects`): the object as a class
  whose fields are the header's fields, updated in place by one method per C
  function; each method's postcondition says that the new header, the
  appended hooks and the crash are the `ObjectSpec` outcome on the old
  header. Two client methods exercise the class.

Constants. `internal.h` is not part of this model; the constants take the
values upstream libdispatch gives them: `DISPATCH_OBJECT_GLOBAL_REFCNT` is
`~0u` (0xFFFFFFFF), `DISPATCH_OBJECT_SUSPEND_INTERVAL` is 2,
`DISPATCH_OBJECT_SUSPEND_LOCK` is 1, `DISPATCH_OBJECT_LISTLESS` is
0x89abcdef, and `DISPATCH_OBJECT_SUSPENDED(x)` is `do_suspend_cnt >=
SUSPEND_INTERVAL`. The proofs use these concrete values. The relations they
depend on are collected in `ObjectModel.ConstantsAgree`: the interval is
positive, the lock value is non-zero and below the interval, and the global
count is the largest 32-bit value (so a retain that passes the sentinel test
never wraps). The client scenario `DispatchObjects.SuspendTwiceResumeTwice`
also uses the interval being 2.

What the code does, which the model keeps:

- the finalizer is scheduled only when both the function and the context are
  non-NULL (core/object.c:123);
- `do_suspend_cnt` is an `unsigned int`, so an over-resume wraps it
  (core/object.c:209);
- the immortality test reads `do_xref_cnt` in `dispatch_retain` and
  `dispatch_release` (core/object.c:62, 89), but `do_ref_cnt` in
  `_dispatch_retain`, `_dispatch_release`, `dispatch_set_context`,
  `dispatch_suspend` and `dispatch_resume` (core/object.c:74, 134, 169, 187,
  201); `dispatch_set_finalizer_f` and `dispatch_get_context` do not test it
  at all (core/object.c:161, 179);
- the dispose hook `dx_dispose` is what `_dispatch_release` calls on the last
  runtime reference (core/object.c:151); `_dispatch_dispose` is the generic
  teardown that hook runs. The model logs `dx_dispose` as an event and models
  `_dispatch_dispose` as its own operation.

Object creation is not in `core/object.c`; the class constructor gives the
initial state the allocator sets up (both counts 1, depth 0, on no list).

## Model

| member | source | states |
|---|---|---|
| ObjectSpec.Retain | core/object.c:57-68 | On an object whose external count is the global sentinel nothing changes and no hook fires; otherwise the external count rises by exactly one, every other field is unchanged, no hook fires, and the call crashes with "Resurrection of an object" iff the prior count was 0 |
| ObjectSpec.InternalRetain | core/object.c:70-80 | The same for the internal count, with immortality judged by the internal count |
| ObjectSpec.Release | core/object.c:82-109 | Immortal (external sentinel): no change. Prior external count above 1: only that count drops by one, no hook. Prior count exactly 1: the kevent source defers to its xref-release hook and nothing else; otherwise a suspended object crashes "Release of a suspended object"; otherwise exactly one internal release follows. Prior count 0: crash "Over-release of an object" with the count wrapped to all ones. The internal count moves only on that last-reference path |
| ObjectSpec.InternalRelease | core/object.c:129-154 | Immortal (internal sentinel): no change. Prior count above 1: only a decrement. Prior count 1: crash "release while enqueued" if `do_next` is not LISTLESS, else crash "release while external references exist" if the external count is non-zero, else the dispose hook fires exactly once. Prior count 0: crash "over-release". The dispose hook fires iff the prior count is 1, the object is on no list and has no external reference; the external count and depth never change; no other hook fires, and none on a crash |
| ObjectSpec.Dispose | core/object.c:111-127 | Never crashes; the vtable becomes the poison value and nothing else in the header changes; `free` fires first and once; the finalizer is scheduled, with the captured target queue and context, exactly once iff both function and context are non-NULL and never with other arguments; the target queue's reference is released exactly once, last; no other hook fires |
| ObjectSpec.SetContext | core/object.c:164-172 | Stores the context unless the internal count is the global sentinel; no other field changes and no hook fires |
| ObjectSpec.SetFinalizer | core/object.c:174-180 | Stores the finalizer unconditionally, immortal or not; nothing else changes |
| ObjectSpec.Suspend | core/object.c:182-191 | Unless immortal by internal count, adds exactly one interval to the depth (modulo 2^32); nothing else changes, no hook, never crashes |
| ObjectSpec.Resume | core/object.c:193-220 | Immortal: no change. Otherwise subtracts one interval (exactly, when at least one is held) and changes nothing else; fires wakeup iff the depth before the subtraction is exactly one interval; crashes "Over-resume of an object" iff that depth is 0 or the lock value; fires nothing else |
| ObjectSpec.SuspendResumeRoundTrip | core/object.c:182-220 | A suspend followed by a resume restores the header exactly, and wakes the object iff it started at depth 0 |
| ObjectSpec.RetainReleaseRoundTrip | core/object.c:57-97 | A retain followed by a release on a live object restores the header with no hook |
| ObjectTraces.ImmortalUntouched | core/object.c:57-203 | On an object whose two counts are the global sentinel, every sequence of retains, releases, suspends, resumes and setters returns without crashing, fires no hook and changes no field other than the finalizer |
| ObjectTraces.StepDispose | core/object.c:129-154 | In one call the dispose hook fires only alone and leaves the internal count 0; from internal count 0 no call fires it or leaves the count non-zero without crashing |
| ObjectTraces.NoDisposeAfterLastRelease | core/object.c:70-154 | From internal count 0, no sequence of calls fires the dispose hook |
| ObjectTraces.DisposeAtMostOnce | core/object.c:129-154 | In every sequence of calls from every header the dispose hook fires at most once |
| ObjectTraces.StepWakeup | core/object.c:193-220 | One call fires wakeup exactly once when it takes the depth from one interval to 0, and otherwise not at all |
| ObjectTraces.WakeupsAreCrossings | core/object.c:182-220 | In every sequence of calls the number of wakeups equals the number of steps that take the depth from one interval to 0 |
| ObjectTraces.StepKeepsRefOutlivesXref | core/object.c:57-154 | No call that returns leaves an object with external references but internal count 0 |
| ObjectTraces.RunKeepsRefOutlivesXref | core/object.c:57-154 | The same over every sequence of calls: the internal count reaches 0 only after the external one has |
| ObjectTraces.RetainsRaise | core/object.c:57-68 | n retains of a live object raise the external count by n, silently |
| ObjectTraces.ReleasesLower | core/object.c:82-97 | n releases that keep at least one external reference lower the count by n, silently |
| ObjectTraces.RetainReleaseTeardown | core/object.c:57-154 | From a fresh object, n retains and n releases restore it; one more release tears it down: both counts 0 and exactly one dispose hook, no crash |
| ObjectTraces.OverReleaseCrashes | core/object.c:82-109 | While the runtime still pins a fresh object, n retains followed by n + 2 client releases crash with "Over-release of an object" on the last one, with no hook fired, the runtime reference intact and the external count wrapped to all ones, for every n |
| ObjectTraces.PinnedObjectOutlivesClient | core/object.c:70-154 | A fresh object pinned by an internal retain survives its client's release (no hook); the runtime's later internal release fires the dispose hook |
| ObjectTraces.SuspendsDeepen | core/object.c:182-191 | k suspends add k intervals to the depth, silently |
| ObjectTraces.ResumesStaySuspended | core/object.c:193-220 | j resumes that leave at least one interval held subtract j intervals and fire nothing |
| ObjectTraces.SuspendResumeBalanced | core/object.c:182-220 | From depth 0, k suspends and k-1 resumes leave one interval and no wakeup; the k-th resume returns the header to its start and fires wakeup exactly once |
| DispatchObjects.DispatchObject.Retain | core/object.c:57-68 | The header after the call, the hooks appended and the crash are those of ObjectSpec.Retain on the header before |
| DispatchObjects.DispatchObject.InternalRetain | core/object.c:70-80 | Likewise for ObjectSpec.InternalRetain |
| DispatchObjects.DispatchObject.Release | core/object.c:82-109 | Likewise for ObjectSpec.Release, running the internal release in place on the last reference |
| DispatchObjects.DispatchObject.InternalRelease | core/object.c:129-154 | Likewise for ObjectSpec.InternalRelease |
| DispatchObjects.DispatchObject.Dispose | core/object.c:111-127 | Likewise for ObjectSpec.Dispose, reading target queue, finalizer and context before the poison write; the object is freed afterwards |
| DispatchObjects.DispatchObject.GetContext | core/object.c:156-162 | Returns the stored context, without an immortality test |
| DispatchObjects.DispatchObject.SetContext | core/object.c:164-172 | Likewise for ObjectSpec.SetContext |
| DispatchObjects.DispatchObject.SetFinalizer | core/object.c:174-180 | Likewise for ObjectSpec.SetFinalizer |
| DispatchObjects.DispatchObject.Suspend | core/object.c:182-191 | Likewise for ObjectSpec.Suspend |
| DispatchObjects.DispatchObject.Resume | core/object.c:193-220 | Likewise for ObjectSpec.Resume |
| DispatchObjects.SuspendTwiceResumeTwice | core/object.c:182-220 | Two suspends and two resumes of a new object fire wakeup once, on the second resume; a third resume crashes as over-resume, leaving the depth wrapped |
| DispatchObjects.PinReleaseDispose | core/object.c:70-154 | Pin, client release, runtime release and dispose of a new object with context and finalizer fire dispose, free, the finalizer on the target queue and the target-queue release, in that order, without a crash |

## Left out

- `dispatch_debug`, `dispatch_debugv` and `dispatch_object_debug_attr`: diagnostic formatting into a fixed buffer and logging, not a stable format.
- Memory ordering and thread interleavings: every atomic read-modify-write is one indivisible step, and the read of a count for the immortality test and the atomic update that follows are taken together. The property that concurrent retain/release pairs on a shared object tear it down exactly once is therefore stated only for sequential runs (`ObjectTraces.DisposeAtMostOnce`).
- The bodies of `free`, `dispatch_async_f`, `_dispatch_wakeup`, `_dispatch_source_xref_release` and `dx_dispose`, and the release of the target queue: they are recorded as events, not performed. In particular the release of the target queue is not followed into that queue's own teardown.
- Runs of calls are taken over the header as a value: after the dispose hook has fired the program has freed the object, and a later call on it is undefined, while a run keeps operating on the stale header. `ObjectTraces.DisposeAtMostOnce` is therefore stronger than the program needs; the sequence lemmas about crashes are stated on live storage.
- Crashes end the process: after one, and after the storage is freed, no method may be called (their preconditions), and a run stops at the first crash.
- `internal.h`, the queue and source implementations, the C++ bindings (`include/xdispatch/queue.h`), the clock shim (`core/shim/time.h`) and the Qt test harness are not part of this model.
