/** Sequences of calls on one object header. Each call is one indivisible
    step (the atomic read-modify-writes are taken as sequential), a run
    stops at the first crash, and the hooks fired along the way are
    collected in order. The lemmas state what holds of every run. */
module ObjectTraces {
  import opened Word32
  import opened ObjectModel
  import S = ObjectSpec

  /** The calls a client or the runtime can make on a live object. */
  datatype Op =
    | Retain
    | InternalRetain
    | Release
    | InternalRelease
    | Suspend
    | Resume
    | SetContext(ctxt: Ptr)
    | SetFinalizer(func: Ptr)

  function Step(h: Header, op: Op): Outcome {
    match op
    case Retain => S.Retain(h)
    case InternalRetain => S.InternalRetain(h)
    case Release => S.Release(h)
    case InternalRelease => S.InternalRelease(h)
    case Suspend => S.Suspend(h)
    case Resume => S.Resume(h)
    case SetContext(c) => S.SetContext(h, c)
    case SetFinalizer(f) => S.SetFinalizer(h, f)
  }

  /** The same outcome, with `evs` fired before it. */
  function Prepend(evs: seq<Event>, o: Outcome): (r: Outcome)
    ensures r.h == o.h && r.Crashed? == o.Crashed? && r.fired == evs + o.fired
    ensures r.Crashed? ==> r.why == o.why
  {
    match o
    case Returned(h, fired) => Returned(h, evs + fired)
    case Crashed(h, fired, why) => Crashed(h, evs + fired, why)
  }

  /** Perform `ops` in order from `h`, stopping at the first crash. */
  function Run(h: Header, ops: seq<Op>): Outcome
    decreases |ops|
  {
    if ops == [] then Returned(h, [])
    else
      var o := Step(h, ops[0]);
      if o.Crashed? then o else Prepend(o.fired, Run(o.h, ops[1..]))
  }

  function Repeat(op: Op, n: nat): (ops: seq<Op>)
    ensures |ops| == n
  {
    if n == 0 then [] else [op] + Repeat(op, n - 1)
  }

  lemma {:induction false} RepeatSnoc(op: Op, n: nat)
    ensures Repeat(op, n + 1) == Repeat(op, n) + [op]
  {
    if n > 0 {
      RepeatSnoc(op, n - 1);
    }
  }

  /** Running `a + b` is running `a`, then (unless it crashed) `b`. */
  lemma {:induction false} RunAppend(h: Header, a: seq<Op>, b: seq<Op>)
    ensures Run(h, a + b) == Then(Run(h, a), b)
    decreases |a|
  {
    if a == [] {
      assert a + b == b;
    } else {
      assert (a + b)[0] == a[0];
      assert (a + b)[1..] == a[1..] + b;
      var o := Step(h, a[0]);
      if o.Returned? {
        calc {
          Run(h, a + b);
          Prepend(o.fired, Run(o.h, a[1..] + b));
          { RunAppend(o.h, a[1..], b); }
          Prepend(o.fired, Then(Run(o.h, a[1..]), b));
          { PrependThen(o.fired, Run(o.h, a[1..]), b); }
          Then(Prepend(o.fired, Run(o.h, a[1..])), b);
          Then(Run(h, a), b);
        }
      }
    }
  }

  /** Continue outcome `r` with `b`, unless it crashed. */
  function Then(r: Outcome, b: seq<Op>): Outcome {
    if r.Crashed? then r else Prepend(r.fired, Run(r.h, b))
  }

  lemma PrependThen(evs: seq<Event>, r: Outcome, b: seq<Op>)
    ensures Prepend(evs, Then(r, b)) == Then(Prepend(evs, r), b)
  {
  }

  /** An object whose two counts both hold the global sentinel. */
  predicate Immortal(h: Header) {
    h.xrefCnt == GLOBAL_REFCNT && h.refCnt == GLOBAL_REFCNT
  }

  /** Nothing a client or the runtime does touches an immortal object,
      except that its finalizer is still stored. */
  lemma {:induction false} ImmortalUntouched(h: Header, ops: seq<Op>)
    requires Immortal(h)
    ensures Run(h, ops).Returned? && Run(h, ops).fired == []
    ensures Run(h, ops).h.(finalizer := h.finalizer) == h
    decreases |ops|
  {
    if ops != [] {
      var o := Step(h, ops[0]);
      assert o.Returned? && o.fired == [] && o.h.(finalizer := h.finalizer) == h;
      ImmortalUntouched(o.h, ops[1..]);
    }
  }

  /** Per step: once the runtime count is 0, no call brings it back without
      crashing, and none fires the dispose hook; the hook itself leaves the
      count at 0. */
  lemma StepDispose(h: Header, op: Op)
    ensures var o := Step(h, op);
      DxDispose in o.fired ==> o.Returned? && o.fired == [DxDispose] && o.h.refCnt == 0
    ensures var o := Step(h, op);
      h.refCnt == 0 ==> DxDispose !in o.fired && (o.Returned? ==> o.h.refCnt == 0)
  {
  }

  lemma {:induction false} NoDisposeAfterLastRelease(h: Header, ops: seq<Op>)
    requires h.refCnt == 0
    ensures DxDispose !in Run(h, ops).fired
    decreases |ops|
  {
    if ops != [] {
      var o := Step(h, ops[0]);
      StepDispose(h, ops[0]);
      if o.Returned? {
        NoDisposeAfterLastRelease(o.h, ops[1..]);
      }
    }
  }

  /** Teardown happens at most once: in any sequence of calls, from any
      header, the dispose hook fires at most once. */
  lemma {:induction false} DisposeAtMostOnce(h: Header, ops: seq<Op>)
    ensures multiset(Run(h, ops).fired)[DxDispose] <= 1
    decreases |ops|
  {
    if ops != [] {
      var o := Step(h, ops[0]);
      StepDispose(h, ops[0]);
      if o.Returned? {
        if DxDispose in o.fired {
          NoDisposeAfterLastRelease(o.h, ops[1..]);
        } else {
          DisposeAtMostOnce(o.h, ops[1..]);
        }
      }
    }
  }

  /** The number of steps of a run that take the suspend depth from exactly
      one interval to zero. */
  function Crossings(h: Header, ops: seq<Op>): nat
    decreases |ops|
  {
    if ops == [] then 0
    else
      var o := Step(h, ops[0]);
      var here := if h.suspendCnt == SUSPEND_INTERVAL && o.h.suspendCnt == 0 then 1 else 0;
      if o.Crashed? then here else here + Crossings(o.h, ops[1..])
  }

  lemma StepWakeup(h: Header, op: Op)
    ensures var o := Step(h, op);
      multiset(o.fired)[Wakeup] ==
        if h.suspendCnt == SUSPEND_INTERVAL && o.h.suspendCnt == 0 then 1 else 0
  {
  }

  /** The wake hook fires exactly once per step that takes the depth from
      one interval to zero, and at no other time. */
  lemma {:induction false} WakeupsAreCrossings(h: Header, ops: seq<Op>)
    ensures multiset(Run(h, ops).fired)[Wakeup] == Crossings(h, ops)
    decreases |ops|
  {
    if ops != [] {
      var o := Step(h, ops[0]);
      StepWakeup(h, ops[0]);
      if o.Returned? {
        WakeupsAreCrossings(o.h, ops[1..]);
      }
    }
  }

  /** The runtime count stays non-zero while clients hold references:
      the internal count reaches 0 only after the external one has. */
  predicate RefOutlivesXref(h: Header) {
    h.xrefCnt != 0 ==> h.refCnt != 0
  }

  lemma StepKeepsRefOutlivesXref(h: Header, op: Op)
    requires RefOutlivesXref(h)
    ensures Step(h, op).Returned? ==> RefOutlivesXref(Step(h, op).h)
  {
  }

  lemma {:induction false} RunKeepsRefOutlivesXref(h: Header, ops: seq<Op>)
    requires RefOutlivesXref(h)
    ensures Run(h, ops).Returned? ==> RefOutlivesXref(Run(h, ops).h)
    decreases |ops|
  {
    if ops != [] {
      var o := Step(h, ops[0]);
      StepKeepsRefOutlivesXref(h, ops[0]);
      if o.Returned? {
        RunKeepsRefOutlivesXref(o.h, ops[1..]);
      }
    }
  }

  lemma {:induction false} RetainsRaise(h: Header, n: nat)
    requires 0 < h.xrefCnt && h.xrefCnt + n <= GLOBAL_REFCNT
    ensures Run(h, Repeat(Retain, n)) == Returned(h.(xrefCnt := h.xrefCnt + n), [])
    decreases n
  {
    if n > 0 {
      var ops := Repeat(Retain, n);
      assert ops[0] == Retain && ops[1..] == Repeat(Retain, n - 1);
      var h1 := h.(xrefCnt := h.xrefCnt + 1);
      RetainsRaise(h1, n - 1);
      assert h1.(xrefCnt := h1.xrefCnt + (n - 1)) == h.(xrefCnt := h.xrefCnt + n);
    }
  }

  lemma {:induction false} ReleasesLower(h: Header, n: nat)
    requires h.xrefCnt != GLOBAL_REFCNT && h.xrefCnt > n
    ensures Run(h, Repeat(Release, n)) == Returned(h.(xrefCnt := h.xrefCnt - n), [])
    decreases n
  {
    if n > 0 {
      var ops := Repeat(Release, n);
      assert ops[0] == Release && ops[1..] == Repeat(Release, n - 1);
      var h1 := h.(xrefCnt := h.xrefCnt - 1);
      ReleasesLower(h1, n - 1);
      assert h1.(xrefCnt := h1.xrefCnt - (n - 1)) == h.(xrefCnt := h.xrefCnt - n);
    }
  }

  /** A newly created object: one client reference, which holds the one
      runtime reference, awake and on no list. */
  predicate Fresh(h: Header) {
    h.xrefCnt == 1 && h.refCnt == 1 && h.suspendCnt == 0 && h.next == LISTLESS
  }

  /** N retains followed by N + 1 releases (the creator's included) tear a
      fresh object down exactly once, on the last release, with no crash. */
  lemma RetainReleaseTeardown(h: Header, n: nat)
    requires Fresh(h) && h.vtable != KeventSource
    requires 1 + n < GLOBAL_REFCNT
    ensures Run(h, Repeat(Retain, n) + Repeat(Release, n)) ==
      Returned(h.(xrefCnt := 1), [])
    ensures Run(h, Repeat(Retain, n) + Repeat(Release, n + 1)) ==
      Returned(h.(xrefCnt := 0, refCnt := 0), [DxDispose])
  {
    var h1 := h.(xrefCnt := 1 + n);
    RetainsRaise(h, n);
    ReleasesLower(h1, n);
    assert h1.(xrefCnt := h1.xrefCnt - n) == h;
    RunAppend(h, Repeat(Retain, n), Repeat(Release, n));
    RepeatSnoc(Release, n);
    assert Repeat(Retain, n) + Repeat(Release, n + 1) ==
      (Repeat(Retain, n) + Repeat(Release, n)) + [Release];
    RunAppend(h, Repeat(Retain, n) + Repeat(Release, n), [Release]);
    assert Run(h, [Release]) == Returned(h.(xrefCnt := 0, refCnt := 0), [DxDispose]);
  }

  /** While the runtime still pins the object (so its storage is live),
      one client release more than there were client references is an
      over-release: it crashes, without any hook having fired, and leaves
      the external count wrapped to all ones. */
  lemma OverReleaseCrashes(h: Header, n: nat)
    requires Fresh(h) && h.vtable != KeventSource
    requires 1 + n < GLOBAL_REFCNT
    ensures Run(h, [InternalRetain] + Repeat(Retain, n) + Repeat(Release, n + 2)) ==
      Crashed(h.(xrefCnt := MAX, refCnt := 1), [], ClientCrash(OVER_RELEASE))
  {
    var pinned := h.(refCnt := 2);
    var raised := pinned.(xrefCnt := 1 + n);
    assert Run(h, [InternalRetain]) == Returned(pinned, []);
    RetainsRaise(pinned, n);
    RunAppend(h, [InternalRetain], Repeat(Retain, n));
    ReleasesLower(raised, n);
    assert raised.(xrefCnt := raised.xrefCnt - n) == pinned;
    var a := [InternalRetain] + Repeat(Retain, n);
    RunAppend(h, a, Repeat(Release, n));
    assert Run(h, a + Repeat(Release, n)) == Returned(pinned, []);
    var last := pinned.(xrefCnt := 0, refCnt := 1);
    assert Run(pinned, [Release]) == Returned(last, []);
    RunAppend(h, a + Repeat(Release, n), [Release]);
    assert Run(last, [Release]) == Crashed(last.(xrefCnt := MAX), [], ClientCrash(OVER_RELEASE));
    RunAppend(h, a + Repeat(Release, n) + [Release], [Release]);
    RepeatSnoc(Release, n);
    RepeatSnoc(Release, n + 1);
    assert a + Repeat(Release, n + 2) == a + Repeat(Release, n) + [Release] + [Release];
  }

  /** The runtime pins a fresh object (internal retain before enqueueing),
      the client drops its reference, and the runtime's final release after
      dequeueing is what tears the object down. */
  lemma PinnedObjectOutlivesClient(h: Header)
    requires Fresh(h) && h.vtable != KeventSource
    ensures Run(h, [InternalRetain, Release]) == Returned(h.(xrefCnt := 0), [])
    ensures Run(h, [InternalRetain, Release, InternalRelease]) ==
      Returned(h.(xrefCnt := 0, refCnt := 0), [DxDispose])
  {
  }

  lemma {:induction false} SuspendsDeepen(h: Header, k: nat)
    requires h.refCnt != GLOBAL_REFCNT
    requires h.suspendCnt + k * SUSPEND_INTERVAL < MODULUS
    ensures Run(h, Repeat(Suspend, k)) ==
      Returned(h.(suspendCnt := h.suspendCnt + k * SUSPEND_INTERVAL), [])
    decreases k
  {
    if k > 0 {
      var ops := Repeat(Suspend, k);
      assert ops[0] == Suspend && ops[1..] == Repeat(Suspend, k - 1);
      var h1 := h.(suspendCnt := h.suspendCnt + SUSPEND_INTERVAL);
      SuspendsDeepen(h1, k - 1);
      assert h1.(suspendCnt := h1.suspendCnt + (k - 1) * SUSPEND_INTERVAL) ==
        h.(suspendCnt := h.suspendCnt + k * SUSPEND_INTERVAL);
    }
  }

  /** Resumes that leave at least one interval held are silent. */
  lemma {:induction false} ResumesStaySuspended(h: Header, j: nat)
    requires h.refCnt != GLOBAL_REFCNT
    requires h.suspendCnt >= (j + 1) * SUSPEND_INTERVAL
    ensures Run(h, Repeat(Resume, j)) ==
      Returned(h.(suspendCnt := h.suspendCnt - j * SUSPEND_INTERVAL), [])
    decreases j
  {
    if j > 0 {
      var ops := Repeat(Resume, j);
      assert ops[0] == Resume && ops[1..] == Repeat(Resume, j - 1);
      var h1 := h.(suspendCnt := h.suspendCnt - SUSPEND_INTERVAL);
      assert Step(h, Resume) == Returned(h1, []);
      ResumesStaySuspended(h1, j - 1);
      assert h1.(suspendCnt := h1.suspendCnt - (j - 1) * SUSPEND_INTERVAL) ==
        h.(suspendCnt := h.suspendCnt - j * SUSPEND_INTERVAL);
    }
  }

  /** From depth 0, k suspends followed by k resumes bring the depth back to
      0 and wake the object exactly once, on the last resume. */
  lemma SuspendResumeBalanced(h: Header, k: nat)
    requires h.refCnt != GLOBAL_REFCNT && h.suspendCnt == 0
    requires 1 <= k && k * SUSPEND_INTERVAL < MODULUS
    ensures Run(h, Repeat(Suspend, k) + Repeat(Resume, k - 1)) ==
      Returned(h.(suspendCnt := SUSPEND_INTERVAL), [])
    ensures Run(h, Repeat(Suspend, k) + Repeat(Resume, k)) == Returned(h, [Wakeup])
  {
    var deep := h.(suspendCnt := k * SUSPEND_INTERVAL);
    var one := h.(suspendCnt := SUSPEND_INTERVAL);
    SuspendsDeepen(h, k);
    ResumesStaySuspended(deep, k - 1);
    assert deep.(suspendCnt := deep.suspendCnt - (k - 1) * SUSPEND_INTERVAL) == one;
    RunAppend(h, Repeat(Suspend, k), Repeat(Resume, k - 1));
    RepeatSnoc(Resume, k - 1);
    assert Repeat(Suspend, k) + Repeat(Resume, k) ==
      (Repeat(Suspend, k) + Repeat(Resume, k - 1)) + [Resume];
    RunAppend(h, Repeat(Suspend, k) + Repeat(Resume, k - 1), [Resume]);
    assert one.(suspendCnt := 0) == h;
    assert Run(one, [Resume]) == Returned(h, [Wakeup]);
  }
}
