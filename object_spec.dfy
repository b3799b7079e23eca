/** One pure step function per operation of core/object.c. Each takes the
    header before the call and gives the Outcome of the call; the atomic
    read-modify-writes are single steps on 32-bit words, exactly as the C
    code computes them (the prior value is recovered from the returned new
    value). The contracts state the behaviour in plain integers. */
module ObjectSpec {
  import opened Word32
  import opened ObjectModel

  /** dispatch_retain: take a client reference. */
  function Retain(h: Header): (o: Outcome)
    ensures h.xrefCnt == GLOBAL_REFCNT ==> o == Returned(h, [])
    ensures h.xrefCnt != GLOBAL_REFCNT ==>
      o.h == h.(xrefCnt := h.xrefCnt + 1) && o.fired == []
    ensures o.Crashed? <==> h.xrefCnt == 0
    ensures o.Crashed? ==> o.why == ClientCrash(RESURRECTION)
  {
    if h.xrefCnt == GLOBAL_REFCNT then Returned(h, [])
    else
      var h1 := h.(xrefCnt := Inc(h.xrefCnt));
      if Dec(h1.xrefCnt) == 0 then Crashed(h1, [], ClientCrash(RESURRECTION))
      else Returned(h1, [])
  }

  /** _dispatch_retain: take a runtime reference. */
  function InternalRetain(h: Header): (o: Outcome)
    ensures h.refCnt == GLOBAL_REFCNT ==> o == Returned(h, [])
    ensures h.refCnt != GLOBAL_REFCNT ==>
      o.h == h.(refCnt := h.refCnt + 1) && o.fired == []
    ensures o.Crashed? <==> h.refCnt == 0
    ensures o.Crashed? ==> o.why == ClientCrash(RESURRECTION)
  {
    if h.refCnt == GLOBAL_REFCNT then Returned(h, [])
    else
      var h1 := h.(refCnt := Inc(h.refCnt));
      if Dec(h1.refCnt) == 0 then Crashed(h1, [], ClientCrash(RESURRECTION))
      else Returned(h1, [])
  }

  /** _dispatch_release: drop a runtime reference; the last one hands the
      object to its dispose hook, provided it is neither enqueued nor still
      referenced by clients. */
  function InternalRelease(h: Header): (o: Outcome)
    ensures h.refCnt == GLOBAL_REFCNT ==> o == Returned(h, [])
    ensures h.refCnt != GLOBAL_REFCNT && h.refCnt > 1 ==>
      o == Returned(h.(refCnt := h.refCnt - 1), [])
    ensures h.refCnt == 1 ==>
      o.h == h.(refCnt := 0) &&
      (if h.next != LISTLESS then o.Crashed? && o.why == RuntimeCrash(RELEASE_ENQUEUED)
       else if h.xrefCnt != 0 then o.Crashed? && o.why == RuntimeCrash(RELEASE_WITH_XREFS)
       else o.Returned? && o.fired == [DxDispose])
    ensures h.refCnt == 0 ==>
      o == Crashed(h.(refCnt := MAX), [], RuntimeCrash(INTERNAL_OVER_RELEASE))
    // the dispose hook fires only on a clean last release, and then the
    // object is unreachable: off every list and without client references
    ensures DxDispose in o.fired <==>
      h.refCnt == 1 && h.next == LISTLESS && h.xrefCnt == 0
    ensures DxDispose in o.fired ==>
      o.Returned? && o.h.refCnt == 0 && o.h.xrefCnt == 0 && o.h.next == LISTLESS
    ensures o.h.xrefCnt == h.xrefCnt && o.h.suspendCnt == h.suspendCnt
    // no other hook ever fires, and none on a crash
    ensures o.fired == [] || o.fired == [DxDispose]
    ensures o.Crashed? ==> o.fired == []
  {
    if h.refCnt == GLOBAL_REFCNT then Returned(h, [])
    else
      var h1 := h.(refCnt := Dec(h.refCnt));
      var oldval := Inc(h1.refCnt);
      if oldval > 1 then Returned(h1, [])
      else if oldval == 1 then
        if h1.next != LISTLESS then Crashed(h1, [], RuntimeCrash(RELEASE_ENQUEUED))
        else if h1.xrefCnt != 0 then Crashed(h1, [], RuntimeCrash(RELEASE_WITH_XREFS))
        else Returned(h1, [DxDispose])
      else Crashed(h1, [], RuntimeCrash(INTERNAL_OVER_RELEASE))
  }

  /** dispatch_release: drop a client reference; the last one either defers
      to the kevent source's own teardown, or (refusing a suspended object)
      drops the runtime reference the clients held together. */
  function Release(h: Header): (o: Outcome)
    ensures h.xrefCnt == GLOBAL_REFCNT ==> o == Returned(h, [])
    ensures h.xrefCnt != GLOBAL_REFCNT && h.xrefCnt > 1 ==>
      o == Returned(h.(xrefCnt := h.xrefCnt - 1), [])
    ensures h.xrefCnt == 1 ==>
      if h.vtable == KeventSource then o == Returned(h.(xrefCnt := 0), [SourceXrefRelease])
      else if Suspended(h) then o == Crashed(h.(xrefCnt := 0), [], ClientCrash(RELEASE_SUSPENDED))
      else o == InternalRelease(h.(xrefCnt := 0))
    ensures h.xrefCnt == 0 ==>
      o == Crashed(h.(xrefCnt := MAX), [], ClientCrash(OVER_RELEASE))
    // the runtime count moves only when the last client reference goes
    ensures o.h.refCnt != h.refCnt ==>
      h.xrefCnt == 1 && h.vtable != KeventSource && !Suspended(h)
  {
    if h.xrefCnt == GLOBAL_REFCNT then Returned(h, [])
    else
      var h1 := h.(xrefCnt := Dec(h.xrefCnt));
      var oldval := Inc(h1.xrefCnt);
      if oldval > 1 then Returned(h1, [])
      else if oldval == 1 then
        if h1.vtable == KeventSource then Returned(h1, [SourceXrefRelease])
        else if Suspended(h1) then Crashed(h1, [], ClientCrash(RELEASE_SUSPENDED))
        else InternalRelease(h1)
      else Crashed(h1, [], ClientCrash(OVER_RELEASE))
  }

  /** _dispatch_dispose: capture the target queue, finalizer and context,
      poison the vtable, free the storage, schedule the finalizer on the
      captured queue when both function and context are set, and finally
      drop the reference held on the target queue. */
  function Dispose(h: Header): (o: Outcome)
    ensures o.Returned?
    ensures o.h == h.(vtable := Poisoned)
    ensures |o.fired| >= 2 && o.fired[0] == Free && o.fired[|o.fired| - 1] == ReleaseTarget(h.targetq)
    ensures multiset(o.fired)[Free] == 1
    ensures multiset(o.fired)[ReleaseTarget(h.targetq)] == 1
    ensures forall e :: e in o.fired && e.AsyncF? ==> e == AsyncF(h.targetq, h.ctxt, h.finalizer)
    ensures multiset(o.fired)[AsyncF(h.targetq, h.ctxt, h.finalizer)] ==
      if h.finalizer != NULL && h.ctxt != NULL then 1 else 0
    ensures forall e :: e in o.fired ==> e == Free || e.AsyncF? || e == ReleaseTarget(h.targetq)
  {
    var tq, func, ctxt := h.targetq, h.finalizer, h.ctxt;
    var h1 := h.(vtable := Poisoned);
    if func != NULL && ctxt != NULL then
      Returned(h1, [Free, AsyncF(tq, ctxt, func), ReleaseTarget(tq)])
    else
      Returned(h1, [Free, ReleaseTarget(tq)])
  }

  /** dispatch_set_context: ignored on an immortal object. */
  function SetContext(h: Header, c: Ptr): (o: Outcome)
    ensures o.Returned? && o.fired == []
    ensures h.refCnt == GLOBAL_REFCNT ==> o.h == h
    ensures h.refCnt != GLOBAL_REFCNT ==> o.h.ctxt == c
    ensures o.h.(ctxt := h.ctxt) == h
  {
    if h.refCnt != GLOBAL_REFCNT then Returned(h.(ctxt := c), [])
    else Returned(h, [])
  }

  /** dispatch_set_finalizer_f: stored unconditionally, immortal or not. */
  function SetFinalizer(h: Header, f: Ptr): (o: Outcome)
    ensures o.Returned? && o.fired == []
    ensures o.h.finalizer == f && o.h.(finalizer := h.finalizer) == h
  {
    Returned(h.(finalizer := f), [])
  }

  /** dispatch_suspend: one more suspend interval. */
  function Suspend(h: Header): (o: Outcome)
    ensures o.Returned? && o.fired == []
    ensures h.refCnt == GLOBAL_REFCNT ==> o.h == h
    ensures h.refCnt != GLOBAL_REFCNT ==>
      o.h.(suspendCnt := h.suspendCnt) == h &&
      o.h.suspendCnt == (h.suspendCnt + SUSPEND_INTERVAL) % MODULUS
  {
    if h.refCnt == GLOBAL_REFCNT then Returned(h, [])
    else Returned(h.(suspendCnt := Add(h.suspendCnt, SUSPEND_INTERVAL)), [])
  }

  /** dispatch_resume: one suspend interval fewer, judged by the depth just
      before the subtraction: one interval wakes the object, zero or the
      lock value is an over-resume, anything else is silent. */
  function Resume(h: Header): (o: Outcome)
    ensures h.refCnt == GLOBAL_REFCNT ==> o == Returned(h, [])
    ensures h.refCnt != GLOBAL_REFCNT ==>
      o.h.(suspendCnt := h.suspendCnt) == h &&
      (h.suspendCnt >= SUSPEND_INTERVAL ==> o.h.suspendCnt == h.suspendCnt - SUSPEND_INTERVAL)
    ensures (Wakeup in o.fired) <==>
      h.refCnt != GLOBAL_REFCNT && h.suspendCnt == SUSPEND_INTERVAL
    ensures o.Crashed? <==>
      h.refCnt != GLOBAL_REFCNT && (h.suspendCnt == 0 || h.suspendCnt == SUSPEND_LOCK)
    ensures o.Crashed? ==> o.why == ClientCrash(OVER_RESUME) && o.fired == []
    ensures o.fired == [] || o.fired == [Wakeup]
  {
    if h.refCnt == GLOBAL_REFCNT then Returned(h, [])
    else
      var h1 := h.(suspendCnt := Sub(h.suspendCnt, SUSPEND_INTERVAL));
      var prev := Add(h1.suspendCnt, SUSPEND_INTERVAL);
      AddSubInverse(h.suspendCnt, SUSPEND_INTERVAL);
      if prev == SUSPEND_INTERVAL then Returned(h1, [Wakeup])
      else if prev == SUSPEND_LOCK || prev == 0 then Crashed(h1, [], ClientCrash(OVER_RESUME))
      else Returned(h1, [])
  }

  /** Suspend and resume are inverse: from any depth that does not wrap into
      the over-resume values, a suspend followed by a resume restores the
      header, and wakes the object iff it started awake. */
  lemma SuspendResumeRoundTrip(h: Header)
    requires h.refCnt != GLOBAL_REFCNT
    requires h.suspendCnt + SUSPEND_INTERVAL < MODULUS
    ensures Resume(Suspend(h).h) == Returned(h, if h.suspendCnt == 0 then [Wakeup] else [])
  {
  }

  /** Retain and release are inverse on a live object that is not left
      with its last client reference dropped. */
  lemma RetainReleaseRoundTrip(h: Header)
    requires 0 < h.xrefCnt < GLOBAL_REFCNT - 1
    ensures Release(Retain(h).h) == Returned(h, [])
  {
  }
}
