/** The base object itself: the header fields updated in place by the
    operations of core/object.c. Hooks the code calls out to are appended to
    a ghost log, a fatal crash is recorded in a ghost fault, and the release
    of the storage in a ghost flag. Each method's effect is the Outcome of
    the matching ObjectSpec function on the header as it was. */
module DispatchObjects {
  import opened Word32
  import opened ObjectModel
  import S = ObjectSpec

  class DispatchObject {
    var vtable: VTable
    var xrefCnt: Word
    var refCnt: Word
    var suspendCnt: Word
    var next: Ptr
    var ctxt: Ptr
    var finalizer: Ptr
    var targetq: Ptr

    /** Hooks fired so far, in order. */
    ghost var log: seq<Event>
    /** Set once a call has crashed the process. */
    ghost var fault: Option<Crash>
    /** Set once the storage has been handed to free(). */
    ghost var freed: bool

    /** The header as a value. */
    function View(): Header
      reads this
    {
      Header(vtable, xrefCnt, refCnt, suspendCnt, next, ctxt, finalizer, targetq)
    }

    /** A live object, as the allocator hands it out: one client reference
        holding one runtime reference, awake, on no list, no context and no
        finalizer. */
    constructor (kind: VTable, queue: Ptr)
      ensures View() == Header(kind, 1, 1, 0, LISTLESS, NULL, NULL, queue)
      ensures log == [] && fault == None && !freed
    {
      vtable, xrefCnt, refCnt, suspendCnt := kind, 1, 1, 0;
      next, ctxt, finalizer, targetq := LISTLESS, NULL, NULL, queue;
      log, fault, freed := [], None, false;
    }

    /** dispatch_retain */
    method Retain()
      requires fault == None && !freed
      modifies this
      ensures var o := S.Retain(old(View()));
        View() == o.h && log == old(log) + o.fired && fault == o.Fault()
      ensures freed == old(freed)
    {
      if xrefCnt == GLOBAL_REFCNT {
        return;
      }
      xrefCnt := Inc(xrefCnt);
      if Dec(xrefCnt) == 0 {
        fault := Some(ClientCrash(RESURRECTION));
      }
    }

    /** _dispatch_retain */
    method InternalRetain()
      requires fault == None && !freed
      modifies this
      ensures var o := S.InternalRetain(old(View()));
        View() == o.h && log == old(log) + o.fired && fault == o.Fault()
      ensures freed == old(freed)
    {
      if refCnt == GLOBAL_REFCNT {
        return;
      }
      refCnt := Inc(refCnt);
      if Dec(refCnt) == 0 {
        fault := Some(ClientCrash(RESURRECTION));
      }
    }

    /** dispatch_release */
    method Release()
      requires fault == None && !freed
      modifies this
      ensures var o := S.Release(old(View()));
        View() == o.h && log == old(log) + o.fired && fault == o.Fault()
      ensures freed == old(freed)
    {
      if xrefCnt == GLOBAL_REFCNT {
        return;
      }
      xrefCnt := Dec(xrefCnt);
      var oldval := Inc(xrefCnt);
      if oldval > 1 {
        return;
      }
      if oldval == 1 {
        if vtable == KeventSource {
          log := log + [SourceXrefRelease];
          return;
        }
        if suspendCnt >= SUSPEND_INTERVAL {
          fault := Some(ClientCrash(RELEASE_SUSPENDED));
          return;
        }
        InternalRelease();
        return;
      }
      fault := Some(ClientCrash(OVER_RELEASE));
    }

    /** _dispatch_release */
    method InternalRelease()
      requires fault == None && !freed
      modifies this
      ensures var o := S.InternalRelease(old(View()));
        View() == o.h && log == old(log) + o.fired && fault == o.Fault()
      ensures freed == old(freed)
    {
      if refCnt == GLOBAL_REFCNT {
        return;
      }
      refCnt := Dec(refCnt);
      var oldval := Inc(refCnt);
      if oldval > 1 {
        return;
      }
      if oldval == 1 {
        if next != LISTLESS {
          fault := Some(RuntimeCrash(RELEASE_ENQUEUED));
          return;
        }
        if xrefCnt != 0 {
          fault := Some(RuntimeCrash(RELEASE_WITH_XREFS));
          return;
        }
        log := log + [DxDispose];
        return;
      }
      fault := Some(RuntimeCrash(INTERNAL_OVER_RELEASE));
    }

    /** _dispatch_dispose: after it the object is gone. */
    method Dispose()
      requires fault == None && !freed
      modifies this
      ensures var o := S.Dispose(old(View()));
        View() == o.h && log == old(log) + o.fired && fault == None
      ensures freed
    {
      var tq, func, c := targetq, finalizer, ctxt;
      vtable := Poisoned;
      log := log + [Free];
      freed := true;
      if func != NULL && c != NULL {
        log := log + [AsyncF(tq, c, func)];
      }
      log := log + [ReleaseTarget(tq)];
    }

    /** dispatch_get_context: read even on an immortal object. */
    method GetContext() returns (c: Ptr)
      requires !freed
      ensures c == View().ctxt
    {
      c := ctxt;
    }

    /** dispatch_set_context */
    method SetContext(c: Ptr)
      requires fault == None && !freed
      modifies this
      ensures var o := S.SetContext(old(View()), c);
        View() == o.h && log == old(log) && fault == None
      ensures freed == old(freed)
    {
      if refCnt != GLOBAL_REFCNT {
        ctxt := c;
      }
    }

    /** dispatch_set_finalizer_f */
    method SetFinalizer(f: Ptr)
      requires fault == None && !freed
      modifies this
      ensures var o := S.SetFinalizer(old(View()), f);
        View() == o.h && log == old(log) && fault == None
      ensures freed == old(freed)
    {
      finalizer := f;
    }

    /** dispatch_suspend */
    method Suspend()
      requires fault == None && !freed
      modifies this
      ensures var o := S.Suspend(old(View()));
        View() == o.h && log == old(log) && fault == None
      ensures freed == old(freed)
    {
      if refCnt == GLOBAL_REFCNT {
        return;
      }
      suspendCnt := Add(suspendCnt, SUSPEND_INTERVAL);
    }

    /** dispatch_resume */
    method Resume()
      requires fault == None && !freed
      modifies this
      ensures var o := S.Resume(old(View()));
        View() == o.h && log == old(log) + o.fired && fault == o.Fault()
      ensures freed == old(freed)
    {
      if refCnt == GLOBAL_REFCNT {
        return;
      }
      suspendCnt := Sub(suspendCnt, SUSPEND_INTERVAL);
      var prev := Add(suspendCnt, SUSPEND_INTERVAL);
      AddSubInverse(old(suspendCnt), SUSPEND_INTERVAL);
      if prev == SUSPEND_INTERVAL {
        log := log + [Wakeup];
      } else if prev == SUSPEND_LOCK || prev == 0 {
        fault := Some(ClientCrash(OVER_RESUME));
      }
    }
  }

  /** A client's view: a fresh object suspended twice and resumed twice
      wakes exactly once, on the second resume, and a third resume is an
      over-resume. */
  method SuspendTwiceResumeTwice(kind: VTable, queue: Ptr) returns (obj: DispatchObject)
    ensures obj.suspendCnt == MAX - 1
    ensures obj.log == [Wakeup] && obj.fault == Some(ClientCrash(OVER_RESUME))
  {
    obj := new DispatchObject(kind, queue);
    obj.Suspend();
    obj.Suspend();
    assert obj.suspendCnt == 2 * SUSPEND_INTERVAL;
    obj.Resume();
    assert obj.suspendCnt == SUSPEND_INTERVAL && obj.log == [];
    obj.Resume();
    assert obj.suspendCnt == 0 && obj.log == [Wakeup];
    obj.Resume();
  }

  /** A client's view of teardown: the runtime pins the object, the client
      drops its reference, the runtime's last release fires the dispose hook,
      and disposing runs the finalizer on the target queue and then drops the
      reference held on that queue. */
  method PinReleaseDispose(kind: VTable, queue: Ptr, c: Ptr, f: Ptr) returns (obj: DispatchObject)
    requires kind != KeventSource && c != NULL && f != NULL
    ensures obj.log == [DxDispose, Free, AsyncF(queue, c, f), ReleaseTarget(queue)]
    ensures obj.fault == None && obj.freed && obj.vtable == Poisoned
    ensures obj.xrefCnt == 0 && obj.refCnt == 0
  {
    obj := new DispatchObject(kind, queue);
    obj.SetContext(c);
    obj.SetFinalizer(f);
    obj.InternalRetain();
    obj.Release();
    assert obj.xrefCnt == 0 && obj.refCnt == 1 && obj.log == [];
    obj.InternalRelease();
    assert obj.log == [DxDispose] && obj.fault == None;
    obj.Dispose();
  }
}
