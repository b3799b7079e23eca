/** The base-object header every dispatch entity embeds, the constants that
    give its counters meaning, the hooks the lifetime code calls out to, and
    the fatal diagnostics it can raise. */
module ObjectModel {
  import opened Word32

  /** An address: an object, a queue, a context or a function. 0 is NULL. */
  type Ptr = nat

  const NULL: Ptr := 0

  /** Sentinel count of a global, immortal object (`~0u`). */
  const GLOBAL_REFCNT: Word := MAX

  /** One logical suspend level in `do_suspend_cnt`. */
  const SUSPEND_INTERVAL: Word := 2

  /** Reserved suspend-count value meaning "locked for exclusive mutation". */
  const SUSPEND_LOCK: Word := 1

  /** `do_next` of an object that sits on no list. */
  const LISTLESS: Ptr := 0x89ab_cdef

  /** The relations between the constants that the contracts depend on
      (the proofs themselves see the concrete values above). */
  lemma ConstantsAgree()
    ensures SUSPEND_INTERVAL > 0
    ensures SUSPEND_LOCK != SUSPEND_INTERVAL && SUSPEND_LOCK != 0
    ensures SUSPEND_LOCK < SUSPEND_INTERVAL
    ensures GLOBAL_REFCNT == MAX
    ensures LISTLESS != NULL
  {
  }

  /** The vtable tag: the kevent-source vtable, some other object kind, or
      the poison value 0x200 written during teardown. */
  datatype VTable = KeventSource | OtherKind(kind: nat) | Poisoned

  /** The fields of `struct dispatch_object_s` that the lifetime and suspend
      code reads or writes. */
  datatype Header = Header(
    vtable: VTable,
    xrefCnt: Word,     // do_xref_cnt: references held by clients
    refCnt: Word,      // do_ref_cnt: references held by the runtime
    suspendCnt: Word,  // do_suspend_cnt: suspend depth, in intervals
    next: Ptr,         // do_next: enqueue link, LISTLESS when not enqueued
    ctxt: Ptr,         // do_ctxt
    finalizer: Ptr,    // do_finalizer
    targetq: Ptr)      // do_targetq

  /** DISPATCH_OBJECT_SUSPENDED: at least one suspend interval is held. */
  predicate Suspended(h: Header) {
    h.suspendCnt >= SUSPEND_INTERVAL
  }

  /** A call out of the core, recorded instead of performed. */
  datatype Event =
    | Wakeup                                     // _dispatch_wakeup(obj)
    | SourceXrefRelease                          // _dispatch_source_xref_release(obj)
    | DxDispose                                  // dx_dispose(obj)
    | Free                                       // free(obj)
    | AsyncF(queue: Ptr, context: Ptr, func: Ptr) // dispatch_async_f(tq, ctxt, func)
    | ReleaseTarget(queue: Ptr)                  // _dispatch_release(tq)

  /** The two fatal macros: DISPATCH_CLIENT_CRASH blames the caller,
      DISPATCH_CRASH the runtime. Either ends the process. */
  datatype Crash = ClientCrash(msg: string) | RuntimeCrash(msg: string)

  const RESURRECTION: string := "Resurrection of an object"
  const OVER_RELEASE: string := "Over-release of an object"
  const RELEASE_SUSPENDED: string := "Release of a suspended object"
  const RELEASE_ENQUEUED: string := "release while enqueued"
  const RELEASE_WITH_XREFS: string := "release while external references exist"
  const INTERNAL_OVER_RELEASE: string := "over-release"
  const OVER_RESUME: string := "Over-resume of an object"

  datatype Option<T> = None | Some(value: T)

  /** What one call does: the header it leaves and the hooks it fires, and
      whether it ended by crashing (the header then holds the atomic update
      that preceded the crash). */
  datatype Outcome =
    | Returned(h: Header, fired: seq<Event>)
    | Crashed(h: Header, fired: seq<Event>, why: Crash)
  {
    function Fault(): Option<Crash> {
      if Crashed? then Some(why) else None
    }
  }
}
