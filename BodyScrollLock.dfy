/** The reference-counted body scroll lock (src/hooks/useBodyScrollLock.ts):
    nested locks share one saved `overflow` value, and the unlock that
    brings the count back to zero restores it. */
module BodyScrollLock {
  import opened Wrappers

  /** The module's `lockCount` and `originalOverflow`, with the body's
      `style.overflow`. */
  datatype LockState = LockState(lockCount: nat, originalOverflow: Option<string>, overflow: string)

  const HIDDEN: string := "hidden"

  /** The state the lock functions keep: a value is saved exactly while
      the page is locked, and a locked page does not scroll. */
  predicate Consistent(s: LockState) {
    (s.lockCount == 0 <==> s.originalOverflow.None?) && (s.lockCount > 0 ==> s.overflow == HIDDEN)
  }

  /** `lockBodyScroll`; without a `document` (server side) it does nothing. */
  function Lock(s: LockState, hasDocument: bool): (r: LockState)
    ensures !hasDocument ==> r == s
    ensures hasDocument ==> r.lockCount == s.lockCount + 1
    ensures hasDocument && s.lockCount == 0 ==> r == LockState(1, Some(s.overflow), HIDDEN)
    ensures hasDocument && s.lockCount > 0 ==> r == s.(lockCount := s.lockCount + 1)
    ensures Consistent(s) ==> Consistent(r) && (hasDocument ==> r.overflow == HIDDEN)
  {
    if !hasDocument then s
    else if s.lockCount == 0 then LockState(1, Some(s.overflow), HIDDEN)
    else s.(lockCount := s.lockCount + 1)
  }

  /** `unlockBodyScroll`: nothing at count 0 or without a `document`;
      otherwise one fewer lock, and the last unlock puts back the saved
      value (or "" when none was saved) and forgets it. */
  function Unlock(s: LockState, hasDocument: bool): (r: LockState)
    ensures !hasDocument || s.lockCount == 0 ==> r == s
    ensures hasDocument && s.lockCount > 0 ==> r.lockCount == s.lockCount - 1
    ensures hasDocument && s.lockCount == 1 ==>
      r == LockState(0, None, if s.originalOverflow.Some? then s.originalOverflow.value else "")
    ensures hasDocument && s.lockCount > 1 ==> r == s.(lockCount := s.lockCount - 1)
    ensures Consistent(s) ==> Consistent(r)
  {
    if !hasDocument || s.lockCount == 0 then s
    else
      var count := s.lockCount - 1;
      if count == 0 then
        if s.originalOverflow.Some? then LockState(0, None, s.originalOverflow.value)
        else LockState(0, None, "")
      else s.(lockCount := count)
  }

  /** One lock followed by one unlock leaves a consistent state exactly as
      it was. */
  lemma LockThenUnlock(s: LockState, hasDocument: bool)
    requires Consistent(s)
    ensures Unlock(Lock(s, hasDocument), hasDocument) == s
  {
  }

  /** `n` successive locks. */
  function Locks(s: LockState, n: nat, hasDocument: bool): (r: LockState)
    ensures Consistent(s) ==> Consistent(r)
    ensures hasDocument ==> r.lockCount == s.lockCount + n
  {
    if n == 0 then s else Lock(Locks(s, n - 1, hasDocument), hasDocument)
  }

  /** `n` successive unlocks; the count never goes below zero. */
  function Unlocks(s: LockState, n: nat, hasDocument: bool): (r: LockState)
    ensures Consistent(s) ==> Consistent(r)
    ensures hasDocument ==> r.lockCount == if s.lockCount >= n then s.lockCount - n else 0
    decreases n
  {
    if n == 0 then s else Unlocks(Unlock(s, hasDocument), n - 1, hasDocument)
  }

  /** Nested locking: `n` locks followed by `n` unlocks restore the state,
      in particular the body's original `overflow`. */
  lemma {:induction false} LocksThenUnlocksRestore(s: LockState, n: nat, hasDocument: bool)
    requires Consistent(s)
    ensures Unlocks(Locks(s, n, hasDocument), n, hasDocument) == s
  {
    if n > 0 {
      var t := Locks(s, n - 1, hasDocument);
      LockThenUnlock(t, hasDocument);
      assert Unlocks(Locks(s, n, hasDocument), n, hasDocument) == Unlocks(t, n - 1, hasDocument);
      LocksThenUnlocksRestore(s, n - 1, hasDocument);
    }
  }

  /** Until the last of `n` nested locks is released the page stays
      hidden, whatever `overflow` it had. */
  lemma {:induction false} PartialUnlockKeepsHidden(s: LockState, n: nat, k: nat)
    requires Consistent(s) && k < n
    ensures Unlocks(Locks(s, n, true), k, true).overflow == HIDDEN
  {
    var t := Unlocks(Locks(s, n, true), k, true);
    assert t.lockCount == s.lockCount + n - k;
  }

  /** `useBodyScrollLock`'s effect for one value of `enabled`: lock when
      enabled (the cleanup will unlock), unlock when disabled. */
  function Effect(s: LockState, enabled: bool, hasDocument: bool): LockState {
    if enabled then Lock(s, hasDocument) else Unlock(s, hasDocument)
  }

  /** An enabled effect followed by its cleanup leaves the state as it
      was; a disabled effect on an unlocked page changes nothing. */
  lemma EffectAndCleanup(s: LockState, hasDocument: bool)
    requires Consistent(s)
    ensures Unlock(Effect(s, true, hasDocument), hasDocument) == s
    ensures s.lockCount == 0 ==> Effect(s, false, hasDocument) == s
  {
    LockThenUnlock(s, hasDocument);
  }

  /** The module-level lock state and the document body it acts on. */
  class ScrollLock {
    const hasDocument: bool
    var lockCount: nat
    var originalOverflow: Option<string>
    var overflow: string

    function State(): LockState
      reads this
    {
      LockState(lockCount, originalOverflow, overflow)
    }

    constructor (hasDocument: bool, overflow: string)
      ensures this.hasDocument == hasDocument
      ensures State() == LockState(0, None, overflow) && Consistent(State())
    {
      this.hasDocument := hasDocument;
      lockCount := 0;
      originalOverflow := None;
      this.overflow := overflow;
    }

    method LockBodyScroll()
      modifies this
      ensures State() == Lock(old(State()), hasDocument)
    {
      if !hasDocument {
        return;
      }
      if lockCount == 0 {
        originalOverflow := Some(overflow);
        overflow := HIDDEN;
      }
      lockCount := lockCount + 1;
    }

    method UnlockBodyScroll()
      modifies this
      ensures State() == Unlock(old(State()), hasDocument)
    {
      if !hasDocument || lockCount == 0 {
        return;
      }
      lockCount := lockCount - 1;
      if lockCount == 0 {
        if originalOverflow.Some? {
          overflow := originalOverflow.value;
          originalOverflow := None;
        } else {
          overflow := "";
        }
      }
    }

    /** Running the effect; `hasCleanup` says whether it registered the
        unlocking cleanup. */
    method RunEffect(enabled: bool) returns (hasCleanup: bool)
      modifies this
      ensures hasCleanup == enabled
      ensures State() == Effect(old(State()), enabled, hasDocument)
    {
      if !enabled {
        UnlockBodyScroll();
        return false;
      }
      LockBodyScroll();
      hasCleanup := true;
    }
  }
}
