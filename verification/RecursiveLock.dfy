/**
 * The recursive lock with timeouts.  A shared counter is incremented by every
 * attempt, the thread that brings it to zero owns the lock, and every other
 * thread waits for an auto-reset event.  An attempt that gives up does not take
 * its increment back.
 *
 * `Apply` interleaves any number of threads at the grain of single reads,
 * writes and interlocked operations.
 */
module RecursiveLock {

  datatype Timeout = Zero | Finite | Infinite

  /** What a thread wants the spinlock for. */
  datatype Purpose = ToWait(tmo: Timeout) | ToSignal

  /** The next thing a thread is going to do. */
  datatype Pc =
    | Idle                       // outside Lock and Unlock
    | First                      // brought the count to zero; write the owner id
    | IdWritten                  // wrote the owner id; set the in-thread count
    | Contended(tmo: Timeout)    // did not; compare the owner id
    | Recursing                  // is the owner; increment the in-thread count
    | Spinning(why: Purpose)     // exchange the spinlock
    | SpinHeld(why: Purpose)     // look whether the event exists
    | Creating(why: Purpose)     // create the event
    | SpinDone(why: Purpose)     // give the spinlock back
    | Blocked(tmo: Timeout)      // wait for the event
    | Woken                      // got the event; write the owner id
    | Leaving                    // Unlock, not the last level; decrement the count
    | LastOut                    // Unlock, last level; clear the owner id
    | Releasing                  // owner id cleared; decrement the count
    | Signalling                 // set the event

  /** `depth` counts the levels a thread holds, `failed` its attempts that gave up. */
  datatype Thread = Thread(pc: Pc, depth: nat, failed: nat)

  /** The fields of the lock, and its event. */
  datatype Shared = Shared(
    inCS: int, lockCount: int, inThread: int, owner: nat,
    hasEvent: bool, created: nat, signalled: bool)

  /** Windows thread ids are never zero: thread `t` has id `t + 1`. */
  datatype System = System(lock: Shared, threads: seq<Thread>)

  const NEW_THREAD := Thread(Idle, 0, 0)
  const START := System(Shared(0, -1, 0, 0, false, 0, false), [])

  datatype Op =
    | Begin(tmo: Timeout)        // call Lock: the interlocked increment
    | BeginUnlock                // call Unlock: decrement the in-thread count
    | Go                         // the next read, write or interlocked operation
    | SpinTimeout                // give up on the spinlock
    | WaitTimeout                // give up on the event

  datatype Step = Arrive | By(t: nat, op: Op)

  predicate CanDo(lock: Shared, th: Thread, op: Op) {
    match op
    case Begin(_) => th.pc.Idle?
    // Only a holder may call Unlock.
    case BeginUnlock => th.pc.Idle? && th.depth > 0
    case Go => !th.pc.Idle? && (th.pc.Blocked? ==> lock.signalled)
    case SpinTimeout => th.pc == Spinning(ToWait(Finite))
    case WaitTimeout => th.pc == Blocked(Finite)
  }

  datatype Local = Local(lock: Shared, th: Thread)

  function Acquired(th: Thread): Thread {
    Thread(Idle, th.depth + 1, th.failed)
  }

  function GaveUp(th: Thread): Thread {
    Thread(Idle, th.depth, th.failed + 1)
  }

  function Dropped(th: Thread, pc: Pc): Thread {
    Thread(pc, if th.depth > 0 then th.depth - 1 else 0, th.failed)
  }

  function Advance(lock: Shared, th: Thread, id: nat): Local
    requires CanDo(lock, th, Go)
  {
    match th.pc
    case First => Local(lock.(owner := id), th.(pc := IdWritten))
    case IdWritten => Local(lock.(inThread := 1), Acquired(th))
    case Contended(tmo) =>
      Local(lock,
            if lock.owner == id then th.(pc := Recursing)
            else if tmo.Zero? then GaveUp(th)
            else th.(pc := Spinning(ToWait(tmo))))
    case Recursing => Local(lock.(inThread := lock.inThread + 1), Acquired(th))
    case Spinning(why) =>
      if lock.inCS == 1 then Local(lock, th) else Local(lock.(inCS := 1), th.(pc := SpinHeld(why)))
    case SpinHeld(why) => Local(lock, th.(pc := if lock.hasEvent then SpinDone(why) else Creating(why)))
    case Creating(why) => Local(lock.(hasEvent := true, created := lock.created + 1), th.(pc := SpinDone(why)))
    case SpinDone(why) =>
      Local(lock.(inCS := lock.inCS - 1), th.(pc := if why.ToWait? then Blocked(why.tmo) else Signalling))
    case Blocked(_) => Local(lock.(signalled := false), th.(pc := Woken))
    case Woken => Local(lock.(owner := id), th.(pc := IdWritten))
    case Leaving => Local(lock.(lockCount := lock.lockCount - 1), Dropped(th, Idle))
    case LastOut => Local(lock.(owner := 0), th.(pc := Releasing))
    case Releasing =>
      Local(lock.(lockCount := lock.lockCount - 1),
            Dropped(th, if lock.lockCount - 1 >= 0 then Spinning(ToSignal) else Idle))
    case Signalling => Local(lock.(signalled := true), th.(pc := Idle))
  }

  /** One atomic operation of one thread. */
  function Do(lock: Shared, th: Thread, id: nat, op: Op): Local
    requires CanDo(lock, th, op)
  {
    match op
    case Begin(tmo) =>
      Local(lock.(lockCount := lock.lockCount + 1), th.(pc := if lock.lockCount + 1 == 0 then First else Contended(tmo)))
    case BeginUnlock =>
      Local(lock.(inThread := lock.inThread - 1), th.(pc := if lock.inThread - 1 > 0 then Leaving else LastOut))
    case Go => Advance(lock, th, id)
    case SpinTimeout => Local(lock, GaveUp(th))
    case WaitTimeout => Local(lock, GaveUp(th))
  }

  predicate Enabled(s: System, st: Step) {
    st.By? ==> st.t < |s.threads| && CanDo(s.lock, s.threads[st.t], st.op)
  }

  function Apply(s: System, st: Step): System
    requires Enabled(s, st)
  {
    match st
    case Arrive => s.(threads := s.threads + [NEW_THREAD])
    case By(t, op) =>
      var l := Do(s.lock, s.threads[t], t + 1, op);
      System(l.lock, s.threads[t := l.th])
  }

  predicate Legal(s: System, steps: seq<Step>)
    decreases |steps|
  {
    steps == [] || (Enabled(s, steps[0]) && Legal(Apply(s, steps[0]), steps[1..]))
  }

  function Run(s: System, steps: seq<Step>): System
    requires Legal(s, steps)
    decreases |steps|
  {
    if steps == [] then s else Run(Apply(s, steps[0]), steps[1..])
  }

  // -------------------------------------------------- sums over threads

  function Sum(f: Thread -> nat, ts: seq<Thread>): nat {
    if ts == [] then 0 else f(ts[0]) + Sum(f, ts[1..])
  }

  lemma {:induction false} SumUpdate(f: Thread -> nat, ts: seq<Thread>, t: nat, x: Thread)
    requires t < |ts|
    ensures Sum(f, ts[t := x]) + f(ts[t]) == Sum(f, ts) + f(x)
  {
    if t == 0 {
      assert ts[t := x][1..] == ts[1..];
    } else {
      assert ts[t := x][1..] == ts[1..][t - 1 := x];
      SumUpdate(f, ts[1..], t - 1, x);
    }
  }

  lemma {:induction false} SumAppend(f: Thread -> nat, ts: seq<Thread>, x: Thread)
    ensures Sum(f, ts + [x]) == Sum(f, ts) + f(x)
  {
    if ts == [] {
      assert ts + [x] == [x];
      assert [x][1..] == [];
    } else {
      assert (ts + [x])[1..] == ts[1..] + [x];
      SumAppend(f, ts[1..], x);
    }
  }

  lemma {:induction false} SumCovers(f: Thread -> nat, ts: seq<Thread>, t: nat)
    requires t < |ts|
    ensures f(ts[t]) <= Sum(f, ts)
  {
    if t > 0 {
      SumCovers(f, ts[1..], t - 1);
    }
  }

  lemma {:induction false} SumCoversTwo(f: Thread -> nat, ts: seq<Thread>, t: nat, u: nat)
    requires t < u < |ts|
    ensures f(ts[t]) + f(ts[u]) <= Sum(f, ts)
  {
    if t == 0 {
      SumCovers(f, ts[1..], u - 1);
    } else {
      SumCoversTwo(f, ts[1..], t - 1, u - 1);
    }
  }

  lemma {:induction false} SumZero(f: Thread -> nat, ts: seq<Thread>)
    ensures Sum(f, ts) == 0 <==> forall t :: 0 <= t < |ts| ==> f(ts[t]) == 0
  {
    if ts != [] {
      SumZero(f, ts[1..]);
      assert forall t :: 1 <= t < |ts| ==> ts[t] == ts[1..][t - 1];
    }
  }

  // ------------------------------------------------------ what is counted

  predicate UsesSpin(pc: Pc) {
    pc.Spinning? || pc.SpinHeld? || pc.Creating? || pc.SpinDone?
  }

  /** On its way through Lock, with its increment made. */
  predicate InLock(pc: Pc) {
    || pc.First? || pc.IdWritten? || pc.Contended? || pc.Recursing? || pc.Blocked? || pc.Woken?
    || (UsesSpin(pc) && pc.why.ToWait?)
  }

  /** Between the decrement of Unlock and its SetEvent. */
  predicate HandingOver(pc: Pc) {
    pc.Signalling? || (UsesSpin(pc) && pc.why.ToSignal?)
  }

  /** Everything a thread has added to the lock count and not taken back. */
  function Units(th: Thread): nat {
    th.depth + (if InLock(th.pc) then 1 else 0) + th.failed
  }

  /** The thread owns the lock, is becoming the owner, or is handing it over. */
  predicate HasToken(th: Thread) {
    th.depth > 0 || th.pc.First? || th.pc.IdWritten? || th.pc.Woken? || HandingOver(th.pc)
  }

  function Token(th: Thread): nat {
    if HasToken(th) then 1 else 0
  }

  predicate InSpin(pc: Pc) {
    pc.SpinHeld? || pc.Creating? || pc.SpinDone?
  }

  function SpinToken(th: Thread): nat {
    if InSpin(th.pc) then 1 else 0
  }

  predicate OwnsId(th: Thread) {
    th.pc.IdWritten? || (th.depth > 0 && !th.pc.Releasing?)
  }

  predicate InUnlock(pc: Pc) {
    pc.Leaving? || pc.LastOut? || pc.Releasing?
  }

  // ---------------------------------------------------------- invariants

  /** The exact ledger of the lock count. */
  predicate LedgerBalances(s: System) {
    s.lock.lockCount + 1 == Sum(Units, s.threads)
  }

  /** The lock itself has the token: it is free, or its event is signalled. */
  function LockToken(lock: Shared): nat {
    (if lock.lockCount == -1 then 1 else 0) + (if lock.signalled then 1 else 0)
  }

  /** The lock is free, or signalled to a waiter, or with exactly one thread. */
  predicate OneToken(s: System) {
    LockToken(s.lock) + Sum(Token, s.threads) == 1
  }

  predicate ThreadOk(lock: Shared, th: Thread, id: nat) {
    && (th.depth > 0 ==> th.pc.Idle? || th.pc.Contended? || th.pc.Recursing? || InUnlock(th.pc))
    && (th.pc.Recursing? || th.pc.LastOut? || th.pc.Releasing? ==> th.depth > 0)
    && (th.pc.LastOut? || th.pc.Releasing? ==> th.depth == 1)
    && (th.pc.Leaving? ==> th.depth >= 2)
    && (lock.owner == id <==> OwnsId(th))
    && (th.depth > 0 ==> lock.inThread == th.depth - (if InUnlock(th.pc) then 1 else 0))
  }

  predicate ThreadsOk(s: System) {
    && s.lock.owner <= |s.threads|
    && forall t :: 0 <= t < |s.threads| ==> ThreadOk(s.lock, s.threads[t], t + 1)
  }

  predicate EventOk(lock: Shared, th: Thread) {
    && (th.pc.Creating? ==> !lock.hasEvent)
    && (th.pc.SpinDone? || th.pc.Blocked? || th.pc.Signalling? ==> lock.hasEvent)
  }

  /** The spinlock guards the creation of the event. */
  predicate SpinlockOk(s: System) {
    && 0 <= s.lock.inCS == Sum(SpinToken, s.threads) <= 1
    && s.lock.created == (if s.lock.hasEvent then 1 else 0)
    && forall t :: 0 <= t < |s.threads| ==> EventOk(s.lock, s.threads[t])
  }

  predicate Inv(s: System) {
    LedgerBalances(s) && OneToken(s) && ThreadsOk(s) && SpinlockOk(s)
  }

  // What one operation does, seen from the thread alone.

  lemma DoKeepsThreadOk(lock: Shared, th: Thread, id: nat, op: Op)
    requires CanDo(lock, th, op) && id > 0
    requires ThreadOk(lock, th, id) && Units(th) <= lock.lockCount + 1
    ensures ThreadOk(Do(lock, th, id, op).lock, Do(lock, th, id, op).th, id)
    ensures Do(lock, th, id, op).lock.owner in {lock.owner, id, 0}
  {
  }

  lemma DoKeepsOthersOk(lock: Shared, th: Thread, id: nat, op: Op, other: Thread, id': nat)
    requires CanDo(lock, th, op) && id != id' > 0
    requires ThreadOk(lock, th, id) && ThreadOk(lock, other, id')
    requires !(HasToken(th) && HasToken(other))
    ensures ThreadOk(Do(lock, th, id, op).lock, other, id')
  {
  }

  lemma DoBalances(lock: Shared, th: Thread, id: nat, op: Op)
    requires CanDo(lock, th, op) && ThreadOk(lock, th, id)
    requires Units(th) <= lock.lockCount + 1
    requires LockToken(lock) + Token(th) <= 1
    ensures var l := Do(lock, th, id, op);
            && l.lock.lockCount - lock.lockCount == Units(l.th) - Units(th)
            && LockToken(l.lock) + Token(l.th) == LockToken(lock) + Token(th)
  {
    if op.Go? {
      hide Advance;
      AdvanceBalances(lock, th, id);
    }
  }

  lemma AdvanceBalances(lock: Shared, th: Thread, id: nat)
    requires CanDo(lock, th, Go) && ThreadOk(lock, th, id)
    requires Units(th) <= lock.lockCount + 1
    requires LockToken(lock) + Token(th) <= 1
    ensures var l := Advance(lock, th, id);
            && l.lock.lockCount - lock.lockCount == Units(l.th) - Units(th)
            && LockToken(l.lock) + Token(l.th) == LockToken(lock) + Token(th)
  {
  }

  lemma DoKeepsSpinlock(lock: Shared, th: Thread, id: nat, op: Op)
    requires CanDo(lock, th, op) && EventOk(lock, th)
    requires SpinToken(th) <= lock.inCS <= 1
    requires lock.created == (if lock.hasEvent then 1 else 0)
    ensures var l := Do(lock, th, id, op);
            && EventOk(l.lock, l.th)
            && l.lock.inCS - lock.inCS == SpinToken(l.th) - SpinToken(th)
            && 0 <= l.lock.inCS <= 1
            && l.lock.created == (if l.lock.hasEvent then 1 else 0)
            && (l.lock.hasEvent == lock.hasEvent || (th.pc.Creating? && l.lock.hasEvent))
  {
  }

  /** How a sum moves when one thread changes. */
  lemma SumMoves(f: Thread -> nat, ts: seq<Thread>, t: nat, x: Thread)
    requires t < |ts|
    ensures Sum(f, ts[t := x]) == Sum(f, ts) + f(x) - f(ts[t])
    ensures f(ts[t]) <= Sum(f, ts)
  {
    SumUpdate(f, ts, t, x);
    SumCovers(f, ts, t);
  }

  /** At most one thread has the token, so at most one is an owner. */
  lemma TokenIsUnique(s: System, t: nat, u: nat)
    requires OneToken(s) && t < |s.threads| && u < |s.threads| && t != u
    ensures !(HasToken(s.threads[t]) && HasToken(s.threads[u]))
  {
    SumCoversTwo(Token, s.threads, if t < u then t else u, if t < u then u else t);
  }

  lemma TokenExcludes(s: System, t: nat)
    requires OneToken(s) && t < |s.threads| && HasToken(s.threads[t])
    ensures s.lock.lockCount != -1 && !s.lock.signalled
  {
    SumCovers(Token, s.threads, t);
  }

  lemma ThreadsOkStep(s: System, t: nat, op: Op)
    requires Enabled(s, By(t, op)) && Inv(s)
    ensures ThreadsOk(Apply(s, By(t, op)))
  {
    var s' := Apply(s, By(t, op));
    SumCovers(Units, s.threads, t);
    DoKeepsThreadOk(s.lock, s.threads[t], t + 1, op);
    forall u | 0 <= u < |s.threads| && u != t
      ensures ThreadOk(s'.lock, s.threads[u], u + 1)
    {
      TokenIsUnique(s, t, u);
      DoKeepsOthersOk(s.lock, s.threads[t], t + 1, op, s.threads[u], u + 1);
    }
  }

  lemma CountsStep(s: System, t: nat, op: Op)
    requires Enabled(s, By(t, op)) && Inv(s)
    ensures LedgerBalances(Apply(s, By(t, op))) && OneToken(Apply(s, By(t, op)))
  {
    var x := Apply(s, By(t, op)).threads[t];
    SumMoves(Units, s.threads, t, x);
    SumMoves(Token, s.threads, t, x);
    DoBalances(s.lock, s.threads[t], t + 1, op);
  }

  lemma SpinlockStep(s: System, t: nat, op: Op)
    requires Enabled(s, By(t, op)) && Inv(s)
    ensures SpinlockOk(Apply(s, By(t, op)))
  {
    var s' := Apply(s, By(t, op));
    SumMoves(SpinToken, s.threads, t, s'.threads[t]);
    DoKeepsSpinlock(s.lock, s.threads[t], t + 1, op);
    forall u | 0 <= u < |s.threads| && u != t
      ensures EventOk(s'.lock, s.threads[u])
    {
      SumCoversTwo(SpinToken, s.threads, if t < u then t else u, if t < u then u else t);
    }
  }

  lemma InvStep(s: System, st: Step)
    requires Enabled(s, st) && Inv(s)
    ensures Inv(Apply(s, st))
  {
    match st
    case Arrive =>
      SumAppend(Units, s.threads, NEW_THREAD);
      SumAppend(Token, s.threads, NEW_THREAD);
      SumAppend(SpinToken, s.threads, NEW_THREAD);
    case By(t, op) =>
      ThreadsOkStep(s, t, op);
      CountsStep(s, t, op);
      SpinlockStep(s, t, op);
  }

  lemma {:induction false} InvRun(s: System, steps: seq<Step>)
    requires Inv(s) && Legal(s, steps)
    ensures Inv(Run(s, steps))
    decreases |steps|
  {
    if steps != [] {
      InvStep(s, steps[0]);
      InvRun(Apply(s, steps[0]), steps[1..]);
    }
  }

  // -------------------------------------------------------- main results

  /** Mutual exclusion, with any number of threads, recursion and timeouts:
      two threads are never both holding or entering. */
  lemma MutualExclusion(steps: seq<Step>, t: nat, u: nat)
    requires Legal(START, steps)
    requires t < |Run(START, steps).threads| && u < |Run(START, steps).threads|
    requires HasToken(Run(START, steps).threads[t]) && HasToken(Run(START, steps).threads[u])
    ensures t == u
  {
    InvRun(START, steps);
    if t != u {
      TokenIsUnique(Run(START, steps), t, u);
    }
  }

  /** The lock count is the owner's depth, plus the attempts still under way,
      plus every attempt that ever gave up, minus one. */
  lemma LockCountLedger(steps: seq<Step>)
    requires Legal(START, steps)
    ensures Run(START, steps).lock.lockCount + 1 == Sum(Units, Run(START, steps).threads)
    ensures OneToken(Run(START, steps))
  {
    InvRun(START, steps);
  }

  /** While the count says free, nobody is anywhere inside Lock and nobody has
      ever given up. */
  lemma NobodyWaitsForAFreeLock(steps: seq<Step>, t: nat)
    requires Legal(START, steps) && t < |Run(START, steps).threads|
    requires Run(START, steps).lock.lockCount == -1
    ensures var th := Run(START, steps).threads[t];
            !InLock(th.pc) && th.depth == 0 && th.failed == 0
  {
    InvRun(START, steps);
    SumCovers(Units, Run(START, steps).threads, t);
  }

  /** The hand-over is never lost: SetEvent finds the event clear, so the
      signal it leaves is consumed by exactly one waiter. */
  lemma SetEventFindsItClear(steps: seq<Step>, t: nat)
    requires Legal(START, steps) && t < |Run(START, steps).threads|
    requires Run(START, steps).threads[t].pc.Signalling?
    ensures !Run(START, steps).lock.signalled && Run(START, steps).lock.hasEvent
  {
    InvRun(START, steps);
    TokenExcludes(Run(START, steps), t);
  }

  /** A blocked thread always has its turn coming: the event is signalled or
      some thread holds the lock or is passing it on. */
  lemma WaiterIsNeverStranded(steps: seq<Step>, t: nat)
    requires Legal(START, steps) && t < |Run(START, steps).threads|
    requires Run(START, steps).threads[t].pc.Blocked?
    ensures var s := Run(START, steps);
            s.lock.signalled || exists u :: 0 <= u < |s.threads| && u != t && HasToken(s.threads[u])
  {
    var s := Run(START, steps);
    InvRun(START, steps);
    SumCovers(Units, s.threads, t);
    if !s.lock.signalled {
      SumZero(Token, s.threads);
      assert ThreadOk(s.lock, s.threads[t], t + 1);
    }
  }

  /** The three assertions at the head of Unlock hold for every holder, and
      the in-thread count is exactly the number of levels it holds, so only the
      last matching Unlock clears the owner. */
  lemma UnlockFindsItsOwner(steps: seq<Step>, t: nat)
    requires Legal(START, steps) && Enabled(Run(START, steps), By(t, BeginUnlock))
    ensures var s := Run(START, steps);
            && s.lock.owner == t + 1 && s.lock.inThread == s.threads[t].depth > 0 && s.lock.lockCount >= 0
            && (Apply(s, By(t, BeginUnlock)).threads[t].pc.LastOut? <==> s.threads[t].depth == 1)
  {
    var s := Run(START, steps);
    InvRun(START, steps);
    assert ThreadOk(s.lock, s.threads[t], t + 1);
    SumCovers(Units, s.threads, t);
  }

  /** Until its last level is being released the owner id stays the holder's,
      whatever the other threads do. */
  lemma HolderStaysOwner(steps: seq<Step>, t: nat)
    requires Legal(START, steps) && t < |Run(START, steps).threads|
    ensures var s := Run(START, steps);
            s.lock.owner == t + 1 <==> s.threads[t].pc.IdWritten? || (s.threads[t].depth > 0 && !s.threads[t].pc.Releasing?)
  {
    InvRun(START, steps);
    assert ThreadOk(Run(START, steps).lock, Run(START, steps).threads[t], t + 1);
  }

  /** The spinlock admits one thread at a time, so the event is created at most
      once and exists whenever a thread waits for it or sets it. */
  lemma EventIsCreatedOnce(steps: seq<Step>)
    requires Legal(START, steps)
    ensures var s := Run(START, steps);
            && s.lock.created <= 1
            && forall t :: 0 <= t < |s.threads| && (s.threads[t].pc.Blocked? || s.threads[t].pc.Signalling?) ==> s.lock.hasEvent
  {
    InvRun(START, steps);
  }

  function Failures(th: Thread): nat { th.failed }

  predicate AllIdle(s: System) {
    forall t :: 0 <= t < |s.threads| ==> s.threads[t].pc.Idle?
  }

  predicate Held(s: System) {
    exists t :: 0 <= t < |s.threads| && s.threads[t].depth > 0
  }

  lemma {:induction false} IdleUnits(ts: seq<Thread>)
    requires forall t :: 0 <= t < |ts| ==> ts[t].pc.Idle? && ts[t].depth == 0
    ensures Sum(Units, ts) == Sum(Failures, ts)
    ensures Sum(Token, ts) == 0
  {
    if ts != [] {
      IdleUnits(ts[1..]);
    }
  }

  /** At rest and unheld, the lock is free exactly when no attempt ever gave up;
      after that it rests in the signalled event instead. */
  lemma WhereAnUnheldLockRests(steps: seq<Step>)
    requires Legal(START, steps) && AllIdle(Run(START, steps)) && !Held(Run(START, steps))
    ensures var s := Run(START, steps);
            && s.lock.lockCount + 1 == Sum(Failures, s.threads)
            && (s.lock.signalled <==> Sum(Failures, s.threads) > 0)
  {
    InvRun(START, steps);
    IdleUnits(Run(START, steps).threads);
  }

  /** A Lock with a zero timeout ought to succeed whenever no other thread holds
      the lock.  It does not: at rest it succeeds exactly when the caller holds
      the lock already, or nobody holds it and no attempt has ever given up. */
  lemma ZeroTimeoutSucceedsExactlyWhen(steps: seq<Step>, t: nat)
    requires Legal(START, steps) && AllIdle(Run(START, steps)) && t < |Run(START, steps).threads|
    ensures var s := Run(START, steps);
            var tried := Apply(Apply(s, By(t, Begin(Zero))), By(t, Go));
            tried.threads[t].failed == s.threads[t].failed
            <==> s.threads[t].depth > 0 || (!Held(s) && Sum(Failures, s.threads) == 0)
  {
    var s := Run(START, steps);
    InvRun(START, steps);
    assert ThreadOk(s.lock, s.threads[t], t + 1);
    if !Held(s) {
      IdleUnits(s.threads);
    } else {
      var u :| 0 <= u < |s.threads| && s.threads[u].depth > 0;
      TokenExcludes(s, u);
    }
  }

  lemma {:induction false} RunConcat(s: System, a: seq<Step>, b: seq<Step>)
    requires Legal(s, a) && Legal(Run(s, a), b)
    ensures Legal(s, a + b) && Run(s, a + b) == Run(Run(s, a), b)
    decreases |a|
  {
    if a == [] {
      assert a + b == b;
    } else {
      assert (a + b)[0] == a[0] && (a + b)[1..] == a[1..] + b;
      RunConcat(Apply(s, a[0]), a[1..], b);
    }
  }

  lemma OneStep(s: System, st: Step)
    requires Enabled(s, st)
    ensures Legal(s, [st]) && Run(s, [st]) == Apply(s, st)
  {
    assert [st][1..] == [];
  }

  /** The steps of two threads: the first locks, the second gives up at once,
      the first unlocks. */
  function OneRefusal(): seq<Step> {
    [Arrive] + [Arrive] + [By(0, Begin(Zero))] + [By(0, Go)] + [By(0, Go)] + [By(1, Begin(Zero))] + [By(1, Go)]
  }

  lemma Then(s0: System, a: seq<Step>, s: System, st: Step, s': System)
    requires Legal(s0, a) && Run(s0, a) == s && Enabled(s, st) && Apply(s, st) == s'
    ensures Legal(s0, a + [st]) && Run(s0, a + [st]) == s'
  {
    OneStep(s, st);
    RunConcat(s0, a, [st]);
  }

  lemma OneRefusalRun()
    ensures Legal(START, OneRefusal())
    ensures Run(START, OneRefusal()) == HeldOnce()
  {
    var s1, s2 := System(START.lock, [NEW_THREAD]), System(START.lock, [NEW_THREAD, NEW_THREAD]);
    var s3 := System(Shared(0, 0, 0, 0, false, 0, false), [Thread(First, 0, 0), NEW_THREAD]);
    var s4 := System(Shared(0, 0, 0, 1, false, 0, false), [Thread(IdWritten, 0, 0), NEW_THREAD]);
    var s5 := System(Shared(0, 0, 1, 1, false, 0, false), [Thread(Idle, 1, 0), NEW_THREAD]);
    var s6 := System(Shared(0, 1, 1, 1, false, 0, false), [Thread(Idle, 1, 0), Thread(Contended(Zero), 0, 0)]);
    OneStep(START, Arrive);
    Then(START, [Arrive], s1, Arrive, s2);
    Then(START, [Arrive] + [Arrive], s2, By(0, Begin(Zero)), s3);
    Then(START, [Arrive] + [Arrive] + [By(0, Begin(Zero))], s3, By(0, Go), s4);
    Then(START, [Arrive] + [Arrive] + [By(0, Begin(Zero))] + [By(0, Go)], s4, By(0, Go), s5);
    Then(START, [Arrive] + [Arrive] + [By(0, Begin(Zero))] + [By(0, Go)] + [By(0, Go)], s5, By(1, Begin(Zero)), s6);
    Then(START, [Arrive] + [Arrive] + [By(0, Begin(Zero))] + [By(0, Go)] + [By(0, Go)] + [By(1, Begin(Zero))], s6, By(1, Go), HeldOnce());
  }

  function HeldOnce(): System {
    System(Shared(0, 1, 1, 1, false, 0, false), [Thread(Idle, 1, 0), Thread(Idle, 0, 1)])
  }

  function ReleasedOnce(): System {
    System(Shared(0, 0, 0, 0, true, 1, true), [Thread(Idle, 0, 0), Thread(Idle, 0, 1)])
  }

  /** The unlock that follows: it finds a count of zero and sets the event. */
  lemma OneReleaseRun() returns (steps: seq<Step>)
    ensures Legal(HeldOnce(), steps) && Run(HeldOnce(), steps) == ReleasedOnce()
  {
    var go, out := By(0, Go), Thread(Idle, 0, 1);
    var s1 := System(Shared(0, 1, 0, 1, false, 0, false), [Thread(LastOut, 1, 0), out]);
    var s2 := System(Shared(0, 1, 0, 0, false, 0, false), [Thread(Releasing, 1, 0), out]);
    var s3 := System(Shared(0, 0, 0, 0, false, 0, false), [Thread(Spinning(ToSignal), 0, 0), out]);
    steps := [By(0, BeginUnlock)];
    OneStep(HeldOnce(), By(0, BeginUnlock));
    Then(HeldOnce(), steps, s1, go, s2);
    Then(HeldOnce(), steps + [go], s2, go, s3);
    var signal := SignalRun(s3);
    RunConcat(HeldOnce(), steps + [go] + [go], signal);
    steps := steps + [go] + [go] + signal;
  }

  lemma SignalRun(s0: System) returns (steps: seq<Step>)
    requires s0 == System(Shared(0, 0, 0, 0, false, 0, false), [Thread(Spinning(ToSignal), 0, 0), Thread(Idle, 0, 1)])
    ensures Legal(s0, steps) && Run(s0, steps) == ReleasedOnce()
  {
    var go, out := By(0, Go), Thread(Idle, 0, 1);
    var s1 := System(Shared(1, 0, 0, 0, false, 0, false), [Thread(SpinHeld(ToSignal), 0, 0), out]);
    var s2 := System(Shared(1, 0, 0, 0, false, 0, false), [Thread(Creating(ToSignal), 0, 0), out]);
    var s3 := System(Shared(1, 0, 0, 0, true, 1, false), [Thread(SpinDone(ToSignal), 0, 0), out]);
    var s4 := System(Shared(0, 0, 0, 0, true, 1, false), [Thread(Signalling, 0, 0), out]);
    OneStep(s0, go);
    Then(s0, [go], s1, go, s2);
    Then(s0, [go] + [go], s2, go, s3);
    Then(s0, [go] + [go] + [go], s3, go, s4);
    Then(s0, [go] + [go] + [go] + [go], s4, go, ReleasedOnce());
    steps := [go] + [go] + [go] + [go] + [go];
  }

  /** So a lock that nobody holds can refuse a zero timeout. */
  lemma ZeroTimeoutCanFailUnheld() returns (steps: seq<Step>)
    ensures Legal(START, steps) && AllIdle(Run(START, steps)) && !Held(Run(START, steps))
    ensures |Run(START, steps).threads| == 2
    ensures var tried := Apply(Apply(Run(START, steps), By(1, Begin(Zero))), By(1, Go));
            tried.threads[1].failed > Run(START, steps).threads[1].failed
  {
    OneRefusalRun();
    var release := OneReleaseRun();
    RunConcat(START, OneRefusal(), release);
    steps := OneRefusal() + release;
  }

  // ------------------------------------------ Lock and Unlock, uninterrupted

  predicate AloneLegal(l: Local, id: nat, ops: seq<Op>)
    decreases |ops|
  {
    ops == [] || (CanDo(l.lock, l.th, ops[0]) && AloneLegal(Do(l.lock, l.th, id, ops[0]), id, ops[1..]))
  }

  function Alone(l: Local, id: nat, ops: seq<Op>): Local
    requires AloneLegal(l, id, ops)
    decreases |ops|
  {
    if ops == [] then l else Alone(Do(l.lock, l.th, id, ops[0]), id, ops[1..])
  }

  lemma {:induction false} AloneThen(l: Local, id: nat, ops: seq<Op>, op: Op)
    requires AloneLegal(l, id, ops)
    requires var m := Alone(l, id, ops); CanDo(m.lock, m.th, op)
    ensures AloneLegal(l, id, ops + [op])
    ensures var m := Alone(l, id, ops); Alone(l, id, ops + [op]) == Do(m.lock, m.th, id, op)
    decreases |ops|
  {
    if ops == [] {
      assert ops + [op] == [op];
    } else {
      assert (ops + [op])[0] == ops[0] && (ops + [op])[1..] == ops[1..] + [op];
      AloneThen(Do(l.lock, l.th, id, ops[0]), id, ops[1..], op);
    }
  }

  /** What one thread does alone is a legal run of the whole system. */
  lemma {:induction false} AloneIsRun(s: System, t: nat, ops: seq<Op>)
    requires t < |s.threads| && AloneLegal(Local(s.lock, s.threads[t]), t + 1, ops)
    ensures var steps := seq(|ops|, i requires 0 <= i < |ops| => By(t, ops[i]));
            var l := Alone(Local(s.lock, s.threads[t]), t + 1, ops);
            Legal(s, steps) && Run(s, steps) == System(l.lock, s.threads[t := l.th])
    decreases |ops|
  {
    var steps := seq(|ops|, i requires 0 <= i < |ops| => By(t, ops[i]));
    if ops == [] {
      assert s.threads[t := s.threads[t]] == s.threads;
    } else {
      var s' := Apply(s, By(t, ops[0]));
      AloneIsRun(s', t, ops[1..]);
      assert steps[1..] == seq(|ops[1..]|, i requires 0 <= i < |ops[1..]| => By(t, ops[1..][i]));
      var l := Alone(Local(s.lock, s.threads[t]), t + 1, ops);
      assert s'.threads[t := l.th] == s.threads[t := l.th];
    }
  }

  /** `n` operations that do not give up. */
  function Goes(n: nat): seq<Op> {
    seq(n, _ => Go)
  }

  lemma GoFirst(l: Local, id: nat, n: nat)
    requires CanDo(l.lock, l.th, Go) && AloneLegal(Do(l.lock, l.th, id, Go), id, Goes(n))
    ensures AloneLegal(l, id, Goes(n + 1)) && Alone(l, id, Goes(n + 1)) == Alone(Do(l.lock, l.th, id, Go), id, Goes(n))
  {
    assert Goes(n + 1)[0] == Go && Goes(n + 1)[1..] == Goes(n);
  }

  /** From the signal taken, or from the count brought to zero, to the end. */
  lemma EntersFrom(l: Local, id: nat)
    requires l.th.pc.First? || l.th.pc.Woken?
    ensures AloneLegal(l, id, Goes(2))
    ensures Alone(l, id, Goes(2)) == Local(l.lock.(owner := id, inThread := 1), Acquired(l.th))
  {
    var l1 := Do(l.lock, l.th, id, Go);
    var l2 := Do(l1.lock, l1.th, id, Go);
    assert Goes(0) == [] && Alone(l2, id, []) == l2;
    GoFirst(l1, id, 0);
    GoFirst(l, id, 1);
  }

  /** From the end of the spinlock section to the lock. */
  lemma WakesFrom(l: Local, id: nat)
    requires l.th.pc.SpinDone? && l.th.pc.why.ToWait? && l.lock.signalled
    ensures AloneLegal(l, id, Goes(4))
    ensures Alone(l, id, Goes(4)) == Local(l.lock.(inCS := l.lock.inCS - 1, signalled := false, owner := id, inThread := 1), Acquired(l.th))
  {
    var l1 := Do(l.lock, l.th, id, Go);
    var l2 := Do(l1.lock, l1.th, id, Go);
    EntersFrom(l2, id);
    GoFirst(l1, id, 2);
    GoFirst(l, id, 3);
  }

  lemma SpinsFrom(l: Local, id: nat) returns (n: nat)
    requires l.th.pc.Spinning? && l.th.pc.why.ToWait? && l.lock.inCS == 0 && l.lock.signalled
    ensures AloneLegal(l, id, Goes(n))
    ensures var l' := Alone(l, id, Goes(n)); l'.th == Acquired(l.th) && l'.lock.owner == id && !l'.lock.signalled
  {
    var l1 := Do(l.lock, l.th, id, Go);
    var l2 := Do(l1.lock, l1.th, id, Go);
    if l.lock.hasEvent {
      WakesFrom(l2, id);
      GoFirst(l1, id, 4);
      GoFirst(l, id, 5);
      n := 6;
    } else {
      var l3 := Do(l2.lock, l2.th, id, Go);
      WakesFrom(l3, id);
      GoFirst(l2, id, 4);
      GoFirst(l1, id, 5);
      GoFirst(l, id, 6);
      n := 7;
    }
  }

  /** At rest a lock that nobody holds is there for whoever asks with a timeout
      other than zero: left alone, an attempt that does not give up succeeds,
      however many attempts have failed before. */
  lemma UnheldLockIsTaken(steps: seq<Step>, t: nat, tmo: Timeout) returns (n: nat)
    requires Legal(START, steps) && AllIdle(Run(START, steps)) && !Held(Run(START, steps))
    requires t < |Run(START, steps).threads| && !tmo.Zero?
    ensures var s := Run(START, steps);
            var l := Local(s.lock, s.threads[t]);
            && AloneLegal(l, t + 1, [Begin(tmo)] + Goes(n))
            && var l' := Alone(l, t + 1, [Begin(tmo)] + Goes(n));
               l'.th == Acquired(l.th) && l'.lock.owner == t + 1 && !l'.lock.signalled
  {
    var s := Run(START, steps);
    InvRun(START, steps);
    WhereAnUnheldLockRests(steps);
    SumZero(SpinToken, s.threads);
    assert ThreadOk(s.lock, s.threads[t], t + 1);
    n := AttemptSucceeds(Local(s.lock, s.threads[t]), t + 1, tmo);
  }

  lemma AttemptSucceeds(l: Local, id: nat, tmo: Timeout) returns (n: nat)
    requires l.th.pc.Idle? && l.lock.inCS == 0 && l.lock.owner != id && !tmo.Zero?
    requires (l.lock.lockCount == -1 && !l.lock.signalled) || (l.lock.lockCount >= 0 && l.lock.signalled)
    ensures AloneLegal(l, id, [Begin(tmo)] + Goes(n))
    ensures var l' := Alone(l, id, [Begin(tmo)] + Goes(n));
            l'.th == Acquired(l.th) && l'.lock.owner == id && !l'.lock.signalled
  {
    var l1 := Do(l.lock, l.th, id, Begin(tmo));
    if l.lock.lockCount == -1 {
      EntersFrom(l1, id);
      n := 2;
    } else {
      var l2 := Do(l1.lock, l1.th, id, Go);
      var k := SpinsFrom(l2, id);
      GoFirst(l1, id, k);
      n := k + 1;
    }
    assert ([Begin(tmo)] + Goes(n))[0] == Begin(tmo) && ([Begin(tmo)] + Goes(n))[1..] == Goes(n);
  }

  /** What comes of an attempt to lock: success, failure, or a wait for a signal
      that has not come and does not time out. */
  datatype Attempt = Taken | Refused | Waits

  /** The calling thread after an attempt. */
  function After(th: Thread, r: Attempt, taken: Thread, tmo: Timeout): Thread {
    match r
    case Taken => taken
    case Refused => GaveUp(th)
    case Waits => th.(pc := Blocked(tmo))
  }

  /**
   * The lock object.  Its methods run without interference; `ops` records the
   * atomic operations performed, and every contract says they are a legal run
   * of the step system.  `me` is the calling thread as the system sees it.
   */
  class CriticalSection {
    var inCS: int
    var lockCount: int
    var inThread: int
    var owner: nat
    var hasEvent: bool
    var signalled: bool
    ghost var created: nat
    ghost var me: Thread
    ghost var ops: seq<Op>

    ghost function View(): Shared
      reads this
    {
      Shared(inCS, lockCount, inThread, owner, hasEvent, created, signalled)
    }

    ghost function Here(): Local
      reads this
    {
      Local(View(), me)
    }

    /** Everything since `l` is accounted for by `ops`. */
    ghost predicate Follows(l: Local, id: nat)
      reads this
    {
      AloneLegal(l, id, ops) && Alone(l, id, ops) == Here()
    }

    constructor ()
      ensures View() == START.lock && me == NEW_THREAD && ops == []
    {
      inCS, lockCount, inThread, owner, hasEvent, signalled := 0, -1, 0, 0, false, false;
      created, me, ops := 0, NEW_THREAD, [];
    }

    /** The bookkeeping of one more operation. */
    ghost method Note(l: Local, was: Local, id: nat, op: Op, th: Thread)
      requires AloneLegal(l, id, ops) && Alone(l, id, ops) == was
      requires CanDo(was.lock, was.th, op) && Do(was.lock, was.th, id, op) == Local(View(), th)
      modifies this`me, this`ops
      ensures me == th && Follows(l, id)
    {
      AloneThen(l, id, ops, op);
      me, ops := th, ops + [op];
    }

    method AquireSpinlock(ghost l: Local, ghost id: nat, ghost why: Purpose)
      requires Follows(l, id) && me.pc == Spinning(why) && inCS == 0
      modifies this`inCS, this`me, this`ops
      ensures Follows(l, id) && inCS == 1 && me == old(me).(pc := SpinHeld(why))
    {
      ghost var was := Here();
      inCS := 1;
      Note(l, was, id, Go, me.(pc := SpinHeld(why)));
    }

    method CreateIfNeeded(ghost l: Local, ghost id: nat, ghost why: Purpose)
      requires Follows(l, id) && me.pc == SpinHeld(why)
      modifies this`hasEvent, this`created, this`me, this`ops
      ensures Follows(l, id) && hasEvent && me == old(me).(pc := SpinDone(why))
    {
      ghost var was := Here();
      if hasEvent {
        Note(l, was, id, Go, me.(pc := SpinDone(why)));
      } else {
        Note(l, was, id, Go, me.(pc := Creating(why)));
        was := Here();
        hasEvent := true;
        created := created + 1;
        Note(l, was, id, Go, me.(pc := SpinDone(why)));
      }
    }

    method ReleaseSpinlock(ghost l: Local, ghost id: nat, ghost why: Purpose)
      requires Follows(l, id) && me.pc == SpinDone(why)
      modifies this`inCS, this`me, this`ops
      ensures Follows(l, id) && inCS == old(inCS) - 1
      ensures me == old(me).(pc := if why.ToWait? then Blocked(why.tmo) else Signalling)
    {
      ghost var was := Here();
      inCS := inCS - 1;
      Note(l, was, id, Go, me.(pc := if why.ToWait? then Blocked(why.tmo) else Signalling));
    }

    // The spinlock section shared by BlockThread and UnblockWaiter.
    method EnsureEvent(ghost l: Local, ghost id: nat, ghost why: Purpose)
      requires Follows(l, id) && me.pc == Spinning(why) && inCS == 0
      modifies this
      ensures Follows(l, id) && inCS == 0 && hasEvent
      ensures me == old(me).(pc := if why.ToWait? then Blocked(why.tmo) else Signalling)
      ensures (lockCount, inThread, owner, signalled) == old((lockCount, inThread, owner, signalled))
    {
      AquireSpinlock(l, id, why);
      CreateIfNeeded(l, id, why);
      ReleaseSpinlock(l, id, why);
    }

    // The owner id and the in-thread count, written one after the other.
    method TakeOwnership(ghost l: Local, id: nat)
      requires id > 0 && Follows(l, id) && (me.pc.First? || me.pc.Woken?)
      modifies this`owner, this`inThread, this`me, this`ops
      ensures Follows(l, id) && me == Acquired(old(me))
      ensures owner == id && inThread == 1
    {
      ghost var was := Here();
      owner := id;
      Note(l, was, id, Go, me.(pc := IdWritten));
      was := Here();
      inThread := 1;
      Note(l, was, id, Go, Acquired(me));
    }

    /** BlockThread, up to its return, or to the wait it does not return from
        until another thread signals. */
    method BlockThread(ghost l: Local, ghost id: nat, tmo: Timeout) returns (r: Attempt)
      requires Follows(l, id) && me.pc == Spinning(ToWait(tmo)) && inCS == 0 && !tmo.Zero?
      modifies this
      ensures Follows(l, id) && inCS == 0 && hasEvent && !signalled
      ensures r == if old(signalled) then Taken else if tmo.Infinite? then Waits else Refused
      ensures me == After(old(me), r, old(me).(pc := Woken), tmo)
      ensures (lockCount, inThread, owner) == old((lockCount, inThread, owner))
    {
      EnsureEvent(l, id, ToWait(tmo));
      ghost var was := Here();
      if signalled {
        signalled := false;
        Note(l, was, id, Go, me.(pc := Woken));
        r := Taken;
      } else if tmo.Infinite? {
        r := Waits;
      } else {
        Note(l, was, id, WaitTimeout, GaveUp(me));
        r := Refused;
      }
    }

    // Lock, when the increment did not bring the count to zero.
    method LockContended(ghost l: Local, id: nat, tmo: Timeout) returns (r: Attempt)
      requires id > 0 && Follows(l, id) && me.pc == Contended(tmo) && inCS == 0
      modifies this
      ensures Follows(l, id) && inCS == 0
      ensures r.Taken? <==> old(owner == id || (!tmo.Zero? && signalled))
      ensures r.Waits? <==> !r.Taken? && tmo.Infinite?
      ensures signalled == (old(signalled) && (!r.Taken? || old(owner) == id))
      ensures me == After(old(me), r, Acquired(old(me)), tmo)
      ensures lockCount == old(lockCount)
      ensures r.Taken? ==> owner == id && inThread == if old(owner) == id then old(inThread) + 1 else 1
      ensures !r.Taken? ==> owner == old(owner) && inThread == old(inThread)
    {
      ghost var was := Here();
      if owner == id {
        Note(l, was, id, Go, me.(pc := Recursing));
        was := Here();
        inThread := inThread + 1;
        Note(l, was, id, Go, Acquired(me));
        return Taken;
      }
      if tmo.Zero? {
        Note(l, was, id, Go, GaveUp(me));
        return Refused;
      }
      Note(l, was, id, Go, me.(pc := Spinning(ToWait(tmo))));
      r := BlockThread(l, id, tmo);
      if r.Taken? {
        TakeOwnership(l, id);
      }
    }

    /** Fails only if the lock is neither free nor the caller's, and no signal
        is waiting that the timeout allows to take; a signal taken is gone. */
    method Lock(id: nat, tmo: Timeout) returns (r: Attempt)
      requires id > 0 && me.pc.Idle? && inCS == 0 && ops == []
      modifies this
      ensures Follows(old(Here()), id) && inCS == 0
      ensures r.Taken? <==> old(lockCount == -1 || owner == id || (!tmo.Zero? && signalled))
      ensures r.Waits? <==> !r.Taken? && tmo.Infinite?
      ensures signalled == (old(signalled) && (!r.Taken? || old(lockCount == -1 || owner == id)))
      ensures me == After(old(me), r, Acquired(old(me)), tmo)
      ensures lockCount == old(lockCount) + 1
      ensures r.Taken? ==> owner == id && inThread == if old(lockCount != -1 && owner == id) then old(inThread) + 1 else 1
      ensures !r.Taken? ==> owner == old(owner) && inThread == old(inThread)
    {
      ghost var l := Here();
      lockCount := lockCount + 1;
      if lockCount == 0 {
        Note(l, l, id, Begin(tmo), me.(pc := First));
        TakeOwnership(l, id);
        r := Taken;
      } else {
        Note(l, l, id, Begin(tmo), me.(pc := Contended(tmo)));
        r := LockContended(l, id, tmo);
      }
    }

    method UnblockWaiter(ghost l: Local, ghost id: nat)
      requires Follows(l, id) && me.pc == Spinning(ToSignal) && inCS == 0
      modifies this
      ensures Follows(l, id) && inCS == 0 && signalled
      ensures me == old(me).(pc := Idle)
      ensures (lockCount, inThread, owner) == old((lockCount, inThread, owner))
    {
      EnsureEvent(l, id, ToSignal);
      ghost var was := Here();
      signalled := true;
      Note(l, was, id, Go, me.(pc := Idle));
    }

    method Unlock(id: nat)
      requires me.pc.Idle? && me.depth > 0 && inCS == 0 && ops == []
      requires owner == id && inThread > 0 && lockCount >= 0
      modifies this
      ensures Follows(old(Here()), id) && inCS == 0
      ensures me == Dropped(old(me), Idle)
      ensures lockCount == old(lockCount) - 1 && inThread == old(inThread) - 1
      ensures owner == if old(inThread) == 1 then 0 else id
      ensures signalled == (old(signalled) || (old(inThread) == 1 && lockCount >= 0))
    {
      ghost var l := Here();
      inThread := inThread - 1;
      if inThread > 0 {
        Note(l, l, id, BeginUnlock, me.(pc := Leaving));
        ghost var was := Here();
        lockCount := lockCount - 1;
        Note(l, was, id, Go, Dropped(me, Idle));
      } else {
        Note(l, l, id, BeginUnlock, me.(pc := LastOut));
        LastLevelOut(l, id);
      }
    }

    method LastLevelOut(ghost l: Local, ghost id: nat)
      requires Follows(l, id) && me.pc.LastOut? && inCS == 0
      modifies this
      ensures Follows(l, id) && inCS == 0 && owner == 0
      ensures me == Dropped(old(me), Idle)
      ensures lockCount == old(lockCount) - 1 && inThread == old(inThread)
      ensures signalled == (old(signalled) || lockCount >= 0)
    {
      ghost var was := Here();
      owner := 0;
      Note(l, was, id, Go, me.(pc := Releasing));
      was := Here();
      lockCount := lockCount - 1;
      if lockCount >= 0 {
        Note(l, was, id, Go, Dropped(me, Spinning(ToSignal)));
        UnblockWaiter(l, id);
      } else {
        Note(l, was, id, Go, Dropped(me, Idle));
      }
    }
  }
}
