/**
 * The call counters of an address.  A call writes its new state under its own
 * lock, then notifies its address under the address's lock; between the two
 * another thread may write the next state.  The counters are kept up from the
 * notifications alone.
 */
module AddressCounters {

  import opened Sequences

  datatype CallState = Unknown | Idle | OnHold | OnHoldPendTransfer | OnHoldPendConf | Other(n: nat)

  /** Which states count as active and as connected; a call that is new or over
      is neither. */
  datatype Classes = Classes(active: CallState -> bool, connected: CallState -> bool)

  predicate Sane(cl: Classes) {
    && !cl.active(Unknown) && !cl.active(Idle)
    && !cl.connected(Unknown) && !cl.connected(Idle)
  }

  datatype Class = Active | Connected | Held | Pending

  predicate InClass(cl: Classes, k: Class, s: CallState) {
    match k
    case Active => cl.active(s)
    case Connected => cl.connected(s)
    case Held => s.OnHold?
    case Pending => HeldPending(s)
  }

  predicate HeldPending(s: CallState) {
    s.OnHoldPendTransfer? || s.OnHoldPendConf?
  }

  /** A counter, and how often it had to be put back to zero. */
  datatype Tally = Tally(value: int, repairs: nat)

  const ZERO := Tally(0, 0)

  function Bump(t: Tally, was: bool, isNow: bool): Tally {
    if !was && isNow then t.(value := t.value + 1)
    else if was && !isNow then
      if t.value - 1 < 0 then Tally(0, t.repairs + 1) else t.(value := t.value - 1)
    else t
  }

  datatype Counters = Counters(active: Tally, connected: Tally, held: Tally, pending: Tally)

  function Of(c: Counters, k: Class): Tally {
    match k
    case Active => c.active
    case Connected => c.connected
    case Held => c.held
    case Pending => c.pending
  }

  /** OnPreCallStateChange. */
  function Changed(cl: Classes, c: Counters, from: CallState, to: CallState): Counters {
    Counters(Bump(c.active, InClass(cl, Active, from), InClass(cl, Active, to)),
             Bump(c.connected, InClass(cl, Connected, from), InClass(cl, Connected, to)),
             Bump(c.held, InClass(cl, Held, from), InClass(cl, Held, to)),
             Bump(c.pending, InClass(cl, Pending, from), InClass(cl, Pending, to)))
  }

  /** The counters as the address keeps them. */
  class AddressInfo {
    const classes: Classes
    var numActiveCalls: int
    var connectedCallCount: int
    var numOnHoldCalls: int
    var numOnHoldPendCalls: int
    var notifyNumCalls: bool
    // What the line was told, summed up.
    var lineConnected: int
    ghost var activeRepairs: nat
    ghost var connectedRepairs: nat
    ghost var heldRepairs: nat
    ghost var pendingRepairs: nat

    constructor (cl: Classes)
      ensures classes == cl && View() == Counters(ZERO, ZERO, ZERO, ZERO) && lineConnected == 0
    {
      classes := cl;
      numActiveCalls, connectedCallCount, numOnHoldCalls, numOnHoldPendCalls := 0, 0, 0, 0;
      notifyNumCalls, lineConnected := false, 0;
      activeRepairs, connectedRepairs, heldRepairs, pendingRepairs := 0, 0, 0, 0;
    }

    ghost function View(): Counters
      reads this
    {
      Counters(Tally(numActiveCalls, activeRepairs), Tally(connectedCallCount, connectedRepairs),
               Tally(numOnHoldCalls, heldRepairs), Tally(numOnHoldPendCalls, pendingRepairs))
    }

    method CountActive(was: bool, isNow: bool)
      modifies this`numActiveCalls, this`activeRepairs, this`notifyNumCalls
      ensures View() == old(View()).(active := Bump(old(View()).active, was, isNow))
      ensures notifyNumCalls == (old(notifyNumCalls) || was != isNow)
    {
      if !was && isNow {
        numActiveCalls := numActiveCalls + 1;
        notifyNumCalls := true;
      } else if was && !isNow {
        numActiveCalls := numActiveCalls - 1;
        if numActiveCalls < 0 {
          numActiveCalls, activeRepairs := 0, activeRepairs + 1;
        }
        notifyNumCalls := true;
      }
    }

    method CountConnected(was: bool, isNow: bool)
      modifies this`connectedCallCount, this`connectedRepairs, this`lineConnected
      ensures View() == old(View()).(connected := Bump(old(View()).connected, was, isNow))
      ensures lineConnected - old(lineConnected) == (if isNow then 1 else 0) - (if was then 1 else 0)
    {
      if !was && isNow {
        connectedCallCount := connectedCallCount + 1;
        lineConnected := lineConnected + 1;
      } else if was && !isNow {
        connectedCallCount := connectedCallCount - 1;
        if connectedCallCount < 0 {
          connectedCallCount, connectedRepairs := 0, connectedRepairs + 1;
        }
        lineConnected := lineConnected - 1;
      }
    }

    /** The call comes to be on hold, or held for a transfer or conference. */
    method CountHeld(newState: CallState, oldState: CallState)
      requires newState != oldState
      modifies this`numOnHoldCalls, this`numOnHoldPendCalls, this`notifyNumCalls, this`heldRepairs, this`pendingRepairs
      ensures View() == old(View()).(held := Bump(old(View()).held, oldState.OnHold?, newState.OnHold?),
                                     pending := Bump(old(View()).pending, HeldPending(oldState), HeldPending(newState)))
      ensures notifyNumCalls == (old(notifyNumCalls) || oldState.OnHold? != newState.OnHold?
                                 || HeldPending(oldState) != HeldPending(newState))
    {
      if newState.OnHold? {
        numOnHoldCalls := numOnHoldCalls + 1;
        notifyNumCalls := true;
      } else if HeldPending(newState) && !HeldPending(oldState) {
        numOnHoldPendCalls := numOnHoldPendCalls + 1;
        notifyNumCalls := true;
      }
      if oldState.OnHold? {
        numOnHoldCalls := numOnHoldCalls - 1;
        if numOnHoldCalls < 0 {
          numOnHoldCalls, heldRepairs := 0, heldRepairs + 1;
        }
        notifyNumCalls := true;
      } else if HeldPending(oldState) && !HeldPending(newState) {
        numOnHoldPendCalls := numOnHoldPendCalls - 1;
        if numOnHoldPendCalls < 0 {
          numOnHoldPendCalls, pendingRepairs := 0, pendingRepairs + 1;
        }
        notifyNumCalls := true;
      }
    }

    method OnPreCallStateChange(newState: CallState, oldState: CallState)
      modifies this
      ensures View() == Changed(classes, old(View()), oldState, newState)
      ensures notifyNumCalls == (old(notifyNumCalls)
                                 || InClass(classes, Active, oldState) != InClass(classes, Active, newState)
                                 || InClass(classes, Held, oldState) != InClass(classes, Held, newState)
                                 || InClass(classes, Pending, oldState) != InClass(classes, Pending, newState))
      ensures lineConnected - old(lineConnected)
           == (if classes.connected(newState) then 1 else 0) - (if classes.connected(oldState) then 1 else 0)
    {
      if newState != oldState {
        CountActive(classes.active(oldState), classes.active(newState));
        CountConnected(classes.connected(oldState), classes.connected(newState));
        CountHeld(newState, oldState);
      }
    }
  }

  // --------------------------------------------------------------------- runs

  /** A state change written by a call and not yet made known to the address. */
  datatype Notice = Notice(call: nat, from: CallState, to: CallState)

  /** `calls` are all calls ever created, `listed` those not removed. */
  datatype Address = Address(counters: Counters, calls: map<nat, CallState>, listed: set<nat>, notices: seq<Notice>)

  const START := Address(Counters(ZERO, ZERO, ZERO, ZERO), map[], {}, [])

  datatype Step =
    | Create(call: nat)
    | Write(call: nat, s: CallState)    // SetCallState up to the notification
    | Remove(call: nat)
    | Notify(k: nat)                    // any of the outstanding notifications

  predicate Enabled(a: Address, st: Step) {
    match st
    case Create(call) => call !in a.calls
    case Write(call, s) => call in a.calls
    case Remove(call) => call in a.listed && call in a.calls
    case Notify(k) => k < |a.notices|
  }

  /** A call that is idle stays idle. */
  function Written(a: Address, call: nat, s: CallState): Address
    requires call in a.calls
  {
    var from := a.calls[call];
    if from == s || from.Idle? then a
    else a.(calls := a.calls[call := s], notices := a.notices + [Notice(call, from, s)])
  }

  function Apply(cl: Classes, a: Address, st: Step): Address
    requires Enabled(a, st)
  {
    match st
    case Create(call) => a.(calls := a.calls[call := Unknown], listed := a.listed + {call})
    case Write(call, s) => Written(a, call, s)
    case Remove(call) => Written(a.(listed := a.listed - {call}), call, Idle)
    case Notify(k) =>
      a.(counters := Changed(cl, a.counters, a.notices[k].from, a.notices[k].to), notices := WithoutAt(a.notices, k))
  }

  predicate Legal(cl: Classes, a: Address, steps: seq<Step>)
    decreases |steps|
  {
    steps == [] || (Enabled(a, steps[0]) && Legal(cl, Apply(cl, a, steps[0]), steps[1..]))
  }

  function Run(cl: Classes, a: Address, steps: seq<Step>): Address
    requires Legal(cl, a, steps)
    decreases |steps|
  {
    if steps == [] then a else Run(cl, Apply(cl, a, steps[0]), steps[1..])
  }

  /** The notices of each call arrive in the order they were written. */
  predicate InOrder(cl: Classes, a: Address, steps: seq<Step>)
    requires Legal(cl, a, steps)
    decreases |steps|
  {
    steps == [] ||
    ((steps[0].Notify? ==> forall j :: 0 <= j < steps[0].k ==> a.notices[j].call != a.notices[steps[0].k].call)
     && InOrder(cl, Apply(cl, a, steps[0]), steps[1..]))
  }

  /** The calls of a class. */
  function Members(cl: Classes, a: Address, k: Class): set<nat> {
    set call | call in a.calls && InClass(cl, k, a.calls[call])
  }

  lemma CardinalityChange(a: set<nat>, b: set<nat>, x: nat)
    requires forall y :: y != x ==> (y in a <==> y in b)
    ensures |b| + (if x in a then 1 else 0) == |a| + (if x in b then 1 else 0)
  {
    assert a - {x} == b - {x};
    assert x in a ==> a == a - {x} + {x};
    assert x in b ==> b == b - {x} + {x};
  }

  // ------------------------------------------------ notifications in any order

  function Weight(b: bool): int {
    if b then 1 else 0
  }

  /** What the outstanding notices will add to the counter of a class. */
  function Net(cl: Classes, k: Class, ns: seq<Notice>): int {
    if ns == [] then 0
    else Weight(InClass(cl, k, ns[0].to)) - Weight(InClass(cl, k, ns[0].from)) + Net(cl, k, ns[1..])
  }

  lemma {:induction false} NetAppend(cl: Classes, k: Class, ns: seq<Notice>, n: Notice)
    ensures Net(cl, k, ns + [n]) == Net(cl, k, ns) + Weight(InClass(cl, k, n.to)) - Weight(InClass(cl, k, n.from))
  {
    if ns == [] {
      assert ns + [n] == [n];
    } else {
      assert (ns + [n])[1..] == ns[1..] + [n];
      NetAppend(cl, k, ns[1..], n);
    }
  }

  lemma {:induction false} NetRemove(cl: Classes, k: Class, ns: seq<Notice>, i: nat)
    requires i < |ns|
    ensures Net(cl, k, WithoutAt(ns, i)) == Net(cl, k, ns) - Weight(InClass(cl, k, ns[i].to)) + Weight(InClass(cl, k, ns[i].from))
  {
    if i == 0 {
      assert WithoutAt(ns, 0) == ns[1..];
    } else {
      assert WithoutAt(ns, i)[0] == ns[0] && WithoutAt(ns, i)[1..] == WithoutAt(ns[1..], i - 1);
      NetRemove(cl, k, ns[1..], i - 1);
    }
  }

  predicate Balanced(cl: Classes, a: Address, k: Class) {
    var t := Of(a.counters, k);
    t.value >= 0 && t.value - t.repairs + Net(cl, k, a.notices) == |Members(cl, a, k)|
  }

  lemma WriteBalances(cl: Classes, a: Address, call: nat, s: CallState, k: Class)
    requires call in a.calls && Balanced(cl, a, k)
    ensures Balanced(cl, Written(a, call, s), k)
  {
    var a' := Written(a, call, s);
    CardinalityChange(Members(cl, a, k), Members(cl, a', k), call);
    NetAppend(cl, k, a.notices, Notice(call, a.calls[call], s));
  }

  lemma ChangedOf(cl: Classes, c: Counters, k: Class, n: Notice)
    ensures Of(Changed(cl, c, n.from, n.to), k) == Bump(Of(c, k), InClass(cl, k, n.from), InClass(cl, k, n.to))
  {
  }

  lemma StepBalances(cl: Classes, a: Address, st: Step, k: Class)
    requires Sane(cl) && Enabled(a, st) && Balanced(cl, a, k)
    ensures Balanced(cl, Apply(cl, a, st), k)
  {
    match st
    case Create(call) => CardinalityChange(Members(cl, a, k), Members(cl, Apply(cl, a, st), k), call);
    case Write(call, s) => WriteBalances(cl, a, call, s, k);
    case Remove(call) =>
      var a1 := a.(listed := a.listed - {call});
      assert Members(cl, a1, k) == Members(cl, a, k);
      WriteBalances(cl, a1, call, Idle, k);
    case Notify(i) =>
      NetRemove(cl, k, a.notices, i);
      ChangedOf(cl, a.counters, k, a.notices[i]);
      assert Members(cl, Apply(cl, a, st), k) == Members(cl, a, k);
  }

  lemma {:induction false} RunBalances(cl: Classes, a: Address, steps: seq<Step>, k: Class)
    requires Sane(cl) && Legal(cl, a, steps) && Balanced(cl, a, k)
    ensures Balanced(cl, Run(cl, a, steps), k)
    decreases |steps|
  {
    if steps != [] {
      StepBalances(cl, a, steps[0], k);
      RunBalances(cl, Apply(cl, a, steps[0]), steps[1..], k);
    }
  }

  /** Whatever order the notifications arrive in: once all have, each counter is
      the number of calls in its class plus the number of times it was put back
      to zero. */
  lemma CounterExceedsByItsRepairs(cl: Classes, steps: seq<Step>, k: Class)
    requires Sane(cl) && Legal(cl, START, steps) && Run(cl, START, steps).notices == []
    ensures var a := Run(cl, START, steps);
            Of(a.counters, k).value == |Members(cl, a, k)| + Of(a.counters, k).repairs
  {
    assert Members(cl, START, k) == {};
    RunBalances(cl, START, steps, k);
  }

  /** The notices of a run in the order in which they arrive. */
  function Arrived(cl: Classes, a: Address, steps: seq<Step>): seq<Notice>
    requires Legal(cl, a, steps)
    decreases |steps|
  {
    if steps == [] then []
    else
      (if steps[0].Notify? then [a.notices[steps[0].k]] else []) + Arrived(cl, Apply(cl, a, steps[0]), steps[1..])
  }

  /** Counted from `n`, the notices never report more calls leaving the class
      than there are in it. */
  predicate NeverBelow(cl: Classes, k: Class, n: int, ns: seq<Notice>)
    decreases |ns|
  {
    ns == [] ||
    (var n' := n + Weight(InClass(cl, k, ns[0].to)) - Weight(InClass(cl, k, ns[0].from));
     n' >= 0 && NeverBelow(cl, k, n', ns[1..]))
  }

  lemma NoticeRepairsExactlyWhenBelow(t: Tally, was: bool, isNow: bool)
    requires t.value >= 0
    ensures var t' := Bump(t, was, isNow);
            && t'.value >= 0 && t'.repairs >= t.repairs
            && (t'.repairs == t.repairs <==> t.value + Weight(isNow) - Weight(was) >= 0)
            && (t'.repairs == t.repairs ==> t'.value == t.value + Weight(isNow) - Weight(was))
  {
  }

  /** What one step does to the counter of a class. */
  lemma StepTallies(cl: Classes, a: Address, st: Step, k: Class)
    requires Enabled(a, st)
    ensures Of(Apply(cl, a, st).counters, k) ==
              if st.Notify?
              then Bump(Of(a.counters, k), InClass(cl, k, a.notices[st.k].from), InClass(cl, k, a.notices[st.k].to))
              else Of(a.counters, k)
  {
    if st.Notify? {
      ChangedOf(cl, a.counters, k, a.notices[st.k]);
    }
  }

  lemma ArrivedNext(cl: Classes, a: Address, steps: seq<Step>)
    requires Legal(cl, a, steps) && steps != []
    ensures var arrived, rest := Arrived(cl, a, steps), Arrived(cl, Apply(cl, a, steps[0]), steps[1..]);
            if steps[0].Notify?
            then arrived != [] && arrived[0] == a.notices[steps[0].k] && arrived[1..] == rest
            else arrived == rest
  {
  }

  lemma {:induction false} RunRepairsExactlyWhenBelow(cl: Classes, a: Address, steps: seq<Step>, k: Class)
    requires Legal(cl, a, steps) && Of(a.counters, k).value >= 0
    ensures Of(Run(cl, a, steps).counters, k).repairs >= Of(a.counters, k).repairs
    ensures Of(Run(cl, a, steps).counters, k).repairs == Of(a.counters, k).repairs
       <==> NeverBelow(cl, k, Of(a.counters, k).value, Arrived(cl, a, steps))
    decreases |steps|
  {
    hide Bump, Changed, InClass;
    if steps != [] {
      var a' := Apply(cl, a, steps[0]);
      StepTallies(cl, a, steps[0], k);
      ArrivedNext(cl, a, steps);
      if steps[0].Notify? {
        var n := a.notices[steps[0].k];
        NoticeRepairsExactlyWhenBelow(Of(a.counters, k), InClass(cl, k, n.from), InClass(cl, k, n.to));
      }
      RunRepairsExactlyWhenBelow(cl, a', steps[1..], k);
    }
  }

  /** Once all notifications have arrived a counter is the number of calls in
      its class if and only if, in the order of arrival, at no moment more calls
      had been reported to leave the class than to enter it. */
  lemma CounterIsRightExactlyWhenNeverBelow(cl: Classes, steps: seq<Step>, k: Class)
    requires Sane(cl) && Legal(cl, START, steps) && Run(cl, START, steps).notices == []
    ensures var a := Run(cl, START, steps);
            Of(a.counters, k).value == |Members(cl, a, k)| <==> NeverBelow(cl, k, 0, Arrived(cl, START, steps))
  {
    CounterExceedsByItsRepairs(cl, steps, k);
    RunRepairsExactlyWhenBelow(cl, START, steps, k);
  }

  // ---------------------------------------------------- notifications in order

  /** The state of a call as its address knows it. */
  function Seen(ns: seq<Notice>, call: nat, s: CallState): CallState {
    if ns == [] then s else if ns[0].call == call then ns[0].from else Seen(ns[1..], call, s)
  }

  /** Each notice of the call starts where the one before it ended. */
  predicate Chained(ns: seq<Notice>, call: nat, s: CallState) {
    ns == [] ||
    (Chained(ns[1..], call, s) && (ns[0].call == call ==> ns[0].to == Seen(ns[1..], call, s)))
  }

  lemma {:induction false} ChainAppend(ns: seq<Notice>, call: nat, s: CallState, n: Notice)
    requires Chained(ns, call, s) && (n.call == call ==> n.from == s)
    ensures var s' := if n.call == call then n.to else s;
            Chained(ns + [n], call, s') && Seen(ns + [n], call, s') == Seen(ns, call, s)
  {
    if ns == [] {
      assert ns + [n] == [n];
      assert [n][1..] == [];
    } else {
      assert (ns + [n])[1..] == ns[1..] + [n];
      ChainAppend(ns[1..], call, s, n);
    }
  }

  /** Taking out the first notice of a call moves what the address knows of that
      call along the notice, and of no other call. */
  lemma {:induction false} ChainRemove(ns: seq<Notice>, call: nat, s: CallState, i: nat)
    requires i < |ns| && Chained(ns, call, s) && forall j :: 0 <= j < i ==> ns[j].call != ns[i].call
    ensures Chained(WithoutAt(ns, i), call, s)
    ensures if ns[i].call == call
            then Seen(ns, call, s) == ns[i].from && Seen(WithoutAt(ns, i), call, s) == ns[i].to
            else Seen(WithoutAt(ns, i), call, s) == Seen(ns, call, s)
  {
    var rest := WithoutAt(ns, i);
    if i == 0 {
      assert rest == ns[1..];
    } else {
      assert rest[0] == ns[0] && rest[1..] == WithoutAt(ns[1..], i - 1);
      ChainRemove(ns[1..], call, s, i - 1);
    }
  }

  /** The calls of a class as the address knows them. */
  function SeenMembers(cl: Classes, a: Address, k: Class): set<nat> {
    set call | call in a.calls && InClass(cl, k, Seen(a.notices, call, a.calls[call]))
  }

  predicate Ordered(a: Address) {
    && (forall call :: call in a.calls ==> Chained(a.notices, call, a.calls[call]))
    && (forall i :: 0 <= i < |a.notices| ==> a.notices[i].call in a.calls)
    && (forall call :: call in a.calls && call !in a.listed ==> a.calls[call].Idle?)
  }

  predicate Exact(cl: Classes, a: Address, k: Class) {
    Of(a.counters, k) == Tally(|SeenMembers(cl, a, k)|, 0)
  }

  lemma {:induction false} SeenOfStranger(ns: seq<Notice>, call: nat, s: CallState)
    requires forall i :: 0 <= i < |ns| ==> ns[i].call != call
    ensures Seen(ns, call, s) == s && Chained(ns, call, s)
  {
    if ns != [] {
      SeenOfStranger(ns[1..], call, s);
    }
  }

  lemma WriteStaysExact(cl: Classes, a: Address, call: nat, s: CallState)
    requires call in a.calls && (call !in a.listed ==> s.Idle?)
    requires forall c :: c in a.calls ==> Chained(a.notices, c, a.calls[c])
    requires forall i :: 0 <= i < |a.notices| ==> a.notices[i].call in a.calls
    requires forall c :: c in a.calls && c !in a.listed && c != call ==> a.calls[c].Idle?
    ensures Ordered(Written(a, call, s))
    ensures forall k :: SeenMembers(cl, Written(a, call, s), k) == SeenMembers(cl, a, k)
  {
    var a' := Written(a, call, s);
    if a' != a {
      forall c | c in a.calls
        ensures Chained(a'.notices, c, a'.calls[c])
        ensures Seen(a'.notices, c, a'.calls[c]) == Seen(a.notices, c, a.calls[c])
      {
        ChainAppend(a.notices, c, a.calls[c], Notice(call, a.calls[call], s));
      }
    }
  }

  lemma CreateStaysExact(cl: Classes, a: Address, call: nat, k: Class)
    requires Sane(cl) && call !in a.calls && Ordered(a) && Exact(cl, a, k)
    ensures Ordered(Apply(cl, a, Create(call))) && Exact(cl, Apply(cl, a, Create(call)), k)
  {
    var a' := Apply(cl, a, Create(call));
    SeenOfStranger(a.notices, call, Unknown);
    assert SeenMembers(cl, a', k) == SeenMembers(cl, a, k);
  }

  lemma NotifyStaysExact(cl: Classes, a: Address, i: nat, k: Class)
    requires i < |a.notices| && Ordered(a) && Exact(cl, a, k)
    requires forall j :: 0 <= j < i ==> a.notices[j].call != a.notices[i].call
    ensures Ordered(Apply(cl, a, Notify(i))) && Exact(cl, Apply(cl, a, Notify(i)), k)
  {
    var a', n := Apply(cl, a, Notify(i)), a.notices[i];
    forall c | c in a.calls
      ensures Chained(a'.notices, c, a.calls[c])
      ensures c != n.call ==> Seen(a'.notices, c, a.calls[c]) == Seen(a.notices, c, a.calls[c])
    {
      ChainRemove(a.notices, c, a.calls[c], i);
    }
    ChainRemove(a.notices, n.call, a.calls[n.call], i);
    CardinalityChange(SeenMembers(cl, a, k), SeenMembers(cl, a', k), n.call);
    if InClass(cl, k, n.from) {
      assert n.call in SeenMembers(cl, a, k);
    }
  }

  lemma StepStaysExact(cl: Classes, a: Address, st: Step, k: Class)
    requires Sane(cl) && Enabled(a, st) && Ordered(a) && Exact(cl, a, k)
    requires st.Notify? ==> forall j :: 0 <= j < st.k ==> a.notices[j].call != a.notices[st.k].call
    ensures Ordered(Apply(cl, a, st)) && Exact(cl, Apply(cl, a, st), k)
  {
    match st
    case Create(call) => CreateStaysExact(cl, a, call, k);
    case Write(call, s) =>
      if call in a.listed {
        WriteStaysExact(cl, a, call, s);
      }
    case Remove(call) =>
      var a1 := a.(listed := a.listed - {call});
      assert SeenMembers(cl, a1, k) == SeenMembers(cl, a, k);
      WriteStaysExact(cl, a1, call, Idle);
    case Notify(i) => NotifyStaysExact(cl, a, i, k);
  }

  lemma {:induction false} RunStaysExact(cl: Classes, a: Address, steps: seq<Step>, k: Class)
    requires Sane(cl) && Legal(cl, a, steps) && InOrder(cl, a, steps) && Ordered(a) && Exact(cl, a, k)
    ensures Ordered(Run(cl, a, steps)) && Exact(cl, Run(cl, a, steps), k)
    decreases |steps|
  {
    if steps != [] {
      StepStaysExact(cl, a, steps[0], k);
      RunStaysExact(cl, Apply(cl, a, steps[0]), steps[1..], k);
    }
  }

  /** With each call's notifications in order no counter is ever put back to
      zero, and each is the number of calls in its class as the address knows
      them; when nothing is outstanding, of the calls on the address as they are. */
  lemma CountersAreCardinalities(cl: Classes, steps: seq<Step>, k: Class)
    requires Sane(cl) && Legal(cl, START, steps) && InOrder(cl, START, steps)
    ensures var a := Run(cl, START, steps);
            && Of(a.counters, k) == Tally(|SeenMembers(cl, a, k)|, 0)
            && (a.notices == [] ==>
                  SeenMembers(cl, a, k) == (set call | call in a.listed && call in a.calls && InClass(cl, k, a.calls[call])))
  {
    assert SeenMembers(cl, START, k) == {};
    RunStaysExact(cl, START, steps, k);
  }

  /** The calls on the address in one of two states. */
  function CallsIn(a: Address, s: CallState, s': CallState): set<nat> {
    set call | call in a.listed && call in a.calls && (a.calls[call] == s || a.calls[call] == s')
  }

  /** What the address reports once all is known, with each call's notifications
      in order: how many calls are on hold, how many are held for a transfer or a
      conference, how many are active and how many connected. */
  lemma HeldCallsAreReported(cl: Classes, steps: seq<Step>)
    requires Sane(cl) && Legal(cl, START, steps) && InOrder(cl, START, steps) && Run(cl, START, steps).notices == []
    ensures var a := Run(cl, START, steps);
            && a.counters.held.value == |CallsIn(a, OnHold, OnHold)|
            && a.counters.pending.value == |CallsIn(a, OnHoldPendTransfer, OnHoldPendConf)|
            && a.counters.active.value == |set call | call in a.listed && call in a.calls && cl.active(a.calls[call])|
            && a.counters.connected.value == |set call | call in a.listed && call in a.calls && cl.connected(a.calls[call])|
  {
    var a := Run(cl, START, steps);
    CountersAreCardinalities(cl, steps, Held);
    CountersAreCardinalities(cl, steps, Pending);
    CountersAreCardinalities(cl, steps, Active);
    CountersAreCardinalities(cl, steps, Connected);
    assert SeenMembers(cl, a, Held) == CallsIn(a, OnHold, OnHold);
    assert SeenMembers(cl, a, Pending) == CallsIn(a, OnHoldPendTransfer, OnHoldPendConf);
    assert SeenMembers(cl, a, Active) == set call | call in a.listed && call in a.calls && cl.active(a.calls[call]);
    assert SeenMembers(cl, a, Connected) == set call | call in a.listed && call in a.calls && cl.connected(a.calls[call]);
  }

  // ------------------------------------------------- one late notification

  function Overtaken(s: CallState): seq<Step> {
    [Create(1), Write(1, s), Write(1, Idle), Notify(1), Notify(0)]
  }

  /** The address once both changes are written and neither is made known. */
  function BothWaiting(s: CallState): Address {
    START.(calls := map[1 := Idle], listed := {1}, notices := [Notice(1, Unknown, s), Notice(1, s, Idle)])
  }

  lemma FirstStep(cl: Classes, a: Address, st: Step, rest: seq<Step>)
    requires Enabled(a, st) && Legal(cl, Apply(cl, a, st), rest)
    ensures Legal(cl, a, [st] + rest) && Run(cl, a, [st] + rest) == Run(cl, Apply(cl, a, st), rest)
  {
    assert ([st] + rest)[1..] == rest;
  }

  lemma WritesLeaveBothWaiting(cl: Classes, s: CallState, rest: seq<Step>)
    requires s != Unknown && s != Idle && Legal(cl, BothWaiting(s), rest)
    ensures var steps := [Create(1)] + ([Write(1, s)] + ([Write(1, Idle)] + rest));
            Legal(cl, START, steps) && Run(cl, START, steps) == Run(cl, BothWaiting(s), rest)
  {
    var a1 := Apply(cl, START, Create(1));
    var a2 := Apply(cl, a1, Write(1, s));
    assert Apply(cl, a2, Write(1, Idle)) == BothWaiting(s);
    FirstStep(cl, a2, Write(1, Idle), rest);
    FirstStep(cl, a1, Write(1, s), [Write(1, Idle)] + rest);
    FirstStep(cl, START, Create(1), [Write(1, s)] + ([Write(1, Idle)] + rest));
  }

  lemma SecondComesFirst(cl: Classes, s: CallState)
    requires Sane(cl) && cl.active(s)
    ensures var steps := [Notify(1)] + [Notify(0)];
            && Legal(cl, BothWaiting(s), steps)
            && var a := Run(cl, BothWaiting(s), steps);
               a.notices == [] && a.calls == map[1 := Idle] && a.counters.active == Tally(1, 1)
  {
    var a := BothWaiting(s);
    var a1 := Apply(cl, a, Notify(1));
    assert a1.notices == [Notice(1, Unknown, s)];
    FirstStep(cl, a1, Notify(0), []);
    FirstStep(cl, a, Notify(1), [Notify(0)]);
  }

  /** A call goes active and at once idle, and the two notifications change
      places: the counter is put back to zero, then goes up, and an active call
      is reported for good although there is none. */
  lemma LateNotificationLeavesAGhost(cl: Classes, s: CallState)
    requires Sane(cl) && cl.active(s)
    ensures Legal(cl, START, Overtaken(s))
    ensures var a := Run(cl, START, Overtaken(s));
            a.notices == [] && Members(cl, a, Active) == {} && a.counters.active == Tally(1, 1)
  {
    SecondComesFirst(cl, s);
    WritesLeaveBothWaiting(cl, s, [Notify(1)] + [Notify(0)]);
    assert Overtaken(s) == [Create(1)] + ([Write(1, s)] + ([Write(1, Idle)] + ([Notify(1)] + [Notify(0)])));
  }
}
