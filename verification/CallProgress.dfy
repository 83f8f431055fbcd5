/**
 * How long a call may take, and who a retract reaches: results about whole
 * runs of the call machine that need the clock or the order of the list.
 */
module CallProgress {

  import opened CallHandlers
  import opened CallMachine

  // ---------------------------------------------- the deadline of a MakeCall

  /** The stages a MakeCall may spend time in before it is connected. */
  predicate Underway(h: Handler) {
    h.kind.MakeCall? && 1 <= Rank(h.state) <= 4
  }

  function StageLimit(rank: nat): int
    requires 1 <= rank <= 4
  {
    TimeoutOf(MakeCall, STAGES[rank]).value
  }

  /** The latest age at which a stage is entered when sweeps are at most `d` apart. */
  function LatestEntry(rank: nat, d: nat): int
    requires 1 <= rank <= 4
  {
    if rank == 1 then 0 else LatestEntry(rank - 1, d) + StageLimit(rank - 1) + d
  }

  /** The stage was entered in time, and had not run out at the sweep of `t`. */
  predicate InTime(h: Handler, d: nat, t: int) {
    && (h.kind.MakeCall? ==> !h.state.PreMakeCall?)
    && (Underway(h) ==>
          && h.since <= h.history.born + LatestEntry(Rank(h.state), d)
          && t <= h.since + StageLimit(Rank(h.state)))
  }

  predicate AllInTime(m: Machine, d: nat) {
    && m.lastSweep <= m.now <= m.lastSweep + d
    && (forall i :: 0 <= i < |m.handlers| ==> InTime(m.handlers[i], d, m.lastSweep))
  }

  predicate TimeoutsOn(st: Step) {
    match st
    case Deliver(_, off) => !off
    case Inject(_, off) => !off
    case Poll(off) => !off
    case _ => true
  }

  /** Timeouts are on, and the list is swept at least every `d` milliseconds. */
  predicate Polled(m: Machine, steps: seq<Step>, d: nat)
    requires Legal(m, steps)
    decreases |steps|
  {
    steps == [] ||
    (TimeoutsOn(steps[0]) && (steps[0].Tick? ==> m.now + steps[0].ms <= m.lastSweep + d)
     && Polled(Apply(m, steps[0]), steps[1..], d))
  }

  lemma AdvanceInTime(h: Handler, g: Handler, now: int, d: nat, t: int)
    requires h.kind.MakeCall? && Advances(h, g, now) && InTime(h, d, t) && t <= now <= t + d
    ensures InTime(g, d, t)
  {
    if Underway(g) && g.state != h.state {
      assert Rank(g.state) == Rank(h.state) + 1;
    }
  }

  lemma KindStays(h: Handler, ev: Event, now: int, lastId: nat)
    ensures Offered(h, ev, now, lastId).h.kind == h.kind
  {
    VerdictAlwaysFits(h, ev);
    var v := VerdictOf(h, ev);
    match v
    case NotMine =>
    case Stay(g) =>
    case Enter(g, state) =>
    case DropCall =>
  }

  lemma OfferInTime(h: Handler, ev: Event, now: int, lastId: nat, d: nat, t: int)
    requires InTime(h, d, t) && t <= now <= t + d
    ensures InTime(Offered(h, ev, now, lastId).h, d, t)
  {
    KindStays(h, ev, now, lastId);
    if h.kind.MakeCall? {
      MakeCallAdvancesByOne(h, ev, now, lastId);
      AdvanceInTime(h, Offered(h, ev, now, lastId).h, now, d, t);
    }
  }

  lemma {:induction false} SweepInTime(m: Machine, i: nat, d: nat)
    requires i <= |m.handlers| && m.lastSweep <= m.now <= m.lastSweep + d
    requires forall k :: 0 <= k < |m.handlers| ==> InTime(m.handlers[k], d, if k < i then m.now else m.lastSweep)
    ensures AllInTime(SweepFrom(m, i, false), d)
    ensures SweepFrom(m, i, false).now == m.now
    decreases |m.handlers| - i
  {
    if i < |m.handlers| {
      var m' := CheckAt(m, i, false);
      var h := m.handlers[i];
      if Underway(h) && !TimedOut(h, m.now, false) {
        assert StageLimit(Rank(h.state)) == TimeoutOf(h.kind, h.state).value;
      }
      SweepInTime(m', if |m'.handlers| == |m.handlers| then i + 1 else i, d);
    }
  }

  lemma SignalInTime(m: Machine, ev: Event, deleteRefused: bool, d: nat)
    requires AllInTime(m, d)
    ensures AllInTime(SignalEvent(m, ev, deleteRefused, false).m, d)
  {
    var i, s := Acceptor(m.handlers, ev), Dispatched(m, ev);
    if i < |m.handlers| {
      OfferInTime(m.handlers[i], ev, m.now, m.lastId, d, m.lastSweep);
    }
    SweepInTime(if !s.handled && deleteRefused then Free(s.m, ev.eid) else s.m, 0, d);
  }

  lemma EventInTime(m: Machine, st: Step, d: nat) returns (m': Machine)
    requires Enabled(m, st) && TimeoutsOn(st) && AllInTime(m, d) && IsEvent(st)
    ensures EventStep(m, st, m') && AllInTime(m', d)
  {
    var m1 := m.(given := m.given + 1);
    match st
    case Deliver(ev, _) =>
      m' := Routed(m1, ev, false);
      SignalInTime(m1, ev, false, d);
    case Inject(ev, _) =>
      m' := SignalEvent(m1, ev, true, false).m;
      SignalInTime(m1, ev, true, d);
    case InjectLogin(ev) =>
      var s := LoginSignalled(m1, ev);
      m' := if s.handled then s.m else Free(s.m, ev.eid);
  }

  lemma StepInTime(m: Machine, st: Step, d: nat) returns (m': Machine)
    requires Enabled(m, st) && TimeoutsOn(st) && AllInTime(m, d)
    requires st.Tick? ==> m.now + st.ms <= m.lastSweep + d
    ensures m' == Apply(m, st) && AllInTime(m', d)
  {
    if IsEvent(st) {
      m' := EventInTime(m, st, d);
      EventStepIsApply(m, st);
    } else {
      m' := Apply(m, st);
      if st.Poll? {
        SweepInTime(m, 0, d);
      }
    }
  }

  lemma {:induction false} RunInTime(m: Machine, steps: seq<Step>, d: nat)
    requires Legal(m, steps) && Polled(m, steps, d) && AllInTime(m, d)
    ensures AllInTime(Run(m, steps), d)
    decreases |steps|
  {
    if steps != [] {
      var m' := StepInTime(m, steps[0], d);
      RunInTime(m', steps[1..], d);
    }
  }

  lemma StageEntries(d: nat)
    ensures forall r :: 1 <= r <= 4 ==> LatestEntry(r, d) + StageLimit(r) + d <= 190000 + 4 * d
  {
    assert LatestEntry(2, d) == 10000 + d;
    assert LatestEntry(3, d) == 55000 + 2 * d;
    assert LatestEntry(4, d) == 70000 + 3 * d;
  }

  /** With the list swept at least every `d` ms, a MakeCall still in the list
      190000 + 4d ms after it was set going is connected or ending, whatever
      events arrived. */
  lemma MakeCallIsSettledInTime(steps: seq<Step>, d: nat, i: nat)
    requires Legal(START, steps) && Polled(START, steps, d) && i < |Run(START, steps).handlers|
    ensures var m := Run(START, steps);
            var h := m.handlers[i];
            h.kind.MakeCall? && m.now > h.history.born + 190000 + 4 * d ==> h.state.Connected? || Ending(h.state)
  {
    RunInTime(START, steps, d);
    Reachable(steps);
    InTimeIsSettled(Run(START, steps), d, i);
  }

  lemma InTimeIsSettled(m: Machine, d: nat, i: nat)
    requires AllInTime(m, d) && i < |m.handlers| && HandlerOk(m.handlers[i])
    ensures var h := m.handlers[i];
            h.kind.MakeCall? && m.now > h.history.born + 190000 + 4 * d ==> h.state.Connected? || Ending(h.state)
  {
    StageEntries(d);
    var h := m.handlers[i];
    if h.kind.MakeCall? && !Ending(h.state) && !h.state.Connected? {
      assert h.state in STAGES[1..];
      assert Underway(h);
    }
  }

  // ------------------------------------------------ no handler is left behind

  /** Where the handler of a silent call stands: its state has run out, or it is
      dropped, or it has been removed. */
  datatype Fate = RunOut | IsDropped | Removed

  predicate Waiting(m: Machine, callId: nat, fate: Fate) {
    if fate.Removed? then Note(callId, Dropped, RemovedHandler) in m.notes
    else exists k :: 0 <= k < |m.handlers| && m.handlers[k].data.callId == callId && Overdue(m.handlers[k], m.now, fate)
  }

  predicate Overdue(h: Handler, now: int, fate: Fate) {
    if fate.IsDropped? then h.state.Dropped? else TimedOut(h, now, false)
  }

  predicate Silent(m: Machine, st: Step, callId: nat) {
    && TimeoutsOn(st)
    && (forall k :: 0 <= k < |m.handlers| && m.handlers[k].data.callId == callId && (st.Deliver? || st.Inject?) ==>
          !Accepts(m.handlers[k], st.ev))
  }

  /** No event of the run is for the call. */
  predicate Quiet(m: Machine, steps: seq<Step>, callId: nat)
    requires Legal(m, steps)
    decreases |steps|
  {
    steps == [] || (Silent(m, steps[0], callId) && Quiet(Apply(m, steps[0]), steps[1..], callId))
  }

  function Polls(steps: seq<Step>): nat {
    if steps == [] then 0 else (if steps[0].Poll? then 1 else 0) + Polls(steps[1..])
  }

  function Next(fate: Fate): Fate {
    if fate.RunOut? then IsDropped else Removed
  }

  lemma {:induction false} SweepKeepsFront(m: Machine, i: nat, k: nat, off: bool)
    requires k < i <= |m.handlers|
    ensures var m' := SweepFrom(m, i, off); k < |m'.handlers| && m'.handlers[k] == m.handlers[k] && m'.now == m.now
    decreases |m.handlers| - i
  {
    if i < |m.handlers| {
      var m' := CheckAt(m, i, off);
      SweepKeepsFront(m', if |m'.handlers| == |m.handlers| then i + 1 else i, k, off);
    }
  }

  lemma {:induction false} SweepKeepsNotes(m: Machine, i: nat, note: Note, off: bool)
    requires i <= |m.handlers| && note in m.notes
    ensures note in SweepFrom(m, i, off).notes
    decreases |m.handlers| - i
  {
    if i < |m.handlers| {
      var m' := CheckAt(m, i, off);
      SweepKeepsNotes(m', if |m'.handlers| == |m.handlers| then i + 1 else i, note, off);
    }
  }

  /** The turn of the sweep at the handler itself. */
  lemma SweepArrives(m: Machine, i: nat, fate: Fate, off: bool)
    requires i < |m.handlers| && !fate.Removed? && (fate.RunOut? ==> !off) && Overdue(m.handlers[i], m.now, fate)
    ensures Waiting(SweepFrom(m, i, off), m.handlers[i].data.callId, Next(fate))
  {
    var m', h := CheckAt(m, i, off), m.handlers[i];
    if fate.RunOut? {
      SweepKeepsFront(m', i + 1, i, off);
      assert Overdue(m'.handlers[i], m.now, IsDropped);
    } else {
      var note := Note(h.data.callId, Dropped, RemovedHandler);
      assert m'.notes[|m.notes|] == note;
      SweepKeepsNotes(m', i, note, off);
    }
  }

  /** A turn of the sweep before the handler moves it up by at most one. */
  lemma CheckMoves(m: Machine, i: nat, k: nat, off: bool)
    requires i < k < |m.handlers|
    ensures var m' := CheckAt(m, i, off);
            && m'.now == m.now && |m'.handlers| <= |m.handlers| <= |m'.handlers| + 1
            && m'.handlers[if |m'.handlers| == |m.handlers| then k else k - 1] == m.handlers[k]
  {
  }

  /** A sweep gets to every handler once, whatever it removes on the way. */
  lemma {:induction false} SweepReaches(m: Machine, i: nat, k: nat, fate: Fate, off: bool)
    requires i <= k < |m.handlers| && !fate.Removed? && (fate.RunOut? ==> !off) && Overdue(m.handlers[k], m.now, fate)
    ensures Waiting(SweepFrom(m, i, off), m.handlers[k].data.callId, Next(fate))
    decreases |m.handlers| - i
  {
    if i == k {
      SweepArrives(m, k, fate, off);
    } else {
      var m' := NextTurn(m, i, k, off);
      SweepReaches(m', if |m'.handlers| == |m.handlers| then i + 1 else i,
                   if |m'.handlers| == |m.handlers| then k else k - 1, fate, off);
    }
  }

  lemma NextTurn(m: Machine, i: nat, k: nat, off: bool) returns (m': Machine)
    requires i < k < |m.handlers|
    ensures m'.now == m.now && |m'.handlers| <= |m.handlers| <= |m'.handlers| + 1
    ensures m'.handlers[if |m'.handlers| == |m.handlers| then k else k - 1] == m.handlers[k]
    ensures SweepFrom(m, i, off) == SweepFrom(m', if |m'.handlers| == |m.handlers| then i + 1 else i, off)
  {
    m' := CheckAt(m, i, off);
    CheckMoves(m, i, k, off);
  }

  lemma SweepAdvances(m: Machine, callId: nat, fate: Fate)
    requires Waiting(m, callId, fate)
    ensures Waiting(SweepFrom(m, 0, false), callId, Next(fate))
  {
    if fate.Removed? {
      SweepKeepsNotes(m, 0, Note(callId, Dropped, RemovedHandler), false);
    } else {
      var k :| 0 <= k < |m.handlers| && m.handlers[k].data.callId == callId && Overdue(m.handlers[k], m.now, fate);
      SweepReaches(m, 0, k, fate, false);
    }
  }

  lemma SignalAdvances(m: Machine, ev: Event, deleteRefused: bool, callId: nat, fate: Fate)
    requires Waiting(m, callId, fate)
    requires forall k :: 0 <= k < |m.handlers| && m.handlers[k].data.callId == callId ==> !Accepts(m.handlers[k], ev)
    ensures Waiting(SignalEvent(m, ev, deleteRefused, false).m, callId, Next(fate))
  {
    hide VerdictOf, Overdue, SweepFrom;
    var s := Dispatched(m, ev);
    var m' := if !s.handled && deleteRefused then Free(s.m, ev.eid) else s.m;
    StaysWaiting(m, m', callId, fate);
    SweepAdvances(m', callId, fate);
  }

  /** Other handlers may change, and the list and the notes may grow. */
  lemma StaysWaiting(m: Machine, m': Machine, callId: nat, fate: Fate)
    requires Waiting(m, callId, fate) && m.now <= m'.now
    requires |m.handlers| <= |m'.handlers| && m.notes <= m'.notes
    requires forall k :: 0 <= k < |m.handlers| && m.handlers[k].data.callId == callId ==> m'.handlers[k] == m.handlers[k]
    ensures Waiting(m', callId, fate)
  {
    if !fate.Removed? {
      var k :| 0 <= k < |m.handlers| && m.handlers[k].data.callId == callId && Overdue(m.handlers[k], m.now, fate);
      assert Overdue(m'.handlers[k], m'.now, fate);
    }
  }

  lemma SilentEvent(m: Machine, st: Step, callId: nat, fate: Fate) returns (m': Machine, fate': Fate)
    requires Enabled(m, st) && IsEvent(st) && Silent(m, st, callId) && Waiting(m, callId, fate)
    ensures EventStep(m, st, m') && Waiting(m', callId, fate') && (fate' == fate || fate' == Next(fate))
  {
    var m1 := m.(given := m.given + 1);
    StaysWaiting(m, m1, callId, fate);
    match st
    case Deliver(ev, _) =>
      m', fate' := SilentDelivery(m1, ev, callId, fate);
    case Inject(ev, _) =>
      m', fate' := SignalEvent(m1, ev, true, false).m, Next(fate);
      SignalAdvances(m1, ev, true, callId, fate);
    case InjectLogin(ev) =>
      var s := LoginSignalled(m1, ev);
      m', fate' := if s.handled then s.m else Free(s.m, ev.eid), fate;
      StaysWaiting(m1, m', callId, fate);
  }

  lemma SilentDelivery(m: Machine, ev: Event, callId: nat, fate: Fate) returns (m': Machine, fate': Fate)
    requires Waiting(m, callId, fate)
    requires forall k :: 0 <= k < |m.handlers| && m.handlers[k].data.callId == callId ==> !Accepts(m.handlers[k], ev)
    ensures m' == Routed(m, ev, false) && Waiting(m', callId, fate') && (fate' == fate || fate' == Next(fate))
  {
    var login := LoginSignalled(m, ev);
    if login.handled {
      m', fate' := login.m, fate;
      StaysWaiting(m, m', callId, fate);
    } else {
      var call := SignalEvent(m, ev, false, false);
      m', fate' := if call.handled then call.m else Free(call.m, ev.eid), Next(fate);
      SignalAdvances(m, ev, false, callId, fate);
      StaysWaiting(call.m, m', callId, fate');
    }
  }

  lemma SilentStep(m: Machine, st: Step, callId: nat, fate: Fate) returns (m': Machine, fate': Fate)
    requires Enabled(m, st) && Silent(m, st, callId) && Waiting(m, callId, fate)
    ensures m' == Apply(m, st) && Waiting(m', callId, fate')
    ensures fate' == fate || fate' == Next(fate)
    ensures st.Poll? ==> fate' == Next(fate)
  {
    if IsEvent(st) {
      m', fate' := SilentEvent(m, st, callId, fate);
      EventStepIsApply(m, st);
    } else {
      m', fate' := Apply(m, st), if st.Poll? then Next(fate) else fate;
      if st.Poll? {
        SweepAdvances(m, callId, fate);
      } else {
        StaysWaiting(m, m', callId, fate);
      }
    }
  }

  function Needed(fate: Fate): nat {
    match fate
    case RunOut => 2
    case IsDropped => 1
    case Removed => 0
  }

  lemma {:induction false} SilenceRuns(m: Machine, steps: seq<Step>, callId: nat, fate: Fate)
    requires Legal(m, steps) && Quiet(m, steps, callId) && Waiting(m, callId, fate) && Polls(steps) >= Needed(fate)
    ensures Waiting(Run(m, steps), callId, Removed)
    decreases |steps|
  {
    if steps != [] {
      var m', fate' := SilentStep(m, steps[0], callId, fate);
      SilenceRuns(m', steps[1..], callId, fate');
    }
  }

  /** No call is stranded.  A handler whose state has outlived its limit, and
      which is offered no event of its own, is gone after two more polls, among
      whatever else happens to other calls; its removal was announced as Dropped. */
  lemma NoCallIsStranded(steps: seq<Step>, more: seq<Step>, i: nat)
    requires Legal(START, steps) && i < |Run(START, steps).handlers|
    requires var m := Run(START, steps);
             var h := m.handlers[i];
             && Legal(m, more) && Quiet(m, more, h.data.callId) && Polls(more) >= 2
             && (h.state.Dropped? || (TimeoutOf(h.kind, h.state).Some? ==> m.now - h.since > TimeoutOf(h.kind, h.state).value))
    ensures var m := Run(START, steps);
            var m' := Run(m, more);
            && Note(m.handlers[i].data.callId, Dropped, RemovedHandler) in m'.notes
            && forall k :: 0 <= k < |m'.handlers| ==> m'.handlers[k].data.callId != m.handlers[i].data.callId
  {
    Reachable(steps);
    SilenceRemoves(Run(START, steps), more, i);
    RunInv(Run(START, steps), more);
  }

  lemma SilenceRemoves(m: Machine, more: seq<Step>, i: nat)
    requires i < |m.handlers| && HandlerOk(m.handlers[i])
    requires var h := m.handlers[i];
             && Legal(m, more) && Quiet(m, more, h.data.callId) && Polls(more) >= 2
             && (h.state.Dropped? || (TimeoutOf(h.kind, h.state).Some? ==> m.now - h.since > TimeoutOf(h.kind, h.state).value))
    ensures Note(m.handlers[i].data.callId, Dropped, RemovedHandler) in Run(m, more).notes
  {
    var h := m.handlers[i];
    if h.state.Dropped? {
      assert Overdue(h, m.now, IsDropped);
      SilenceRuns(m, more, h.data.callId, IsDropped);
    } else {
      EveryStateHasALimit(h);
      assert Overdue(h, m.now, RunOut);
      SilenceRuns(m, more, h.data.callId, RunOut);
    }
  }

  // --------------------------------------------------- a call keeps its name

  /** The call of `h` is followed by a handler with the same ids, or was
      removed with a last word. */
  predicate Tracked(m: Machine, h: Handler) {
    || (exists k :: 0 <= k < |m.handlers| && SameIdentity(h, m.handlers[k]))
    || Note(h.data.callId, Dropped, RemovedHandler) in m.notes
  }

  lemma {:induction false} SweepTracks(m: Machine, i: nat, timeoutsOff: bool, h: Handler)
    requires i <= |m.handlers| && Tracked(m, h)
    ensures Tracked(SweepFrom(m, i, timeoutsOff), h)
    decreases |m.handlers| - i
  {
    if i < |m.handlers| {
      var m' := TurnTracks(m, i, timeoutsOff, h);
      SweepTracks(m', if |m'.handlers| == |m.handlers| then i + 1 else i, timeoutsOff, h);
    }
  }

  lemma TurnTracks(m: Machine, i: nat, timeoutsOff: bool, h: Handler) returns (m': Machine)
    requires i < |m.handlers| && Tracked(m, h)
    ensures |m'.handlers| <= |m.handlers| <= |m'.handlers| + 1 && Tracked(m', h)
    ensures SweepFrom(m, i, timeoutsOff)
         == SweepFrom(m', if |m'.handlers| == |m.handlers| then i + 1 else i, timeoutsOff)
  {
    m' := CheckAt(m, i, timeoutsOff);
    assert m.notes <= m'.notes;
    if Note(h.data.callId, Dropped, RemovedHandler) !in m.notes {
      var k :| 0 <= k < |m.handlers| && SameIdentity(h, m.handlers[k]);
      if k != i {
        var k' := if |m'.handlers| == |m.handlers| || k < i then k else k - 1;
        assert m'.handlers[k'] == m.handlers[k];
      } else if Checked(m.handlers[i], m.now, timeoutsOff).exists' {
        assert SameIdentity(h, m'.handlers[i]);
      } else {
        assert m'.notes[|m.notes|] == Note(h.data.callId, Dropped, RemovedHandler);
      }
    }
  }

  lemma DispatchTracks(m: Machine, ev: Event, h: Handler)
    requires AllOk(m, |m.handlers|) && Tracked(m, h)
    ensures Tracked(Dispatched(m, ev).m, h)
  {
    hide VerdictOf, HandlerOk;
    var m', i := Dispatched(m, ev).m, Acceptor(m.handlers, ev);
    assert m.notes <= m'.notes;
    if Note(h.data.callId, Dropped, RemovedHandler) !in m.notes {
      var k :| 0 <= k < |m.handlers| && SameIdentity(h, m.handlers[k]);
      if k == i {
        OfferedOk(m.handlers[i], ev, m.now, m.lastId);
        assert SameIdentity(h, m'.handlers[i]);
      } else {
        assert m'.handlers[k] == m.handlers[k];
      }
    }
  }

  lemma GrowthTracks(m: Machine, m': Machine, h: Handler)
    requires Tracked(m, h) && m.handlers <= m'.handlers && m.notes <= m'.notes
    ensures Tracked(m', h)
  {
    if Note(h.data.callId, Dropped, RemovedHandler) !in m.notes {
      var k :| 0 <= k < |m.handlers| && SameIdentity(h, m.handlers[k]);
      assert m'.handlers[k] == m.handlers[k];
    }
  }

  lemma SignalTracks(m: Machine, ev: Event, deleteRefused: bool, timeoutsOff: bool, h: Handler)
    requires AllOk(m, |m.handlers|) && Tracked(m, h)
    ensures Tracked(SignalEvent(m, ev, deleteRefused, timeoutsOff).m, h)
  {
    var s := Dispatched(m, ev);
    var m' := if !s.handled && deleteRefused then Free(s.m, ev.eid) else s.m;
    DispatchTracks(m, ev, h);
    GrowthTracks(s.m, m', h);
    SweepTracks(m', 0, timeoutsOff, h);
  }

  lemma EventTracks(m: Machine, st: Step, h: Handler) returns (m': Machine)
    requires Enabled(m, st) && IsEvent(st) && AllOk(m, |m.handlers|) && Tracked(m, h)
    ensures EventStep(m, st, m') && Tracked(m', h)
  {
    var m1 := m.(given := m.given + 1);
    GrowthTracks(m, m1, h);
    match st
    case Deliver(ev, off) =>
      m' := DeliveryTracks(m1, ev, off, h);
    case Inject(ev, off) =>
      m' := SignalEvent(m1, ev, true, off).m;
      SignalTracks(m1, ev, true, off, h);
    case InjectLogin(ev) =>
      var s := LoginSignalled(m1, ev);
      m' := if s.handled then s.m else Free(s.m, ev.eid);
      GrowthTracks(m1, m', h);
  }

  lemma DeliveryTracks(m: Machine, ev: Event, off: bool, h: Handler) returns (m': Machine)
    requires AllOk(m, |m.handlers|) && Tracked(m, h)
    ensures m' == Routed(m, ev, off) && Tracked(m', h)
  {
    var login := LoginSignalled(m, ev);
    if login.handled {
      m' := login.m;
      GrowthTracks(m, m', h);
    } else {
      var call := SignalEvent(m, ev, false, off);
      m' := if call.handled then call.m else Free(call.m, ev.eid);
      SignalTracks(m, ev, false, off, h);
      GrowthTracks(call.m, m', h);
    }
  }

  lemma StepTracks(m: Machine, st: Step, h: Handler)
    requires Enabled(m, st) && AllOk(m, |m.handlers|) && Tracked(m, h)
    ensures Tracked(Apply(m, st), h)
  {
    if IsEvent(st) {
      var m' := EventTracks(m, st, h);
      EventStepIsApply(m, st);
    } else if st.Poll? {
      SweepTracks(m, 0, st.timeoutsOff, h);
    } else {
      GrowthTracks(m, Apply(m, st), h);
    }
  }

  lemma {:induction false} RunTracks(m: Machine, steps: seq<Step>, h: Handler)
    requires Legal(m, steps) && Inv(m, |m.handlers|, multiset{}) && Tracked(m, h)
    ensures Tracked(Run(m, steps), h)
    decreases |steps|
  {
    if steps != [] {
      StepTracks(m, steps[0], h);
      var m' := ApplyInv(m, steps[0]);
      RunTracks(m', steps[1..], h);
    }
  }

  /** A call keeps its call id, type, setup id and, if it goes by one, its SIP
      call id for as long as it is followed, through every event and every
      change of its current branch; and it is followed until it is removed. */
  lemma CallsKeepTheirIdentity(steps: seq<Step>, more: seq<Step>, i: nat)
    requires Legal(START, steps) && i < |Run(START, steps).handlers| && Legal(Run(START, steps), more)
    ensures var h := Run(START, steps).handlers[i];
            var m' := Run(Run(START, steps), more);
            if exists n :: 0 <= n < |m'.handlers| && m'.handlers[n].data.callId == h.data.callId
            then exists n :: 0 <= n < |m'.handlers| && SameIdentity(h, m'.handlers[n])
            else Note(h.data.callId, Dropped, RemovedHandler) in m'.notes
  {
    hide HandlerOk;
    Reachable(steps);
    var m := Run(START, steps);
    assert SameIdentity(m.handlers[i], m.handlers[i]);
    RunTracks(m, more, m.handlers[i]);
    RunInv(m, more);
  }

  // ------------------------------------------------------ a new call is followed

  lemma {:induction false} SweepKeepsLast(m: Machine, i: nat, timeoutsOff: bool)
    requires i <= |m.handlers| && m.handlers != []
    requires var h := m.handlers[|m.handlers| - 1]; Checked(h, m.now, timeoutsOff) == Check(true, h, [])
    ensures var m' := SweepFrom(m, i, timeoutsOff);
            m'.handlers != [] && m'.handlers[|m'.handlers| - 1] == m.handlers[|m.handlers| - 1]
    decreases |m.handlers| - i
  {
    hide Checked, CheckAt;
    if i < |m.handlers| {
      var m' := LastPasses(m, i, timeoutsOff);
      SweepKeepsLast(m', if |m'.handlers| == |m.handlers| then i + 1 else i, timeoutsOff);
    }
  }

  lemma LastPasses(m: Machine, i: nat, timeoutsOff: bool) returns (m': Machine)
    requires i < |m.handlers|
    requires var h := m.handlers[|m.handlers| - 1]; Checked(h, m.now, timeoutsOff) == Check(true, h, [])
    ensures m' == CheckAt(m, i, timeoutsOff) && m'.now == m.now
    ensures |m'.handlers| <= |m.handlers| <= |m'.handlers| + 1 && m'.handlers != []
    ensures |m'.handlers| < |m.handlers| ==> i < |m'.handlers|
    ensures m'.handlers[|m'.handlers| - 1] == m.handlers[|m.handlers| - 1]
  {
    hide Checked;
    m' := CheckAt(m, i, timeoutsOff);
  }

  lemma {:induction false} SweepIssuesNoId(m: Machine, i: nat, timeoutsOff: bool)
    requires i <= |m.handlers|
    ensures SweepFrom(m, i, timeoutsOff).lastId == m.lastId && SweepFrom(m, i, timeoutsOff).given == m.given
    decreases |m.handlers| - i
  {
    if i < |m.handlers| {
      var m' := CheckAt(m, i, timeoutsOff);
      SweepIssuesNoId(m', if |m'.handlers| == |m.handlers| then i + 1 else i, timeoutsOff);
    }
  }

  /** A handler just created passes the check that follows. */
  lemma NewHandlerPasses(kind: Kind, ev: Event, callId: nat, now: int, timeoutsOff: bool)
    requires ev.ActiveCall? && !kind.MakeCall?
    ensures var h := NewHandler(kind, ev, callId, now); Checked(h, now, timeoutsOff) == Check(true, h, [])
  {
  }

  /** In a list of calls with different SIP call ids, the last one receives the
      active call events of its own unless a MakeCall before it takes them. */
  lemma LastCallReceives(m: Machine, ev: Event)
    requires SipsDiffer(m) && m.handlers != [] && !m.handlers[|m.handlers| - 1].kind.MakeCall? && ev.ActiveCall?
    ensures var k := |m.handlers| - 1;
            RecipientOf(m, ev) == Call(k)
            <==> ev.sipCallId == m.handlers[k].data.sipCallId
                 && forall j :: 0 <= j < k && m.handlers[j].kind.MakeCall? ==> !Accepts(m.handlers[j], ev)
  {
    var k := |m.handlers| - 1;
    ActiveCallAccepted(m.handlers[k], ev);
    forall j | 0 <= j < k && !m.handlers[j].kind.MakeCall?
      ensures ev.sipCallId == m.handlers[k].data.sipCallId ==> !Accepts(m.handlers[j], ev)
    {
      ActiveCallAccepted(m.handlers[j], ev);
    }
    var i := Acceptor(m.handlers, ev);
    if ev.sipCallId == m.handlers[k].data.sipCallId
       && forall j :: 0 <= j < k && m.handlers[j].kind.MakeCall? ==> !Accepts(m.handlers[j], ev) {
      assert Accepts(m.handlers[k], ev);
      assert forall j :: 0 <= j < k ==> !Accepts(m.handlers[j], ev);
    }
  }

  /** An event from the server that no call takes starts a new one exactly if it
      reports a call just created or requested.  The handler that starts with it
      is still in the list, at its end, when the event has been dealt with, and
      from then on receives the events of that SIP call, but for those a MakeCall
      before it takes. */
  lemma UnknownCallIsFollowed(steps: seq<Step>, ev: Event, timeoutsOff: bool, next: Event)
    requires Legal(START, steps) && ev.eid == Run(START, steps).given && next.ActiveCall?
    requires RecipientOf(Run(START, steps), ev).NewCall? || RecipientOf(Run(START, steps), ev).Nobody?
    ensures var m := Run(START, steps);
            var m' := Apply(m, Deliver(ev, timeoutsOff));
            var k := |m'.handlers| - 1;
            if StartsCall(ev) then
              && m'.lastId == m.lastId + 1 && k >= 0
              && m'.handlers[k] == NewHandler(if ev.dialog.CREATED? then Outgoing else Incoming, ev, m.lastId + 1, m.now)
              && (RecipientOf(m', next) == Call(k)
                  <==> next.sipCallId == ev.sipCallId
                       && forall j :: 0 <= j < k && m'.handlers[j].kind.MakeCall? ==> !Accepts(m'.handlers[j], next))
            else m'.lastId == m.lastId && m'.freed[ev.eid] == 1
  {
    hide Routed, RecipientOf, Inv;
    Reachable(steps);
    var m := Run(START, steps);
    var m' := NewCallDelivered(m, ev, timeoutsOff);
    EventStepIsApply(m, Deliver(ev, timeoutsOff));
    if StartsCall(ev) {
      LastCallReceives(m', next);
    }
  }

  lemma NewCallDelivered(m: Machine, ev: Event, timeoutsOff: bool) returns (m': Machine)
    requires Inv(m, |m.handlers|, multiset{}) && ev.eid == m.given
    requires RecipientOf(m, ev).NewCall? || RecipientOf(m, ev).Nobody?
    ensures m' == Routed(m.(given := m.given + 1), ev, timeoutsOff) && SipsDiffer(m')
    ensures StartsCall(ev) ==>
              && m'.lastId == m.lastId + 1 && m'.handlers != []
              && m'.handlers[|m'.handlers| - 1] == NewHandler(if ev.dialog.CREATED? then Outgoing else Incoming, ev, m.lastId + 1, m.now)
    ensures !StartsCall(ev) ==> m'.lastId == m.lastId && m'.freed[ev.eid] == 1
  {
    hide Routed, Acceptor, LoginTakes, SweepFrom, AllOk, IdsOk, NotesOk, SipsDiffer, Accounted;
    var m1 := m.(given := m.given + 1);
    ReceivedInv(m, ev);
    RoutedInv(m1, ev, timeoutsOff);
    if StartsCall(ev) {
      m' := NewCallSwept(m1, ev, timeoutsOff);
    } else {
      m' := RefusedSwept(m1, ev, timeoutsOff);
      FreedOnce(m', ev.eid);
    }
  }

  lemma NewCallSwept(m: Machine, ev: Event, timeoutsOff: bool) returns (m': Machine)
    requires RecipientOf(m, ev).NewCall? && StartsCall(ev)
    ensures m' == Routed(m, ev, timeoutsOff) && m'.lastId == m.lastId + 1 && m'.handlers != []
    ensures m'.handlers[|m'.handlers| - 1] == NewHandler(if ev.dialog.CREATED? then Outgoing else Incoming, ev, m.lastId + 1, m.now)
  {
    hide Routed, Acceptor, LoginTakes, SweepFrom;
    var kind := if ev.dialog.CREATED? then Outgoing else Incoming;
    RoutedByRecipient(m, ev, timeoutsOff);
    NewHandlerPasses(kind, ev, m.lastId + 1, m.now, timeoutsOff);
    SweepKeepsLast(Create(m, kind, ev), 0, timeoutsOff);
    SweepIssuesNoId(Create(m, kind, ev), 0, timeoutsOff);
    m' := Routed(m, ev, timeoutsOff);
  }

  lemma RefusedSwept(m: Machine, ev: Event, timeoutsOff: bool) returns (m': Machine)
    requires RecipientOf(m, ev).Nobody?
    ensures m' == Routed(m, ev, timeoutsOff) && m'.lastId == m.lastId && m'.given == m.given && ev.eid in m'.freed
  {
    hide Routed, Acceptor, LoginTakes, SweepFrom;
    RoutedByRecipient(m, ev, timeoutsOff);
    SweepIssuesNoId(m, 0, timeoutsOff);
    m' := Routed(m, ev, timeoutsOff);
  }

  // ------------------------------------------------------- who gets a retract

  /** A handler in front of `i` that takes the retract of `id`: every MakeCall
      does, whether or not the branch is its own. */
  predicate TakenBefore(m: Machine, i: nat, id: string)
    requires i <= |m.handlers|
  {
    exists k :: 0 <= k < i && (m.handlers[k].kind.MakeCall? || id in Fold(m.handlers[k].kind, m.handlers[k].history.log))
  }

  /** The retract of a branch of an incoming or outgoing call reaches that call
      if and only if no MakeCall, and no call with a branch of that id, stands
      before it in the list.  Otherwise it is deleted or told to another call. */
  lemma RetractReachesItsCallExactlyWhen(steps: seq<Step>, i: nat, ev: Event)
    requires Legal(START, steps) && i < |Run(START, steps).handlers| && ev.Retract?
    requires var h := Run(START, steps).handlers[i]; !h.kind.MakeCall? && ev.id in Fold(h.kind, h.history.log)
    ensures var m := Run(START, steps); RecipientOf(m, ev) == Call(i) <==> !TakenBefore(m, i, ev.id)
  {
    Reachable(steps);
    RetractRoute(Run(START, steps), i, ev);
  }

  lemma RetractRoute(m: Machine, i: nat, ev: Event)
    requires AllOk(m, |m.handlers|) && i < |m.handlers| && ev.Retract?
    requires var h := m.handlers[i]; !h.kind.MakeCall? && ev.id in Fold(h.kind, h.history.log)
    ensures RecipientOf(m, ev) == Call(i) <==> !TakenBefore(m, i, ev.id)
  {
    hide VerdictOf, HandlerOk, Fold;
    forall k | 0 <= k < |m.handlers|
      ensures Accepts(m.handlers[k], ev) <==> m.handlers[k].kind.MakeCall? || ev.id in Fold(m.handlers[k].kind, m.handlers[k].history.log)
    {
      RetractAccepted(m.handlers[k], ev);
    }
  }

  lemma RetractAccepted(h: Handler, ev: Event)
    requires HandlerOk(h) && ev.Retract?
    ensures Accepts(h, ev) <==> h.kind.MakeCall? || ev.id in Fold(h.kind, h.history.log)
  {
  }

  /** An incoming call that arrives while a MakeCall is being set up. */
  const RINGING := ActiveCall(0, "b", false, REQUESTED, "s", "from", "to", "ft", "tt", "br", "")
  const HANG_UP := Retract(1, "b")
  const CROSSED := START.(handlers := [NewMakeCall("200", 1, 2, "setup", "to-sip", "from-sip", 0)], lastId := 2,
                          notes := [Note(1, MakeCallSet, AddedHandler)])

  /** Two calls, the second one ringing, reached by a run. */
  function TwoCalls(): Machine {
    CROSSED.(handlers := CROSSED.handlers + [NewHandler(Incoming, RINGING, 3, 0)], lastId := 3, given := 1,
             notes := CROSSED.notes + [Note(3, Offering, NewHandlerCreated)])
  }

  const BEFORE := [RequestCall("200"), Admit("setup", "to-sip", "from-sip"), Deliver(RINGING, false)]

  lemma Rings()
    ensures Apply(CROSSED, Deliver(RINGING, false)) == TwoCalls()
  {
    var m := CROSSED.(given := 1);
    assert Acceptor(m.handlers, RINGING) == 1;
    var m' := Create(m, Incoming, RINGING);
    NothingToSweep(m', false);
    RoutedByRecipient(m, RINGING, false);
    EventStepIsApply(CROSSED, Deliver(RINGING, false));
  }

  lemma Take(m: Machine, steps: seq<Step>, m': Machine)
    requires steps != [] && Enabled(m, steps[0]) && Apply(m, steps[0]) == m' && Legal(m', steps[1..])
    ensures Legal(m, steps) && Run(m, steps) == Run(m', steps[1..])
  {
  }

  lemma Requested() returns (m: Machine)
    ensures m == Apply(START, BEFORE[0]) && m.pending != [] && Apply(m, BEFORE[1]) == CROSSED
  {
    m := Apply(START, BEFORE[0]);
  }

  lemma BeforeLeadsThere()
    ensures Legal(START, BEFORE) && Run(START, BEFORE) == TwoCalls()
  {
    Rings();
    var m := Requested();
    assert BEFORE[1..][1..] == [BEFORE[2]];
    Take(CROSSED, BEFORE[1..][1..], TwoCalls());
    Take(m, BEFORE[1..], CROSSED);
    Take(START, BEFORE, m);
  }

  /** The machine as the retract is handed out. */
  function HangingUp(): Machine {
    TwoCalls().(given := 2)
  }

  lemma MakeCallTakesIt()
    ensures RecipientOf(HangingUp(), HANG_UP) == Call(0)
  {
    assert Acceptor(HangingUp().handlers, HANG_UP) == 0;
  }

  lemma ItIsDeleted() returns (m': Machine)
    ensures m' == SweepFrom(OfferAt(HangingUp(), 0, HANG_UP), 0, false)
    ensures |m'.handlers| == 2 && m'.handlers[1] == TwoCalls().handlers[1] && m'.freed == multiset{HANG_UP.eid}
  {
    var h := HangingUp().handlers[0];
    assert !HasId(h.branches, HANG_UP.id) && |h.dial.outId| != |HANG_UP.id|;
    assert Offered(h, HANG_UP, 0, 3) == Swallow(h, HANG_UP, 3);
    m' := OfferAt(HangingUp(), 0, HANG_UP);
    NothingToSweep(m', false);
    m' := SweepFrom(m', 0, false);
  }

  /** A sweep over two handlers that are neither overdue nor dropped. */
  lemma NothingToSweep(m: Machine, timeoutsOff: bool)
    requires |m.handlers| == 2 && m.lastSweep == m.now
    requires forall i :: 0 <= i < 2 ==> Checked(m.handlers[i], m.now, timeoutsOff) == Check(true, m.handlers[i], [])
    ensures SweepFrom(m, 0, timeoutsOff) == m
  {
    hide Checked;
    assert m.handlers[0 := m.handlers[0]] == m.handlers && m.handlers[1 := m.handlers[1]] == m.handlers;
    assert CheckAt(m, 0, timeoutsOff) == m && CheckAt(m, 1, timeoutsOff) == m;
    assert SweepFrom(m, 2, timeoutsOff) == m;
  }

  lemma Swallowed() returns (m': Machine)
    ensures m' == Routed(HangingUp(), HANG_UP, false)
    ensures |m'.handlers| == 2 && m'.handlers[1] == TwoCalls().handlers[1] && m'.freed == multiset{HANG_UP.eid}
  {
    hide Routed, RecipientOf, SweepFrom, OfferAt, TwoCalls;
    MakeCallTakesIt();
    RoutedByRecipient(HangingUp(), HANG_UP, false);
    m' := ItIsDeleted();
  }

  /** The retract of its only branch is swallowed by the MakeCall, and the
      incoming call goes on ringing. */
  lemma RetractCanGoAstray()
    ensures Legal(START, BEFORE) && Run(START, BEFORE) == TwoCalls()
    ensures var h := TwoCalls().handlers[1];
            h.kind.Incoming? && h.state.Offering? && Ids(h.branches) == [HANG_UP.id]
    ensures var m := Apply(TwoCalls(), Deliver(HANG_UP, false));
            |m.handlers| == 2 && m.handlers[1] == TwoCalls().handlers[1] && m.freed == multiset{HANG_UP.eid}
  {
    hide Routed, Run, Legal;
    BeforeLeadsThere();
    var m' := Swallowed();
    EventStepIsApply(TwoCalls(), Deliver(HANG_UP, false));
  }
}
