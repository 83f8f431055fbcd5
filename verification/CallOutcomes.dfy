/**
 * What becomes of a call in a whole session: that a silent one stays until its
 * time is up, that the retract of its last branch ends it, and that only its
 * own events reach a MakeCall.
 */
module CallOutcomes {

  import opened CallHandlers
  import opened CallMachine
  import opened CallProgress

  // -------------------------------------------------- no call is dropped early

  /** The call has been in its state for no longer than it may, in milliseconds:
      three hours connected, two minutes ringing, ten seconds being dropped, and
      for a MakeCall 10, 45, 15 and 120 seconds in its four stages. */
  predicate WithinItsLimit(h: Handler, now: int) {
    now - h.since <= match h.state
                     case Connected => 10800000
                     case Offering => 120000
                     case PhysicalOutProceeding => 120000
                     case PreDropCall => 10000
                     case MakeCallSet => 10000
                     case MakeCallRequested => 45000
                     case MakeCallRequestedAnswered => 15000
                     case MakeCallOutgoingCreated => 120000
                     case _ => now - h.since
  }

  /** The check leaves a handler alone exactly if it is not dropped and has not
      outlived its limit, or limits are switched off. */
  lemma LeftAloneExactlyWhen(h: Handler, now: int, off: bool)
    requires HandlerOk(h)
    ensures Checked(h, now, off) == Check(true, h, []) <==> !h.state.Dropped? && (off || WithinItsLimit(h, now))
  {
    var path := h.history.path;
    assert |path + [Dropped]| != |path|;
  }

  lemma {:induction false} SweepPassesOver(m: Machine, i: nat, k: nat, off: bool)
    requires i <= |m.handlers| && k < |m.handlers|
    requires Checked(m.handlers[k], m.now, off) == Check(true, m.handlers[k], [])
    ensures m.handlers[k] in SweepFrom(m, i, off).handlers
    decreases |m.handlers| - i
  {
    hide Checked;
    if k < i {
      SweepKeepsFront(m, i, k, off);
    } else if k == i {
      var m' := TurnPassesOver(m, i, off);
      SweepPassesOver(m', i + 1, k, off);
    } else {
      var m' := NextTurn(m, i, k, off);
      SweepPassesOver(m', if |m'.handlers| == |m.handlers| then i + 1 else i,
                      if |m'.handlers| == |m.handlers| then k else k - 1, off);
    }
  }

  lemma TurnPassesOver(m: Machine, i: nat, off: bool) returns (m': Machine)
    requires i < |m.handlers| && Checked(m.handlers[i], m.now, off) == Check(true, m.handlers[i], [])
    ensures m'.handlers == m.handlers && m'.now == m.now
    ensures SweepFrom(m, i, off) == SweepFrom(m', i + 1, off)
  {
    hide Checked;
    m' := CheckAt(m, i, off);
    assert m.handlers[i := m.handlers[i]] == m.handlers;
  }

  lemma Kept(m: Machine, off: bool, h: Handler)
    requires h in m.handlers && HandlerOk(h) && !h.state.Dropped? && (off || WithinItsLimit(h, m.now))
    ensures h in SweepFrom(m, 0, off).handlers
  {
    hide HandlerOk, Checked, WithinItsLimit;
    var k :| 0 <= k < |m.handlers| && m.handlers[k] == h;
    LeftAloneExactlyWhen(h, m.now, off);
    SweepPassesOver(m, 0, k, off);
  }

  lemma DispatchKeeps(m: Machine, ev: Event, h: Handler)
    requires h in m.handlers && !Accepts(h, ev)
    ensures h in Dispatched(m, ev).m.handlers && Dispatched(m, ev).m.now == m.now
  {
    hide VerdictOf;
    var k :| 0 <= k < |m.handlers| && m.handlers[k] == h;
    assert Dispatched(m, ev).m.handlers[k] == h;
  }

  lemma SignalKeeps(m: Machine, ev: Event, deleteRefused: bool, off: bool, h: Handler)
    requires h in m.handlers && !Accepts(h, ev)
    requires HandlerOk(h) && !h.state.Dropped? && (off || WithinItsLimit(h, m.now))
    ensures h in SignalEvent(m, ev, deleteRefused, off).m.handlers
  {
    hide Dispatched, HandlerOk, WithinItsLimit;
    DispatchKeeps(m, ev, h);
    var s := Dispatched(m, ev);
    Kept(if !s.handled && deleteRefused then Free(s.m, ev.eid) else s.m, off, h);
  }

  predicate IgnoresLimits(st: Step) {
    match st
    case Deliver(_, off) => off
    case Inject(_, off) => off
    case Poll(off) => off
    case _ => true
  }

  /** The step brings the call no event of its own. */
  predicate PassesBy(h: Handler, st: Step) {
    st.Deliver? || st.Inject? ==> !Accepts(h, st.ev)
  }

  lemma EventKeeps(m: Machine, st: Step, h: Handler) returns (m': Machine)
    requires Enabled(m, st) && IsEvent(st) && PassesBy(h, st) && h in m.handlers
    requires HandlerOk(h) && !h.state.Dropped? && (IgnoresLimits(st) || WithinItsLimit(h, m.now))
    ensures EventStep(m, st, m') && h in m'.handlers
  {
    hide SignalEvent, HandlerOk, WithinItsLimit, Accepts;
    var m1 := m.(given := m.given + 1);
    match st
    case Deliver(ev, off) =>
      m' := Routed(m1, ev, off);
      SignalKeeps(m1, ev, false, off, h);
    case Inject(ev, off) =>
      m' := SignalEvent(m1, ev, true, off).m;
      SignalKeeps(m1, ev, true, off, h);
    case InjectLogin(ev) =>
      var s := LoginSignalled(m1, ev);
      m' := if s.handled then s.m else Free(s.m, ev.eid);
  }

  lemma StepKeeps(m: Machine, st: Step, h: Handler)
    requires Enabled(m, st) && PassesBy(h, st) && h in m.handlers
    requires HandlerOk(h) && !h.state.Dropped? && (IgnoresLimits(st) || WithinItsLimit(h, m.now))
    ensures h in Apply(m, st).handlers
  {
    hide HandlerOk, WithinItsLimit, Accepts;
    if IsEvent(st) {
      var m' := EventKeeps(m, st, h);
      EventStepIsApply(m, st);
    } else if st.Poll? {
      Kept(m, st.timeoutsOff, h);
    }
  }

  lemma {:induction false} SweepKeepsTime(m: Machine, i: nat, off: bool)
    requires i <= |m.handlers|
    ensures SweepFrom(m, i, off).now == m.now
    decreases |m.handlers| - i
  {
    if i < |m.handlers| {
      var m' := CheckAt(m, i, off);
      SweepKeepsTime(m', if |m'.handlers| == |m.handlers| then i + 1 else i, off);
    }
  }

  lemma EventTakesNoTime(m: Machine, st: Step) returns (m': Machine)
    requires Enabled(m, st) && IsEvent(st)
    ensures EventStep(m, st, m') && m'.now == m.now
  {
    hide SweepFrom;
    var m1 := m.(given := m.given + 1);
    match st
    case Deliver(ev, off) => m' := DeliveryTakesNoTime(m1, ev, off);
    case Inject(ev, off) =>
      m' := SignalEvent(m1, ev, true, off).m;
      SignalTakesNoTime(m1, ev, true, off);
    case InjectLogin(ev) =>
      var s := LoginSignalled(m1, ev);
      m' := if s.handled then s.m else Free(s.m, ev.eid);
  }

  lemma SignalTakesNoTime(m: Machine, ev: Event, deleteRefused: bool, off: bool)
    ensures SignalEvent(m, ev, deleteRefused, off).m.now == m.now
  {
    hide SweepFrom;
    var s := Dispatched(m, ev);
    SweepKeepsTime(if !s.handled && deleteRefused then Free(s.m, ev.eid) else s.m, 0, off);
  }

  lemma DeliveryTakesNoTime(m: Machine, ev: Event, off: bool) returns (m': Machine)
    ensures m' == Routed(m, ev, off) && m'.now == m.now
  {
    hide SignalEvent;
    m' := Routed(m, ev, off);
    SignalTakesNoTime(m, ev, false, off);
  }

  lemma TimeMovesOn(m: Machine, st: Step)
    requires Enabled(m, st)
    ensures m.now <= Apply(m, st).now
  {
    hide SweepFrom;
    if IsEvent(st) {
      var m' := EventTakesNoTime(m, st);
      EventStepIsApply(m, st);
    } else if st.Poll? {
      SweepKeepsTime(m, 0, st.timeoutsOff);
    }
  }

  lemma {:induction false} RunMovesOn(m: Machine, steps: seq<Step>)
    requires Legal(m, steps)
    ensures m.now <= Run(m, steps).now
    decreases |steps|
  {
    if steps != [] {
      TimeMovesOn(m, steps[0]);
      RunMovesOn(Apply(m, steps[0]), steps[1..]);
    }
  }

  lemma {:induction false} SilenceKeeps(m: Machine, steps: seq<Step>, h: Handler)
    requires Legal(m, steps) && h in m.handlers && HandlerOk(h) && !h.state.Dropped?
    requires forall n :: 0 <= n < |steps| ==> PassesBy(h, steps[n])
    requires WithinItsLimit(h, Run(m, steps).now) || forall n :: 0 <= n < |steps| ==> IgnoresLimits(steps[n])
    ensures h in Run(m, steps).handlers
    decreases |steps|
  {
    hide HandlerOk, Apply, PassesBy, IgnoresLimits, Enabled;
    if steps != [] {
      RunMovesOn(m, steps);
      StepKeeps(m, steps[0], h);
      SilenceKeeps(Apply(m, steps[0]), steps[1..], h);
    }
  }

  /** No call is dropped early.  While no event of its own arrives, a call that
      is not dropped stays in the list exactly as it is until it has outlived its
      limit, through every sweep and whatever happens to other calls; and if all
      sweeps ignore limits, for good.  (`NoCallIsStranded` says that soon after
      its limit it is gone.) */
  lemma SilentCallStaysUntilItsLimit(steps: seq<Step>, more: seq<Step>, i: nat)
    requires Legal(START, steps) && i < |Run(START, steps).handlers| && Legal(Run(START, steps), more)
    requires var h := Run(START, steps).handlers[i];
             && !h.state.Dropped?
             && (forall n :: 0 <= n < |more| ==> PassesBy(h, more[n]))
             && (WithinItsLimit(h, Run(Run(START, steps), more).now) || forall n :: 0 <= n < |more| ==> IgnoresLimits(more[n]))
    ensures Run(START, steps).handlers[i] in Run(Run(START, steps), more).handlers
  {
    hide HandlerOk, WithinItsLimit, PassesBy, IgnoresLimits;
    Reachable(steps);
    SilenceKeeps(Run(START, steps), more, Run(START, steps).handlers[i]);
  }

  /** A call whose time is up is dropped by the first sweep, and still listed
      after it, so that the drop can be seen before the call is gone. */
  lemma OverdueCallIsDroppedFirst(steps: seq<Step>, i: nat)
    requires Legal(START, steps) && i < |Run(START, steps).handlers|
    requires var h := Run(START, steps).handlers[i]; !h.state.Dropped? && !WithinItsLimit(h, Run(START, steps).now)
    ensures var m := Run(START, steps);
            exists g :: g in Apply(m, Poll(false)).handlers && g.data.callId == m.handlers[i].data.callId && g.state.Dropped?
  {
    hide HandlerOk, WithinItsLimit, Inv, SweepFrom, Routed, Admitted, SignalEvent, LoginSignalled;
    Reachable(steps);
    OverdueIsSwept(Run(START, steps), i);
  }

  lemma OverdueIsSwept(m: Machine, i: nat)
    requires Inv(m, |m.handlers|, multiset{}) && i < |m.handlers|
    requires !m.handlers[i].state.Dropped? && !WithinItsLimit(m.handlers[i], m.now)
    ensures exists g :: g in SweepFrom(m, 0, false).handlers && g.data.callId == m.handlers[i].data.callId && g.state.Dropped?
  {
    hide HandlerOk, WithinItsLimit, SweepFrom, SipsDiffer, IdsOk, NotesOk, Accounted;
    LeftAloneExactlyWhen(m.handlers[i], m.now, false);
    assert Overdue(m.handlers[i], m.now, RunOut);
    SweepReaches(m, 0, i, RunOut, false);
    var m' := SweepFrom(m, 0, false);
    var k :| 0 <= k < |m'.handlers| && m'.handlers[k].data.callId == m.handlers[i].data.callId && Overdue(m'.handlers[k], m'.now, IsDropped);
    assert m'.handlers[k] in m'.handlers;
  }

  // ------------------------------------------------- what a retract comes to

  /** A retract that reaches a call ends it if it takes the call's only branch:
      before the next event the call is announced as dropped and gone from the
      list.  If it does not, the call stays in its state, its clock running on,
      unless it had outlived its limit. */
  lemma RetractEndsItsCallExactlyWhen(steps: seq<Step>, i: nat, ev: Event, off: bool)
    requires Legal(START, steps) && ev.Retract? && ev.eid == Run(START, steps).given
    requires i < |Run(START, steps).handlers| && RecipientOf(Run(START, steps), ev) == Call(i)
    ensures var h := Run(START, steps).handlers[i];
            var m' := Apply(Run(START, steps), Deliver(ev, off));
            && Note(h.data.callId, if EndsWith(h, ev) then Dropped else h.state, IsYourEventHandled) in m'.notes
            && (EndsWith(h, ev) ==>
                  && Note(h.data.callId, Dropped, RemovedHandler) in m'.notes
                  && forall k :: 0 <= k < |m'.handlers| ==> m'.handlers[k].data.callId != h.data.callId)
            && (!EndsWith(h, ev) && !h.state.Dropped? && (off || WithinItsLimit(h, Run(START, steps).now)) ==>
                  exists g :: g in m'.handlers && g.data.callId == h.data.callId && g.state == h.state && g.since == h.since)
  {
    hide Routed, RecipientOf, HandlerOk, EndsWith, WithinItsLimit;
    Reachable(steps);
    var m := Run(START, steps);
    var m' := RetractDelivered(m, i, ev, off);
    EventStepIsApply(m, Deliver(ev, off));
    var _ := ApplyInv(m, Deliver(ev, off));
  }

  lemma RetractDelivered(m: Machine, i: nat, ev: Event, off: bool) returns (m': Machine)
    requires AllOk(m, |m.handlers|) && ev.Retract? && i < |m.handlers| && RecipientOf(m, ev) == Call(i)
    ensures m' == Routed(m.(given := m.given + 1), ev, off)
    ensures var h := m.handlers[i];
            && Note(h.data.callId, if EndsWith(h, ev) then Dropped else h.state, IsYourEventHandled) in m'.notes
            && (EndsWith(h, ev) ==> Note(h.data.callId, Dropped, RemovedHandler) in m'.notes)
            && (!EndsWith(h, ev) && !h.state.Dropped? && (off || WithinItsLimit(h, m.now)) ==>
                  exists g :: g in m'.handlers && g.data.callId == h.data.callId && g.state == h.state && g.since == h.since)
  {
    hide Routed, Offered, HandlerOk, EndsWith, WithinItsLimit, SweepFrom, LoginTakes;
    var m1, h := m.(given := m.given + 1), m.handlers[i];
    var o, m2 := Offered(h, ev, m.now, m.lastId), OfferAt(m1, i, ev);
    RoutedByRecipient(m1, ev, off);
    m' := SweepFrom(m2, 0, off);
    RetractDropsExactlyWhen(h, ev, m.now, m.lastId);
    OfferedOk(h, ev, m.now, m.lastId);
    AcceptedIsOffered(h, ev, m.now, m.lastId);
    assert m2.handlers[i] == o.h && m2.now == m.now;
    var note := Note(h.data.callId, o.h.state, IsYourEventHandled);
    assert m2.notes[|m.notes|] == note;
    SweepKeepsNotes(m2, 0, note, off);
    if EndsWith(h, ev) {
      SweepReaches(m2, 0, i, IsDropped, off);
    } else if !h.state.Dropped? && (off || WithinItsLimit(h, m.now)) {
      SameLimit(h, o.h, m.now);
      Kept(m2, off, o.h);
    }
  }

  lemma SameLimit(h: Handler, g: Handler, now: int)
    requires g.state == h.state && g.since == h.since
    ensures WithinItsLimit(g, now) == WithinItsLimit(h, now)
  {
  }

  lemma AcceptedIsOffered(h: Handler, ev: Event, now: int, lastId: nat)
    ensures Offered(h, ev, now, lastId).accepted == Accepts(h, ev)
  {
  }

  // -------------------------------------------- whose events a MakeCall takes

  /** The login machine leaves active call events alone. */
  lemma CallEventsPassLogin(l: Login, ev: Event, lastId: nat)
    requires ev.ActiveCall?
    ensures LoginTakes(l, ev, lastId).None?
  {
  }

  /** In every reachable session an active call event is handed to the first
      call in the list it belongs to: to a MakeCall only with that MakeCall's own
      setup id and one of its addresses, to any other call by its SIP call id;
      to a new call only if it belongs to none. */
  lemma CallEventGoesToItsCall(steps: seq<Step>, ev: Event)
    requires Legal(START, steps) && ev.ActiveCall?
    ensures var m := Run(START, steps);
            && (forall i :: 0 <= i < |m.handlers| ==>
                  (RecipientOf(m, ev) == Call(i)
                   <==> Concerns(m.handlers[i], ev) && forall j :: 0 <= j < i ==> !Concerns(m.handlers[j], ev)))
            && (RecipientOf(m, ev).NewCall?
                <==> StartsCall(ev) && forall j :: 0 <= j < |m.handlers| ==> !Concerns(m.handlers[j], ev))
            && !RecipientOf(m, ev).LoginMachine?
  {
    hide RecipientOf, HandlerOk, IdsOk, NotesOk, Accounted, Concerns, StartsCall, Run, Legal;
    Reachable(steps);
    CallEventRoute(Run(START, steps), ev);
  }

  predicate Concerns(h: Handler, ev: Event)
    requires ev.ActiveCall?
  {
    if h.kind.MakeCall? then OfThisCall(h, ev) else ev.sipCallId == h.data.sipCallId
  }

  lemma CallEventRoute(m: Machine, ev: Event)
    requires AllOk(m, |m.handlers|) && ev.ActiveCall?
    ensures forall i :: 0 <= i < |m.handlers| ==>
              (RecipientOf(m, ev) == Call(i)
               <==> Concerns(m.handlers[i], ev) && forall j :: 0 <= j < i ==> !Concerns(m.handlers[j], ev))
    ensures RecipientOf(m, ev).NewCall?
            <==> StartsCall(ev) && forall j :: 0 <= j < |m.handlers| ==> !Concerns(m.handlers[j], ev)
    ensures !RecipientOf(m, ev).LoginMachine?
  {
    hide VerdictOf, HandlerOk, LoginTakes, Concerns;
    if m.login.Some? {
      CallEventsPassLogin(m.login.value, ev, m.lastId);
    }
    forall j | 0 <= j < |m.handlers|
      ensures Accepts(m.handlers[j], ev) <==> Concerns(m.handlers[j], ev)
    {
      ConcernedAccepts(m.handlers[j], ev);
    }
  }

  lemma ConcernedAccepts(h: Handler, ev: Event)
    requires HandlerOk(h) && ev.ActiveCall?
    ensures Accepts(h, ev) <==> Concerns(h, ev)
  {
    AcceptsExactlyWhen(h, ev);
  }

  predicate NoMakeCallHas(m: Machine, setupId: string) {
    forall j :: 0 <= j < |m.handlers| && m.handlers[j].kind.MakeCall? ==>
      setupId == "" || setupId != m.handlers[j].data.setupId
  }

  /** An event without the setup id of any MakeCall in the list passes all of
      them: it reaches the one call that follows its SIP call, wherever that
      stands, or starts a new call, or is nobody's. */
  lemma ForeignEventPassesMakeCalls(steps: seq<Step>, ev: Event)
    requires Legal(START, steps) && ev.ActiveCall?
    requires NoMakeCallHas(Run(START, steps), ev.callSetupId)
    ensures var m := Run(START, steps);
            && (forall i :: 0 <= i < |m.handlers| ==>
                  (RecipientOf(m, ev) == Call(i) <==> !m.handlers[i].kind.MakeCall? && m.handlers[i].data.sipCallId == ev.sipCallId))
            && (RecipientOf(m, ev).NewCall?
                <==> StartsCall(ev) && forall i :: 0 <= i < |m.handlers| && !m.handlers[i].kind.MakeCall? ==> m.handlers[i].data.sipCallId != ev.sipCallId)
  {
    hide RecipientOf, HandlerOk, IdsOk, NotesOk, Accounted, StartsCall, NoMakeCallHas;
    Reachable(steps);
    ForeignRoute(Run(START, steps), ev);
  }

  lemma ForeignRoute(m: Machine, ev: Event)
    requires AllOk(m, |m.handlers|) && SipsDiffer(m) && ev.ActiveCall?
    requires NoMakeCallHas(m, ev.callSetupId)
    ensures forall i :: 0 <= i < |m.handlers| ==>
              (RecipientOf(m, ev) == Call(i) <==> !m.handlers[i].kind.MakeCall? && m.handlers[i].data.sipCallId == ev.sipCallId)
    ensures RecipientOf(m, ev).NewCall?
            <==> StartsCall(ev) && forall i :: 0 <= i < |m.handlers| && !m.handlers[i].kind.MakeCall? ==> m.handlers[i].data.sipCallId != ev.sipCallId
  {
    hide RecipientOf, HandlerOk;
    CallEventRoute(m, ev);
  }
}
