/**
 * What is on record about a call: that its branches carry their latest events,
 * that its last notification tells its state, and that requested calls are
 * admitted in the order of the requests.
 */
module CallRecords {

  import opened Options
  import opened CallHandlers
  import opened CallMachine

  // ------------------------------------------ branches carry their last event

  /** The event leaves a branch behind. */
  predicate Branches(kind: Kind, ev: Event) {
    ev.ActiveCall? && !(kind.MakeCall? && ev.isError)
  }

  /** The last event of a branch among those a handler accepted. */
  function LastOf(kind: Kind, log: seq<Event>, id: string): (r: Option<Event>)
    ensures r.Some? ==> r.value in log && r.value.ActiveCall? && r.value.id == id
    decreases |log|
  {
    if log == [] then None
    else
      var ev := log[|log| - 1];
      if Branches(kind, ev) && ev.id == id then Some(ev) else LastOf(kind, log[..|log| - 1], id)
  }

  lemma LastOfSnoc(kind: Kind, log: seq<Event>, ev: Event, id: string)
    ensures LastOf(kind, log + [ev], id)
         == if Branches(kind, ev) && ev.id == id then Some(ev) else LastOf(kind, log, id)
  {
    assert (log + [ev])[..|log|] == log;
  }

  /** The branch says what its last event said; that of a MakeCall leaves the
      caller out until the outgoing call is there. */
  predicate UpToDateBranch(kind: Kind, log: seq<Event>, b: CallData) {
    var ev := LastOf(kind, log, b.id);
    ev.Some? && Carries(b, ev.value) && (!kind.MakeCall? ==> TellsCaller(b, ev.value))
  }

  predicate BranchesCarry(kind: Kind, log: seq<Event>, bs: seq<CallData>) {
    forall i :: 0 <= i < |bs| ==> UpToDateBranch(kind, log, bs[i])
  }

  lemma OthersStayUpToDate(kind: Kind, log: seq<Event>, ev: Event, b: CallData)
    requires UpToDateBranch(kind, log, b) && !(Branches(kind, ev) && ev.id == b.id)
    ensures UpToDateBranch(kind, log + [ev], b)
  {
    LastOfSnoc(kind, log, ev, b.id);
  }

  lemma AddedBranchesCarry(kind: Kind, log: seq<Event>, ev: Event, bs: seq<CallData>, d: CallData)
    requires BranchesCarry(kind, log, bs) && Distinct(Ids(bs)) && Branches(kind, ev)
    requires Carries(d, ev) && (!kind.MakeCall? ==> TellsCaller(d, ev))
    ensures BranchesCarry(kind, log + [ev], AddBranch(bs, d))
  {
    hide Carries, TellsCaller, UpToDateBranch;
    var k, added := IndexOf(bs, d.id), AddBranch(bs, d);
    NewBranchIsUpToDate(kind, log, ev, d);
    forall i | 0 <= i < |added|
      ensures UpToDateBranch(kind, log + [ev], added[i])
    {
      if i != (if k >= 0 then k else |bs|) {
        assert added[i] == bs[i] && Ids(bs)[i] == bs[i].id;
        assert k >= 0 ==> Ids(bs)[k] == d.id;
        SameBranch(d, ev);
        OthersStayUpToDate(kind, log, ev, bs[i]);
      }
    }
  }

  lemma SameBranch(d: CallData, ev: Event)
    requires ev.ActiveCall? && Carries(d, ev)
    ensures d.id == ev.id
  {
  }

  lemma NewBranchIsUpToDate(kind: Kind, log: seq<Event>, ev: Event, d: CallData)
    requires Branches(kind, ev) && Carries(d, ev) && (!kind.MakeCall? ==> TellsCaller(d, ev))
    ensures UpToDateBranch(kind, log + [ev], d)
  {
    LastOfSnoc(kind, log, ev, d.id);
  }

  lemma RemovedBranchesCarry(kind: Kind, log: seq<Event>, ev: Event, bs: seq<CallData>, id: string)
    requires BranchesCarry(kind, log, bs) && !Branches(kind, ev)
    ensures BranchesCarry(kind, log + [ev], RemoveBranch(bs, id)) && BranchesCarry(kind, log + [ev], bs)
  {
    hide UpToDateBranch;
    forall i | 0 <= i < |bs|
      ensures UpToDateBranch(kind, log + [ev], bs[i])
    {
      OthersStayUpToDate(kind, log, ev, bs[i]);
    }
    var k, bs' := IndexOf(bs, id), RemoveBranch(bs, id);
    assert k >= 0 ==> forall i :: 0 <= i < |bs'| ==> bs'[i] == bs[if i < k then i else i + 1];
  }

  /** Which branch an event leaves behind, or takes away. */
  predicate Rebranched(h: Handler, ev: Event, bs: seq<CallData>, d: CallData) {
    if Branches(h.kind, ev) then
      Carries(d, ev) && (!h.kind.MakeCall? ==> TellsCaller(d, ev)) && bs == AddBranch(h.branches, d)
    else bs == h.branches || (ev.Retract? && bs == RemoveBranch(h.branches, ev.id))
  }

  lemma VerdictRebranches(h: Handler, ev: Event) returns (d: CallData)
    ensures var v := VerdictOf(h, ev);
            v.Stay? || v.Enter? ==> Rebranched(h, ev, v.g.branches, d)
    ensures VerdictOf(h, ev).DropCall? ==> ev.DropRequest?
  {
    hide AddBranch, RemoveBranch;
    if h.kind.MakeCall? && ev.ActiveCall? {
      d := MakeCallRebranches(h, ev);
    } else {
      d := if ev.ActiveCall? then BranchData(ev, h.data.callId, h.data.callType, true, "") else NO_DATA;
    }
  }

  lemma MakeCallRebranches(h: Handler, ev: Event) returns (d: CallData)
    requires h.kind.MakeCall? && ev.ActiveCall?
    ensures var v := VerdictOf(h, ev);
            (v.Stay? || v.Enter? ==> Rebranched(h, ev, v.g.branches, d)) && !v.DropCall?
  {
    hide AddBranch, RemoveBranch, MatchesMakeCall;
    var plain := BranchData(ev, h.data.callId, h.data.callType, false, h.data.setupId);
    var full := BranchData(ev, h.data.callId, h.data.callType, true, h.data.setupId);
    AddTwice(h.branches, plain, full);
    var v := VerdictOf(h, ev);
    d := if (v.Stay? || v.Enter?) && v.g.branches == AddBranch(h.branches, full) then full else plain;
  }

  lemma OfferKeepsRecords(h: Handler, ev: Event, now: int, lastId: nat)
    requires Listed(h) && BranchesCarry(h.kind, h.history.log, h.branches)
    ensures var g := Offered(h, ev, now, lastId).h; BranchesCarry(g.kind, g.history.log, g.branches)
  {
    hide VerdictOf, HandlerOk, BranchesCarry, UpToDateBranch;
    BranchIdsDiffer(h);
    VerdictAlwaysFits(h, ev);
    var d := VerdictRebranches(h, ev);
    var v := VerdictOf(h, ev);
    if Branches(h.kind, ev) {
      if v.Stay? || v.Enter? {
        AddedBranchesCarry(h.kind, h.history.log, ev, h.branches, d);
      }
    } else {
      RemovedBranchesCarry(h.kind, h.history.log, ev, h.branches, if ev.Retract? then ev.id else "");
    }
  }

  lemma BranchIdsDiffer(h: Handler)
    requires HandlerOk(h)
    ensures Distinct(Ids(h.branches))
  {
  }

  lemma NewHandlerOnRecord(kind: Kind, ev: Event, callId: nat, now: int)
    requires ev.ActiveCall? && !kind.MakeCall?
    ensures var h := NewHandler(kind, ev, callId, now); BranchesCarry(h.kind, h.history.log, h.branches)
  {
    NewBranchIsUpToDate(kind, [], ev, NewHandler(kind, ev, callId, now).data);
    assert [] + [ev] == [ev];
  }

  // ------------------------------------------------------- the last word said

  /** What the last notification about a call said of its state. */
  function LastWord(notes: seq<Note>, callId: nat): Option<CallState> {
    if notes == [] then None
    else if notes[|notes| - 1].callId == callId then Some(notes[|notes| - 1].state)
    else LastWord(notes[..|notes| - 1], callId)
  }

  lemma LastWordSnoc(notes: seq<Note>, note: Note, callId: nat)
    ensures LastWord(notes + [note], callId) == if note.callId == callId then Some(note.state) else LastWord(notes, callId)
  {
    assert (notes + [note])[..|notes|] == notes;
  }

  /** Its branches are up to date, and its state is known unless it has run out. */
  predicate HandlerOnRecord(h: Handler, notes: seq<Note>) {
    && BranchesCarry(h.kind, h.history.log, h.branches)
    && (!h.state.Dropped? ==> LastWord(notes, h.data.callId) == Some(h.state))
  }

  predicate OnRecord(m: Machine) {
    forall i :: 0 <= i < |m.handlers| ==> HandlerOnRecord(m.handlers[i], m.notes)
  }

  /** A note about another call leaves a handler's record as it is. */
  lemma OtherNote(h: Handler, notes: seq<Note>, note: Note)
    requires HandlerOnRecord(h, notes) && note.callId != h.data.callId
    ensures HandlerOnRecord(h, notes + [note])
  {
    LastWordSnoc(notes, note, h.data.callId);
  }

  lemma OfferAtOnRecord(m: Machine, i: nat, ev: Event)
    requires Sound(m, |m.handlers|) && OnRecord(m) && i < |m.handlers|
    ensures OnRecord(OfferAt(m, i, ev))
  {
    hide Offered, HandlerOk, HandlerOnRecord, BranchesCarry;
    var h, m' := m.handlers[i], OfferAt(m, i, ev);
    var o := Offered(h, ev, m.now, m.lastId);
    OfferedOk(h, ev, m.now, m.lastId);
    var note := Note(o.h.data.callId, o.h.state, IsYourEventHandled);
    OfferedIsOnRecord(h, ev, m.now, m.lastId, m.notes);
    forall j | 0 <= j < |m.handlers| && j != i
      ensures HandlerOnRecord(m'.handlers[j], m'.notes)
    {
      OtherNote(m.handlers[j], m.notes, note);
    }
  }

  lemma OfferedIsOnRecord(h: Handler, ev: Event, now: int, lastId: nat, notes: seq<Note>)
    requires Listed(h) && HandlerOnRecord(h, notes)
    ensures var g := Offered(h, ev, now, lastId).h;
            HandlerOnRecord(g, notes + [Note(g.data.callId, g.state, IsYourEventHandled)])
  {
    hide Offered, HandlerOk, BranchesCarry;
    OfferKeepsRecords(h, ev, now, lastId);
    var g := Offered(h, ev, now, lastId).h;
    LastWordSnoc(notes, Note(g.data.callId, g.state, IsYourEventHandled), g.data.callId);
  }

  lemma AppendOnRecord(m: Machine, m': Machine, h: Handler, note: Note)
    requires OnRecord(m) && m'.handlers == m.handlers + [h] && m'.notes == m.notes + [note]
    requires note.callId == h.data.callId && note.state == h.state && BranchesCarry(h.kind, h.history.log, h.branches)
    requires forall j :: 0 <= j < |m.handlers| ==> m.handlers[j].data.callId != h.data.callId
    ensures OnRecord(m')
  {
    hide BranchesCarry;
    LastWordSnoc(m.notes, note, h.data.callId);
    forall j | 0 <= j < |m.handlers|
      ensures HandlerOnRecord(m'.handlers[j], m'.notes)
    {
      OtherNote(m.handlers[j], m.notes, note);
    }
  }

  lemma CheckOnRecord(m: Machine, i: nat, off: bool)
    requires IdsOk(m) && OnRecord(m) && i < |m.handlers|
    ensures OnRecord(CheckAt(m, i, off))
  {
    hide BranchesCarry, OwnIds;
    var h, m' := m.handlers[i], CheckAt(m, i, off);
    if Checked(h, m.now, off).exists' {
      assert HandlerOnRecord(m'.handlers[i], m'.notes);
    } else {
      forall j | 0 <= j < |m'.handlers|
        ensures HandlerOnRecord(m'.handlers[j], m'.notes)
      {
        OtherNote(m.handlers[if j < i then j else j + 1], m.notes, Note(h.data.callId, h.state, RemovedHandler));
      }
    }
  }

  lemma {:induction false} SweepOnRecord(m: Machine, i: nat, off: bool, hand: multiset<nat>)
    requires i <= |m.handlers| && Inv(m, i, hand) && OnRecord(m)
    ensures OnRecord(SweepFrom(m, i, off))
    decreases |m.handlers| - i
  {
    hide HandlerOnRecord, AllOk, SipsDiffer, NotesOk, Accounted, Checked;
    if i < |m.handlers| {
      var m' := CheckAt(m, i, off);
      CheckOnRecord(m, i, off);
      CheckAtInv(m, i, off, hand);
      SweepOnRecord(m', if |m'.handlers| == |m.handlers| then i + 1 else i, off, hand);
    }
  }

  lemma DispatchOnRecord(m: Machine, ev: Event)
    requires Inv(m, |m.handlers|, multiset{ev.eid}) && OnRecord(m)
    ensures OnRecord(Dispatched(m, ev).m)
  {
    hide VerdictOf, HandlerOnRecord, HandlerOk, SipsDiffer, NotesOk, Accounted, OfferAt;
    var i := Acceptor(m.handlers, ev);
    if i < |m.handlers| {
      OfferAtOnRecord(m, i, ev);
    } else if StartsCall(ev) {
      CreateOnRecord(m, if ev.dialog.CREATED? then Outgoing else Incoming, ev);
    }
  }

  lemma CreateOnRecord(m: Machine, kind: Kind, ev: Event)
    requires IdsOk(m) && OnRecord(m) && ev.ActiveCall? && !kind.MakeCall?
    ensures OnRecord(Create(m, kind, ev))
  {
    var h := NewHandler(kind, ev, m.lastId + 1, m.now);
    NewHandlerOnRecord(kind, ev, m.lastId + 1, m.now);
    forall j | 0 <= j < |m.handlers|
      ensures m.handlers[j].data.callId != h.data.callId
    {
      assert OwnIds(m, m.handlers[j]);
    }
    AppendOnRecord(m, Create(m, kind, ev), h, Note(h.data.callId, h.state, NewHandlerCreated));
  }

  lemma AdmitOnRecord(m: Machine, setupId: string, toSip: string, fromSip: string)
    requires IdsOk(m) && OnRecord(m) && m.pending != []
    ensures OnRecord(Admitted(m, setupId, toSip, fromSip))
  {
    var r := m.pending[0];
    var h := NewMakeCall(r.toDial, r.callId, m.lastId + 1, setupId, toSip, fromSip, m.now);
    forall j | 0 <= j < |m.handlers|
      ensures m.handlers[j].data.callId != h.data.callId
    {
      assert OwnIds(m, m.handlers[j]);
    }
    AppendOnRecord(m, Admitted(m, setupId, toSip, fromSip), h, Note(r.callId, h.state, AddedHandler));
  }

  lemma SignalOnRecord(m: Machine, ev: Event, deleteRefused: bool, off: bool)
    requires Inv(m, |m.handlers|, multiset{ev.eid}) && OnRecord(m)
    ensures OnRecord(SignalEvent(m, ev, deleteRefused, off).m)
  {
    hide Dispatched, HandlerOnRecord, HandlerOk, SipsDiffer, IdsOk, NotesOk, Accounted;
    var s := Dispatched(m, ev);
    DispatchOnRecord(m, ev);
    DispatchedInv(m, ev);
    if s.handled {
      SweepOnRecord(s.m, 0, off, multiset{});
    } else if deleteRefused {
      FreeInv(m, |m.handlers|, ev.eid);
      SweepOnRecord(Free(m, ev.eid), 0, off, multiset{});
    } else {
      SweepOnRecord(m, 0, off, multiset{ev.eid});
    }
  }

  lemma EventOnRecord(m: Machine, st: Step) returns (m': Machine)
    requires Enabled(m, st) && Inv(m, |m.handlers|, multiset{}) && IsEvent(st) && OnRecord(m)
    ensures EventStep(m, st, m') && OnRecord(m')
  {
    hide HandlerOnRecord, SignalEvent, Inv;
    var m1 := m.(given := m.given + 1);
    ReceivedInv(m, st.ev);
    match st
    case Deliver(ev, off) =>
      m' := Routed(m1, ev, off);
      SignalOnRecord(m1, ev, false, off);
    case Inject(ev, off) =>
      m' := SignalEvent(m1, ev, true, off).m;
      SignalOnRecord(m1, ev, true, off);
    case InjectLogin(ev) =>
      var s := LoginSignalled(m1, ev);
      m' := if s.handled then s.m else Free(s.m, ev.eid);
  }

  lemma StepOnRecord(m: Machine, st: Step)
    requires Enabled(m, st) && Inv(m, |m.handlers|, multiset{}) && OnRecord(m)
    ensures OnRecord(Apply(m, st))
  {
    hide HandlerOnRecord, HandlerOk, Accounted, SweepFrom, NotesOk, SipsDiffer, Admitted;
    if IsEvent(st) {
      var m' := EventOnRecord(m, st);
      EventStepIsApply(m, st);
    } else if st.Poll? {
      SweepOnRecord(m, 0, st.timeoutsOff, multiset{});
    } else if st.Admit? {
      AdmitOnRecord(m, st.setupId, st.toSip, st.fromSip);
    }
  }

  lemma {:induction false} RunOnRecord(m: Machine, steps: seq<Step>)
    requires Legal(m, steps) && Inv(m, |m.handlers|, multiset{}) && OnRecord(m)
    ensures OnRecord(Run(m, steps))
    decreases |steps|
  {
    hide Inv, OnRecord;
    if steps != [] {
      StepOnRecord(m, steps[0]);
      var m' := ApplyInv(m, steps[0]);
      RunOnRecord(m', steps[1..]);
    }
  }

  /** Whoever follows the notifications knows the state of every call: the last
      one about a call in the list says the state it is in, unless its time has
      run out since, which is announced with its removal. */
  lemma LastWordTellsTheState(steps: seq<Step>, i: nat)
    requires Legal(START, steps) && i < |Run(START, steps).handlers|
    ensures var m := Run(START, steps);
            m.handlers[i].state.Dropped? || LastWord(m.notes, m.handlers[i].data.callId) == Some(m.handlers[i].state)
  {
    hide OnRecord, LastWord;
    Recorded(steps);
    AsRecorded(Run(START, steps), i);
  }

  lemma Recorded(steps: seq<Step>)
    requires Legal(START, steps)
    ensures OnRecord(Run(START, steps))
  {
    hide Legal, Run;
    RunOnRecord(START, steps);
  }

  lemma AsRecorded(m: Machine, i: nat)
    requires OnRecord(m) && i < |m.handlers|
    ensures HandlerOnRecord(m.handlers[i], m.notes)
    ensures m.handlers[i].state.Dropped? || LastWord(m.notes, m.handlers[i].data.callId) == Some(m.handlers[i].state)
  {
    hide BranchesCarry, LastWord;
  }

  /** A request to drop a call asks the server to drop each branch by the SIP call
      id and tags of the last event the branch was heard of by. */
  lemma DropRequestNamesTheLatestTags(steps: seq<Step>, i: nat, ev: Event, k: nat)
    requires Legal(START, steps) && i < |Run(START, steps).handlers|
    requires var h := Run(START, steps).handlers[i]; ev == DropRequest(ev.eid, h.data.callId) && k < |h.branches|
    ensures var m := Run(START, steps);
            var h := m.handlers[i];
            var sent := Offered(h, ev, m.now, m.lastId).sent;
            var last := LastOf(h.kind, h.history.log, h.branches[k].id);
            && last.Some? && |sent| == |h.branches|
            && (sent[k].sipCallId, sent[k].fromTag, sent[k].toTag) == (last.value.sipCallId, last.value.fromTag, last.value.toTag)
  {
    hide OnRecord, HandlerOnRecord, Offered, LastOf;
    Recorded(steps);
    var m := Run(START, steps);
    AsRecorded(m, i);
    NamesLatestTags(m.handlers[i], m.notes, ev, m.now, m.lastId, k);
  }

  lemma NamesLatestTags(h: Handler, notes: seq<Note>, ev: Event, now: int, lastId: nat, k: nat)
    requires HandlerOnRecord(h, notes) && ev == DropRequest(ev.eid, h.data.callId) && k < |h.branches|
    ensures var sent := Offered(h, ev, now, lastId).sent;
            var last := LastOf(h.kind, h.history.log, h.branches[k].id);
            && last.Some? && |sent| == |h.branches|
            && (sent[k].sipCallId, sent[k].fromTag, sent[k].toTag) == (last.value.sipCallId, last.value.fromTag, last.value.toTag)
  {
    hide Offered, LastOf, LastWord;
    DropRequestDropsEveryBranch(h, ev, now, lastId);
    assert UpToDateBranch(h.kind, h.history.log, h.branches[k]);
  }

  // ----------------------------------------------- requested calls are admitted

  /** The calls admitted, in order. */
  function AddedIds(notes: seq<Note>): seq<nat> {
    if notes == [] then []
    else
      AddedIds(notes[..|notes| - 1]) +
      if notes[|notes| - 1].reason.AddedHandler? then [notes[|notes| - 1].callId] else []
  }

  function PendingIds(pending: seq<CallRequest>): seq<nat> {
    seq(|pending|, k requires 0 <= k < |pending| => pending[k].callId)
  }

  lemma AddedSnoc(notes: seq<Note>, note: Note)
    ensures AddedIds(notes + [note]) == AddedIds(notes) + if note.reason.AddedHandler? then [note.callId] else []
  {
    assert (notes + [note])[..|notes|] == notes;
  }

  /** Nothing was admitted. */
  predicate AdmitsNothing(m: Machine, m': Machine) {
    AddedIds(m'.notes) == AddedIds(m.notes) && m'.pending == m.pending
  }

  lemma {:induction false} SweepAdmitsNothing(m: Machine, i: nat, off: bool)
    requires i <= |m.handlers|
    ensures AdmitsNothing(m, SweepFrom(m, i, off))
    decreases |m.handlers| - i
  {
    hide Checked;
    if i < |m.handlers| {
      var m', h := CheckAt(m, i, off), m.handlers[i];
      AddedSnoc(m.notes, Note(h.data.callId, h.state, RemovedHandler));
      SweepAdmitsNothing(m', if |m'.handlers| == |m.handlers| then i + 1 else i, off);
    }
  }

  lemma OfferAdmitsNothing(m: Machine, i: nat, ev: Event)
    requires i < |m.handlers|
    ensures AdmitsNothing(m, OfferAt(m, i, ev))
  {
    hide Offered, AddedIds;
    var o := Offered(m.handlers[i], ev, m.now, m.lastId);
    AddedSnoc(m.notes, Note(o.h.data.callId, o.h.state, IsYourEventHandled));
  }

  lemma CreateAdmitsNothing(m: Machine, kind: Kind, ev: Event)
    requires ev.ActiveCall? && !kind.MakeCall?
    ensures AdmitsNothing(m, Create(m, kind, ev))
  {
    hide NewHandler, AddedIds;
    var h := NewHandler(kind, ev, m.lastId + 1, m.now);
    AddedSnoc(m.notes, Note(h.data.callId, h.state, NewHandlerCreated));
  }

  lemma DispatchAdmitsNothing(m: Machine, ev: Event)
    ensures AdmitsNothing(m, Dispatched(m, ev).m)
  {
    hide OfferAt, Create, AddedIds;
    var i := Acceptor(m.handlers, ev);
    if i < |m.handlers| {
      OfferAdmitsNothing(m, i, ev);
    } else if StartsCall(ev) {
      CreateAdmitsNothing(m, if ev.dialog.CREATED? then Outgoing else Incoming, ev);
    }
  }

  lemma SignalAdmitsNothing(m: Machine, ev: Event, deleteRefused: bool, off: bool)
    ensures AdmitsNothing(m, SignalEvent(m, ev, deleteRefused, off).m)
  {
    hide SweepFrom, Dispatched, AddedIds;
    var s := Dispatched(m, ev);
    DispatchAdmitsNothing(m, ev);
    SweepAdmitsNothing(if !s.handled && deleteRefused then Free(s.m, ev.eid) else s.m, 0, off);
  }

  lemma EventAdmitsNothing(m: Machine, st: Step) returns (m': Machine)
    requires Enabled(m, st) && IsEvent(st)
    ensures EventStep(m, st, m') && AdmitsNothing(m, m')
  {
    hide SignalEvent;
    var m1 := m.(given := m.given + 1);
    match st
    case Deliver(ev, off) =>
      m' := Routed(m1, ev, off);
      SignalAdmitsNothing(m1, ev, false, off);
    case Inject(ev, off) =>
      m' := SignalEvent(m1, ev, true, off).m;
      SignalAdmitsNothing(m1, ev, true, off);
    case InjectLogin(ev) =>
      var s := LoginSignalled(m1, ev);
      m' := if s.handled then s.m else Free(s.m, ev.eid);
  }

  /** The call ids given out to requests. */
  function RequestedIds(m: Machine, steps: seq<Step>): seq<nat>
    requires Legal(m, steps)
    decreases |steps|
  {
    if steps == [] then []
    else (if steps[0].RequestCall? then [m.lastId + 1] else []) + RequestedIds(Apply(m, steps[0]), steps[1..])
  }

  lemma StepAdmitsInOrder(m: Machine, st: Step)
    requires Enabled(m, st)
    ensures var m' := Apply(m, st);
            AddedIds(m'.notes) + PendingIds(m'.pending)
            == AddedIds(m.notes) + PendingIds(m.pending) + if st.RequestCall? then [m.lastId + 1] else []
  {
    hide SweepFrom;
    if IsEvent(st) {
      var m' := EventAdmitsNothing(m, st);
      EventStepIsApply(m, st);
    } else if st.Poll? {
      SweepAdmitsNothing(m, 0, st.timeoutsOff);
    } else if st.Admit? {
      AddedSnoc(m.notes, Note(m.pending[0].callId, MakeCallSet, AddedHandler));
      assert PendingIds(m.pending) == [m.pending[0].callId] + PendingIds(m.pending[1..]);
    }
  }

  lemma {:induction false} RunAdmitsInOrder(m: Machine, steps: seq<Step>)
    requires Legal(m, steps)
    ensures var m' := Run(m, steps);
            AddedIds(m'.notes) + PendingIds(m'.pending)
            == AddedIds(m.notes) + PendingIds(m.pending) + RequestedIds(m, steps)
    decreases |steps|
  {
    hide Apply, AddedIds, PendingIds;
    if steps != [] {
      StepAdmitsInOrder(m, steps[0]);
      RunAdmitsInOrder(Apply(m, steps[0]), steps[1..]);
    }
  }

  /** Every call ever requested has been admitted or waits to be, in the order of
      the requests and once; the one admitted next dials the number of the oldest
      request waiting. */
  lemma CallsAreAdmittedInOrder(steps: seq<Step>, setupId: string, toSip: string, fromSip: string)
    requires Legal(START, steps)
    ensures var m := Run(START, steps); AddedIds(m.notes) + PendingIds(m.pending) == RequestedIds(START, steps)
    ensures var m := Run(START, steps);
            m.pending != [] ==>
              var m' := Apply(m, Admit(setupId, toSip, fromSip));
              && |m'.handlers| == |m.handlers| + 1 && m.handlers <= m'.handlers
              && var h := m'.handlers[|m.handlers|];
                 h.data.callId == m.pending[0].callId && h.data.remoteId == m.pending[0].toDial && h.data.setupId == setupId
  {
    hide Apply;
    RunAdmitsInOrder(START, steps);
    assert AddedIds(START.notes) + PendingIds(START.pending) == [];
    if Run(START, steps).pending != [] {
      AdmitsTheOldest(Run(START, steps), setupId, toSip, fromSip);
    }
  }

  lemma AdmitsTheOldest(m: Machine, setupId: string, toSip: string, fromSip: string)
    requires m.pending != []
    ensures var m' := Apply(m, Admit(setupId, toSip, fromSip));
            && |m'.handlers| == |m.handlers| + 1 && m.handlers <= m'.handlers
            && var h := m'.handlers[|m.handlers|];
               h.data.callId == m.pending[0].callId && h.data.remoteId == m.pending[0].toDial && h.data.setupId == setupId
  {
  }
}
