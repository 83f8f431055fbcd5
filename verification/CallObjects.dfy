/**
 * The call handlers and their state machine as objects that change in place.
 * Every method is proved against the values of `CallHandlers` and
 * `CallMachine` it stands for.
 */
module CallObjects {

  import opened Options
  import opened Sequences
  import opened CallHandlers
  import M = CallMachine

  /** What the handlers use of the session: the clock, the source of unique ids
      and the requests sent to the server. */
  class Session {
    var now: int
    var lastId: nat
    var sent: seq<Sent>

    constructor ()
      ensures now == 0 && lastId == 0 && sent == []
    {
      now, lastId, sent := 0, 0, [];
    }

    method UniqueId() returns (id: nat)
      modifies this`lastId
      ensures id == lastId == old(lastId) + 1
    {
      lastId := lastId + 1;
      id := lastId;
    }

    method DropCall(data: CallData) returns (context: nat)
      modifies this`lastId, this`sent
      ensures context == lastId == old(lastId) + 1
      ensures sent == old(sent) + [Sent(data.sipCallId, data.fromTag, data.toTag, context)]
    {
      context := UniqueId();
      sent := sent + [Sent(data.sipCallId, data.fromTag, data.toTag, context)];
    }
  }

  function FreshIds(lastId: nat, n: nat): seq<nat> {
    seq(n, i requires 0 <= i < n => lastId + 1 + i)
  }

  /** The drop requests for branches, each under its own id. */
  function Requests(bs: seq<CallData>, lastId: nat): seq<Sent> {
    seq(|bs|, i requires 0 <= i < |bs| => Sent(bs[i].sipCallId, bs[i].fromTag, bs[i].toTag, lastId + 1 + i))
  }

  lemma {:induction false} RemoveFirstAt(s: seq<nat>, i: nat)
    requires i < |s| && s[i] !in s[..i]
    ensures RemoveFirst(s, s[i]) == s[..i] + s[i + 1..]
  {
    if i > 0 {
      assert s[0] == s[..i][0];
      assert s[..i][1..] == s[1..][..i - 1];
      RemoveFirstAt(s[1..], i - 1);
    }
  }

  class CallHandler {
    const kind: Kind
    var state: CallState
    var held: Option<nat>
    var since: int
    var data: CallData
    var branches: seq<CallData>
    var dropContexts: seq<nat>
    var dial: Dial
    ghost var history: History

    ghost function View(): Handler
      reads this
    {
      Handler(kind, state, held, since, data, branches, dropContexts, dial, history)
    }

    constructor FromEvent(k: Kind, ev: Event, callId: nat, now: int)
      requires ev.ActiveCall? && !k.MakeCall?
      ensures View() == NewHandler(k, ev, callId, now)
    {
      var first := if k.Outgoing? then PhysicalOutProceeding else Offering;
      var d := BranchData(ev, callId, if k.Outgoing? then PhysicalType else IncomingType, true, "");
      kind, state, held, since := k, first, Some(ev.eid), now;
      data, branches, dropContexts, dial := d, [d], [], NO_DIAL;
      history := History(now, [first], [ev]);
    }

    constructor Calling(toDial: string, callId: nat, contextId: nat, setupId: string, toSip: string, fromSip: string, now: int)
      ensures View() == NewMakeCall(toDial, callId, contextId, setupId, toSip, fromSip, now)
    {
      kind, state, held, since := MakeCall, MakeCallSet, None, now;
      data := NO_DATA.(callId := callId, callType := MakeCallType, remoteId := toDial, setupId := setupId);
      branches, dropContexts := [], [];
      dial := Dial(contextId, "", toSip, fromSip, "", "");
      history := History(now, [PreMakeCall, MakeCallSet], []);
    }

    /** assignNewState: the event held so far is deleted. */
    method AssignNewState(s: CallState, ev: Option<nat>, now: int) returns (freed: seq<nat>)
      modifies this`state, this`held, this`since, this`history
      ensures View() == Assign(old(View()), s, ev, now) && freed == HeldBy(old(View()))
    {
      freed := if held.Some? then [held.value] else [];
      state, held, since := s, ev, now;
      history := history.(path := history.path + [s]);
    }

    /** A change of state that keeps the event. */
    method EnterWith(s: CallState, ev: Event, now: int) returns (freed: seq<nat>)
      modifies this`state, this`held, this`since, this`history
      ensures View() == Logged(Assign(old(View()), s, Some(ev.eid), now), ev) && freed == HeldBy(old(View()))
    {
      freed := AssignNewState(s, Some(ev.eid), now);
      history := history.(log := history.log + [ev]);
    }

    /** An event that is accepted and deleted. */
    method Discard(ev: Event) returns (freed: seq<nat>)
      modifies this`history
      ensures View() == Logged(old(View()), ev) && freed == [ev.eid]
    {
      freed := [ev.eid];
      history := history.(log := history.log + [ev]);
    }

    // ------------------------------------------------------------- branches

    method IdIndex(id: string) returns (i: int)
      ensures i == IndexOf(branches, id)
    {
      i := 0;
      while i < |branches|
        invariant 0 <= i <= |branches|
        invariant forall k :: 0 <= k < i ==> branches[k].id != id
      {
        if branches[i].id == id {
          IndexIs(branches, i);
          return;
        }
        i := i + 1;
      }
      assert forall k :: 0 <= k < |branches| ==> Ids(branches)[k] == branches[k].id;
      i := -1;
    }

    method Add(d: CallData)
      modifies this`branches
      ensures branches == AddBranch(old(branches), d)
    {
      var i := IdIndex(d.id);
      if i >= 0 {
        branches := branches[i := d];
      } else {
        branches := branches + [d];
      }
    }

    method RemoveById(id: string)
      modifies this`branches
      ensures branches == RemoveBranch(old(branches), id)
    {
      var i := IdIndex(id);
      if i >= 0 {
        branches := branches[..i] + branches[i + 1..];
      }
    }

    /** Takes the branch out; true if it was the last one. */
    method CheckDroppedCall(id: string) returns (dropped: bool)
      requires HasId(branches, id)
      modifies this`branches, this`data
      ensures View() == BranchDropped(old(View()), id) && dropped == (branches == [])
    {
      RemoveById(id);
      dropped := branches == [];
      if !dropped {
        data := branches[0];
      }
    }

    // --------------------------------------------------------- drop requests

    /** One request to the server for every branch. */
    method DropAll(session: Session)
      modifies this`dropContexts, session`lastId, session`sent
      ensures session.lastId == old(session.lastId) + |branches|
      ensures dropContexts == old(dropContexts) + FreshIds(old(session.lastId), |branches|)
      ensures session.sent == old(session.sent) + Requests(branches, old(session.lastId))
    {
      var i := 0;
      while i < |branches|
        invariant 0 <= i <= |branches|
        invariant session.lastId == old(session.lastId) + i
        invariant dropContexts == old(dropContexts) + FreshIds(old(session.lastId), i)
        invariant session.sent == old(session.sent) + Requests(branches[..i], old(session.lastId))
      {
        var context := session.DropCall(branches[i]);
        dropContexts := dropContexts + [context];
        assert Requests(branches[..i + 1], old(session.lastId))
            == Requests(branches[..i], old(session.lastId))
               + [Sent(branches[i].sipCallId, branches[i].fromTag, branches[i].toTag, context)];
        i := i + 1;
      }
      assert branches[..i] == branches;
    }

    /** CheckDropRequestEvent and what follows it. */
    method CheckDropRequestEvent(ev: Event, session: Session) returns (accepted: bool, freed: seq<nat>)
      modifies this, session`lastId, session`sent
      ensures accepted == (ev.DropRequest? && ev.callId == old(data.callId))
      ensures accepted ==> Outcome(DropBranches(old(View()), ev, session.now, old(session.lastId)), accepted, freed, session, old(session.sent))
      ensures !accepted ==> freed == [] && View() == old(View()) && session.lastId == old(session.lastId) && session.sent == old(session.sent)
    {
      accepted, freed := false, [];
      if ev.DropRequest? && ev.callId == data.callId {
        DropAll(session);
        ghost var n, id := |branches|, old(session.lastId);
        assert FreshIds(id, n) == seq(n, i requires 0 <= i < n => id + 1 + i);
        var was := AssignNewState(PreDropCall, None, session.now);
        history := history.(log := history.log + [ev]);
        accepted, freed := true, was + [ev.eid];
      }
    }

    /** The handler, and everything else an offer says, after IsYourEvent. */
    ghost predicate Outcome(o: Offer, accepted: bool, freed: seq<nat>, session: Session, sentBefore: seq<Sent>)
      reads this, session
    {
      && accepted == o.accepted && View() == o.h && freed == o.freed
      && session.lastId == o.lastId && session.sent == sentBefore + o.sent
    }

    method RemoveContext(context: nat) returns (found: bool)
      modifies this`dropContexts
      ensures found == (context in old(dropContexts))
      ensures dropContexts == RemoveFirst(old(dropContexts), context)
    {
      var i := 0;
      while i < |dropContexts|
        invariant 0 <= i <= |dropContexts| && context !in dropContexts[..i]
      {
        if dropContexts[i] == context {
          RemoveFirstAt(dropContexts, i);
          dropContexts := dropContexts[..i] + dropContexts[i + 1..];
          return true;
        }
        i := i + 1;
      }
      assert dropContexts[..i] == dropContexts;
      found := false;
    }

    /** The two kinds of event that all handlers treat alike. */
    method Traffic(ev: Event, session: Session) returns (accepted: bool, freed: seq<nat>)
      requires VerdictOf(View(), ev) == DropTraffic(View(), ev)
      modifies this, session`lastId, session`sent
      ensures Outcome(Offered(old(View()), ev, session.now, old(session.lastId)), accepted, freed, session, old(session.sent))
    {
      accepted, freed := CheckDropRequestEvent(ev, session);
      if !accepted && ev.IqResult? {
        accepted := RemoveContext(ev.context);
        if accepted {
          freed := Discard(ev);
        }
      }
    }

    // ----------------------------------------------------------- IsYourEvent

    method ActiveCallBySip(ev: Event, session: Session) returns (accepted: bool, freed: seq<nat>)
      requires ev.ActiveCall? && !kind.MakeCall?
      modifies this
      ensures Outcome(Offered(old(View()), ev, session.now, old(session.lastId)), accepted, freed, session, old(session.sent))
    {
      accepted, freed := false, [];
      if ev.sipCallId == data.sipCallId {
        accepted := true;
        Add(BranchData(ev, data.callId, data.callType, true, ""));
        if ev.dialog.CONFIRMED? {
          data := WithEvent(data, ev, true);
          freed := EnterWith(Connected, ev, session.now);
        } else {
          freed := Discard(ev);
        }
      }
    }

    method RetractOutgoing(ev: Event, session: Session) returns (accepted: bool, freed: seq<nat>)
      requires ev.Retract? && kind.Outgoing?
      modifies this
      ensures Outcome(Offered(old(View()), ev, session.now, old(session.lastId)), accepted, freed, session, old(session.sent))
    {
      var i := IdIndex(ev.id);
      accepted, freed := i >= 0, [];
      if accepted {
        freed := EnterWith(Dropped, ev, session.now);
      }
    }

    /** A retract of one of the handler's branches. */
    method RetractBranch(ev: Event, session: Session) returns (freed: seq<nat>)
      requires ev.Retract? && !kind.Outgoing? && HasId(branches, ev.id)
      modifies this
      ensures Outcome(Offered(old(View()), ev, session.now, old(session.lastId)), true, freed, session, old(session.sent))
    {
      var last := CheckDroppedCall(ev.id);
      if last {
        freed := EnterWith(Dropped, ev, session.now);
      } else {
        freed := Discard(ev);
      }
    }

    method RetractIncoming(ev: Event, session: Session) returns (accepted: bool, freed: seq<nat>)
      requires ev.Retract? && kind.Incoming?
      modifies this
      ensures Outcome(Offered(old(View()), ev, session.now, old(session.lastId)), accepted, freed, session, old(session.sent))
    {
      var i := IdIndex(ev.id);
      accepted, freed := i >= 0, [];
      if accepted {
        freed := RetractBranch(ev, session);
      }
    }

    method RetractMakeCall(ev: Event, session: Session) returns (freed: seq<nat>)
      requires ev.Retract? && kind.MakeCall?
      modifies this
      ensures Outcome(Offered(old(View()), ev, session.now, old(session.lastId)), true, freed, session, old(session.sent))
    {
      var i := IdIndex(ev.id);
      if i >= 0 {
        freed := RetractBranch(ev, session);
      } else if dial.outId == ev.id {
        freed := EnterWith(Dropped, ev, session.now);
      } else {
        freed := Discard(ev);
      }
    }

    /** What a MakeCall handler does with an active call event of its call. */
    method Progress(ev: Event, session: Session) returns (freed: seq<nat>)
      requires ev.ActiveCall? && kind.MakeCall? && MatchesMakeCall(View(), ev) && !ev.isError
      modifies this
      ensures Outcome(Offered(old(View()), ev, session.now, old(session.lastId)), true, freed, session, old(session.sent))
    {
      ghost var h := View();
      Add(BranchData(ev, data.callId, data.callType, false, data.setupId));
      var requested := ev.dialog.REQUESTED?;
      if dial.fromSip == ev.toUri && requested {
        freed := OwnPhoneRings(h, ev, session);
      } else if state.MakeCallRequested? && dial.fromSip == ev.toUri {
        data := WithEvent(data, ev, false);
        if ev.dialog.CONFIRMED? {
          freed := EnterWith(MakeCallRequestedAnswered, ev, session.now);
        } else {
          freed := EnterWith(Dropped, ev, session.now);
        }
      } else if state.MakeCallRequestedAnswered? && dial.toSip == ev.toUri {
        freed := OutgoingCallStarts(h, ev, session);
      } else if state.MakeCallOutgoingCreated? && dial.toSip == ev.toUri {
        freed := OutgoingCallAnswers(h, ev, session);
      } else {
        freed := Discard(ev);
      }
    }

    method OwnPhoneRings(ghost h: Handler, ev: Event, session: Session) returns (freed: seq<nat>)
      requires Underway(h, ev) && dial.fromSip == ev.toUri && ev.dialog.REQUESTED?
      modifies this
      ensures Outcome(Offered(h, ev, session.now, session.lastId), true, freed, session, session.sent)
    {
      if state.MakeCallSet? {
        dial := dial.(inSip := ev.sipCallId);
        data := WithEvent(data, ev, false);
        freed := EnterWith(MakeCallRequested, ev, session.now);
      } else {
        freed := Discard(ev);
      }
    }

    method OutgoingCallStarts(ghost h: Handler, ev: Event, session: Session) returns (freed: seq<nat>)
      requires Underway(h, ev) && dial.toSip == ev.toUri && state.MakeCallRequestedAnswered?
      requires !(dial.fromSip == ev.toUri && ev.dialog.REQUESTED?)
      modifies this
      ensures Outcome(Offered(h, ev, session.now, session.lastId), true, freed, session, session.sent)
    {
      dial := dial.(outSip := ev.sipCallId, outId := ev.id);
      if ev.dialog.CREATED? {
        Add(BranchData(ev, data.callId, data.callType, true, data.setupId));
        data := WithEvent(data, ev, true);
        freed := EnterWith(MakeCallOutgoingCreated, ev, session.now);
      } else {
        data := WithEvent(data, ev, true);
        freed := EnterWith(Dropped, ev, session.now);
      }
    }

    method OutgoingCallAnswers(ghost h: Handler, ev: Event, session: Session) returns (freed: seq<nat>)
      requires Underway(h, ev) && dial.toSip == ev.toUri && state.MakeCallOutgoingCreated?
      requires !(dial.fromSip == ev.toUri && ev.dialog.REQUESTED?)
      modifies this
      ensures Outcome(Offered(h, ev, session.now, session.lastId), true, freed, session, session.sent)
    {
      if ev.dialog.CONFIRMED? {
        Add(BranchData(ev, data.callId, data.callType, true, data.setupId));
        data := WithEvent(data, ev, true);
        freed := EnterWith(Connected, ev, session.now);
      } else {
        freed := EnterWith(Dropped, ev, session.now);
      }
    }

    /** The branch of the event has been noted, and nothing else done. */
    ghost predicate Underway(h: Handler, ev: Event)
      reads this
    {
      ev.ActiveCall? && kind.MakeCall? && MatchesMakeCall(h, ev) && !ev.isError && View() == WithBranch(h, ev)
    }

    method ActiveMakeCall(ev: Event, session: Session) returns (accepted: bool, freed: seq<nat>)
      requires ev.ActiveCall? && kind.MakeCall?
      modifies this
      ensures Outcome(Offered(old(View()), ev, session.now, old(session.lastId)), accepted, freed, session, old(session.sent))
    {
      var matchSips := ev.toUri == dial.toSip || ev.toUri == dial.fromSip || ev.fromUri == dial.toSip || ev.fromUri == dial.fromSip;
      accepted, freed := matchSips && data.setupId != "" && data.setupId == ev.callSetupId, [];
      if accepted {
        if ev.isError {
          freed := EnterWith(Dropped, ev, session.now);
        } else {
          freed := Progress(ev, session);
        }
      }
    }

    method MakeCallReply(ev: Event, session: Session) returns (accepted: bool, freed: seq<nat>)
      requires ev.CallRequestReply? && kind.MakeCall?
      modifies this
      ensures Outcome(Offered(old(View()), ev, session.now, old(session.lastId)), accepted, freed, session, old(session.sent))
    {
      accepted, freed := ev.context == dial.contextId, [];
      if accepted {
        if ev.isError {
          freed := EnterWith(Dropped, ev, session.now);
        } else {
          freed := Discard(ev);
        }
      }
    }

    /** A refused event changes nothing; an accepted one is kept or deleted, and
        the handler goes on as the specification says. */
    method IsYourEvent(ev: Event, session: Session) returns (accepted: bool, freed: seq<nat>)
      modifies this, session`lastId, session`sent
      ensures Outcome(Offered(old(View()), ev, session.now, old(session.lastId)), accepted, freed, session, old(session.sent))
    {
      if ev.ActiveCall? {
        if kind.MakeCall? {
          accepted, freed := ActiveMakeCall(ev, session);
        } else {
          accepted, freed := ActiveCallBySip(ev, session);
        }
      } else if ev.Retract? {
        match kind
        case Outgoing => accepted, freed := RetractOutgoing(ev, session);
        case Incoming => accepted, freed := RetractIncoming(ev, session);
        case MakeCall =>
          accepted := true;
          freed := RetractMakeCall(ev, session);
      } else if ev.CallRequestReply? && kind.MakeCall? {
        accepted, freed := MakeCallReply(ev, session);
      } else {
        accepted, freed := Traffic(ev, session);
      }
    }

    /** CheckStateTimeout. */
    method CheckStateTimeout(s: CallState, timeout: int, now: int, timeoutsOff: bool) returns (dropped: bool, freed: seq<nat>)
      modifies this
      ensures dropped == (old(state) == s && now - old(since) > timeout && !timeoutsOff)
      ensures dropped ==> View() == Assign(old(View()), Dropped, None, now) && freed == HeldBy(old(View()))
      ensures !dropped ==> View() == old(View()) && freed == []
    {
      dropped, freed := false, [];
      if state == s && now - since > timeout && !timeoutsOff {
        freed := AssignNewState(Dropped, None, now);
        dropped := true;
      }
    }

    /** The states with a limit are tried in turn; the first that has run out
        drops the call, which is reported gone only by the next check. */
    method IsStillExist(now: int, timeoutsOff: bool) returns (exists': bool, freed: seq<nat>)
      modifies this
      ensures Check(exists', View(), freed) == Checked(old(View()), now, timeoutsOff)
    {
      var dropped;
      if kind.Outgoing? {
        dropped, freed := CheckStateTimeout(PhysicalOutProceeding, OUTBOUND_REQUEST_TIMEOUT, now, timeoutsOff);
      } else if kind.Incoming? {
        dropped, freed := CheckStateTimeout(Offering, INBOUND_OFFERING_TIMEOUT, now, timeoutsOff);
      } else {
        dropped, freed := CheckMakeCallTimeouts(now, timeoutsOff);
      }
      if dropped {
        return true, freed;
      }
      dropped, freed := CheckStateTimeout(Connected, CONNECTED_CALL_TIMEOUT, now, timeoutsOff);
      if dropped {
        return true, freed;
      }
      dropped, freed := CheckStateTimeout(PreDropCall, DROP_REQUEST_TIMEOUT, now, timeoutsOff);
      if dropped {
        return true, freed;
      }
      return !state.Dropped?, [];
    }

    method CheckMakeCallTimeouts(now: int, timeoutsOff: bool) returns (dropped: bool, freed: seq<nat>)
      requires kind.MakeCall?
      modifies this
      ensures dropped == (1 <= Rank(old(state)) <= 4 && TimedOut(old(View()), now, timeoutsOff))
      ensures dropped ==> View() == Assign(old(View()), Dropped, None, now) && freed == HeldBy(old(View()))
      ensures !dropped ==> View() == old(View()) && freed == []
    {
      dropped, freed := CheckStateTimeout(MakeCallSet, MAKECALL_CREATE_TIMEOUT, now, timeoutsOff);
      if dropped {
        return;
      }
      dropped, freed := CheckStateTimeout(MakeCallRequested, MAKECALL_INBOUND_REQUEST_TIMEOUT, now, timeoutsOff);
      if dropped {
        return;
      }
      dropped, freed := CheckStateTimeout(MakeCallRequestedAnswered, MAKECALL_INBOUND_ANSWERED_TIMEOUT, now, timeoutsOff);
      if dropped {
        return;
      }
      dropped, freed := CheckStateTimeout(MakeCallOutgoingCreated, OUTBOUND_REQUEST_TIMEOUT, now, timeoutsOff);
    }
  }

  /** The login handler, which sees every event first. */
  class LoginHandler {
    var state: M.LoginState
    var contextId: nat
    var unsubscribeId: nat

    ghost function View(): M.Login
      reads this
    {
      M.Login(state, contextId, unsubscribeId)
    }

    constructor ()
      ensures View() == M.Login(M.PreLogin, 0, 0)
    {
      state, contextId, unsubscribeId := M.PreLogin, 0, 0;
    }

    /** Every event accepted is deleted. */
    method IsYourEvent(ev: Event, session: Session) returns (accepted: bool)
      modifies this, session`lastId
      ensures var taken := M.LoginTakes(old(View()), ev, old(session.lastId));
              && accepted == taken.Some?
              && (if taken.Some? then (View(), session.lastId) == taken.value
                  else View() == old(View()) && session.lastId == old(session.lastId))
    {
      accepted := true;
      if state.PreLogin? && (ev.OnConnect? || ev.OnDisconnect?) {
        if ev.OnConnect? && !ev.isError {
          contextId := session.UniqueId();
          state := M.Authorizing;
        } else {
          state := M.LoginError;
        }
      } else if state.Authorizing? && ((ev.IqResult? && ev.context == contextId) || ev.Auth?) {
        state := if ev.isError then M.AuthorizedError else M.EnablingCallEvents;
      } else if state.EnablingCallEvents? && ev.Subscribed? {
        state := if ev.isError then M.EnabledCallError else M.LoggedIn;
      } else if ev.OnDisconnect? {
        state := M.Disconnected;
      } else if ev.ShutdownRequest? {
        unsubscribeId := session.UniqueId();
        state := M.ShuttingDown;
      } else if state.ShuttingDown? && ev.IqResult? && ev.context == unsubscribeId {
        state := M.ShutDown;
      } else {
        accepted := false;
      }
    }
  }

  // ---------------------------------------------------------- the state machine

  ghost function Views(hs: seq<CallHandler>): seq<Handler>
    reads hs
  {
    seq(|hs|, i requires 0 <= i < |hs| reads hs => hs[i].View())
  }

  predicate NoneTwice(hs: seq<CallHandler>) {
    forall i, j :: 0 <= i < j < |hs| ==> hs[i] != hs[j]
  }

  lemma OfferIs(m: M.Machine, i: nat, ev: Event, o: Offer)
    requires i < |m.handlers| && o == Offered(m.handlers[i], ev, m.now, m.lastId)
    ensures o.accepted == Accepts(m.handlers[i], ev)
    ensures !o.accepted ==> o.h == m.handlers[i] && o.lastId == m.lastId && m.handlers[i := o.h] == m.handlers
    ensures M.OfferAt(m, i, ev)
         == m.(handlers := m.handlers[i := o.h], lastId := o.lastId, freed := m.freed + multiset(o.freed),
               notes := m.notes + [M.Note(o.h.data.callId, o.h.state, M.IsYourEventHandled)])
  {
    OfferOwnsTheEvent(m.handlers[i], ev, m.now, m.lastId);
  }

  lemma CheckIs(m: M.Machine, i: nat, timeoutsOff: bool)
    requires i < |m.handlers|
    ensures var c := Checked(m.handlers[i], m.now, timeoutsOff); !c.exists' ==> c.h == m.handlers[i]
  {
  }

  lemma SweepNext(m: M.Machine, i: nat, timeoutsOff: bool)
    requires i < |m.handlers|
    ensures var m' := M.CheckAt(m, i, timeoutsOff);
            && |m'.handlers| <= |m.handlers| <= |m'.handlers| + 1
            && M.SweepFrom(m, i, timeoutsOff)
               == M.SweepFrom(m', if |m'.handlers| == |m.handlers| then i + 1 else i, timeoutsOff)
  {
  }

  lemma SweepEnds(m: M.Machine, timeoutsOff: bool)
    ensures M.SweepFrom(m, |m.handlers|, timeoutsOff) == m.(lastSweep := m.now)
  {
  }

  class StateMachine {
    const session: Session
    var handlers: seq<CallHandler>
    var notes: seq<M.Note>
    // Whatever of the session the call machine does not touch, and its histories.
    ghost var rest: M.Machine

    ghost function View(): M.Machine
      reads this, session, handlers
    {
      rest.(handlers := Views(handlers), notes := notes, now := session.now, lastId := session.lastId)
    }

    ghost predicate Valid()
      reads this
    {
      NoneTwice(handlers)
    }

    constructor (s: Session)
      requires s.now == s.lastId == 0
      ensures Valid() && session == s && View() == M.START && handlers == []
    {
      session, handlers, notes := s, [], [];
      rest := M.START;
    }

    /** _checkStateHandlersExist. */
    method CheckStateHandlersExist(timeoutsOff: bool)
      requires Valid()
      modifies this, handlers
      ensures Valid() && View() == M.SweepFrom(old(View()), 0, timeoutsOff)
      ensures forall h :: h in handlers ==> h in old(handlers)
    {
      ghost var m0 := View();
      var i: nat := 0;
      while i < |handlers|
        invariant i <= |handlers| && Valid()
        invariant forall h :: h in handlers ==> h in old(handlers)
        invariant M.SweepFrom(View(), i, timeoutsOff) == M.SweepFrom(m0, 0, timeoutsOff)
        decreases |handlers| - i
      {
        SweepNext(View(), i, timeoutsOff);
        assert handlers[i] in handlers;
        i := CheckOne(i, timeoutsOff);
      }
      SweepEnds(View(), timeoutsOff);
      rest := rest.(lastSweep := session.now);
    }

    /** One turn of the loop; the position to go on from. */
    method CheckOne(i: nat, timeoutsOff: bool) returns (next: nat)
      requires Valid() && i < |handlers|
      modifies this, handlers[i]
      ensures Valid() && View() == M.CheckAt(old(View()), i, timeoutsOff)
      ensures next == if |handlers| == |old(handlers)| then i + 1 else i
      ensures |handlers| == |old(handlers)| || |handlers| == |old(handlers)| - 1
      ensures forall h :: h in handlers ==> h in old(handlers)
    {
      hide Checked;
      ghost var views := Views(handlers);
      CheckIs(View(), i, timeoutsOff);
      var h := handlers[i];
      var exists', freed := h.IsStillExist(session.now, timeoutsOff);
      if exists' {
        assert Views(handlers) == views[i := h.View()];
        rest := rest.(freed := rest.freed + multiset(freed));
        next := i + 1;
      } else {
        notes := notes + [M.Note(h.data.callId, h.state, M.RemovedHandler)];
        handlers := handlers[..i] + handlers[i + 1..];
        assert Views(handlers) == WithoutAt(views, i);
        rest := rest.(freed := rest.freed + multiset(HeldBy(h.View())), gone := rest.gone + [h.View()]);
        next := i;
      }
    }

    /** Asks one handler. */
    method Ask(i: nat, ev: Event) returns (accepted: bool, freed: seq<nat>, ghost o: Offer)
      requires Valid() && i < |handlers|
      modifies handlers[i], session`lastId, session`sent
      ensures o == Offered(old(handlers[i].View()), ev, session.now, old(session.lastId))
      ensures accepted == o.accepted && freed == o.freed && session.lastId == o.lastId
      ensures Views(handlers) == old(Views(handlers))[i := o.h]
      ensures handlers[i].View() == o.h
    {
      ghost var views := Views(handlers);
      o := Offered(views[i], ev, session.now, session.lastId);
      accepted, freed := handlers[i].IsYourEvent(ev, session);
      assert Views(handlers) == views[i := o.h];
    }

    /** Offers the event to one handler; a refusal changes nothing at all. */
    method OfferOne(i: nat, ev: Event) returns (accepted: bool)
      requires Valid() && i < |handlers|
      modifies this`notes, this`rest, handlers[i], session`lastId, session`sent
      ensures Valid() && accepted == Accepts(old(handlers[i].View()), ev)
      ensures View() == if accepted then M.OfferAt(old(View()), i, ev) else old(View())
    {
      ghost var m := View();
      assert m.handlers[i] == handlers[i].View();
      var freed;
      ghost var o;
      accepted, freed, o := Ask(i, ev);
      if accepted {
        notes := notes + [M.Note(handlers[i].data.callId, handlers[i].state, M.IsYourEventHandled)];
        rest := rest.(freed := rest.freed + multiset(freed));
      }
      OfferIs(m, i, ev, o);
    }

    /** Offers the event to the handlers in turn. */
    method Offer(ev: Event) returns (taken: nat)
      requires Valid()
      modifies this`notes, this`rest, handlers, session`lastId, session`sent
      ensures Valid()
      ensures taken == M.Acceptor(old(Views(handlers)), ev) <= |handlers|
      ensures View() == if taken < |handlers| then M.OfferAt(old(View()), taken, ev) else old(View())
    {
      ghost var m := View();
      taken := 0;
      while taken < |handlers|
        invariant taken <= |handlers| && View() == m
        invariant M.Acceptor(m.handlers, ev) == M.Acceptor(m.handlers, ev, taken)
      {
        assert handlers[taken].View() == m.handlers[taken];
        var accepted := OfferOne(taken, ev);
        if accepted {
          return;
        }
        taken := taken + 1;
      }
    }

    /** UnknownEvent: an active call event may start a new handler. */
    method UnknownEvent(ev: Event) returns (handler: CallHandler?)
      modifies session`lastId
      ensures var known := ev.ActiveCall? && (ev.dialog.CREATED? || ev.dialog.REQUESTED?);
              && (known <==> handler != null)
              && session.lastId == old(session.lastId) + (if known then 1 else 0)
              && (known ==> fresh(handler))
              && (known ==> handler.View()
                            == NewHandler(if ev.dialog.CREATED? then Outgoing else Incoming, ev, session.lastId, session.now))
    {
      handler := null;
      if ev.ActiveCall? {
        if ev.dialog.CREATED? {
          var id := session.UniqueId();
          handler := new CallHandler.FromEvent(Outgoing, ev, id, session.now);
        } else if ev.dialog.REQUESTED? {
          var id := session.UniqueId();
          handler := new CallHandler.FromEvent(Incoming, ev, id, session.now);
        }
      }
    }

    /** Appends a handler created for an event. */
    method Append(h: CallHandler, reason: M.Reason)
      requires Valid() && h !in handlers
      modifies this`handlers, this`notes
      ensures Valid() && handlers == old(handlers) + [h]
      ensures View() == old(View()).(handlers := old(Views(handlers)) + [h.View()],
                                     notes := old(notes) + [M.Note(h.data.callId, h.state, reason)])
    {
      ghost var views := Views(handlers);
      handlers := handlers + [h];
      notes := notes + [M.Note(h.data.callId, h.state, reason)];
      assert Views(handlers) == views + [h.View()];
    }

    /** Everything before the sweep. */
    method Dispatch(ev: Event) returns (handled: bool)
      requires Valid()
      modifies this, handlers, session`lastId, session`sent
      ensures Valid() && M.Signal(View(), handled) == M.Dispatched(old(View()), ev)
      ensures forall h :: h in handlers ==> h in old(handlers) || fresh(h)
    {
      hide VerdictOf, M.OfferAt, M.Acceptor;
      var taken := Offer(ev);
      handled := taken < |handlers|;
      if !handled {
        ghost var m := View();
        var h := UnknownEvent(ev);
        if h != null {
          handled := true;
          Append(h, M.NewHandlerCreated);
        }
      }
    }

    method SignalEvent(ev: Event, deleteRefused: bool, timeoutsOff: bool) returns (handled: bool)
      requires Valid()
      modifies this, handlers, session`lastId, session`sent
      ensures Valid() && M.Signal(View(), handled) == M.SignalEvent(old(View()), ev, deleteRefused, timeoutsOff)
    {
      ghost var before := View();
      handled := Dispatch(ev);
      ghost var dispatched := View();
      if !handled && deleteRefused {
        Delete(ev);
      }
      SignalGoesOn(before, ev, deleteRefused, timeoutsOff, dispatched, handled);
      assert forall i :: 0 <= i < |handlers| ==> handlers[i] in handlers;
      CheckStateHandlersExist(timeoutsOff);
    }

    ghost method Delete(ev: Event)
      modifies this`rest
      ensures View() == M.Free(old(View()), ev.eid)
    {
      rest := rest.(freed := rest.freed + multiset{ev.eid});
    }
  }

  lemma SignalGoesOn(m: M.Machine, ev: Event, deleteRefused: bool, timeoutsOff: bool, m1: M.Machine, handled: bool)
    requires M.Signal(m1, handled) == M.Dispatched(m, ev)
    ensures M.SignalEvent(m, ev, deleteRefused, timeoutsOff)
         == M.Signal(M.SweepFrom(if !handled && deleteRefused then M.Free(m1, ev.eid) else m1, 0, timeoutsOff), handled)
  {
  }
}
