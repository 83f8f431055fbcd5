/**
 * The call state handlers: one handler follows one telephone call through the
 * events of the XMPP server.  Everything here is about a single handler; the
 * state machine that owns the list of handlers is in `CallMachine`.
 *
 * A handler is a value.  `Offered` is IsYourEvent, `Checked` is IsStillExist.
 */
module CallHandlers {

  import opened Options

  datatype DialogState = UNKNOWN | CREATED | CONFIRMED | REQUESTED

  /** An event object.  `eid` stands for its address. */
  datatype Event =
    | ActiveCall(eid: nat, id: string, isError: bool, dialog: DialogState, sipCallId: string,
                 fromUri: string, toUri: string, fromTag: string, toTag: string, branch: string, callSetupId: string)
    | Retract(eid: nat, id: string)
    | DropRequest(eid: nat, callId: nat)
    | IqResult(eid: nat, context: nat, isError: bool)
    | CallRequestReply(eid: nat, context: nat, isError: bool)
    | Auth(eid: nat, isError: bool)
    | Subscribed(eid: nat, isError: bool)
    | OnConnect(eid: nat, isError: bool)
    | OnDisconnect(eid: nat)
    | ShutdownRequest(eid: nat)

  datatype CallType = NoType | MakeCallType | IncomingType | PhysicalType

  datatype CallData = CallData(
    id: string, callId: nat, remoteId: string, calledId: string, sipCallId: string, callType: CallType,
    fromTag: string, toTag: string, branch: string, setupId: string)

  const NO_DATA := CallData("", 0, "", "", "", NoType, "", "", "", "")

  datatype Kind = Outgoing | Incoming | MakeCall

  datatype CallState =
    | Offering | PhysicalOutProceeding | Connected | Dropped
    | PreMakeCall | MakeCallSet | MakeCallRequested | MakeCallRequestedAnswered | MakeCallOutgoingCreated
    | PreDropCall

  /** A DropCall request sent to the server. */
  datatype Sent = Sent(sipCallId: string, fromTag: string, toTag: string, context: nat)

  /** What a handler has been through: when it was set going, the states it
      entered, the events it accepted. */
  datatype History = History(born: int, path: seq<CallState>, log: seq<Event>)

  /** What a MakeCall handler knows of its request to the server. */
  datatype Dial = Dial(contextId: nat, outId: string, toSip: string, fromSip: string, inSip: string, outSip: string)

  const NO_DIAL := Dial(0, "", "", "", "", "")

  /** `held` is the event owned by the current state item, `since` the tick of
      the last state change. */
  datatype Handler = Handler(
    kind: Kind, state: CallState, held: Option<nat>, since: int, data: CallData,
    branches: seq<CallData>, dropContexts: seq<nat>, dial: Dial, history: History)

  // ------------------------------------------------------------- branches

  function Ids(bs: seq<CallData>): seq<string> {
    seq(|bs|, i requires 0 <= i < |bs| => bs[i].id)
  }

  /** Index of the first branch with the id, or -1. */
  function IndexOf(bs: seq<CallData>, id: string): (i: int)
    ensures -1 <= i < |bs|
    ensures i == -1 <==> id !in Ids(bs)
    ensures i >= 0 ==> bs[i].id == id && forall j :: 0 <= j < i ==> bs[j].id != id
  {
    if bs == [] then -1
    else if bs[0].id == id then assert Ids(bs)[0] == id; 0
    else
      var i := IndexOf(bs[1..], id);
      assert Ids(bs) == [bs[0].id] + Ids(bs[1..]);
      if i == -1 then -1 else i + 1
  }

  predicate HasId(bs: seq<CallData>, id: string) {
    IndexOf(bs, id) >= 0
  }

  /** AssignCallStateData without a new call id. */
  function WithEvent(data: CallData, ev: Event, updateCallerId: bool): CallData
    requires ev.ActiveCall?
  {
    var d := data.(id := ev.id, sipCallId := ev.sipCallId, branch := ev.branch, fromTag := ev.fromTag, toTag := ev.toTag);
    if updateCallerId then d.(remoteId := ev.fromUri, calledId := ev.toUri) else d
  }

  /** The call data of a branch created from an event. */
  function BranchData(ev: Event, callId: nat, callType: CallType, updateCallerId: bool, setupId: string): CallData
    requires ev.ActiveCall?
  {
    WithEvent(NO_DATA, ev, updateCallerId).(callId := callId, callType := callType, setupId := setupId)
  }

  function AddBranch(bs: seq<CallData>, d: CallData): seq<CallData> {
    var i := IndexOf(bs, d.id);
    if i >= 0 then bs[i := d] else bs + [d]
  }

  function RemoveBranch(bs: seq<CallData>, id: string): seq<CallData> {
    var i := IndexOf(bs, id);
    if i >= 0 then bs[..i] + bs[i + 1..] else bs
  }

  // ------------------------------------------------------- state changes

  /** Result of offering an event: whether it was accepted, the handler
      afterwards, the events deleted, the last unique id issued, and the drop
      requests sent. */
  datatype Offer = Offer(accepted: bool, h: Handler, freed: seq<nat>, lastId: nat, sent: seq<Sent>)

  function HeldBy(h: Handler): seq<nat> {
    if h.held.Some? then [h.held.value] else []
  }

  /** assignNewState: the event owned so far is deleted. */
  function Assign(h: Handler, state: CallState, ev: Option<nat>, now: int): Handler {
    h.(state := state, held := ev, since := now, history := h.history.(path := h.history.path + [state]))
  }

  function Logged(h: Handler, ev: Event): Handler {
    h.(history := h.history.(log := h.history.log + [ev]))
  }

  function Refuse(h: Handler, lastId: nat): Offer {
    Offer(false, h, [], lastId, [])
  }

  /** Accepted and deleted; the state item is left alone. */
  function Swallow(h: Handler, ev: Event, lastId: nat): Offer {
    Offer(true, Logged(h, ev), [ev.eid], lastId, [])
  }

  /** Accepted and kept by the new state item. */
  function Keep(h: Handler, state: CallState, ev: Event, now: int, lastId: nat): Offer {
    Offer(true, Logged(Assign(h, state, Some(ev.eid), now), ev), HeldBy(h), lastId, [])
  }

  /** CheckDropRequestEvent with a matching call id: one request per branch. */
  function DropBranches(h: Handler, ev: Event, now: int, lastId: nat): Offer {
    var n := |h.branches|;
    var contexts := seq(n, i requires 0 <= i < n => lastId + 1 + i);
    var sent := seq(n, i requires 0 <= i < n =>
      Sent(h.branches[i].sipCallId, h.branches[i].fromTag, h.branches[i].toTag, lastId + 1 + i));
    Offer(true,
          Logged(Assign(h.(dropContexts := h.dropContexts + contexts), PreDropCall, None, now), ev),
          HeldBy(h) + [ev.eid], lastId + n, sent)
  }

  function RemoveFirst(s: seq<nat>, x: nat): (r: seq<nat>)
    ensures x !in s ==> r == s
  {
    if s == [] then [] else if s[0] == x then s[1..] else [s[0]] + RemoveFirst(s[1..], x)
  }

  /** What a handler makes of an event: not its own, accepted without a change
      of state, accepted with one, or a request to drop its call.  `g` is the
      handler with its data and branches brought up to date. */
  datatype Verdict = NotMine | Stay(g: Handler) | Enter(g: Handler, state: CallState) | DropCall

  /** The two events every kind of handler treats alike. */
  function DropTraffic(h: Handler, ev: Event): Verdict {
    if ev.DropRequest? then
      if ev.callId == h.data.callId then DropCall else NotMine
    else if ev.IqResult? && ev.context in h.dropContexts then
      Stay(h.(dropContexts := RemoveFirst(h.dropContexts, ev.context)))
    else NotMine
  }

  /** An active call event, for a handler that goes by the SIP call id. */
  function BySipCallId(h: Handler, ev: Event): Verdict
    requires ev.ActiveCall?
  {
    if ev.sipCallId != h.data.sipCallId then NotMine
    else
      var g := h.(branches := AddBranch(h.branches, BranchData(ev, h.data.callId, h.data.callType, true, "")));
      if ev.dialog.CONFIRMED? then Enter(g.(data := WithEvent(h.data, ev, true)), Connected) else Stay(g)
  }

  function OutgoingVerdict(h: Handler, ev: Event): Verdict {
    if ev.ActiveCall? then BySipCallId(h, ev)
    else if ev.Retract? then
      if HasId(h.branches, ev.id) then Enter(h, Dropped) else NotMine
    else DropTraffic(h, ev)
  }

  /** CheckDroppedCall: the branch goes; the handler's data moves to a branch
      that is left, if there is one. */
  function BranchDropped(h: Handler, id: string): Handler {
    var bs := RemoveBranch(h.branches, id);
    h.(branches := bs, data := if bs != [] then bs[0] else h.data)
  }

  function AfterRetract(h: Handler, id: string): Verdict {
    var g := BranchDropped(h, id);
    if g.branches == [] then Enter(g, Dropped) else Stay(g)
  }

  function IncomingVerdict(h: Handler, ev: Event): Verdict {
    if ev.ActiveCall? then BySipCallId(h, ev)
    else if ev.Retract? then
      if HasId(h.branches, ev.id) then AfterRetract(h, ev.id) else NotMine
    else DropTraffic(h, ev)
  }

  predicate MatchesMakeCall(h: Handler, ev: Event)
    requires ev.ActiveCall?
  {
    && (ev.toUri in {h.dial.toSip, h.dial.fromSip} || ev.fromUri in {h.dial.toSip, h.dial.fromSip})
    && h.data.setupId != "" && h.data.setupId == ev.callSetupId
  }

  /** The branch of an event, without and with its caller ids. */
  function WithBranch(h: Handler, ev: Event): Handler
    requires ev.ActiveCall?
  {
    h.(branches := AddBranch(h.branches, BranchData(ev, h.data.callId, h.data.callType, false, h.data.setupId)))
  }

  function WithCaller(h: Handler, ev: Event): Handler
    requires ev.ActiveCall?
  {
    h.(branches := AddBranch(h.branches, BranchData(ev, h.data.callId, h.data.callType, true, h.data.setupId)),
       data := WithEvent(h.data, ev, true))
  }

  /** The call to the caller's own telephone. */
  function InboundLeg(h: Handler, ev: Event): Verdict
    requires ev.ActiveCall?
  {
    var g := WithBranch(h, ev);
    var told := g.(data := WithEvent(h.data, ev, false));
    if ev.dialog.REQUESTED? then
      if h.state.MakeCallSet? then Enter(told.(dial := h.dial.(inSip := ev.sipCallId)), MakeCallRequested) else Stay(g)
    else if h.state.MakeCallRequested? then
      Enter(told, if ev.dialog.CONFIRMED? then MakeCallRequestedAnswered else Dropped)
    else OutboundLeg(h, ev)
  }

  /** The call to the dialled number. */
  function OutboundLeg(h: Handler, ev: Event): Verdict
    requires ev.ActiveCall?
  {
    var g := WithBranch(h, ev);
    if h.dial.toSip != ev.toUri then Stay(g)
    else if h.state.MakeCallRequestedAnswered? then
      var dial := h.dial.(outSip := ev.sipCallId, outId := ev.id);
      if ev.dialog.CREATED? then Enter(WithCaller(g, ev).(dial := dial), MakeCallOutgoingCreated)
      else Enter(g.(data := WithEvent(h.data, ev, true), dial := dial), Dropped)
    else if h.state.MakeCallOutgoingCreated? then
      if ev.dialog.CONFIRMED? then Enter(WithCaller(g, ev), Connected) else Enter(g, Dropped)
    else Stay(g)
  }

  function MakeCallActive(h: Handler, ev: Event): Verdict
    requires ev.ActiveCall?
  {
    if h.dial.fromSip == ev.toUri then InboundLeg(h, ev) else OutboundLeg(h, ev)
  }

  function MakeCallVerdict(h: Handler, ev: Event): Verdict {
    if ev.ActiveCall? then
      if !MatchesMakeCall(h, ev) then NotMine
      else if ev.isError then Enter(h, Dropped)
      else MakeCallActive(h, ev)
    else if ev.Retract? then
      if HasId(h.branches, ev.id) then AfterRetract(h, ev.id)
      else if h.dial.outId == ev.id then Enter(h, Dropped)
      else Stay(h)
    else if ev.CallRequestReply? then
      if ev.context != h.dial.contextId then NotMine
      else if ev.isError then Enter(h, Dropped)
      else Stay(h)
    else DropTraffic(h, ev)
  }

  function VerdictOf(h: Handler, ev: Event): Verdict {
    match h.kind
    case Outgoing => OutgoingVerdict(h, ev)
    case Incoming => IncomingVerdict(h, ev)
    case MakeCall => MakeCallVerdict(h, ev)
  }

  predicate Accepts(h: Handler, ev: Event) {
    !VerdictOf(h, ev).NotMine?
  }

  /** IsYourEvent of the three kinds of handler. */
  function Offered(h: Handler, ev: Event, now: int, lastId: nat): Offer {
    match VerdictOf(h, ev)
    case NotMine => Refuse(h, lastId)
    case Stay(g) => Swallow(g, ev, lastId)
    case Enter(g, state) => Keep(g, state, ev, now, lastId)
    case DropCall => DropBranches(h, ev, now, lastId)
  }

  // ------------------------------------------------------------- creation

  /** The constructors of the two handlers created from an active call event. */
  function NewHandler(kind: Kind, ev: Event, callId: nat, now: int): Handler
    requires ev.ActiveCall? && !kind.MakeCall?
  {
    var state := if kind.Outgoing? then PhysicalOutProceeding else Offering;
    var d := BranchData(ev, callId, if kind.Outgoing? then PhysicalType else IncomingType, true, "");
    Handler(kind, state, Some(ev.eid), now, d, [d], [], NO_DIAL, History(now, [state], [ev]))
  }

  /** A MakeCall handler after its PreExecute. */
  function NewMakeCall(toDial: string, callId: nat, contextId: nat, setupId: string,
                       toSip: string, fromSip: string, now: int): Handler {
    var d := NO_DATA.(callId := callId, callType := MakeCallType, remoteId := toDial, setupId := setupId);
    Handler(MakeCall, MakeCallSet, None, now, d, [], [], Dial(contextId, "", toSip, fromSip, "", ""),
            History(now, [PreMakeCall, MakeCallSet], []))
  }

  // ------------------------------------------------------------- timeouts

  const MAKECALL_CREATE_TIMEOUT := 10000
  const MAKECALL_INBOUND_REQUEST_TIMEOUT := 45000
  const MAKECALL_INBOUND_ANSWERED_TIMEOUT := 15000
  const OUTBOUND_REQUEST_TIMEOUT := 120000
  const CONNECTED_CALL_TIMEOUT := 10800000
  const INBOUND_OFFERING_TIMEOUT := 120000
  const DROP_REQUEST_TIMEOUT := 10000

  /** How long a handler may stay in a state, where there is a limit. */
  function TimeoutOf(kind: Kind, state: CallState): Option<int> {
    match state
    case Connected => Some(CONNECTED_CALL_TIMEOUT)
    case PreDropCall => Some(DROP_REQUEST_TIMEOUT)
    case PhysicalOutProceeding => if kind.Outgoing? then Some(OUTBOUND_REQUEST_TIMEOUT) else None
    case Offering => if kind.Incoming? then Some(INBOUND_OFFERING_TIMEOUT) else None
    case MakeCallSet => if kind.MakeCall? then Some(MAKECALL_CREATE_TIMEOUT) else None
    case MakeCallRequested => if kind.MakeCall? then Some(MAKECALL_INBOUND_REQUEST_TIMEOUT) else None
    case MakeCallRequestedAnswered => if kind.MakeCall? then Some(MAKECALL_INBOUND_ANSWERED_TIMEOUT) else None
    case MakeCallOutgoingCreated => if kind.MakeCall? then Some(OUTBOUND_REQUEST_TIMEOUT) else None
    case _ => None
  }

  predicate TimedOut(h: Handler, now: int, timeoutsOff: bool) {
    var limit := TimeoutOf(h.kind, h.state);
    limit.Some? && now - h.since > limit.value && !timeoutsOff
  }

  datatype Check = Check(exists': bool, h: Handler, freed: seq<nat>)

  /** IsStillExist.  A timeout drops the call but reports it as existing. */
  function Checked(h: Handler, now: int, timeoutsOff: bool): Check {
    if TimedOut(h, now, timeoutsOff) then Check(true, Assign(h, Dropped, None, now), HeldBy(h))
    else Check(!h.state.Dropped?, h, [])
  }

  // ------------------------------------------------- the fold over history

  function Without(ids: seq<string>, id: string): seq<string> {
    if ids == [] then [] else if ids[0] == id then ids[1..] else [ids[0]] + Without(ids[1..], id)
  }

  /** What one accepted event does to the branch ids. */
  function FoldStep(kind: Kind, ids: seq<string>, ev: Event): seq<string> {
    if ev.ActiveCall? then
      if ev.id in ids || (kind.MakeCall? && ev.isError) then ids else ids + [ev.id]
    else if ev.Retract? && !kind.Outgoing? then Without(ids, ev.id)
    else ids
  }

  /** The branch ids an observer of the accepted events would expect. */
  function Fold(kind: Kind, log: seq<Event>): seq<string>
    decreases |log|
  {
    if log == [] then [] else FoldStep(kind, Fold(kind, log[..|log| - 1]), log[|log| - 1])
  }

  lemma FoldSnoc(kind: Kind, log: seq<Event>, ev: Event)
    ensures Fold(kind, log + [ev]) == FoldStep(kind, Fold(kind, log), ev)
  {
    assert (log + [ev])[..|log|] == log;
  }

  predicate Distinct<T(==)>(s: seq<T>) {
    forall i, j :: 0 <= i < j < |s| ==> s[i] != s[j]
  }

  lemma {:induction false} WithoutAbsent(ids: seq<string>, id: string)
    requires id !in ids
    ensures Without(ids, id) == ids
  {
    if ids != [] {
      WithoutAbsent(ids[1..], id);
    }
  }

  lemma {:induction false} WithoutSplits(ids: seq<string>, i: nat)
    requires i < |ids| && ids[i] !in ids[..i]
    ensures Without(ids, ids[i]) == ids[..i] + ids[i + 1..]
  {
    if i > 0 {
      assert ids[0] == ids[..i][0];
      assert ids[..i][1..] == ids[1..][..i - 1];
      WithoutSplits(ids[1..], i - 1);
    }
  }

  lemma IdsAfterAdd(bs: seq<CallData>, d: CallData)
    ensures Ids(AddBranch(bs, d)) == if d.id in Ids(bs) then Ids(bs) else Ids(bs) + [d.id]
    ensures Distinct(Ids(bs)) ==> Distinct(Ids(AddBranch(bs, d)))
    ensures d.id in Ids(AddBranch(bs, d)) && d in AddBranch(bs, d)
    ensures forall b :: b in AddBranch(bs, d) ==> b == d || b in bs
  {
    var i := IndexOf(bs, d.id);
    if i >= 0 {
      assert Ids(bs)[i] == d.id;
      assert AddBranch(bs, d)[i] == d;
    } else {
      assert AddBranch(bs, d)[|bs|] == d;
      assert Ids(AddBranch(bs, d))[|bs|] == d.id;
    }
  }

  lemma IdsAfterRemove(bs: seq<CallData>, id: string)
    ensures Ids(RemoveBranch(bs, id)) == Without(Ids(bs), id)
    ensures Distinct(Ids(bs)) ==> Distinct(Ids(RemoveBranch(bs, id)))
    ensures forall b :: b in RemoveBranch(bs, id) ==> b in bs
  {
    var i := IndexOf(bs, id);
    if i >= 0 {
      assert Ids(bs)[i] == id && id !in Ids(bs)[..i];
      WithoutSplits(Ids(bs), i);
      assert Ids(bs[..i] + bs[i + 1..]) == Ids(bs)[..i] + Ids(bs)[i + 1..];
    } else {
      WithoutAbsent(Ids(bs), id);
    }
  }

  // ------------------------------------------------------------ invariants

  function TypeOf(kind: Kind): CallType {
    match kind
    case Outgoing => PhysicalType
    case Incoming => IncomingType
    case MakeCall => MakeCallType
  }

  /** The forward stages of a MakeCall, in order. */
  const STAGES := [PreMakeCall, MakeCallSet, MakeCallRequested, MakeCallRequestedAnswered, MakeCallOutgoingCreated, Connected]

  predicate Ending(s: CallState) {
    s.PreDropCall? || s.Dropped?
  }

  function Rank(s: CallState): nat {
    match s
    case PreMakeCall => 0
    case MakeCallSet => 1
    case MakeCallRequested => 2
    case MakeCallRequestedAnswered => 3
    case MakeCallOutgoingCreated => 4
    case Connected => 5
    case _ => 6
  }

  /** The path of a MakeCall is a beginning of STAGES followed by nothing but
      ending states: no stage is skipped, none is entered twice. */
  predicate GoesForward(path: seq<CallState>) {
    && (forall k :: 0 <= k < |path| && !Ending(path[k]) ==> k < |STAGES| && path[k] == STAGES[k])
    && (forall k :: 0 < k < |path| && Ending(path[k - 1]) ==> Ending(path[k]))
  }

  /** A branch belongs to the same call as the handler. */
  predicate SameCall(h: Handler, b: CallData) {
    && b.callId == h.data.callId && b.callType == h.data.callType && b.setupId == h.data.setupId
    && (!h.kind.MakeCall? ==> b.sipCallId == h.data.sipCallId)
  }

  predicate StateOk(kind: Kind, state: CallState) {
    match kind
    case Outgoing => state.PhysicalOutProceeding? || state.Connected? || Ending(state)
    case Incoming => state.Offering? || state.Connected? || Ending(state)
    case MakeCall => Ending(state) || state in STAGES[1..]
  }

  /** Holds of every handler, even between an event and the next sweep. */
  predicate HandlerOk(h: Handler) {
    && StateOk(h.kind, h.state)
    && h.data.callType == TypeOf(h.kind)
    && (!h.kind.MakeCall? ==> h.data.setupId == "")
    && (forall i :: 0 <= i < |h.branches| ==> SameCall(h, h.branches[i]))
    && Distinct(Ids(h.branches))
    && Ids(h.branches) == Fold(h.kind, h.history.log)
    && (h.kind.Incoming? && h.branches != [] ==> h.data.id in Ids(h.branches))
    && (!h.kind.MakeCall? && !h.state.Dropped? ==> h.branches != [])
    && h.history.path != [] && h.history.path[|h.history.path| - 1] == h.state
    && (h.kind.MakeCall? ==> GoesForward(h.history.path))
  }

  lemma NewHandlerOk(kind: Kind, ev: Event, callId: nat, now: int)
    requires ev.ActiveCall? && !kind.MakeCall?
    ensures HandlerOk(NewHandler(kind, ev, callId, now))
  {
    var h := NewHandler(kind, ev, callId, now);
    FoldSnoc(kind, [], ev);
    assert [] + [ev] == [ev];
    assert Ids(h.branches)[0] == ev.id;
  }

  /** The call data names the event: its ids and tags. */
  predicate Carries(d: CallData, ev: Event)
    requires ev.ActiveCall?
  {
    d.id == ev.id && d.sipCallId == ev.sipCallId && d.branch == ev.branch && d.fromTag == ev.fromTag && d.toTag == ev.toTag
  }

  /** The call data tells who calls whom in the event. */
  predicate TellsCaller(d: CallData, ev: Event)
    requires ev.ActiveCall?
  {
    d.remoteId == ev.fromUri && d.calledId == ev.toUri
  }

  /** A call that starts with an event is not answered yet, says of itself what
      the event says, and has that event's branch for its only one. */
  lemma NewCallIsNotAnswered(kind: Kind, ev: Event, callId: nat, now: int)
    requires ev.ActiveCall? && !kind.MakeCall?
    ensures var h := NewHandler(kind, ev, callId, now);
            && (if kind.Outgoing? then h.state.PhysicalOutProceeding? && h.data.callType.PhysicalType?
                else h.state.Offering? && h.data.callType.IncomingType?)
            && h.held == Some(ev.eid) && h.since == h.history.born == now && h.history.log == [ev]
            && h.data.callId == callId && Carries(h.data, ev) && TellsCaller(h.data, ev)
            && h.branches == [h.data] && h.dropContexts == []
  {
  }

  /** A MakeCall is consistent once its request was sent, waits for its own
      telephone to ring, and passes the check by which it is admitted. */
  lemma NewMakeCallOk(toDial: string, callId: nat, contextId: nat, setupId: string, toSip: string, fromSip: string, now: int)
    ensures var h := NewMakeCall(toDial, callId, contextId, setupId, toSip, fromSip, now);
            HandlerOk(h) && forall off :: Checked(h, now, off) == Check(true, h, [])
    ensures var h := NewMakeCall(toDial, callId, contextId, setupId, toSip, fromSip, now);
            && h.state.MakeCallSet? && h.held.None? && h.since == h.history.born == now
            && h.data.callId == callId && h.data.remoteId == toDial && h.data.setupId == setupId
            && h.branches == [] && h.dropContexts == []
            && h.dial.contextId == contextId && h.dial.toSip == toSip && h.dial.fromSip == fromSip
  {
    assert STAGES[1..][0] == MakeCallSet;
  }

  /** Where a state change may lead. */
  predicate MayMove(h: Handler, state: CallState) {
    && StateOk(h.kind, state)
    && (h.kind.MakeCall? ==> Ending(state) || (!Ending(h.state) && Rank(state) == Rank(h.state) + 1))
  }

  lemma OneStageMore(path: seq<CallState>, state: CallState)
    requires path != [] && GoesForward(path)
    requires Ending(state) || (state in STAGES && !Ending(path[|path| - 1]) && Rank(state) == Rank(path[|path| - 1]) + 1)
    ensures GoesForward(path + [state])
  {
    if !Ending(state) {
      var k := |path| - 1;
      assert path[k] == STAGES[k];
      assert Rank(STAGES[k]) == k;
    }
  }

  lemma PathAfterMove(h: Handler, state: CallState)
    requires HandlerOk(h) && MayMove(h, state)
    ensures h.kind.MakeCall? ==> GoesForward(h.history.path + [state])
  {
    if h.kind.MakeCall? {
      assert Ending(state) || state in STAGES;
      OneStageMore(h.history.path, state);
    }
  }

  /** Holds of every handler in the list between two calls of the machine. */
  predicate Listed(h: Handler) {
    HandlerOk(h) && (!h.kind.MakeCall? ==> h.branches != [])
  }

  /** `g` follows the same call as `h`. */
  predicate SameIdentity(h: Handler, g: Handler) {
    && g.kind == h.kind && g.history.born == h.history.born
    && g.data.callId == h.data.callId && g.data.callType == h.data.callType && g.data.setupId == h.data.setupId
    && (!h.kind.MakeCall? ==> g.data.sipCallId == h.data.sipCallId)
  }

  /** The data and branches of `g` are those of `h` brought up to date with `ev`. */
  predicate UpToDate(h: Handler, g: Handler, ev: Event) {
    && SameIdentity(h, g)
    && (forall i :: 0 <= i < |g.branches| ==> SameCall(g, g.branches[i]))
    && Distinct(Ids(g.branches))
    && Ids(g.branches) == FoldStep(h.kind, Ids(h.branches), ev)
    && (h.kind.Incoming? && g.branches != [] ==> g.data.id in Ids(g.branches))
  }

  /** What a verdict may say about a consistent handler. */
  predicate VerdictOk(h: Handler, ev: Event, v: Verdict) {
    match v
    case NotMine => true
    case Stay(g) =>
      UpToDate(h, g, ev) && g.history == h.history && g.state == h.state && (!h.kind.MakeCall? ==> g.branches != [])
    case Enter(g, state) =>
      UpToDate(h, g, ev) && g.history == h.history && MayMove(h, state)
      && (!h.kind.MakeCall? && !state.Dropped? ==> g.branches != [])
    case DropCall => ev.DropRequest?
  }

  /** Adding the branch of an event of this call keeps data and branches together. */
  lemma AddIsUpToDate(h: Handler, g: Handler, ev: Event, d: CallData)
    requires Listed(h) && ev.ActiveCall? && (h.kind.MakeCall? ==> !ev.isError)
    requires SameIdentity(h, g) && (g.data.id == h.data.id || g.data.id == ev.id)
    requires d.id == ev.id && SameCall(g, d) && g.branches == AddBranch(h.branches, d)
    ensures UpToDate(h, g, ev) && g.branches != []
  {
    IdsAfterAdd(h.branches, d);
    forall i | 0 <= i < |g.branches|
      ensures SameCall(g, g.branches[i])
    {
      assert g.branches[i] in g.branches;
    }
  }

  lemma BySipCallIdOk(h: Handler, ev: Event)
    requires Listed(h) && !h.kind.MakeCall? && ev.ActiveCall?
    ensures VerdictOk(h, ev, BySipCallId(h, ev))
  {
    if ev.sipCallId == h.data.sipCallId {
      var d := BranchData(ev, h.data.callId, h.data.callType, true, "");
      var g := h.(branches := AddBranch(h.branches, d));
      AddIsUpToDate(h, if ev.dialog.CONFIRMED? then g.(data := WithEvent(h.data, ev, true)) else g, ev, d);
    }
  }

  lemma AfterRetractOk(h: Handler, ev: Event)
    requires Listed(h) && ev.Retract? && !h.kind.Outgoing? && HasId(h.branches, ev.id)
    ensures VerdictOk(h, ev, AfterRetract(h, ev.id))
  {
    var g := BranchDropped(h, ev.id);
    IdsAfterRemove(h.branches, ev.id);
    if g.branches != [] {
      assert g.branches[0] in h.branches;
      assert Ids(g.branches)[0] == g.data.id;
    }
    forall i | 0 <= i < |g.branches|
      ensures SameCall(g, g.branches[i])
    {
      assert g.branches[i] in h.branches;
    }
  }

  lemma BranchRecorded(h: Handler, ev: Event)
    requires Listed(h) && h.kind.MakeCall? && ev.ActiveCall? && !ev.isError
    ensures var g := WithBranch(h, ev);
            && UpToDate(h, g, ev)
            && UpToDate(h, g.(data := WithEvent(h.data, ev, false)), ev)
            && UpToDate(h, g.(data := WithEvent(h.data, ev, true)), ev)
            && UpToDate(h, WithCaller(g, ev), ev)
  {
    var g := WithBranch(h, ev);
    var d := BranchData(ev, h.data.callId, h.data.callType, false, h.data.setupId);
    var d' := BranchData(ev, h.data.callId, h.data.callType, true, h.data.setupId);
    AddIsUpToDate(h, g, ev, d);
    AddTwice(h.branches, d, d');
    AddIsUpToDate(h, WithCaller(g, ev), ev, d');
  }

  lemma InboundLegOk(h: Handler, ev: Event)
    requires Listed(h) && h.kind.MakeCall? && ev.ActiveCall? && !ev.isError
    ensures VerdictOk(h, ev, InboundLeg(h, ev))
  {
    if ev.dialog.REQUESTED? {
      RingingOk(h, ev);
    } else if h.state.MakeCallRequested? {
      PickedUpOk(h, ev);
    } else {
      OutboundLegOk(h, ev);
    }
  }

  /** Noting a field of the dial leaves the handler up to date. */
  lemma DialNoted(h: Handler, g: Handler, ev: Event, dial: Dial)
    requires UpToDate(h, g, ev)
    ensures UpToDate(h, g.(dial := dial), ev)
  {
  }

  lemma RingingOk(h: Handler, ev: Event)
    requires Listed(h) && h.kind.MakeCall? && ev.ActiveCall? && !ev.isError && ev.dialog.REQUESTED?
    ensures VerdictOk(h, ev, InboundLeg(h, ev))
  {
    hide UpToDate, HandlerOk, AddBranch, BranchData, WithEvent;
    BranchRecorded(h, ev);
    var told := WithBranch(h, ev).(data := WithEvent(h.data, ev, false));
    DialNoted(h, told, ev, h.dial.(inSip := ev.sipCallId));
  }

  lemma PickedUpOk(h: Handler, ev: Event)
    requires Listed(h) && h.kind.MakeCall? && ev.ActiveCall? && !ev.isError && !ev.dialog.REQUESTED?
    requires h.state.MakeCallRequested?
    ensures VerdictOk(h, ev, InboundLeg(h, ev))
  {
    hide UpToDate, HandlerOk, AddBranch, BranchData, WithEvent;
    BranchRecorded(h, ev);
    assert MayMove(h, MakeCallRequestedAnswered) && MayMove(h, Dropped);
  }

  lemma OutboundLegOk(h: Handler, ev: Event)
    requires Listed(h) && h.kind.MakeCall? && ev.ActiveCall? && !ev.isError
    ensures VerdictOk(h, ev, OutboundLeg(h, ev))
  {
    hide UpToDate, HandlerOk, AddBranch, BranchData, WithEvent;
    BranchRecorded(h, ev);
    var g, dial := WithBranch(h, ev), h.dial.(outSip := ev.sipCallId, outId := ev.id);
    DialNoted(h, WithCaller(g, ev), ev, dial);
    DialNoted(h, g.(data := WithEvent(h.data, ev, true)), ev, dial);
  }

  lemma MakeCallVerdictOk(h: Handler, ev: Event)
    requires Listed(h) && h.kind.MakeCall?
    ensures VerdictOk(h, ev, MakeCallVerdict(h, ev))
  {
    hide InboundLeg, OutboundLeg, AddBranch, RemoveBranch, AfterRetract;
    if ev.ActiveCall? {
      if MatchesMakeCall(h, ev) && !ev.isError {
        InboundLegOk(h, ev);
        OutboundLegOk(h, ev);
      }
    } else if ev.Retract? {
      if HasId(h.branches, ev.id) {
        AfterRetractOk(h, ev);
      } else {
        WithoutAbsent(Ids(h.branches), ev.id);
      }
    }
  }

  lemma VerdictIsOk(h: Handler, ev: Event)
    requires Listed(h)
    ensures VerdictOk(h, ev, VerdictOf(h, ev))
  {
    match h.kind
    case Outgoing =>
      if ev.ActiveCall? {
        BySipCallIdOk(h, ev);
      }
    case Incoming =>
      if ev.ActiveCall? {
        BySipCallIdOk(h, ev);
      } else if ev.Retract? && HasId(h.branches, ev.id) {
        AfterRetractOk(h, ev);
      }
    case MakeCall => MakeCallVerdictOk(h, ev);
  }

  lemma IndexIs(bs: seq<CallData>, i: nat)
    requires i < |bs| && forall k :: 0 <= k < i ==> bs[k].id != bs[i].id
    ensures IndexOf(bs, bs[i].id) == i
  {
    assert Ids(bs)[i] == bs[i].id;
  }

  /** A second branch with the same id replaces the first. */
  lemma AddTwice(bs: seq<CallData>, d: CallData, d': CallData)
    requires d.id == d'.id
    ensures AddBranch(AddBranch(bs, d), d') == AddBranch(bs, d')
  {
    var i, once := IndexOf(bs, d.id), AddBranch(bs, d);
    if i >= 0 {
      IndexIs(once, i);
      assert bs[i := d][i := d'] == bs[i := d'];
    } else {
      forall k | 0 <= k < |bs|
        ensures once[k].id != d.id
      {
        assert Ids(bs)[k] == bs[k].id;
      }
      IndexIs(once, |bs|);
      assert (bs + [d])[|bs| := d'] == bs + [d'];
    }
  }

  // ------------------------------------------------- what a handler promises

  /** Offering an event to a handler in the list keeps it consistent and keeps
      it the handler of the same call. */
  lemma OfferedOk(h: Handler, ev: Event, now: int, lastId: nat)
    requires Listed(h)
    ensures HandlerOk(Offered(h, ev, now, lastId).h)
    ensures SameIdentity(h, Offered(h, ev, now, lastId).h)
  {
    VerdictIsOk(h, ev);
    var v := VerdictOf(h, ev);
    match v
    case NotMine =>
    case Stay(g) => StayOk(h, g, ev, lastId);
    case Enter(g, state) => EnterOk(h, g, state, ev, now, lastId);
    case DropCall => DropCallOk(h, ev, now, lastId);
  }

  /** A handler brought up to date and logged is consistent if its state and
      path are. */
  lemma LoggedOk(h: Handler, g: Handler, r: Handler, ev: Event)
    requires Listed(h) && UpToDate(h, g, ev)
    requires (r.kind, r.data, r.branches) == (g.kind, g.data, g.branches)
    requires r.history.log == h.history.log + [ev] && r.history.born == g.history.born
    requires StateOk(r.kind, r.state) && (!r.kind.MakeCall? && !r.state.Dropped? ==> r.branches != [])
    requires r.history.path != [] && r.history.path[|r.history.path| - 1] == r.state
    requires r.kind.MakeCall? ==> GoesForward(r.history.path)
    ensures HandlerOk(r) && SameIdentity(h, r)
  {
    FoldSnoc(h.kind, h.history.log, ev);
    assert Ids(r.branches) == Fold(r.kind, r.history.log);
    forall i | 0 <= i < |r.branches|
      ensures SameCall(r, r.branches[i])
    {
      assert SameCall(g, g.branches[i]);
    }
  }

  lemma StayOk(h: Handler, g: Handler, ev: Event, lastId: nat)
    requires Listed(h) && VerdictOk(h, ev, Stay(g))
    ensures HandlerOk(Swallow(g, ev, lastId).h) && SameIdentity(h, Swallow(g, ev, lastId).h)
  {
    LoggedOk(h, g, Logged(g, ev), ev);
  }

  lemma EnterOk(h: Handler, g: Handler, state: CallState, ev: Event, now: int, lastId: nat)
    requires Listed(h) && VerdictOk(h, ev, Enter(g, state))
    ensures HandlerOk(Keep(g, state, ev, now, lastId).h) && SameIdentity(h, Keep(g, state, ev, now, lastId).h)
  {
    PathAfterMove(h, state);
    LoggedOk(h, g, Logged(Assign(g, state, Some(ev.eid), now), ev), ev);
  }

  lemma DropCallOk(h: Handler, ev: Event, now: int, lastId: nat)
    requires Listed(h) && ev.DropRequest?
    ensures HandlerOk(DropBranches(h, ev, now, lastId).h) && SameIdentity(h, DropBranches(h, ev, now, lastId).h)
  {
    FoldSnoc(h.kind, h.history.log, ev);
    PathAfterMove(h, PreDropCall);
  }

  /** A verdict concerns the handler it was asked of, and a state it enters is
      at most one stage further. */
  predicate VerdictFits(h: Handler, ev: Event, v: Verdict) {
    && (v.Stay? || v.Enter? ==>
          && v.g.held == h.held && v.g.since == h.since && v.g.state == h.state && v.g.kind == h.kind && v.g.history == h.history
          && v.g.dropContexts == if ev.IqResult? then RemoveFirst(h.dropContexts, ev.context) else h.dropContexts)
    && (v.Enter? && h.kind.MakeCall? ==> Ending(v.state) || Rank(v.state) == Rank(h.state) + 1)
    && (ev.DropRequest? ==> v.NotMine? || v.DropCall?)
    && (v.DropCall? ==> ev.DropRequest?)
    && (ev.IqResult? && v.NotMine? ==> ev.context !in h.dropContexts)
  }

  /** The handler `g` differs from `h` in its branches, data and dial only. */
  predicate SameCourse(h: Handler, g: Handler) {
    g == h.(branches := g.branches, data := g.data, dial := g.dial)
  }

  lemma OutboundFits(h: Handler, ev: Event)
    requires ev.ActiveCall?
    ensures VerdictFits(h, ev, OutboundLeg(h, ev))
  {
    var g := WithBranch(h, ev);
    assert SameCourse(h, g) && SameCourse(h, WithCaller(g, ev));
  }

  lemma InboundFits(h: Handler, ev: Event)
    requires ev.ActiveCall?
    ensures VerdictFits(h, ev, InboundLeg(h, ev))
  {
    OutboundFits(h, ev);
    assert SameCourse(h, WithBranch(h, ev));
  }

  lemma MakeCallFits(h: Handler, ev: Event)
    ensures VerdictFits(h, ev, MakeCallVerdict(h, ev))
  {
    if ev.ActiveCall? {
      InboundFits(h, ev);
      OutboundFits(h, ev);
    } else if ev.Retract? {
      assert SameCourse(h, BranchDropped(h, ev.id));
    } else {
      TrafficFits(h, ev);
    }
  }

  lemma TrafficFits(h: Handler, ev: Event)
    ensures VerdictFits(h, ev, DropTraffic(h, ev))
  {
  }

  lemma BySipFits(h: Handler, ev: Event)
    requires ev.ActiveCall? && !h.kind.MakeCall?
    ensures VerdictFits(h, ev, BySipCallId(h, ev))
  {
  }

  lemma VerdictAlwaysFits(h: Handler, ev: Event)
    ensures VerdictFits(h, ev, VerdictOf(h, ev))
  {
    if h.kind.MakeCall? {
      MakeCallFits(h, ev);
    } else if ev.ActiveCall? {
      BySipFits(h, ev);
    } else {
      TrafficFits(h, ev);
    }
  }

  /** Of a refused event nothing is kept and nothing changes.  An accepted one is
      kept in place of what the handler held, or deleted, or deleted along with
      what the handler held. */
  predicate OwnershipKept(h: Handler, ev: Event, o: Offer) {
    if !o.accepted then o.h == h && o.freed == [] && o.sent == []
    else
      || (o.h.held == Some(ev.eid) && o.freed == HeldBy(h))
      || (o.h.held == h.held && o.freed == [ev.eid])
      || (o.h.held == None && o.freed == HeldBy(h) + [ev.eid])
  }

  lemma OfferOwnsTheEvent(h: Handler, ev: Event, now: int, lastId: nat)
    ensures OwnershipKept(h, ev, Offered(h, ev, now, lastId))
    ensures !Offered(h, ev, now, lastId).accepted ==> Offered(h, ev, now, lastId) == Refuse(h, lastId)
  {
    VerdictAlwaysFits(h, ev);
  }

  /** A state entered is at most one stage further, never back, and the clock
      of a stage starts when the stage is entered. */
  predicate Advances(h: Handler, g: Handler, now: int) {
    && g.kind == h.kind && g.history.born == h.history.born
    && Rank(h.state) <= Rank(g.state)
    && (Rank(g.state) <= Rank(h.state) + 1 || Ending(g.state))
    && (g.since == now || (g.since == h.since && g.state == h.state))
    && (g.state == h.state && !Ending(g.state) ==> g.since == h.since)
  }

  lemma MakeCallAdvancesByOne(h: Handler, ev: Event, now: int, lastId: nat)
    requires h.kind.MakeCall?
    ensures Advances(h, Offered(h, ev, now, lastId).h, now)
  {
    VerdictAlwaysFits(h, ev);
    var v := VerdictOf(h, ev);
    match v
    case NotMine =>
    case Stay(g) =>
    case Enter(g, state) =>
    case DropCall =>
  }

  /** The ids a handler waits for: drop requests add fresh ones, replies remove one. */
  lemma ContextsAfterOffer(h: Handler, ev: Event, now: int, lastId: nat)
    ensures var o := Offered(h, ev, now, lastId);
            && lastId <= o.lastId
            && (ev.DropRequest? && o.accepted ==>
                  && o.lastId == lastId + |h.branches|
                  && o.h.dropContexts == h.dropContexts + seq(|h.branches|, i requires 0 <= i < |h.branches| => lastId + 1 + i))
            && (!ev.DropRequest? ==> o.lastId == lastId && o.sent == [])
            && (ev.IqResult? ==> o.h.dropContexts == RemoveFirst(h.dropContexts, ev.context))
            && (ev.IqResult? && o.accepted ==>
                  o.h == Logged(h, ev).(dropContexts := o.h.dropContexts) && o.freed == [ev.eid] && o.sent == [])
            && (!ev.DropRequest? && !ev.IqResult? ==> o.h.dropContexts == h.dropContexts)
  {
    VerdictAlwaysFits(h, ev);
    var v := VerdictOf(h, ev);
    match v
    case NotMine =>
    case Stay(g) =>
    case Enter(g, state) =>
    case DropCall =>
  }

  /** A drop request is taken by the handler of that call only, and asks the
      server to drop every branch, each under its own context id. */
  lemma DropRequestDropsEveryBranch(h: Handler, ev: Event, now: int, lastId: nat)
    requires ev.DropRequest?
    ensures var o := Offered(h, ev, now, lastId);
            && (o.accepted <==> ev.callId == h.data.callId)
            && (o.accepted ==>
                  && o.h.state.PreDropCall? && o.h.branches == h.branches
                  && |o.sent| == |h.branches|
                  && (forall i :: 0 <= i < |o.sent| ==>
                        var b, s := h.branches[i], o.sent[i];
                        (s.sipCallId, s.fromTag, s.toTag) == (b.sipCallId, b.fromTag, b.toTag))
                  && o.h.dropContexts == h.dropContexts + Contexts(o.sent)
                  && o.h.since == now && o.h.held.None? && o.freed == HeldBy(h) + [ev.eid])
  {
    var o := Offered(h, ev, now, lastId);
    if o.accepted {
      assert Contexts(o.sent) == seq(|h.branches|, i requires 0 <= i < |h.branches| => lastId + 1 + i);
    }
  }

  function Contexts(sent: seq<Sent>): seq<nat> {
    seq(|sent|, i requires 0 <= i < |sent| => sent[i].context)
  }

  /** An incoming call is dropped by a retract exactly when no branch is left in
      the fold over everything it accepted; until then the state is untouched. */
  lemma IncomingDropsWithItsLastBranch(h: Handler, ev: Event, now: int, lastId: nat)
    requires Listed(h) && h.kind.Incoming? && ev.Retract?
    ensures var o := Offered(h, ev, now, lastId);
            && (o.accepted <==> ev.id in Fold(Incoming, h.history.log))
            && (o.accepted ==>
                  if Fold(Incoming, h.history.log + [ev]) == []
                  then o.h.state.Dropped? && o.h.held == Some(ev.eid)
                  else o.h.state == h.state && o.h.held == h.held && o.freed == [ev.eid])
  {
    FoldSnoc(Incoming, h.history.log, ev);
    IdsAfterRemove(h.branches, ev.id);
    assert |Ids(RemoveBranch(h.branches, ev.id))| == |RemoveBranch(h.branches, ev.id)|;
  }

  /** The retract takes a call's only branch: the one of an outgoing call, the
      last one of any other, or the outgoing leg of a MakeCall that has no branch
      of that id any more. */
  predicate EndsWith(h: Handler, ev: Event)
    requires ev.Retract?
  {
    if ev.id in Fold(h.kind, h.history.log)
    then h.kind.Outgoing? || Fold(h.kind, h.history.log + [ev]) == []
    else h.kind.MakeCall? && ev.id == h.dial.outId
  }

  /** A retract is taken by the handler with that branch, and by every MakeCall.
      It drops the call, and is kept, exactly if it takes the only branch; if not
      it is deleted, state and clock go on, and the call goes by the first branch
      that is left. */
  lemma RetractDropsExactlyWhen(h: Handler, ev: Event, now: int, lastId: nat)
    requires Listed(h) && ev.Retract?
    ensures var o := Offered(h, ev, now, lastId);
            && (o.accepted <==> h.kind.MakeCall? || ev.id in Fold(h.kind, h.history.log))
            && (o.accepted ==>
                  && o.sent == [] && o.h.data.callId == h.data.callId
                  && if EndsWith(h, ev)
                     then o.h.state.Dropped? && o.h.held == Some(ev.eid) && o.h.since == now && o.freed == HeldBy(h)
                     else o.h.state == h.state && o.h.held == h.held && o.h.since == h.since && o.freed == [ev.eid]
                          && if ev.id in Fold(h.kind, h.history.log) then o.h.branches != [] && o.h.data == o.h.branches[0]
                             else o.h == Logged(h, ev))
  {
    hide HandlerOk;
    IdsAreFolded(h);
    FoldSnoc(h.kind, h.history.log, ev);
    IdsAfterRemove(h.branches, ev.id);
    OneIdPerBranch(RemoveBranch(h.branches, ev.id));
    if h.branches != [] && BranchDropped(h, ev.id).branches != [] {
      BranchKeepsCall(h, ev.id);
    }
  }

  lemma IdsAreFolded(h: Handler)
    requires HandlerOk(h)
    ensures Ids(h.branches) == Fold(h.kind, h.history.log)
  {
  }

  lemma OneIdPerBranch(bs: seq<CallData>)
    ensures |Ids(bs)| == |bs| && (Ids(bs) == [] <==> bs == [])
  {
  }

  lemma BranchKeepsCall(h: Handler, id: string)
    requires HandlerOk(h)
    ensures BranchDropped(h, id).data.callId == h.data.callId
  {
    IdsAfterRemove(h.branches, id);
    var bs := RemoveBranch(h.branches, id);
    if bs != [] {
      assert bs[0] in h.branches;
    }
  }

  /** Every state a listed handler can be in, short of Dropped, has a time limit. */
  lemma EveryStateHasALimit(h: Handler)
    requires HandlerOk(h) && !h.state.Dropped?
    ensures TimeoutOf(h.kind, h.state).Some?
  {
  }

  lemma CheckedOk(h: Handler, now: int, timeoutsOff: bool)
    requires HandlerOk(h)
    ensures var c := Checked(h, now, timeoutsOff);
            && HandlerOk(c.h) && SameIdentity(h, c.h)
            && c.h.data == h.data && c.h.branches == h.branches && c.h.dropContexts == h.dropContexts
            && (c.exists' ==> Listed(c.h)) && (!c.exists' ==> c.h == h && h.state.Dropped?)
            && multiset(HeldBy(c.h)) + multiset(c.freed) == multiset(HeldBy(h))
            && (c.h != h ==> c.h.state.Dropped?)
  {
    hide HandlerOk;
    DroppedOk(h, now);
  }

  lemma DroppedOk(h: Handler, now: int)
    requires HandlerOk(h)
    ensures HandlerOk(Assign(h, Dropped, None, now)) && (!h.state.Dropped? ==> h.kind.MakeCall? || h.branches != [])
  {
    hide Fold, Ids, GoesForward;
    PathAfterMove(h, Dropped);
  }

  /** Left without events past its limit, a handler is dropped by one check and
      gone with the next, unless timeouts are switched off. */
  lemma TwoChecksRemove(h: Handler, t1: int, t2: int)
    requires HandlerOk(h)
    requires TimeoutOf(h.kind, h.state).Some? ==> t1 - h.since > TimeoutOf(h.kind, h.state).value
    ensures var c := Checked(h, t1, false);
            c.h.state.Dropped? && (c.exists' ==> !Checked(c.h, t2, false).exists')
  {
    if !h.state.Dropped? {
      EveryStateHasALimit(h);
    }
  }

  lemma ActiveCallAccepted(h: Handler, ev: Event)
    requires !h.kind.MakeCall? && ev.ActiveCall?
    ensures Accepts(h, ev) <==> ev.sipCallId == h.data.sipCallId
  {
  }

  /** An incoming or outgoing handler takes the active call events of its SIP
      call, each leaving its branch behind; it is connected, and moves to that
      branch, exactly with one that is confirmed. */
  lemma CallConnectsExactlyWhenConfirmed(h: Handler, ev: Event, now: int, lastId: nat)
    requires !h.kind.MakeCall? && ev.ActiveCall?
    ensures var o := Offered(h, ev, now, lastId);
            && (o.accepted <==> ev.sipCallId == h.data.sipCallId)
            && (o.accepted ==>
                  && HasId(o.h.branches, ev.id)
                  && Carries(o.h.branches[IndexOf(o.h.branches, ev.id)], ev)
                  && TellsCaller(o.h.branches[IndexOf(o.h.branches, ev.id)], ev)
                  && if ev.dialog.CONFIRMED?
                     then o.h.state.Connected? && o.h.held == Some(ev.eid) && o.h.since == now
                          && Carries(o.h.data, ev) && TellsCaller(o.h.data, ev)
                     else o.h.state == h.state && o.h.since == h.since && o.h.data == h.data && o.freed == [ev.eid])
  {
    if ev.sipCallId == h.data.sipCallId {
      AddedIsFound(h.branches, BranchData(ev, h.data.callId, h.data.callType, true, ""));
    }
  }

  lemma AddedIsFound(bs: seq<CallData>, d: CallData)
    ensures HasId(AddBranch(bs, d), d.id)
    ensures AddBranch(bs, d)[IndexOf(AddBranch(bs, d), d.id)] == d
  {
    var i, once := IndexOf(bs, d.id), AddBranch(bs, d);
    if i >= 0 {
      IndexIs(once, i);
    } else {
      forall k | 0 <= k < |bs|
        ensures once[k].id != d.id
      {
        assert Ids(bs)[k] == bs[k].id;
      }
      IndexIs(once, |bs|);
    }
  }

  /** The event of a MakeCall, sent by the server for its setup id. */
  predicate OwnLeg(h: Handler, ev: Event, toUri: string, dialog: DialogState) {
    ev.ActiveCall? && !ev.isError && h.data.setupId == ev.callSetupId && ev.toUri == toUri && ev.dialog == dialog
  }

  /** An active call event of this MakeCall: it has the setup id of the request,
      and names one of the two addresses the server gave for it. */
  predicate OfThisCall(h: Handler, ev: Event) {
    && ev.ActiveCall? && ev.callSetupId == h.data.setupId != ""
    && ((ev.toUri == h.dial.toSip || ev.toUri == h.dial.fromSip) || (ev.fromUri == h.dial.toSip || ev.fromUri == h.dial.fromSip))
  }

  /** Which events a listed handler takes, all others being refused. */
  lemma AcceptsExactlyWhen(h: Handler, ev: Event)
    requires HandlerOk(h)
    ensures Accepts(h, ev) <==>
              match ev
              case ActiveCall(_, _, _, _, sip, _, _, _, _, _, _) =>
                if h.kind.MakeCall? then OfThisCall(h, ev) else sip == h.data.sipCallId
              case Retract(_, id) => h.kind.MakeCall? || id in Fold(h.kind, h.history.log)
              case DropRequest(_, callId) => callId == h.data.callId
              case IqResult(_, context, _) => context in h.dropContexts
              case CallRequestReply(_, context, _) => h.kind.MakeCall? && context == h.dial.contextId
              case _ => false
  {
    hide MakeCallActive, AddBranch, RemoveBranch, BranchData, WithEvent;
    IdsAreFolded(h);
    if h.kind.MakeCall? && ev.ActiveCall? {
      LegsAreTaken(h, ev);
    }
  }

  lemma LegsAreTaken(h: Handler, ev: Event)
    requires ev.ActiveCall?
    ensures MakeCallActive(h, ev).Stay? || MakeCallActive(h, ev).Enter?
  {
    hide AddBranch, BranchData, WithEvent;
  }

  /** The address called, and the dialog reported, by the event that takes a
      MakeCall from each stage to the next. */
  function LegOf(h: Handler): string {
    if Rank(h.state) <= 2 then h.dial.fromSip else h.dial.toSip
  }

  const DIALOGS := [REQUESTED, CONFIRMED, CREATED, CONFIRMED]

  predicate MovesOn(h: Handler, ev: Event)
    requires ev.ActiveCall?
  {
    1 <= Rank(h.state) <= 4 && ev.toUri == LegOf(h) && ev.dialog == DIALOGS[Rank(h.state) - 1]
  }

  /** An event for the leg under way that does not report what is due, other
      than that the caller's telephone rings once more. */
  predicate GoesWrong(h: Handler, ev: Event)
    requires ev.ActiveCall?
  {
    && 2 <= Rank(h.state) <= 4 && ev.toUri == LegOf(h) && ev.dialog != DIALOGS[Rank(h.state) - 1]
    && !(ev.dialog.REQUESTED? && ev.toUri == h.dial.fromSip)
  }

  /** What an event of its own does to a MakeCall: one for the leg under way takes
      it on if it reports what is due, and drops it if it reports something else;
      an error drops it at any stage; any other only leaves its branch. */
  lemma MakeCallMovesExactlyWhen(h: Handler, ev: Event, now: int, lastId: nat)
    requires h.kind.MakeCall? && OfThisCall(h, ev)
    ensures var o := Offered(h, ev, now, lastId);
            if ev.isError then Steps(h, ev, now, o, Dropped) && o.h.branches == h.branches && o.h.data == h.data
            else if MovesOn(h, ev) then Steps(h, ev, now, o, STAGES[Rank(h.state) + 1])
            else if GoesWrong(h, ev) then Steps(h, ev, now, o, Dropped)
            else o.accepted && o.h.state == h.state && o.h.held == h.held && o.h.since == h.since
                 && o.h.data == h.data && o.h.dial == h.dial && o.freed == [ev.eid]
  {
    var v := OwnVerdict(h, ev);
    match v
    case Enter(g, state) => assert Keep(g, state, ev, now, lastId).h.history.path == h.history.path + [state];
    case _ =>
  }

  lemma OwnVerdict(h: Handler, ev: Event) returns (v: Verdict)
    requires h.kind.MakeCall? && OfThisCall(h, ev)
    ensures v == VerdictOf(h, ev)
    ensures if ev.isError then v == Enter(h, Dropped)
            else if MovesOn(h, ev) then v.Enter? && v.state == STAGES[Rank(h.state) + 1]
            else if GoesWrong(h, ev) then v.Enter? && v.state.Dropped?
            else v.Stay? && v.g == h.(branches := v.g.branches)
    ensures v.Enter? ==>
              && v.g.kind.MakeCall? && v.g.held == h.held && v.g.history == h.history
              && v.g.data.setupId == h.data.setupId && v.g.dial.toSip == h.dial.toSip && v.g.dial.fromSip == h.dial.fromSip
  {
    hide AddBranch, BranchData, OutboundLeg;
    v := VerdictOf(h, ev);
    if !ev.isError {
      OutboundVerdict(h, ev);
    }
  }

  lemma OutboundVerdict(h: Handler, ev: Event)
    requires h.kind.MakeCall? && ev.ActiveCall?
    ensures var v := OutboundLeg(h, ev);
            && (v.Enter? <==> ev.toUri == h.dial.toSip && (h.state.MakeCallRequestedAnswered? || h.state.MakeCallOutgoingCreated?))
            && (v.Enter? ==>
                  && v.state == (if ev.dialog != DIALOGS[Rank(h.state) - 1] then Dropped else STAGES[Rank(h.state) + 1])
                  && v.g.kind.MakeCall? && v.g.held == h.held && v.g.history == h.history
                  && v.g.data.setupId == h.data.setupId && v.g.dial.toSip == h.dial.toSip && v.g.dial.fromSip == h.dial.fromSip)
            && (!v.Enter? ==> v.Stay? && v.g == h.(branches := v.g.branches))
  {
    hide AddBranch, BranchData;
  }

  /** What a MakeCall tells of itself: the event's ids from each stage it moves on
      to; the event's caller only once the outgoing call is there, the number
      dialled until then; and the id of the outgoing call from its creation. */
  lemma MakeCallTellsItsCaller(h: Handler, ev: Event, now: int, lastId: nat)
    requires h.kind.MakeCall? && OfThisCall(h, ev) && !ev.isError && MovesOn(h, ev)
    ensures var g := Offered(h, ev, now, lastId).h;
            && Carries(g.data, ev)
            && (if Rank(h.state) <= 2 then (g.data.remoteId, g.data.calledId) == (h.data.remoteId, h.data.calledId)
                else TellsCaller(g.data, ev))
            && g.dial == (match h.state
                          case MakeCallSet => h.dial.(inSip := ev.sipCallId)
                          case MakeCallRequestedAnswered => h.dial.(outSip := ev.sipCallId, outId := ev.id)
                          case _ => h.dial)
  {
    hide AddBranch;
    var v := VerdictOf(h, ev);
    assert v.Enter?;
  }

  /** The reply to its own request drops a MakeCall if it is a refusal, and does
      nothing if it is not. */
  lemma RefusedRequestDropsTheCall(h: Handler, ev: Event, now: int, lastId: nat)
    requires h.kind.MakeCall? && ev.CallRequestReply? && ev.context == h.dial.contextId
    ensures var o := Offered(h, ev, now, lastId);
            && o.accepted && o.h.branches == h.branches && o.h.data == h.data && o.h.dial == h.dial
            && if ev.isError then o.h.state.Dropped? && o.h.held == Some(ev.eid) && o.h.since == now && o.freed == HeldBy(h)
               else o.h.state == h.state && o.h.held == h.held && o.h.since == h.since && o.freed == [ev.eid]
  {
  }

  /** What a step of a MakeCall keeps and changes. */
  predicate Steps(h: Handler, ev: Event, now: int, o: Offer, state: CallState) {
    && o.accepted && o.h.state == state && o.h.held == Some(ev.eid) && o.h.since == now && o.freed == HeldBy(h)
    && o.h.kind.MakeCall? && o.h.data.setupId == h.data.setupId
    && o.h.dial.toSip == h.dial.toSip && o.h.dial.fromSip == h.dial.fromSip
    && o.h.history.path == h.history.path + [state]
  }

  /** The next event of a call that goes well takes it one stage on. */
  lemma NextLegAdvances(h: Handler, ev: Event, now: int, lastId: nat)
    requires h.kind.MakeCall? && h.data.setupId != "" && 1 <= Rank(h.state) <= 4
    requires OwnLeg(h, ev, LegOf(h), DIALOGS[Rank(h.state) - 1])
    ensures Steps(h, ev, now, Offered(h, ev, now, lastId), STAGES[Rank(h.state) + 1])
  {
    MakeCallMovesExactlyWhen(h, ev, now, lastId);
  }

  /** A MakeCall whose own telephone rings and is answered, and whose outgoing
      call is then created and confirmed, ends up connected; each event is
      deleted when the next one takes its place. */
  lemma AnsweredMakeCallConnects(h: Handler, e1: Event, e2: Event, e3: Event, e4: Event, now: int, lastId: nat)
    requires h.kind.MakeCall? && h.state.MakeCallSet? && h.data.setupId != ""
    requires OwnLeg(h, e1, h.dial.fromSip, REQUESTED) && OwnLeg(h, e2, h.dial.fromSip, CONFIRMED)
    requires OwnLeg(h, e3, h.dial.toSip, CREATED) && OwnLeg(h, e4, h.dial.toSip, CONFIRMED)
    ensures var o1 := Offered(h, e1, now, lastId);
            var o2 := Offered(o1.h, e2, now, lastId);
            var o3 := Offered(o2.h, e3, now, lastId);
            var o4 := Offered(o3.h, e4, now, lastId);
            && o4.h.state.Connected? && o4.h.held == Some(e4.eid)
            && o1.freed + o2.freed + o3.freed + o4.freed == HeldBy(h) + [e1.eid, e2.eid, e3.eid]
  {
    hide Offered;
    NextLegAdvances(h, e1, now, lastId);
    var h1 := Offered(h, e1, now, lastId).h;
    NextLegAdvances(h1, e2, now, lastId);
    var h2 := Offered(h1, e2, now, lastId).h;
    NextLegAdvances(h2, e3, now, lastId);
    var h3 := Offered(h2, e3, now, lastId).h;
    NextLegAdvances(h3, e4, now, lastId);
    assert HeldBy(h) + [e1.eid] + [e2.eid] + [e3.eid] == HeldBy(h) + [e1.eid, e2.eid, e3.eid];
  }
}
