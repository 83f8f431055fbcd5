/**
 * The two state machines of an XMPP session: the call machine with its list of
 * handlers, and the login machine that sees every event first.
 *
 * `Apply` is one call into the session: an event from the server, an event or a
 * call request from the inbox, a poll, or time passing.
 */
module CallMachine {

  import opened Options
  import opened Sequences
  import opened CallHandlers

  datatype Reason = IsYourEventHandled | NewHandlerCreated | RemovedHandler | AddedHandler

  /** A notification about a call. */
  datatype Note = Note(callId: nat, state: CallState, reason: Reason)

  /** A MakeCall waiting to be admitted. */
  datatype CallRequest = CallRequest(callId: nat, toDial: string)

  datatype LoginState =
    | PreLogin | LoginError | Authorizing | AuthorizedError | EnablingCallEvents | LoggedIn | EnabledCallError
    | Disconnected | ShuttingDown | ShutDown

  datatype Login = Login(state: LoginState, contextId: nat, unsubscribeId: nat)

  /** `given`, `freed`, `notes` and `gone` are histories: how many events came
      in, which were deleted, what was notified, which handlers were removed. */
  datatype Machine = Machine(
    handlers: seq<Handler>, pending: seq<CallRequest>, login: Option<Login>, lastId: nat,
    now: int, lastSweep: int,
    given: nat, freed: multiset<nat>, notes: seq<Note>, gone: seq<Handler>)

  const START := Machine([], [], Some(Login(PreLogin, 0, 0)), 0, 0, 0, 0, multiset{}, [], [])

  // -------------------------------------------------------- the call machine

  /** The first handler that accepts the event, or the length of the list. */
  function Acceptor(hs: seq<Handler>, ev: Event, from: nat := 0): (i: nat)
    requires from <= |hs|
    ensures from <= i <= |hs|
    ensures i < |hs| ==> Accepts(hs[i], ev)
    ensures forall j :: from <= j < i ==> !Accepts(hs[j], ev)
    decreases |hs| - from
  {
    if from == |hs| || Accepts(hs[from], ev) then from else Acceptor(hs, ev, from + 1)
  }

  function OfferAt(m: Machine, i: nat, ev: Event): Machine
    requires i < |m.handlers|
  {
    var o := Offered(m.handlers[i], ev, m.now, m.lastId);
    m.(handlers := m.handlers[i := o.h], lastId := o.lastId, freed := m.freed + multiset(o.freed),
       notes := m.notes + [Note(o.h.data.callId, o.h.state, IsYourEventHandled)])
  }

  function Create(m: Machine, kind: Kind, ev: Event): Machine
    requires ev.ActiveCall? && !kind.MakeCall?
  {
    var h := NewHandler(kind, ev, m.lastId + 1, m.now);
    m.(handlers := m.handlers + [h], lastId := m.lastId + 1,
       notes := m.notes + [Note(h.data.callId, h.state, NewHandlerCreated)])
  }

  function Free(m: Machine, eid: nat): Machine {
    m.(freed := m.freed + multiset{eid})
  }

  /** One turn of the loop of _checkStateHandlersExist. */
  function CheckAt(m: Machine, i: nat, timeoutsOff: bool): Machine
    requires i < |m.handlers|
  {
    var h := m.handlers[i];
    var c := Checked(h, m.now, timeoutsOff);
    if c.exists' then m.(handlers := m.handlers[i := c.h], freed := m.freed + multiset(c.freed))
    else
      m.(handlers := WithoutAt(m.handlers, i), freed := m.freed + multiset(HeldBy(h)),
         notes := m.notes + [Note(h.data.callId, h.state, RemovedHandler)], gone := m.gone + [h])
  }

  function SweepFrom(m: Machine, i: nat, timeoutsOff: bool): Machine
    requires i <= |m.handlers|
    decreases |m.handlers| - i
  {
    if i == |m.handlers| then m.(lastSweep := m.now)
    else
      var m' := CheckAt(m, i, timeoutsOff);
      SweepFrom(m', if |m'.handlers| == |m.handlers| then i + 1 else i, timeoutsOff)
  }

  datatype Signal = Signal(m: Machine, handled: bool)

  /** Everything of SignalEvent before the final sweep. */
  function Dispatched(m: Machine, ev: Event): Signal {
    var i := Acceptor(m.handlers, ev);
    if i < |m.handlers| then Signal(OfferAt(m, i, ev), true)
    else if ev.ActiveCall? && ev.dialog.CREATED? then Signal(Create(m, Outgoing, ev), true)
    else if ev.ActiveCall? && ev.dialog.REQUESTED? then Signal(Create(m, Incoming, ev), true)
    else Signal(m, false)
  }

  function SignalEvent(m: Machine, ev: Event, deleteRefused: bool, timeoutsOff: bool): Signal {
    var s := Dispatched(m, ev);
    var m' := if !s.handled && deleteRefused then Free(s.m, ev.eid) else s.m;
    Signal(SweepFrom(m', 0, timeoutsOff), s.handled)
  }

  // ------------------------------------------------------- the login machine

  /** IsYourEvent of the login handler, for an accepted event; it deletes every
      event it accepts. */
  function LoginTakes(l: Login, ev: Event, lastId: nat): Option<(Login, nat)> {
    if l.state.PreLogin? && (ev.OnConnect? || ev.OnDisconnect?) then
      if ev.OnConnect? && !ev.isError
      then Some((l.(state := Authorizing, contextId := lastId + 1), lastId + 1))
      else Some((l.(state := LoginError), lastId))
    else if l.state.Authorizing? && ((ev.IqResult? && ev.context == l.contextId) || ev.Auth?) then
      Some((l.(state := if ev.isError then AuthorizedError else EnablingCallEvents), lastId))
    else if l.state.EnablingCallEvents? && ev.Subscribed? then
      Some((l.(state := if ev.isError then EnabledCallError else LoggedIn), lastId))
    else if ev.OnDisconnect? then Some((l.(state := Disconnected), lastId))
    else if ev.ShutdownRequest? then Some((l.(state := ShuttingDown, unsubscribeId := lastId + 1), lastId + 1))
    else if l.state.ShuttingDown? && ev.IqResult? && ev.context == l.unsubscribeId then
      Some((l.(state := ShutDown), lastId))
    else None
  }

  /** SignalEvent of the login machine, after its handler accepted the event: a
      handler that has shut down is removed at once. */
  function LoginSignalled(m: Machine, ev: Event): Signal {
    if m.login.None? then Signal(m, false)
    else
      var taken := LoginTakes(m.login.value, ev, m.lastId);
      if taken.None? then Signal(m, false)
      else
        var (l, lastId) := taken.value;
        Signal(Free(m, ev.eid).(login := if l.state.ShutDown? then None else Some(l), lastId := lastId), true)
  }

  // ------------------------------------------------------------------- steps

  datatype Step =
    | Deliver(ev: Event, timeoutsOff: bool)    // an event from the server
    | Inject(ev: Event, timeoutsOff: bool)     // an event from the inbox of the call machine
    | InjectLogin(ev: Event)                   // an event from the inbox of the login machine
    | LoginLost                                // the login machine gives up waiting
    | RequestCall(toDial: string)              // MakeCallAsync
    | Admit(setupId: string, toSip: string, fromSip: string)   // the next call request is executed
    | Poll(timeoutsOff: bool)
    | Tick(ms: nat)

  predicate Enabled(m: Machine, st: Step) {
    match st
    case Deliver(ev, _) => ev.eid == m.given
    case Inject(ev, _) => ev.eid == m.given
    case InjectLogin(ev) => ev.eid == m.given
    case LoginLost => m.login.Some?
    case Admit(_, _, _) => m.pending != []
    case _ => true
  }

  /** OnSipXmpp::_signalEvent. */
  function Routed(m: Machine, ev: Event, timeoutsOff: bool): Machine {
    var login := LoginSignalled(m, ev);
    if login.handled then login.m
    else
      var call := SignalEvent(m, ev, false, timeoutsOff);
      if call.handled then call.m else Free(call.m, ev.eid)
  }

  function Admitted(m: Machine, setupId: string, toSip: string, fromSip: string): Machine
    requires m.pending != []
  {
    var r := m.pending[0];
    var h := NewMakeCall(r.toDial, r.callId, m.lastId + 1, setupId, toSip, fromSip, m.now);
    m.(handlers := m.handlers + [h], pending := m.pending[1..], lastId := m.lastId + 1,
       notes := m.notes + [Note(r.callId, h.state, AddedHandler)])
  }

  function Apply(m: Machine, st: Step): Machine
    requires Enabled(m, st)
  {
    match st
    case Deliver(ev, off) => Routed(m.(given := m.given + 1), ev, off)
    case Inject(ev, off) => SignalEvent(m.(given := m.given + 1), ev, true, off).m
    case InjectLogin(ev) =>
      var s := LoginSignalled(m.(given := m.given + 1), ev);
      if s.handled then s.m else Free(s.m, ev.eid)
    case LoginLost => m.(login := Some(m.login.value.(state := Disconnected)))
    case RequestCall(toDial) =>
      m.(pending := m.pending + [CallRequest(m.lastId + 1, toDial)], lastId := m.lastId + 1)
    case Admit(setupId, toSip, fromSip) => Admitted(m, setupId, toSip, fromSip)
    case Poll(off) => SweepFrom(m, 0, off)
    case Tick(ms) => m.(now := m.now + ms)
  }

  predicate Legal(m: Machine, steps: seq<Step>)
    decreases |steps|
  {
    steps == [] || (Enabled(m, steps[0]) && Legal(Apply(m, steps[0]), steps[1..]))
  }

  function Run(m: Machine, steps: seq<Step>): Machine
    requires Legal(m, steps)
    decreases |steps|
  {
    if steps == [] then m else Run(Apply(m, steps[0]), steps[1..])
  }

  // -------------------------------------------------------------- invariants

  /** Handlers in front of `n` are between calls, the others may still have to
      be swept. */
  predicate AllOk(m: Machine, n: nat) {
    && (forall i :: 0 <= i < |m.handlers| ==> HandlerOk(m.handlers[i]))
    && (forall i :: 0 <= i < |m.handlers| && i < n ==> Listed(m.handlers[i]))
    && (forall i :: 0 <= i < |m.gone| ==> HandlerOk(m.gone[i]) && m.gone[i].state.Dropped?)
  }

  /** No two calls tracked by SIP call id have the same one. */
  predicate SipsDiffer(m: Machine) {
    forall i, j :: 0 <= i < j < |m.handlers| && !m.handlers[i].kind.MakeCall? && !m.handlers[j].kind.MakeCall? ==>
      m.handlers[i].data.sipCallId != m.handlers[j].data.sipCallId
  }

  predicate Disjoint(a: seq<nat>, b: seq<nat>) {
    forall x :: x in a ==> x !in b
  }

  /** The ids of one handler. */
  predicate OwnIds(m: Machine, h: Handler) {
    && 0 < h.data.callId <= m.lastId
    && Distinct(h.dropContexts)
    && (forall c :: c in h.dropContexts ==> 0 < c <= m.lastId)
    && (m.login.Some? ==> m.login.value.contextId !in h.dropContexts && m.login.value.unsubscribeId !in h.dropContexts)
    && (forall k :: 0 <= k < |m.pending| ==> m.pending[k].callId != h.data.callId)
  }

  /** Call ids and outstanding contexts never clash. */
  predicate IdsOk(m: Machine) {
    && (forall i :: 0 <= i < |m.handlers| ==> OwnIds(m, m.handlers[i]))
    && (forall i, j :: 0 <= i < j < |m.handlers| ==>
          && m.handlers[i].data.callId != m.handlers[j].data.callId
          && Disjoint(m.handlers[i].dropContexts, m.handlers[j].dropContexts))
    && (forall k :: 0 <= k < |m.pending| ==> 0 < m.pending[k].callId <= m.lastId)
    && (forall k, l :: 0 <= k < l < |m.pending| ==> m.pending[k].callId != m.pending[l].callId)
    && (m.login.Some? ==> m.login.value.contextId <= m.lastId && m.login.value.unsubscribeId <= m.lastId)
  }

  function HeldAll(hs: seq<Handler>): multiset<nat> {
    if hs == [] then multiset{} else multiset(HeldBy(hs[0])) + HeldAll(hs[1..])
  }

  function FirstN(n: nat): multiset<nat> {
    if n == 0 then multiset{} else FirstN(n - 1) + multiset{n - 1}
  }

  /** Every event given is held by a handler, or deleted, or still in hand. */
  predicate Accounted(m: Machine, inHand: multiset<nat>) {
    HeldAll(m.handlers) + m.freed + inHand == FirstN(m.given)
  }

  /** A removal is the last notification about a call, and says Dropped. */
  predicate NotesOk(m: Machine) {
    && (forall k :: 0 <= k < |m.notes| ==> m.notes[k].callId <= m.lastId)
    && (forall k :: 0 <= k < |m.notes| && m.notes[k].reason.RemovedHandler? ==>
          && m.notes[k].state.Dropped?
          && (forall l :: k < l < |m.notes| ==> m.notes[l].callId != m.notes[k].callId)
          && (forall i :: 0 <= i < |m.handlers| ==> m.handlers[i].data.callId != m.notes[k].callId)
          && (forall i :: 0 <= i < |m.pending| ==> m.pending[i].callId != m.notes[k].callId))
  }

  predicate Sound(m: Machine, n: nat) {
    AllOk(m, n) && SipsDiffer(m) && IdsOk(m) && NotesOk(m)
  }

  predicate Inv(m: Machine, n: nat, inHand: multiset<nat>) {
    Sound(m, n) && Accounted(m, inHand)
  }

  /** Only the login machine, and with it the last id, may have moved as well. */
  lemma SoundStays(m: Machine, m': Machine, n: nat)
    requires Sound(m, n)
    requires (m'.handlers, m'.gone, m'.pending, m'.notes) == (m.handlers, m.gone, m.pending, m.notes)
    requires m.lastId <= m'.lastId
    requires m'.login == m.login || m'.login == None
             || (m.login.Some? && m'.login.value.contextId in {m.login.value.contextId, m'.lastId}
                 && m'.login.value.unsubscribeId in {m.login.value.unsubscribeId, m'.lastId}
                 && (m'.lastId == m.lastId ==> m'.login.value == m.login.value.(state := m'.login.value.state)))
    ensures Sound(m', n)
  {
    forall j | 0 <= j < |m.handlers|
      ensures OwnIds(m', m'.handlers[j])
    {
      assert OwnIds(m, m.handlers[j]);
    }
  }

  /** Only the clock and the ledger of events have moved. */
  lemma LedgerStaysSound(m: Machine, m': Machine, n: nat)
    requires Sound(m, n)
    requires m' == m.(given := m'.given, freed := m'.freed, now := m'.now, lastSweep := m'.lastSweep)
    ensures Sound(m', n)
  {
    hide HandlerOk;
    forall j | 0 <= j < |m.handlers|
      ensures OwnIds(m', m'.handlers[j])
    {
      assert OwnIds(m, m.handlers[j]);
    }
  }

  // Sums over the list of handlers.

  lemma AddToBoth(a: multiset<nat>, b: multiset<nat>, c: multiset<nat>, d: multiset<nat>, x: multiset<nat>)
    requires a + b == c + d
    ensures (x + a) + b == (x + c) + d
  {
    assert (x + a) + b == x + (a + b);
    assert (x + c) + d == x + (c + d);
  }

  lemma {:induction false} HeldAllUpdate(hs: seq<Handler>, i: nat, h: Handler)
    requires i < |hs|
    ensures HeldAll(hs[i := h]) + multiset(HeldBy(hs[i])) == HeldAll(hs) + multiset(HeldBy(h))
  {
    if i == 0 {
      assert hs[i := h][1..] == hs[1..];
    } else {
      assert hs[i := h][0] == hs[0] && hs[i := h][1..] == hs[1..][i - 1 := h];
      HeldAllUpdate(hs[1..], i - 1, h);
      AddToBoth(HeldAll(hs[1..][i - 1 := h]), multiset(HeldBy(hs[i])), HeldAll(hs[1..]), multiset(HeldBy(h)),
                multiset(HeldBy(hs[0])));
    }
  }

  lemma {:induction false} HeldAllAppend(hs: seq<Handler>, h: Handler)
    ensures HeldAll(hs + [h]) == HeldAll(hs) + multiset(HeldBy(h))
  {
    if hs == [] {
      assert hs + [h] == [h];
      assert [h][1..] == [];
    } else {
      assert (hs + [h])[1..] == hs[1..] + [h];
      HeldAllAppend(hs[1..], h);
    }
  }

  lemma {:induction false} HeldAllRemove(hs: seq<Handler>, i: nat)
    requires i < |hs|
    ensures HeldAll(WithoutAt(hs, i)) + multiset(HeldBy(hs[i])) == HeldAll(hs)
  {
    if i == 0 {
      assert WithoutAt(hs, i) == hs[1..];
    } else {
      assert WithoutAt(hs, i)[0] == hs[0] && WithoutAt(hs, i)[1..] == WithoutAt(hs[1..], i - 1);
      HeldAllRemove(hs[1..], i - 1);
    }
  }

  lemma {:induction false} FirstNCounts(n: nat, e: nat)
    ensures FirstN(n)[e] == if e < n then 1 else 0
  {
    if n > 0 {
      FirstNCounts(n - 1, e);
    }
  }

  // --------------------------------------------- what the three updates keep

  /** Replacing a handler by another one of the same call. */
  lemma UpdateKeepsCalls(m: Machine, m': Machine, i: nat, h: Handler, n: nat)
    requires AllOk(m, n) && SipsDiffer(m) && i < |m.handlers|
    requires m'.handlers == m.handlers[i := h] && m'.gone == m.gone
    requires SameIdentity(m.handlers[i], h) && HandlerOk(h) && (i < n ==> Listed(h))
    ensures AllOk(m', n) && SipsDiffer(m')
  {
  }

  lemma UpdateKeepsIds(m: Machine, m': Machine, i: nat, h: Handler)
    requires IdsOk(m) && i < |m.handlers|
    requires m'.handlers == m.handlers[i := h] && m'.pending == m.pending && m'.login == m.login && m.lastId <= m'.lastId
    requires SameIdentity(m.handlers[i], h)
    requires Distinct(h.dropContexts)
    requires forall c :: c in h.dropContexts ==> c in m.handlers[i].dropContexts || m.lastId < c <= m'.lastId
    ensures IdsOk(m')
  {
    assert OwnIds(m, m.handlers[i]);
    forall j | 0 <= j < |m'.handlers|
      ensures OwnIds(m', m'.handlers[j])
    {
      assert OwnIds(m, m.handlers[j]);
    }
    forall j, k | 0 <= j < k < |m.handlers|
      ensures m'.handlers[j].data.callId != m'.handlers[k].data.callId
      ensures Disjoint(m'.handlers[j].dropContexts, m'.handlers[k].dropContexts)
    {
      assert OwnIds(m, m.handlers[j]) && OwnIds(m, m.handlers[k]);
      assert Disjoint(m.handlers[j].dropContexts, m.handlers[k].dropContexts);
    }
  }

  lemma UpdateKeepsNotes(m: Machine, m': Machine, i: nat, h: Handler, note: seq<Note>)
    requires NotesOk(m) && IdsOk(m) && i < |m.handlers|
    requires m'.handlers == m.handlers[i := h] && m'.pending == m.pending && m.lastId <= m'.lastId
    requires SameIdentity(m.handlers[i], h)
    requires m'.notes == m.notes + note && |note| <= 1
    requires note != [] ==> note[0].callId == h.data.callId && !note[0].reason.RemovedHandler?
    ensures NotesOk(m')
  {
    assert OwnIds(m, m.handlers[i]);
  }

  /** Adding a handler whose ids are new. */
  lemma AppendKeepsIds(m: Machine, m': Machine, h: Handler)
    requires IdsOk(m) && m'.handlers == m.handlers + [h] && m'.login == m.login && m'.lastId == m.lastId + 1
    requires h.dropContexts == [] && 0 < h.data.callId <= m'.lastId
    requires forall j :: 0 <= j < |m.handlers| ==> m.handlers[j].data.callId != h.data.callId
    requires |m'.pending| <= |m.pending| && m'.pending == m.pending[|m.pending| - |m'.pending|..]
    requires forall k :: 0 <= k < |m'.pending| ==> m'.pending[k].callId != h.data.callId
    ensures IdsOk(m')
  {
    forall j | 0 <= j < |m'.handlers|
      ensures OwnIds(m', m'.handlers[j])
    {
      if j < |m.handlers| {
        assert OwnIds(m, m.handlers[j]);
        assert forall k :: 0 <= k < |m'.pending| ==> m'.pending[k] == m.pending[|m.pending| - |m'.pending| + k];
      }
    }
    forall j, k | 0 <= j < k < |m'.handlers|
      ensures m'.handlers[j].data.callId != m'.handlers[k].data.callId
      ensures Disjoint(m'.handlers[j].dropContexts, m'.handlers[k].dropContexts)
    {
      if k < |m.handlers| {
        assert Disjoint(m.handlers[j].dropContexts, m.handlers[k].dropContexts);
      }
    }
  }

  /** Removing a handler that was dropped. */
  lemma RemoveKeepsCalls(m: Machine, m': Machine, i: nat, n: nat)
    requires AllOk(m, n) && SipsDiffer(m) && i < |m.handlers| && i == n && m.handlers[i].state.Dropped?
    requires m'.handlers == WithoutAt(m.handlers, i) && m'.gone == m.gone + [m.handlers[i]]
    ensures AllOk(m', n) && SipsDiffer(m')
  {
    assert forall j :: 0 <= j < |m'.handlers| ==> m'.handlers[j] == m.handlers[if j < i then j else j + 1];
  }

  lemma RemoveKeepsIds(m: Machine, m': Machine, i: nat)
    requires IdsOk(m) && i < |m.handlers|
    requires m'.handlers == WithoutAt(m.handlers, i) && m'.pending == m.pending && m'.login == m.login && m.lastId == m'.lastId
    ensures IdsOk(m')
  {
    forall j | 0 <= j < |m'.handlers|
      ensures OwnIds(m', m'.handlers[j])
    {
      assert OwnIds(m, m.handlers[if j < i then j else j + 1]);
    }
    forall j, k | 0 <= j < k < |m'.handlers|
      ensures m'.handlers[j].data.callId != m'.handlers[k].data.callId
      ensures Disjoint(m'.handlers[j].dropContexts, m'.handlers[k].dropContexts)
    {
      var j', k' := if j < i then j else j + 1, if k < i then k else k + 1;
      assert Disjoint(m.handlers[j'].dropContexts, m.handlers[k'].dropContexts);
    }
  }

  lemma RemoveKeepsNotes(m: Machine, m': Machine, i: nat)
    requires NotesOk(m) && IdsOk(m) && i < |m.handlers| && m.handlers[i].state.Dropped?
    requires m'.handlers == WithoutAt(m.handlers, i) && m'.pending == m.pending && m.lastId == m'.lastId
    requires m'.notes == m.notes + [Note(m.handlers[i].data.callId, m.handlers[i].state, RemovedHandler)]
    ensures NotesOk(m')
  {
    assert OwnIds(m, m.handlers[i]);
    forall j | 0 <= j < |m'.handlers|
      ensures m'.handlers[j].data.callId != m.handlers[i].data.callId
    {
      assert m'.handlers[j] == m.handlers[if j < i then j else j + 1];
    }
  }

  // ---------------------------------------------------- the parts of a step

  lemma ContextsStayDistinct(h: Handler, ev: Event, now: int, lastId: nat)
    requires Distinct(h.dropContexts) && forall c :: c in h.dropContexts ==> c <= lastId
    ensures var o := Offered(h, ev, now, lastId);
            && Distinct(o.h.dropContexts)
            && (forall c :: c in o.h.dropContexts ==> c in h.dropContexts || lastId < c <= o.lastId)
  {
    ContextsAfterOffer(h, ev, now, lastId);
    OfferOwnsTheEvent(h, ev, now, lastId);
    if ev.IqResult? {
      RemoveFirstKeepsDistinct(h.dropContexts, ev.context);
    } else if ev.DropRequest? && Offered(h, ev, now, lastId).accepted {
      var n := |h.branches|;
      JoinKeepsDistinct(h.dropContexts, seq(n, i requires 0 <= i < n => lastId + 1 + i), lastId);
    }
  }

  lemma JoinKeepsDistinct(a: seq<nat>, b: seq<nat>, x: nat)
    requires Distinct(a) && Distinct(b)
    requires (forall c :: c in a ==> c <= x) && (forall c :: c in b ==> x < c)
    ensures Distinct(a + b)
  {
    assert forall i :: 0 <= i < |a| ==> (a + b)[i] in a;
    assert forall i :: |a| <= i < |a + b| ==> (a + b)[i] in b;
  }

  lemma {:induction false} RemoveFirstKeepsDistinct(s: seq<nat>, x: nat)
    requires Distinct(s)
    ensures Distinct(RemoveFirst(s, x))
    ensures forall c :: c in RemoveFirst(s, x) <==> c in s && c != x
  {
    if s != [] {
      if s[0] != x {
        assert Distinct(s[1..]);
        RemoveFirstKeepsDistinct(s[1..], x);
        assert s == [s[0]] + s[1..];
        assert s[0] !in s[1..];
      } else {
        assert s == [x] + s[1..];
      }
    }
  }

  lemma AcceptedIsAccounted(h: Handler, ev: Event, now: int, lastId: nat)
    requires Accepts(h, ev)
    ensures var o := Offered(h, ev, now, lastId);
            multiset(HeldBy(o.h)) + multiset(o.freed) == multiset(HeldBy(h)) + multiset{ev.eid}
  {
    OfferOwnsTheEvent(h, ev, now, lastId);
    var o := Offered(h, ev, now, lastId);
    if o.h.held == None && o.freed == HeldBy(h) + [ev.eid] {
      assert multiset(o.freed) == multiset(HeldBy(h)) + multiset{ev.eid};
    }
  }

  lemma OfferAtInv(m: Machine, i: nat, ev: Event)
    requires Inv(m, |m.handlers|, multiset{ev.eid}) && i < |m.handlers| && Accepts(m.handlers[i], ev)
    ensures Inv(OfferAt(m, i, ev), 0, multiset{})
  {
    hide VerdictOf, HandlerOk, FirstN;
    var h, m' := m.handlers[i], OfferAt(m, i, ev);
    var o := Offered(h, ev, m.now, m.lastId);
    assert OwnIds(m, h);
    OfferedOk(h, ev, m.now, m.lastId);
    ContextsAfterOffer(h, ev, m.now, m.lastId);
    ContextsStayDistinct(h, ev, m.now, m.lastId);
    UpdateKeepsCalls(m, m', i, o.h, 0);
    UpdateKeepsIds(m, m', i, o.h);
    UpdateKeepsNotes(m, m', i, o.h, [Note(o.h.data.callId, o.h.state, IsYourEventHandled)]);
    AcceptedIsAccounted(h, ev, m.now, m.lastId);
    HeldAllUpdate(m.handlers, i, o.h);
    Rebalance(HeldAll(m.handlers), HeldAll(m'.handlers), multiset(HeldBy(h)), multiset(HeldBy(o.h)),
              multiset(o.freed), multiset{ev.eid}, m.freed, multiset{});
  }

  /** Bookkeeping over multisets: one handler's holding changes hands. */
  lemma Rebalance(all: multiset<nat>, all': multiset<nat>, held: multiset<nat>, held': multiset<nat>,
                  freed: multiset<nat>, taken: multiset<nat>, before: multiset<nat>, rest: multiset<nat>)
    requires all' + held == all + held'
    requires held' + freed == held + taken
    ensures all' + (before + freed) + rest == all + before + (taken + rest)
  {
    forall e: nat
      ensures (all' + (before + freed) + rest)[e] == (all + before + (taken + rest))[e]
    {
      assert (all' + held)[e] == (all + held')[e];
      assert (held' + freed)[e] == (held + taken)[e];
    }
  }

  lemma CheckAtInv(m: Machine, i: nat, timeoutsOff: bool, hand: multiset<nat>)
    requires Inv(m, i, hand) && i < |m.handlers|
    ensures var m' := CheckAt(m, i, timeoutsOff);
            Inv(m', if |m'.handlers| == |m.handlers| then i + 1 else i, hand)
  {
    CheckedOk(m.handlers[i], m.now, timeoutsOff);
    if Checked(m.handlers[i], m.now, timeoutsOff).exists' {
      CheckAndStay(m, i, timeoutsOff, hand);
    } else {
      CheckAndRemove(m, i, timeoutsOff, hand);
    }
  }

  lemma CheckAndStay(m: Machine, i: nat, timeoutsOff: bool, hand: multiset<nat>)
    requires Inv(m, i, hand) && i < |m.handlers| && Checked(m.handlers[i], m.now, timeoutsOff).exists'
    ensures Inv(CheckAt(m, i, timeoutsOff), i + 1, hand)
  {
    hide HandlerOk, Checked, FirstN, SameIdentity, HeldBy, HeldAll, SipsDiffer, NotesOk;
    var h, m' := m.handlers[i], CheckAt(m, i, timeoutsOff);
    var c := Checked(h, m.now, timeoutsOff);
    assert OwnIds(m, h);
    CheckedOk(h, m.now, timeoutsOff);
    UpdateKeepsCalls(m, m', i, c.h, i);
    UpdateKeepsIds(m, m', i, c.h);
    UpdateKeepsNotes(m, m', i, c.h, []);
    HeldAllUpdate(m.handlers, i, c.h);
    Rebalance(HeldAll(m.handlers), HeldAll(m'.handlers), multiset(HeldBy(h)), multiset(HeldBy(c.h)),
              multiset(c.freed), multiset{}, m.freed, hand);
    assert multiset{} + hand == hand;
  }

  lemma CheckAndRemove(m: Machine, i: nat, timeoutsOff: bool, hand: multiset<nat>)
    requires Inv(m, i, hand) && i < |m.handlers| && !Checked(m.handlers[i], m.now, timeoutsOff).exists'
    ensures Inv(CheckAt(m, i, timeoutsOff), i, hand)
  {
    hide HandlerOk, Checked, FirstN, HeldBy;
    var h, m' := m.handlers[i], CheckAt(m, i, timeoutsOff);
    CheckedOk(h, m.now, timeoutsOff);
    RemoveKeepsCalls(m, m', i, i);
    RemoveKeepsIds(m, m', i);
    RemoveKeepsNotes(m, m', i);
    HeldAllRemove(m.handlers, i);
    assert HeldAll(m'.handlers) + (m.freed + multiset(HeldBy(h))) + hand == HeldAll(m'.handlers) + multiset(HeldBy(h)) + m.freed + hand;
  }

  lemma {:induction false} SweepInv(m: Machine, i: nat, timeoutsOff: bool, hand: multiset<nat>)
    requires i <= |m.handlers| && Inv(m, i, hand)
    ensures var m' := SweepFrom(m, i, timeoutsOff); Inv(m', |m'.handlers|, hand)
    decreases |m.handlers| - i
  {
    hide HandlerOk, Checked, HeldAll, FirstN;
    if i < |m.handlers| {
      CheckAtInv(m, i, timeoutsOff, hand);
      var m' := CheckAt(m, i, timeoutsOff);
      SweepInv(m', if |m'.handlers| == |m.handlers| then i + 1 else i, timeoutsOff, hand);
    } else {
      assert Inv(m.(lastSweep := m.now), |m.handlers|, hand);
    }
  }

  lemma CreateInv(m: Machine, kind: Kind, ev: Event)
    requires Inv(m, |m.handlers|, multiset{ev.eid}) && ev.ActiveCall? && !kind.MakeCall?
    requires forall i :: 0 <= i < |m.handlers| ==> !Accepts(m.handlers[i], ev)
    ensures Inv(Create(m, kind, ev), 0, multiset{})
  {
    hide VerdictOf, HandlerOk, FirstN;
    var m' := Create(m, kind, ev);
    var h := NewHandler(kind, ev, m.lastId + 1, m.now);
    NewHandlerOk(kind, ev, m.lastId + 1, m.now);
    forall j | 0 <= j < |m.handlers|
      ensures m.handlers[j].data.callId != h.data.callId
      ensures !m.handlers[j].kind.MakeCall? ==> m.handlers[j].data.sipCallId != h.data.sipCallId
    {
      assert OwnIds(m, m.handlers[j]);
      if !m.handlers[j].kind.MakeCall? {
        ActiveCallAccepted(m.handlers[j], ev);
      }
    }
    AppendKeepsIds(m, m', h);
    AppendKeepsCalls(m, m', h, 0);
    AppendKeepsNotes(m, m', h);
    HeldAllAppend(m.handlers, h);
    assert HeldAll(m.handlers) + multiset{ev.eid} + m.freed == HeldAll(m.handlers) + m.freed + multiset{ev.eid};
  }

  /** Adding a consistent handler with a new SIP call id. */
  lemma AppendKeepsCalls(m: Machine, m': Machine, h: Handler, n: nat)
    requires AllOk(m, |m.handlers|) && SipsDiffer(m) && HandlerOk(h) && (n > 0 ==> Listed(h))
    requires m'.handlers == m.handlers + [h] && m'.gone == m.gone
    requires !h.kind.MakeCall? ==>
               forall j :: 0 <= j < |m.handlers| && !m.handlers[j].kind.MakeCall? ==> m.handlers[j].data.sipCallId != h.data.sipCallId
    ensures AllOk(m', n) && SipsDiffer(m')
  {
  }

  lemma AppendKeepsNotes(m: Machine, m': Machine, h: Handler)
    requires NotesOk(m) && IdsOk(m)
    requires m'.handlers == m.handlers + [h] && m'.lastId == m.lastId + 1
    requires h.data.callId == m'.lastId || (exists k :: 0 <= k < |m.pending| && m.pending[k].callId == h.data.callId)
    requires |m'.pending| <= |m.pending| && m'.pending == m.pending[|m.pending| - |m'.pending|..]
    requires |m'.notes| == |m.notes| + 1 && m'.notes[..|m.notes|] == m.notes
    requires m'.notes[|m.notes|].callId == h.data.callId && !m'.notes[|m.notes|].reason.RemovedHandler?
    ensures NotesOk(m')
  {
    assert forall k :: 0 <= k < |m.notes| ==> m'.notes[k] == m'.notes[..|m.notes|][k];
    assert forall k :: 0 <= k < |m'.pending| ==> m'.pending[k] == m.pending[|m.pending| - |m'.pending| + k];
  }

  lemma AdmittedInv(m: Machine, setupId: string, toSip: string, fromSip: string)
    requires Inv(m, |m.handlers|, multiset{}) && m.pending != []
    ensures var m' := Admitted(m, setupId, toSip, fromSip); Inv(m', |m'.handlers|, multiset{})
  {
    hide HandlerOk, FirstN;
    var m', r := Admitted(m, setupId, toSip, fromSip), m.pending[0];
    var h := NewMakeCall(r.toDial, r.callId, m.lastId + 1, setupId, toSip, fromSip, m.now);
    NewMakeCallOk(r.toDial, r.callId, m.lastId + 1, setupId, toSip, fromSip, m.now);
    AdmitKeepsSound(m, m', h);
    HeldAllAppend(m.handlers, h);
  }

  /** A handler for the request at the front of the queue joins the list. */
  lemma AdmitKeepsSound(m: Machine, m': Machine, h: Handler)
    requires Sound(m, |m.handlers|) && m.pending != [] && Listed(h) && h.kind.MakeCall?
    requires h.data.callId == m.pending[0].callId && h.dropContexts == []
    requires m'.handlers == m.handlers + [h] && m'.pending == m.pending[1..] && m'.lastId == m.lastId + 1
    requires m'.login == m.login && m'.gone == m.gone
    requires m'.notes == m.notes + [Note(h.data.callId, h.state, AddedHandler)]
    ensures Sound(m', |m'.handlers|)
  {
    hide HandlerOk;
    forall j | 0 <= j < |m.handlers|
      ensures m.handlers[j].data.callId != h.data.callId
    {
      assert OwnIds(m, m.handlers[j]);
    }
    AppendKeepsIds(m, m', h);
    AppendKeepsCalls(m, m', h, |m'.handlers|);
    AppendKeepsNotes(m, m', h);
  }

  lemma DispatchedInv(m: Machine, ev: Event)
    requires Inv(m, |m.handlers|, multiset{ev.eid})
    ensures var s := Dispatched(m, ev);
            if s.handled then Inv(s.m, 0, multiset{}) else s.m == m
  {
    var i := Acceptor(m.handlers, ev);
    if i < |m.handlers| {
      OfferAtInv(m, i, ev);
    } else if ev.ActiveCall? && ev.dialog.CREATED? {
      CreateInv(m, Outgoing, ev);
    } else if ev.ActiveCall? && ev.dialog.REQUESTED? {
      CreateInv(m, Incoming, ev);
    }
  }

  lemma SignalInv(m: Machine, ev: Event, deleteRefused: bool, timeoutsOff: bool)
    requires Inv(m, |m.handlers|, multiset{ev.eid})
    ensures var s := SignalEvent(m, ev, deleteRefused, timeoutsOff);
            Inv(s.m, |s.m.handlers|, if s.handled || deleteRefused then multiset{} else multiset{ev.eid})
  {
    DispatchedInv(m, ev);
    var s := Dispatched(m, ev);
    if s.handled {
      SweepInv(s.m, 0, timeoutsOff, multiset{});
    } else if deleteRefused {
      FreeInv(m, |m.handlers|, ev.eid);
      SweepInv(Free(m, ev.eid), 0, timeoutsOff, multiset{});
    } else {
      SweepInv(m, 0, timeoutsOff, multiset{ev.eid});
    }
  }

  lemma FreeInv(m: Machine, n: nat, eid: nat)
    requires Inv(m, n, multiset{eid})
    ensures Inv(Free(m, eid), n, multiset{})
  {
    hide HandlerOk, HeldAll, FirstN;
    LedgerStaysSound(m, Free(m, eid), n);
    assert HeldAll(m.handlers) + (m.freed + multiset{eid}) == HeldAll(m.handlers) + m.freed + multiset{eid};
  }

  lemma LoginInv(m: Machine, ev: Event)
    requires Inv(m, |m.handlers|, multiset{ev.eid})
    ensures var s := LoginSignalled(m, ev);
            if s.handled then Inv(s.m, |s.m.handlers|, multiset{}) else s.m == m
  {
    hide HandlerOk, HeldAll, FirstN;
    var s := LoginSignalled(m, ev);
    if s.handled {
      FreeInv(m, |m.handlers|, ev.eid);
      SoundStays(m, s.m, |m.handlers|);
    }
  }

  lemma RoutedInv(m: Machine, ev: Event, timeoutsOff: bool)
    requires Inv(m, |m.handlers|, multiset{ev.eid})
    ensures var m' := Routed(m, ev, timeoutsOff); Inv(m', |m'.handlers|, multiset{})
  {
    LoginInv(m, ev);
    SignalInv(m, ev, false, timeoutsOff);
    var call := SignalEvent(m, ev, false, timeoutsOff);
    if !call.handled {
      FreeInv(call.m, |call.m.handlers|, ev.eid);
    }
  }

  lemma ReceivedInv(m: Machine, ev: Event)
    requires Inv(m, |m.handlers|, multiset{}) && ev.eid == m.given
    ensures Inv(m.(given := m.given + 1), |m.handlers|, multiset{ev.eid})
  {
    LedgerStaysSound(m, m.(given := m.given + 1), |m.handlers|);
    OneMoreInHand(HeldAll(m.handlers), m.freed, m.given);
  }

  lemma OneMoreInHand(held: multiset<nat>, freed: multiset<nat>, given: nat)
    requires held + freed + multiset{} == FirstN(given)
    ensures held + freed + multiset{given} == FirstN(given + 1)
  {
    assert held + freed + multiset{} == held + freed;
  }

  lemma InjectLoginInv(m: Machine, ev: Event)
    requires Inv(m, |m.handlers|, multiset{ev.eid})
    ensures var s := LoginSignalled(m, ev);
            var m' := if s.handled then s.m else Free(s.m, ev.eid);
            Inv(m', |m'.handlers|, multiset{})
  {
    LoginInv(m, ev);
    FreeInv(m, |m.handlers|, ev.eid);
  }

  lemma QuietInv(m: Machine, st: Step)
    requires Enabled(m, st) && Inv(m, |m.handlers|, multiset{}) && (st.LoginLost? || st.Tick?)
    ensures Inv(Apply(m, st), |m.handlers|, multiset{})
  {
    SoundStays(m, Apply(m, st), |m.handlers|);
  }

  predicate IsEvent(st: Step) {
    st.Deliver? || st.Inject? || st.InjectLogin?
  }

  lemma EventStepInv(m: Machine, st: Step) returns (m': Machine)
    requires Enabled(m, st) && Inv(m, |m.handlers|, multiset{}) && IsEvent(st)
    ensures Inv(m', |m'.handlers|, multiset{})
    ensures EventStep(m, st, m')
  {
    var m1 := m.(given := m.given + 1);
    ReceivedInv(m, st.ev);
    match st
    case Deliver(ev, off) =>
      m' := Routed(m1, ev, off);
      RoutedInv(m1, ev, off);
    case Inject(ev, off) =>
      m' := SignalEvent(m1, ev, true, off).m;
      SignalInv(m1, ev, true, off);
    case InjectLogin(ev) =>
      var s := LoginSignalled(m1, ev);
      m' := if s.handled then s.m else Free(s.m, ev.eid);
      InjectLoginInv(m1, ev);
  }

  predicate EventStep(m: Machine, st: Step, m': Machine)
    requires IsEvent(st)
  {
    var m1 := m.(given := m.given + 1);
    match st
    case Deliver(ev, off) => m' == Routed(m1, ev, off)
    case Inject(ev, off) => m' == SignalEvent(m1, ev, true, off).m
    case InjectLogin(ev) =>
      var s := LoginSignalled(m1, ev);
      m' == if s.handled then s.m else Free(s.m, ev.eid)
  }

  lemma EventStepIsApply(m: Machine, st: Step)
    requires Enabled(m, st) && IsEvent(st)
    ensures EventStep(m, st, Apply(m, st))
  {
  }

  lemma ApplyInv(m: Machine, st: Step) returns (m': Machine)
    requires Enabled(m, st) && Inv(m, |m.handlers|, multiset{})
    ensures m' == Apply(m, st) && Inv(m', |m'.handlers|, multiset{})
  {
    hide VerdictOf, SweepFrom, IdsOk, NotesOk, SipsDiffer, HandlerOk, Accounted;
    m' := Apply(m, st);
    match st
    case LoginLost => QuietInv(m, st);
    case Tick(_) => QuietInv(m, st);
    case RequestCall(toDial) => RequestInv(m, m', toDial);
    case Admit(setupId, toSip, fromSip) => AdmittedInv(m, setupId, toSip, fromSip);
    case Poll(off) => SweepInv(m, 0, off, multiset{});
    case _ =>
      m' := EventStepInv(m, st);
      EventStepIsApply(m, st);
  }

  lemma RequestInv(m: Machine, m': Machine, toDial: string)
    requires Inv(m, |m.handlers|, multiset{})
    requires m' == m.(pending := m.pending + [CallRequest(m.lastId + 1, toDial)], lastId := m.lastId + 1)
    ensures Inv(m', |m'.handlers|, multiset{})
  {
    hide HandlerOk, HeldAll, FirstN;
    forall j | 0 <= j < |m.handlers|
      ensures OwnIds(m', m.handlers[j])
    {
      assert OwnIds(m, m.handlers[j]);
    }
  }

  lemma {:induction false} RunInv(m: Machine, steps: seq<Step>)
    requires Legal(m, steps) && Inv(m, |m.handlers|, multiset{})
    ensures var m' := Run(m, steps); Inv(m', |m'.handlers|, multiset{})
    decreases |steps|
  {
    if steps != [] {
      var m' := ApplyInv(m, steps[0]);
      RunInv(m', steps[1..]);
    }
  }

  /** Everything above, of every reachable machine. */
  lemma Reachable(steps: seq<Step>)
    requires Legal(START, steps)
    ensures Inv(Run(START, steps), |Run(START, steps).handlers|, multiset{})
  {
    RunInv(START, steps);
  }

  // ------------------------------------------------------------ main results

  /** Every event the session was ever given is held by exactly one handler or
      has been deleted exactly once, never both. */
  lemma EventsAreOwnedOnce(steps: seq<Step>, e: nat)
    requires Legal(START, steps)
    ensures var m := Run(START, steps);
            HeldAll(m.handlers)[e] + m.freed[e] == if e < m.given then 1 else 0
  {
    Reachable(steps);
    var m := Run(START, steps);
    FirstNCounts(m.given, e);
    assert (HeldAll(m.handlers) + m.freed + multiset{})[e] == FirstN(m.given)[e];
  }

  /** No two Incoming or Outgoing handlers follow the same SIP call, and an
      active call event of a SIP call is accepted by the one that follows it
      whenever it gets there. */
  lemma RoutingIsUnique(steps: seq<Step>, i: nat, j: nat, ev: Event)
    requires Legal(START, steps)
    requires var m := Run(START, steps);
             && i < |m.handlers| && j < |m.handlers|
             && !m.handlers[i].kind.MakeCall? && !m.handlers[j].kind.MakeCall?
             && ev.ActiveCall? && Accepts(m.handlers[i], ev) && Accepts(m.handlers[j], ev)
    ensures i == j
  {
    Reachable(steps);
  }

  /** While a handler is in the list its branches are the fold of the events it
      accepted, without duplicates, all of its own call; an incoming or outgoing
      one has at least one, and an incoming one's current id is among them. */
  lemma BranchesAreTheFold(steps: seq<Step>, i: nat)
    requires Legal(START, steps) && i < |Run(START, steps).handlers|
    ensures var h := Run(START, steps).handlers[i];
            && Ids(h.branches) == Fold(h.kind, h.history.log) && Distinct(Ids(h.branches))
            && (forall k :: 0 <= k < |h.branches| ==> SameCall(h, h.branches[k]))
            && (!h.kind.MakeCall? ==> h.branches != [])
            && (h.kind.Incoming? ==> h.data.id in Fold(Incoming, h.history.log))
  {
    Reachable(steps);
  }

  /** The states a MakeCall has been through, whether it is still followed or
      was removed, are its stages in order without a gap, then only endings. */
  lemma MakeCallsGoForward(steps: seq<Step>, i: nat)
    requires Legal(START, steps)
    ensures i < |Run(START, steps).handlers| && Run(START, steps).handlers[i].kind.MakeCall? ==>
              GoesForward(Run(START, steps).handlers[i].history.path)
    ensures i < |Run(START, steps).gone| && Run(START, steps).gone[i].kind.MakeCall? ==>
              GoesForward(Run(START, steps).gone[i].history.path)
  {
    Reachable(steps);
  }

  /** A drop request goes to the handler of that call and to no other, whatever
      the order of the list. */
  lemma DropRequestFindsItsCall(steps: seq<Step>, i: nat, ev: Event)
    requires Legal(START, steps) && i < |Run(START, steps).handlers| && ev.DropRequest?
    ensures var m := Run(START, steps);
            Acceptor(m.handlers, ev) == i <==> m.handlers[i].data.callId == ev.callId
  {
    Reachable(steps);
    DropRequestRoute(Run(START, steps), i, ev);
  }

  lemma DropRequestRoute(m: Machine, i: nat, ev: Event)
    requires IdsOk(m) && i < |m.handlers| && ev.DropRequest?
    ensures Acceptor(m.handlers, ev) == i <==> m.handlers[i].data.callId == ev.callId
  {
    forall k | 0 <= k < |m.handlers|
      ensures Accepts(m.handlers[k], ev) <==> m.handlers[k].data.callId == ev.callId
    {
      DropRequestAccepted(m.handlers[k], ev);
    }
    if m.handlers[i].data.callId == ev.callId {
      OnlyAcceptor(m.handlers, ev, i);
    }
  }

  lemma DropRequestAccepted(h: Handler, ev: Event)
    requires ev.DropRequest?
    ensures Accepts(h, ev) <==> h.data.callId == ev.callId
  {
  }

  lemma OnlyAcceptor(hs: seq<Handler>, ev: Event, i: nat)
    requires i < |hs| && forall k :: 0 <= k < |hs| ==> (Accepts(hs[k], ev) <==> k == i)
    ensures Acceptor(hs, ev) == i
  {
    var j := Acceptor(hs, ev);
    assert Accepts(hs[i], ev);
    assert j < |hs| ==> Accepts(hs[j], ev);
  }

  /** The reply to a drop request reaches the handler that sent it, past the
      login machine and every other handler, and is consumed: the handler waits
      for it no longer, and no other handler ever did. */
  lemma DropReplyReachesItsSender(steps: seq<Step>, i: nat, ev: Event)
    requires Legal(START, steps) && i < |Run(START, steps).handlers|
    requires ev.IqResult? && ev.context in Run(START, steps).handlers[i].dropContexts
    ensures var m := Run(START, steps);
            && !LoginSignalled(m, ev).handled
            && Acceptor(m.handlers, ev) == i
            && (forall j :: 0 <= j < |m.handlers| ==> ev.context !in OfferAt(m, i, ev).handlers[j].dropContexts)
  {
    Reachable(steps);
    var m := Run(START, steps);
    assert OwnIds(m, m.handlers[i]);
    OnlyTheSenderWaits(m, i, ev.context);
    ReplyRoute(m, i, ev);
    ReplyConsumed(m, i, ev);
  }

  lemma ReplyRoute(m: Machine, i: nat, ev: Event)
    requires i < |m.handlers| && OwnIds(m, m.handlers[i]) && ev.IqResult?
    requires forall k :: 0 <= k < |m.handlers| ==> (ev.context in m.handlers[k].dropContexts <==> k == i)
    ensures !LoginSignalled(m, ev).handled && Acceptor(m.handlers, ev) == i
  {
    forall k | 0 <= k < |m.handlers|
      ensures Accepts(m.handlers[k], ev) <==> k == i
    {
      IqReplyAccepted(m.handlers[k], ev);
    }
    OnlyAcceptor(m.handlers, ev, i);
  }

  lemma ReplyConsumed(m: Machine, i: nat, ev: Event)
    requires i < |m.handlers| && OwnIds(m, m.handlers[i]) && ev.IqResult?
    requires forall k :: 0 <= k < |m.handlers| && k != i ==> ev.context !in m.handlers[k].dropContexts
    ensures forall j :: 0 <= j < |m.handlers| ==> ev.context !in OfferAt(m, i, ev).handlers[j].dropContexts
  {
    ContextsAfterOffer(m.handlers[i], ev, m.now, m.lastId);
    RemoveFirstKeepsDistinct(m.handlers[i].dropContexts, ev.context);
  }

  lemma IqReplyAccepted(h: Handler, ev: Event)
    requires ev.IqResult?
    ensures Accepts(h, ev) <==> ev.context in h.dropContexts
  {
  }

  lemma OnlyTheSenderWaits(m: Machine, i: nat, context: nat)
    requires IdsOk(m) && i < |m.handlers| && context in m.handlers[i].dropContexts
    ensures forall k :: 0 <= k < |m.handlers| && k != i ==> context !in m.handlers[k].dropContexts
  {
    forall k | 0 <= k < |m.handlers| && k != i
      ensures context !in m.handlers[k].dropContexts
    {
      if k < i {
        assert Disjoint(m.handlers[k].dropContexts, m.handlers[i].dropContexts);
      } else {
        assert Disjoint(m.handlers[i].dropContexts, m.handlers[k].dropContexts);
      }
    }
  }

  /** The last notification about a call whose handler was removed says that it
      was removed in state Dropped. */
  lemma RemovalIsTheLastWord(steps: seq<Step>, k: nat, l: nat)
    requires Legal(START, steps)
    requires var m := Run(START, steps);
             && k < l < |m.notes| && m.notes[k].callId == m.notes[l].callId
    ensures !Run(START, steps).notes[k].reason.RemovedHandler?
    ensures Run(START, steps).notes[l].reason.RemovedHandler? ==> Run(START, steps).notes[l].state.Dropped?
  {
    Reachable(steps);
  }

  // ------------------------------------------------- who is handed an event

  datatype Recipient = LoginMachine | Call(i: nat) | NewCall | Nobody

  predicate StartsCall(ev: Event) {
    ev.ActiveCall? && (ev.dialog.CREATED? || ev.dialog.REQUESTED?)
  }

  /** Who an event from the server ends up with. */
  function RecipientOf(m: Machine, ev: Event): Recipient {
    if m.login.Some? && LoginTakes(m.login.value, ev, m.lastId).Some? then LoginMachine
    else
      var i := Acceptor(m.handlers, ev);
      if i < |m.handlers| then Call(i) else if StartsCall(ev) then NewCall else Nobody
  }

  /** What delivering an event comes to, by its recipient. */
  lemma RoutedByRecipient(m: Machine, ev: Event, timeoutsOff: bool)
    ensures var m' := Routed(m, ev, timeoutsOff);
            match RecipientOf(m, ev)
            case LoginMachine => m' == LoginSignalled(m, ev).m
            case Call(i) => m' == SweepFrom(OfferAt(m, i, ev), 0, timeoutsOff)
            case NewCall => m' == SweepFrom(Create(m, if ev.dialog.CREATED? then Outgoing else Incoming, ev), 0, timeoutsOff)
            case Nobody => m' == Free(SweepFrom(m, 0, timeoutsOff), ev.eid)
  {
    hide VerdictOf, SweepFrom;
  }

  lemma FreedOnce(m: Machine, e: nat)
    requires Accounted(m, multiset{}) && e < m.given && e in m.freed
    ensures m.freed[e] == 1
  {
    FirstNCounts(m.given, e);
    assert (HeldAll(m.handlers) + m.freed + multiset{})[e] == FirstN(m.given)[e];
  }

  // ---------------------------------------------------- logging in by a reply

  /** The login handler takes a reply to its authorize request for the
      authorization event, whose expiry date it goes on to read. */
  predicate ReadsMissingAuth(l: Login, ev: Event) {
    l.state.Authorizing? && ev.IqResult? && ev.context == l.contextId && !ev.isError
  }

  /** Authorizing ends well with an authorization event, or with a good reply to
      the authorize request in its place, and in no other way. */
  lemma AuthorizedExactlyWhen(l: Login, ev: Event, lastId: nat)
    requires l.state.Authorizing?
    ensures var taken := LoginTakes(l, ev, lastId);
            taken.Some? && taken.value.0.state.EnablingCallEvents?
            <==> (ev.Auth? && !ev.isError) || ReadsMissingAuth(l, ev)
  {
  }

  /** The reply can come first: two events from the server are enough, neither of
      them an authorization event. */
  lemma ReplyCanComeFirst()
    ensures var steps := [Deliver(OnConnect(0, false), false)];
            && Legal(START, steps) && Run(START, steps).login.Some?
            && ReadsMissingAuth(Run(START, steps).login.value, IqResult(1, 1, false))
  {
    var m, ev := START.(given := 1), OnConnect(0, false);
    var st := Deliver(ev, false);
    RoutedByRecipient(m, ev, false);
    var m' := LoginSignalled(m, ev).m;
    EventStepIsApply(START, st);
    assert [st][1..] == [];
  }
}
