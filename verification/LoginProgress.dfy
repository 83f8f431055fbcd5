/**
 * How a session logs in: connected, authorized and subscribed, in that order
 * and in no other way.
 */
module LoginProgress {

  import opened Options
  import opened CallHandlers
  import opened CallMachine

  /** The state the event leaves the login handler in. */
  function LoginAfter(l: Login, ev: Event, lastId: nat): LoginState {
    var taken := LoginTakes(l, ev, lastId);
    if taken.Some? then taken.value.0.state else l.state
  }

  /** The event answers what the login handler waits for in its state. */
  predicate Answers(l: Login, ev: Event) {
    match l.state
    case PreLogin => ev.OnConnect? || ev.OnDisconnect?
    case Authorizing => ev.Auth? || (ev.IqResult? && ev.context == l.contextId)
    case EnablingCallEvents => ev.Subscribed?
    case _ => false
  }

  predicate GoodAnswer(l: Login, ev: Event) {
    Answers(l, ev) && !ev.OnDisconnect? && !ev.isError
  }

  /** Where a good answer leads, and where any other. */
  function Onward(s: LoginState): LoginState {
    match s
    case PreLogin => Authorizing
    case Authorizing => EnablingCallEvents
    case EnablingCallEvents => LoggedIn
    case _ => s
  }

  function Astray(s: LoginState): LoginState {
    match s
    case PreLogin => LoginError
    case Authorizing => AuthorizedError
    case EnablingCallEvents => EnabledCallError
    case _ => s
  }

  /** A good answer to what it waits for takes the login one step on, a bad one
      to the error of that step; at any other time a lost connection and a request
      to shut down are heeded in every state, the reply to the unsubscribe request
      ends it, and no other event changes anything.  Requests it sends by the way
      get a fresh id. */
  lemma LoginMovesExactlyWhen(l: Login, ev: Event, lastId: nat)
    ensures LoginAfter(l, ev, lastId) ==
              if Answers(l, ev) then if GoodAnswer(l, ev) then Onward(l.state) else Astray(l.state)
              else if ev.OnDisconnect? then Disconnected
              else if ev.ShutdownRequest? then ShuttingDown
              else if l.state.ShuttingDown? && ev.IqResult? && ev.context == l.unsubscribeId then ShutDown
              else l.state
    ensures var taken := LoginTakes(l, ev, lastId);
            taken.Some? ==>
              && (ev.ShutdownRequest? ==> taken.value == (l.(state := ShuttingDown, unsubscribeId := lastId + 1), lastId + 1))
              && (l.state.PreLogin? && GoodAnswer(l, ev) ==> taken.value == (l.(state := Authorizing, contextId := lastId + 1), lastId + 1))
              && (!ev.ShutdownRequest? && !(l.state.PreLogin? && GoodAnswer(l, ev)) ==>
                    taken.value == (l.(state := taken.value.0.state), lastId))
    ensures LoginTakes(l, ev, lastId).None? <==>
              !Answers(l, ev) && !ev.OnDisconnect? && !ev.ShutdownRequest?
              && !(l.state.ShuttingDown? && ev.IqResult? && ev.context == l.unsubscribeId)
  {
  }

  // ------------------------------------------------------------ over a session

  datatype Milestone = Connects | Authorizes | Subscribes

  /** The step brings the login machine a good event of that kind. */
  predicate Passes(st: Step, p: Milestone) {
    && (st.Deliver? || st.InjectLogin?)
    && match p
       case Connects => st.ev.OnConnect? && !st.ev.isError
       case Authorizes => (st.ev.Auth? || st.ev.IqResult?) && !st.ev.isError
       case Subscribes => st.ev.Subscribed? && !st.ev.isError
  }

  /** The steps pass the milestones one after the other. */
  predicate PassesInOrder(steps: seq<Step>, ps: seq<Milestone>)
    decreases |steps|
  {
    ps == [] || (steps != [] && PassesInOrder(steps[1..], if Passes(steps[0], ps[0]) then ps[1..] else ps))
  }

  /** What is still to come before a login, if one can come. */
  function Ahead(s: LoginState): Option<seq<Milestone>> {
    match s
    case PreLogin => Some([Connects, Authorizes, Subscribes])
    case Authorizing => Some([Authorizes, Subscribes])
    case EnablingCallEvents => Some([Subscribes])
    case LoggedIn => Some([])
    case _ => None
  }

  lemma {:induction false} FewerPassToo(steps: seq<Step>, ps: seq<Milestone>)
    requires ps != [] && PassesInOrder(steps, ps)
    ensures PassesInOrder(steps, ps[1..])
    decreases |steps|
  {
    if |ps| > 1 {
      var ps' := if Passes(steps[0], ps[0]) then ps[1..] else ps;
      FewerPassToo(steps[1..], ps');
      if !Passes(steps[0], ps[0]) && Passes(steps[0], ps[1]) {
        FewerPassToo(steps[1..], ps[1..]);
      }
    }
  }

  lemma {:induction false} SweepKeepsLogin(m: Machine, i: nat, off: bool)
    requires i <= |m.handlers|
    ensures SweepFrom(m, i, off).login == m.login
    decreases |m.handlers| - i
  {
    if i < |m.handlers| {
      var m' := CheckAt(m, i, off);
      SweepKeepsLogin(m', if |m'.handlers| == |m.handlers| then i + 1 else i, off);
    }
  }

  lemma SignalKeepsLogin(m: Machine, ev: Event, deleteRefused: bool, off: bool)
    ensures SignalEvent(m, ev, deleteRefused, off).m.login == m.login
  {
    hide SweepFrom, Offered;
    var s := Dispatched(m, ev);
    SweepKeepsLogin(if !s.handled && deleteRefused then Free(s.m, ev.eid) else s.m, 0, off);
  }

  /** The login moves as an event that reaches it says, or ends with it. */
  predicate LoginFollows(m: Machine, st: Step, m': Machine) {
    if st.LoginLost? then m'.login.Some? && m'.login.value.state.Disconnected?
    else if (st.Deliver? || st.InjectLogin?) && m.login.Some? && LoginTakes(m.login.value, st.ev, m.lastId).Some? then
      var l := LoginTakes(m.login.value, st.ev, m.lastId).value.0;
      m'.login == if l.state.ShutDown? then None else Some(l)
    else m'.login == m.login
  }

  lemma EventMovesLogin(m: Machine, st: Step) returns (m': Machine)
    requires Enabled(m, st) && IsEvent(st)
    ensures EventStep(m, st, m') && LoginFollows(m, st, m')
  {
    hide SignalEvent, LoginTakes;
    var m1 := m.(given := m.given + 1);
    match st
    case Deliver(ev, off) =>
      m' := Routed(m1, ev, off);
      SignalKeepsLogin(m1, ev, false, off);
    case Inject(ev, off) =>
      m' := SignalEvent(m1, ev, true, off).m;
      SignalKeepsLogin(m1, ev, true, off);
    case InjectLogin(ev) =>
      var s := LoginSignalled(m1, ev);
      m' := if s.handled then s.m else Free(s.m, ev.eid);
  }

  lemma StepMovesLogin(m: Machine, st: Step)
    requires Enabled(m, st)
    ensures LoginFollows(m, st, Apply(m, st))
  {
    hide SweepFrom;
    if IsEvent(st) {
      var m' := EventMovesLogin(m, st);
      EventStepIsApply(m, st);
    } else if st.Poll? {
      SweepKeepsLogin(m, 0, st.timeoutsOff);
    }
  }

  lemma OneMilestone(m: Machine, st: Step, m': Machine)
    requires LoginFollows(m, st, m') && m'.login.Some? && Ahead(m'.login.value.state).Some?
    ensures m.login.Some? && Ahead(m.login.value.state).Some?
    ensures var before, after := Ahead(m.login.value.state).value, Ahead(m'.login.value.state).value;
            before == after || (before != [] && before[1..] == after && Passes(st, before[0]))
  {
    if m'.login != m.login {
      LoginMovesExactlyWhen(m.login.value, st.ev, m.lastId);
    }
  }

  lemma {:induction false} RunLogsIn(m: Machine, steps: seq<Step>)
    requires Legal(m, steps)
    requires Run(m, steps).login.Some? && Run(m, steps).login.value.state.LoggedIn?
    ensures m.login.Some? && Ahead(m.login.value.state).Some? && PassesInOrder(steps, Ahead(m.login.value.state).value)
    decreases |steps|
  {
    hide Apply, LoginFollows;
    if steps != [] {
      var m' := Apply(m, steps[0]);
      RunLogsIn(m', steps[1..]);
      StepMovesLogin(m, steps[0]);
      OneMilestone(m, steps[0], m');
      var ps := Ahead(m.login.value.state).value;
      if ps != [] && ps == Ahead(m'.login.value.state).value {
        FewerPassToo(steps[1..], ps);
      }
    }
  }

  /** A session is logged in only once it was connected, then authorized, then
      subscribed, each time with a good answer. */
  lemma LoggedInOnlyAfter(steps: seq<Step>)
    requires Legal(START, steps)
    requires Run(START, steps).login.Some? && Run(START, steps).login.value.state.LoggedIn?
    ensures PassesInOrder(steps, [Connects, Authorizes, Subscribes])
  {
    RunLogsIn(START, steps);
  }

  lemma Delivered(m: Machine, ev: Event) returns (m': Machine)
    requires ev.eid == m.given && m.login.Some? && LoginTakes(m.login.value, ev, m.lastId).Some?
    requires !LoginAfter(m.login.value, ev, m.lastId).ShutDown?
    ensures m' == Apply(m, Deliver(ev, false)) && m'.given == m.given + 1
    ensures m'.login == Some(LoginTakes(m.login.value, ev, m.lastId).value.0)
  {
    hide LoginTakes, SignalEvent;
    var m1 := m.(given := m.given + 1);
    m' := LoginSignalled(m1, ev).m;
    EventStepIsApply(m, Deliver(ev, false));
  }

  /** And these three are enough. */
  lemma ThreeEventsLogIn()
    ensures var steps := [Deliver(OnConnect(0, false), false), Deliver(Auth(1, false), false), Deliver(Subscribed(2, false), false)];
            && Legal(START, steps) && Run(START, steps).login.Some? && Run(START, steps).login.value.state.LoggedIn?
  {
    hide Apply;
    var steps := [Deliver(OnConnect(0, false), false), Deliver(Auth(1, false), false), Deliver(Subscribed(2, false), false)];
    var m1 := Delivered(START, OnConnect(0, false));
    var m2 := Delivered(m1, Auth(1, false));
    var m3 := Delivered(m2, Subscribed(2, false));
    assert steps[1..][1..][1..] == [];
    assert steps[1..][1..][0] == steps[2] && steps[1..][0] == steps[1];
  }

  lemma {:induction false} RunShutsDown(m: Machine, steps: seq<Step>)
    requires Legal(m, steps) && (m.login.Some? ==> !m.login.value.state.ShutDown?)
    ensures Run(m, steps).login.Some? ==> !Run(m, steps).login.value.state.ShutDown?
    ensures m.login.None? ==> Run(m, steps).login.None?
    decreases |steps|
  {
    hide Apply;
    if steps != [] {
      StepMovesLogin(m, steps[0]);
      RunShutsDown(Apply(m, steps[0]), steps[1..]);
    }
  }

  /** With the reply to its unsubscribe request the login handler is gone at once,
      so that nobody ever sees it shut down (and once gone it stays gone). */
  lemma ShutDownIsRemoved(steps: seq<Step>, ev: Event, off: bool)
    requires Legal(START, steps) && ev.eid == Run(START, steps).given && Run(START, steps).login.Some?
    ensures var m := Run(START, steps);
            var l := m.login.value;
            && !l.state.ShutDown?
            && (l.state.ShuttingDown? && ev.IqResult? && ev.context == l.unsubscribeId ==> Apply(m, Deliver(ev, off)).login.None?)
  {
    hide Apply;
    RunShutsDown(START, steps);
    var m := Run(START, steps);
    StepMovesLogin(m, Deliver(ev, off));
    LoginMovesExactlyWhen(m.login.value, ev, m.lastId);
  }
}
