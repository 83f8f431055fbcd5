/**
 * Two threads adding requests at once.  The place of a new request is chosen in
 * one critical section and the request inserted in another; here other calls
 * may get in between.
 */
module RequestPlaces {

  import opened Options
  import opened RequestQueue
  import opened RequestOrder

  /** The place asked for, counted from the front; -1 is the end. */
  function Chosen(rs: seq<Request>, r: Request): int {
    if r.command.DropCall? then Leading(rs) else -1
  }

  /** The request inserted at a place chosen before. */
  function AddedAt(d: Device, q: Queue, r: Request, place: int): Queue {
    var at := if 0 <= place <= |q.requests| then place else |q.requests|;
    var q' := q.(requests := Inserted(q.requests, r, at));
    if place == 0 || q.requests == [] then Received(d, q', false) else q'
  }

  /** Without anybody in between the two make up one step. */
  lemma AddedInOneGo(d: Device, q: Queue, r: Request)
    ensures AddedAt(d, q, r, Chosen(q.requests, r)) == Added(d, q, r)
  {
  }

  lemma ReceivingShows(d: Device, q: Queue, withData: bool)
    requires q.requests != [] && q.requests[0].state.NotProcessed?
    ensures |q.log| < |Received(d, q, withData).log|
  {
    hide Answered;
    if !HasHandler(d, q.requests[0]) {
      OneServed(d, q, withData);
      AnsweringCallsNobody(d, Begun(q), 0, AutoResult(d, q.requests[0]), true, true);
      LogGrows(d, AfterHead(d, q), false);
    }
  }

  lemma {:induction false} LogGrows(d: Device, q: Queue, withData: bool)
    ensures |q.log| <= |Received(d, q, withData).log|
    decreases |q.requests|
  {
    hide Answered;
    if q.requests != [] && !HasHandler(d, q.requests[0]) {
      OneServed(d, q, withData);
      AnsweringCallsNobody(d, Begun(q), 0, AutoResult(d, q.requests[0]), true, true);
      LogGrows(d, AfterHead(d, q), false);
    }
  }

  /** A place chosen when the queue was `q0` is right for the queue `q` found at
      the insertion if and only if the request drops no call, or the queue is
      empty, or a request is being worked on now exactly if one was then. */
  lemma PlaceHoldsExactlyWhen(d: Device, q0: Queue, q: Queue, r: Request)
    requires OnlyHeadRuns(q0.requests) && OnlyHeadRuns(q.requests) && r.state.NotProcessed?
    ensures AddedAt(d, q, r, Chosen(q0.requests, r)) == Added(d, q, r)
            <==> || !r.command.DropCall? || q.requests == []
                 || (q.requests[0].state.Running? <==> q0.requests != [] && q0.requests[0].state.Running?)
  {
    hide Received;
    var rs := q.requests;
    if r.command.DropCall? && rs != [] {
      StartedIsAtMostOne(rs);
      StartedIsAtMostOne(q0.requests);
      assert Inserted(rs, r, 0)[0] == r;
      ReceivingShows(d, q.(requests := Inserted(rs, r, 0)), false);
    } else {
      AddedInOneGo(d, q, r);
    }
  }

  lemma StartedIsAtMostOne(rs: seq<Request>)
    requires OnlyHeadRuns(rs)
    ensures Leading(rs) == if rs != [] && rs[0].state.Running? then 1 else 0
  {
    if rs != [] {
      assert Leading(rs[1..]) == 0;
    }
  }

  const DROP := Request(3, DropCall, Some(1), NotProcessed, true, false)

  /** A drop request finds the queue empty; before it is inserted a request comes
      and is started; the drop request is put before it and started as well, and
      two requests are being worked on. */
  lemma TwoCanBeStarted()
    ensures Legal(PLAIN, EMPTY, [Add(Asking(1, 1))])
    ensures var q := Run(PLAIN, EMPTY, [Add(Asking(1, 1))]);
            var q' := AddedAt(PLAIN, q, DROP, Chosen(EMPTY.requests, DROP));
            Enabled(q, Add(DROP)) && IdsOf(q'.requests) == [3, 1] && q'.requests[0].state.Running? && q'.requests[1].state.Running?
  {
    var q := Queue([Asking(1, 1).(state := INITIAL)], [Started(1), Handled(1, false)]);
    assert Added(PLAIN, EMPTY, Asking(1, 1)) == q;
    assert [Add(Asking(1, 1))][1..] == [];
    assert Inserted(q.requests, DROP, 0) == [DROP, q.requests[0]];
  }

  /** A drop request finds a request being worked on; before it is inserted that
      request is removed; the drop request is put behind one that was not started
      when it came, and that one is started first. */
  lemma DropCanBeOvertaken()
    ensures var q := Removed(TwoRequests(), AllOf(1), -1);
            var q' := AddedAt(PLAIN, q, DROP, Chosen(TwoRequests().requests, DROP));
            && IdsOf(q'.requests) == [2, 3]
            && var q2 := DataReceived(PLAIN, q', true, true);
               InQueue(q2, 3) && Started(2) in q2.log
  {
    var rs := TwoRequests().requests;
    assert rs[1..][1..] == [];
    assert Purged(rs[1..], AllOf(1), -1).kept == [rs[1]];
    var q := Removed(TwoRequests(), AllOf(1), -1);
    StartedIsAtMostOne(rs);
    var q' := AddedAt(PLAIN, q, DROP, 1);
    assert q'.requests == [rs[1], DROP];
    var q2 := DataReceived(PLAIN, q', true, true);
    assert q2.log[|q'.log|] == Started(2);
    assert q2.requests[1].id == 3;
  }
}
