/**
 * The connection object (a line or a telephone) with its request list, changed
 * in place; every method is proved against the queue of `RequestQueue`.
 */
module Connection {

  import opened Options
  import opened RequestQueue

  class TspiConnection {
    const device: Device
    var requests: seq<Request>
    // The calls made to the provider, to TAPI and to waiting threads.
    var log: seq<Note>

    constructor (d: Device)
      ensures device == d && View() == EMPTY
    {
      device, requests, log := d, [], [];
    }

    ghost function View(): Queue
      reads this
    {
      Queue(requests, log)
    }

    /** A new request; the default OnNewRequest leaves its place alone. */
    method AddAsynchRequest(r: Request)
      modifies this
      ensures View() == Added(device, old(View()), r)
      ensures !r.command.DropCall? && old(requests) != [] ==> requests == old(requests) + [r] && log == old(log)
    {
      var pos: int := 0;
      if r.command.DropCall? {
        while pos < |requests|
          invariant 0 <= pos <= |requests|
          invariant Leading(requests) == pos + Leading(requests[pos..])
        {
          if requests[pos].state.NotProcessed? {
            break;
          }
          pos := pos + 1;
        }
      } else {
        pos := -1;
      }
      var starts := Insert(r, pos);
      if starts {
        var handled := ReceiveData(false, false);
      }
    }

    /** Puts the request in its place and says whether to start it. */
    method Insert(r: Request, pos: int) returns (starts: bool)
      requires -1 <= pos
      modifies this`requests
      ensures var n := |old(requests)|;
              var at := if 0 <= pos <= n then pos else n;
              requests == Inserted(old(requests), r, at) && starts == (pos == 0 || old(requests) == [])
    {
      var at := if pos > |requests| then -1 else pos;
      if at == 0 {
        requests := [r] + requests;
        starts := true;
      } else if at == -1 {
        requests := requests + [r];
        starts := |requests| == 1;
      } else {
        var i, left := 0, at;
        while i < |requests| && left > 0
          invariant 0 <= i <= |requests| && i + left == at
        {
          i, left := i + 1, left - 1;
        }
        requests := requests[..i] + [r] + requests[i..];
        starts := false;
      }
    }

    /** `accepted` is what the handler of the head, if it is called, makes of it. */
    method ReceiveData(withData: bool, accepted: bool) returns (handled: bool)
      modifies this
      ensures View() == DataReceived(device, old(View()), withData, accepted)
      ensures handled == (Taken(device, old(View())) && accepted)
      decreases |requests|, 3
    {
      handled := false;
      if requests != [] {
        if requests[0].state.NotProcessed? {
          log := log + [Started(requests[0].id)];
          requests := requests[0 := requests[0].(state := INITIAL)];
        }
        handled := DispatchRequest(withData, accepted);
        if handled {
          return;
        }
      }
      if withData {
        log := log + [Unsolicited];
      }
    }

    /** Hands the head to its handler, or completes it if it has none. */
    method DispatchRequest(withData: bool, accepted: bool) returns (handled: bool)
      requires requests != []
      modifies this
      ensures var r := old(requests[0]);
              && handled == (HasHandler(device, r) && accepted)
              && View() == if HasHandler(device, r)
                           then old(View()).(log := old(log) + [Handled(r.id, withData)])
                           else CompletedAt(device, old(View()), 0, AutoResult(device, r), true, true)
      decreases |requests|, 2
    {
      var r := requests[0];
      handled := false;
      if Code(r.command) in device.handlers {
        if device.handlers[Code(r.command)] {
          log := log + [Handled(r.id, withData)];
          handled := accepted;
        } else {
          CompleteAt(0, 0, true, true);
        }
      } else {
        CompleteAt(0, device.failed, true, true);
      }
    }

    /** A request that was completed before is no longer in the list, and is left
        alone. */
    method CompleteRequest(id: nat, result: int, tell: bool, remove: bool)
      modifies this
      ensures View() == Completed(device, old(View()), id, result, tell, remove)
      decreases |requests|, 1
    {
      var i: nat := 0;
      while i < |requests| && requests[i].id != id
        invariant i <= |requests|
        invariant Find(requests, id) == i + Find(requests[i..], id)
      {
        i := i + 1;
      }
      if i < |requests| {
        CompleteAt(i, result, tell, remove);
      }
    }

    method CompleteAt(i: nat, result: int, tell: bool, remove: bool)
      requires i < |requests|
      modifies this
      ensures View() == CompletedAt(device, old(View()), i, result, tell, remove)
      decreases |requests|, 0
    {
      var r, isCurrent := requests[i], i == 0;
      var sendResponse := r.asynch && !r.responded && tell;
      if remove {
        requests := requests[..i] + requests[i + 1..];
      } else {
        requests := requests[i := r.(responded := r.responded || tell)];
      }
      log := log + [Finished(r.id, result)];
      OnRequestComplete(r, result);
      if sendResponse {
        log := log + [Told(r.id, result)];
      }
      assert View() == Answered(device, old(View()), i, result, tell, remove);
      if remove && requests != [] && isCurrent {
        var handled := ReceiveData(false, false);
      }
    }

    /** What the call of a completed request does to the list: a call that was
        dropped takes its other requests with it. */
    method OnRequestComplete(r: Request, result: int)
      modifies this
      ensures View() == Cleared(device, old(View()), r, result)
    {
      if result == 0 && r.command.DropCall? && r.call.Some? {
        RemovePendingRequests(Criteria(r.call, None, false, Some(r.id)), device.failed);
      }
    }

    /** Looks at one request of the list; its parameters may lose the call. */
    method IsMatchingRequest(i: nat, c: Criteria) returns (hit: bool)
      requires i < |requests|
      modifies this
      ensures var m := Matched(old(requests[i]), c);
              hit == m.hit && requests == old(requests)[i := m.r] && log == old(log) + m.effects
    {
      var r := requests[i];
      hit := false;
      if c.except == Some(r.id) {
        return;
      }
      var wanted := c.code == None || c.code == Some(Code(r.command));
      if (c.call == None || c.call == r.call) && wanted && (!c.onlyUnstarted || r.state.NotProcessed?) {
        hit := true;
        return;
      }
      if (c.onlyUnstarted && !r.state.NotProcessed?) || c.call == None || !wanted {
        return;
      }
      var call := c.call.value;
      match r.command
      case SetupTransfer(consult) =>
        if consult == Some(call) {
          requests := requests[i := r.(command := SetupTransfer(None))];
        }
      case CompleteTransfer(consult, conference, joins) =>
        if consult == Some(call) {
          if conference.Some? && joins {
            log := log + [Idled(conference.value)];
          }
          hit := true;
        } else if conference == Some(call) {
          hit := true;
        }
      case SetupConference(original, meeting, consult) =>
        if original == call {
          log := log + [Idled(meeting)];
          if consult.Some? {
            log := log + [Idled(consult.value)];
          }
          hit := true;
        } else if consult == Some(call) {
          log := log + [Detached(meeting)];
          log := log + [Detached(call)];
          requests := requests[i := r.(command := SetupConference(original, meeting, None))];
        }
      case AddToConference(consult) =>
        if consult == Some(call) {
          hit := true;
        }
      case _ =>
    }

    /** Walks the list from the top to the first match. */
    method FindMatch(c: Criteria, error: int, ghost done: nat, ghost whole: Purge, ghost before: seq<Note>)
      returns (found: Option<nat>)
      requires Remaining(requests, log, done, c, error, whole, before)
      modifies this
      ensures |requests| == |old(requests)|
      ensures found.None? ==> Remaining(requests, log, |requests|, c, error, whole, before)
      ensures found.Some? ==> FoundAt(requests, log, found.value, c, error, whole, before)
    {
      var i: nat := 0;
      ghost var clean := done;
      while i < |requests|
        invariant i <= |requests| == |old(requests)| && i <= clean <= |requests|
        invariant Remaining(requests, log, clean, c, error, whole, before)
      {
        ghost var rs, notes := requests, log;
        var hit := IsMatchingRequest(i, c);
        if i < clean {
          assert rs[..clean][i] == rs[i];
          assert Matched(rs[i], c) == NoMatch(rs[i]);
          assert requests == rs && log == notes;
        }
        if hit {
          HitIsFound(rs, notes, i, c, error, whole, before);
          return Some(i);
        }
        if i == clean {
          MissIsPassed(rs, notes, i, c, error, whole, before);
          clean := i + 1;
        }
        i := i + 1;
      }
      found := None;
    }

    /** Starts over from the top of the list after every request removed, and
        does no more and no less than one pass over the list. */
    method RemovePendingRequests(c: Criteria, error: int)
      modifies this
      ensures var p := Purged(old(requests), c, error);
              requests == p.kept && log == old(log) + p.log
    {
      ghost var done, whole, before := 0, Purged(requests, c, error), log;
      assert requests[0..] == requests;
      while true
        invariant Remaining(requests, log, done, c, error, whole, before)
        decreases |requests|
      {
        var found := FindMatch(c, error, done, whole, before);
        if found.None? {
          break;
        }
        var i := found.value;
        RemovalGoesOn(requests, log, i, c, error, whole, before);
        var r := requests[i];
        ghost var notes := log;
        if r.state != INITIAL {
          log := log + [Cancelled(r.id)];
        }
        requests := requests[..i] + requests[i + 1..];
        if r.asynch && !r.responded {
          log := log + [Told(r.id, error)];
        }
        log := log + [Finished(r.id, error)];
        assert log == notes + Removal(r, error);
        done := i;
      }
      assert requests[|requests|..] == [];
    }
  }

  /** The first `done` requests are settled, and what is still to be done is
      what a single pass over the list would still do. */
  ghost predicate Remaining(rs: seq<Request>, log: seq<Note>, done: nat, c: Criteria, error: int,
                            whole: Purge, before: seq<Note>)
  {
    && done <= |rs| && Settled(rs[..done], c)
    && rs[..done] + Purged(rs[done..], c, error).kept == whole.kept
    && log + Purged(rs[done..], c, error).log == before + whole.log
  }

  /** A match at `i`, with nothing to do before it. */
  ghost predicate FoundAt(rs: seq<Request>, log: seq<Note>, i: nat, c: Criteria, error: int,
                          whole: Purge, before: seq<Note>)
  {
    && i < |rs| && Settled(rs[..i], c)
    && rs[..i] + Purged(rs[i + 1..], c, error).kept == whole.kept
    && log + Removal(rs[i], error) + Purged(rs[i + 1..], c, error).log == before + whole.log
  }

  lemma MatchNext(rs: seq<Request>, i: nat, c: Criteria, error: int) returns (m: Match, rest: Purge)
    requires i < |rs|
    ensures m == Matched(rs[i], c) && rest == Purged(rs[i + 1..], c, error)
    ensures Purged(rs[i..], c, error) ==
              if m.hit then Purge(rest.kept, m.effects + Removal(rs[i], error) + rest.log)
              else Purge([m.r] + rest.kept, m.effects + rest.log)
    ensures m.hit ==> m.r == rs[i]
    ensures !m.hit ==> Matched(m.r, c) == NoMatch(m.r)
  {
    assert rs[i..][1..] == rs[i + 1..];
    m, rest := Matched(rs[i], c), Purged(rs[i + 1..], c, error);
    if !m.hit {
      MatchingSettles(rs[i], c);
    }
  }

  lemma HitIsFound(rs: seq<Request>, log: seq<Note>, i: nat, c: Criteria, error: int, whole: Purge, before: seq<Note>)
    requires Remaining(rs, log, i, c, error, whole, before) && i < |rs| && Matched(rs[i], c).hit
    ensures rs[i := Matched(rs[i], c).r] == rs
    ensures FoundAt(rs, log + Matched(rs[i], c).effects, i, c, error, whole, before)
  {
    var m, rest := MatchNext(rs, i, c, error);
    JoinNotes(log, m.effects, Removal(rs[i], error), rest.log);
  }

  lemma MissIsPassed(rs: seq<Request>, log: seq<Note>, i: nat, c: Criteria, error: int, whole: Purge, before: seq<Note>)
    requires Remaining(rs, log, i, c, error, whole, before) && i < |rs| && !Matched(rs[i], c).hit
    ensures Remaining(rs[i := Matched(rs[i], c).r], log + Matched(rs[i], c).effects, i + 1, c, error, whole, before)
  {
    hide Matched;
    var m, rest := MatchNext(rs, i, c, error);
    var rs' := rs[i := m.r];
    assert rs'[..i + 1] == rs[..i] + [m.r] && rs'[i + 1..] == rs[i + 1..];
    assert rs[..i] + [m.r] + rest.kept == rs[..i] + ([m.r] + rest.kept);
    assert log + m.effects + rest.log == log + (m.effects + rest.log);
  }

  lemma RemovalGoesOn(rs: seq<Request>, log: seq<Note>, i: nat, c: Criteria, error: int, whole: Purge, before: seq<Note>)
    requires FoundAt(rs, log, i, c, error, whole, before)
    ensures Remaining(rs[..i] + rs[i + 1..], log + Removal(rs[i], error), i, c, error, whole, before)
  {
    var rs' := rs[..i] + rs[i + 1..];
    assert rs'[..i] == rs[..i] && rs'[i..] == rs[i + 1..];
  }

  lemma JoinNotes(a: seq<Note>, b: seq<Note>, c: seq<Note>, d: seq<Note>)
    ensures a + (b + c + d) == (a + b) + c + d
  {
  }
}
