/**
 * In which order requests are served: what every run of the request queue keeps,
 * that a drop request goes first, and when the queue comes to a standstill.
 */
module RequestOrder {

  import opened Options
  import opened Sequences
  import opened RequestQueue

  // --------------------------------------------------- only the head is running

  predicate OnlyHeadRuns(rs: seq<Request>) {
    forall i :: 0 < i < |rs| ==> rs[i].state.NotProcessed?
  }

  predicate DistinctIds(rs: seq<Request>) {
    forall i, j :: 0 <= i < j < |rs| ==> rs[i].id != rs[j].id
  }

  /** `rs'` holds requests of `rs` in their order, none of them behind the head
      started since. */
  predicate Thinned(rs: seq<Request>, rs': seq<Request>, at: seq<nat>) {
    && |at| == |rs'|
    && (forall i :: 0 <= i < |at| ==> at[i] < |rs| && rs'[i].id == rs[at[i]].id)
    && (forall i, j :: 0 <= i < j < |at| ==> at[i] < at[j])
    && (forall i :: 0 < i < |at| ==> rs'[i].state == rs[at[i]].state)
    && (forall i :: 0 <= i < |at| && rs'[i].state.NotProcessed? ==> rs[at[i]].state.NotProcessed?)
  }

  lemma ThinnedKeepsOrder(rs: seq<Request>, rs': seq<Request>, at: seq<nat>)
    requires OnlyHeadRuns(rs) && DistinctIds(rs) && Thinned(rs, rs', at)
    ensures OnlyHeadRuns(rs') && DistinctIds(rs')
  {
    assert forall i :: 0 < i < |at| ==> at[0] < at[i];
  }

  /** `rs'` holds some of the requests of `rs`, in their order and state. */
  predicate Picked(rs: seq<Request>, rs': seq<Request>, at: seq<nat>) {
    && |at| == |rs'|
    && (forall i :: 0 <= i < |at| ==> at[i] < |rs| && rs'[i].id == rs[at[i]].id && rs'[i].state == rs[at[i]].state)
    && (forall i, j :: 0 <= i < j < |at| ==> at[i] < at[j])
  }

  lemma PickLater(r: Request, rs: seq<Request>, rs': seq<Request>, at: seq<nat>) returns (moved: seq<nat>)
    requires Picked(rs, rs', at)
    ensures Picked([r] + rs, rs', moved) && forall i :: 0 <= i < |moved| ==> moved[i] > 0
  {
    moved := seq(|at|, k requires 0 <= k < |at| => at[k] + 1);
    forall i | 0 <= i < |at|
      ensures ([r] + rs)[moved[i]] == rs[at[i]]
    {
    }
  }

  lemma PickFirst(r: Request, rs: seq<Request>, r': Request, rs': seq<Request>, at: seq<nat>)
    requires Picked([r] + rs, rs', at) && forall i :: 0 <= i < |at| ==> at[i] > 0
    requires r'.id == r.id && r'.state == r.state
    ensures Picked([r] + rs, [r'] + rs', [0] + at)
  {
    forall i | 0 <= i < |[0] + at|
      ensures ([r'] + rs')[i].id == ([r] + rs)[([0] + at)[i]].id
      ensures ([r'] + rs')[i].state == ([r] + rs)[([0] + at)[i]].state
    {
      if i > 0 {
        assert ([r'] + rs')[i] == rs'[i - 1] && ([0] + at)[i] == at[i - 1];
      }
    }
  }

  lemma {:induction false} PurgedPicks(rs: seq<Request>, c: Criteria, error: int) returns (at: seq<nat>)
    ensures Picked(rs, Purged(rs, c, error).kept, at)
  {
    at := [];
    if rs != [] {
      at := PurgedPicks(rs[1..], c, error);
      var m := MatchedKeeps(rs[0], c);
      var rest := Purged(rs[1..], c, error).kept;
      assert [rs[0]] + rs[1..] == rs;
      at := PickLater(rs[0], rs[1..], rest, at);
      if !m.hit {
        PickFirst(rs[0], rs[1..], m.r, rest, at);
        at := [0] + at;
      }
    }
  }

  // -------------------------------------------------- what serving a queue does

  predicate InQueue(q: Queue, id: nat) {
    exists i :: 0 <= i < |q.requests| && q.requests[i].id == id
  }

  predicate MentionedSince(log: seq<Note>, from: nat, id: nat) {
    exists n :: from <= n < |log| && Mentions(log[n], id)
  }

  /** What serving a queue does to the requests in it: none is new, one that
      leaves is told of, and one that is started had nothing left before it. */
  predicate Serves(q: Queue, q': Queue) {
    && q.log <= q'.log
    && (forall i :: 0 <= i < |q'.requests| ==> InQueue(q, q'.requests[i].id))
    && (forall n :: |q.log| <= n < |q'.log| && q'.log[n].Started? ==> InQueue(q, q'.log[n].id))
    && (forall i :: 0 <= i < |q.requests| && !InQueue(q', q.requests[i].id) ==>
          MentionedSince(q'.log, |q.log|, q.requests[i].id))
    && (forall i, j, n :: 0 <= i < j < |q.requests| && |q.log| <= n < |q'.log| && q'.log[n] == Started(q.requests[j].id) ==>
          !InQueue(q', q.requests[i].id))
    && (forall i, n :: 0 <= i < |q'.requests| && q'.requests[i].state.NotProcessed? && |q.log| <= n < |q'.log| ==>
          q'.log[n] != Started(q'.requests[i].id))
  }

  /** Everything a service promises. */
  predicate Serving(q: Queue, q': Queue, at: seq<nat>) {
    Serves(q, q') && Thinned(q.requests, q'.requests, at)
  }

  lemma ThinnedTwice(rs: seq<Request>, rs1: seq<Request>, rs2: seq<Request>, at1: seq<nat>, at2: seq<nat>) returns (at: seq<nat>)
    requires Thinned(rs, rs1, at1) && Thinned(rs1, rs2, at2)
    ensures Thinned(rs, rs2, at)
  {
    at := seq(|at2|, i requires 0 <= i < |at2| => at1[at2[i]]);
    assert forall i :: 0 < i < |at2| ==> at2[0] < at2[i];
  }

  /** Distinct requests keep their places. */
  lemma ComesFrom(rs: seq<Request>, rs': seq<Request>, at: seq<nat>, i: nat, i': nat)
    requires DistinctIds(rs) && Thinned(rs, rs', at) && i < |rs| && i' < |rs'| && rs'[i'].id == rs[i].id
    ensures at[i'] == i
  {
  }

  lemma LeavesAtLast(q: Queue, q1: Queue, q2: Queue, i: nat)
    requires Serves(q, q1) && Serves(q1, q2) && i < |q.requests| && !InQueue(q2, q.requests[i].id)
    ensures MentionedSince(q2.log, |q.log|, q.requests[i].id)
  {
    var id := q.requests[i].id;
    if InQueue(q1, id) {
      var k :| 0 <= k < |q1.requests| && q1.requests[k].id == id;
      assert MentionedSince(q2.log, |q1.log|, id);
    } else {
      var n :| |q.log| <= n < |q1.log| && Mentions(q1.log[n], id);
      assert q2.log[n] == q1.log[n];
    }
  }

  lemma StartsInOrder(q: Queue, q1: Queue, q2: Queue, at1: seq<nat>, i: nat, j: nat, n: nat)
    requires Serving(q, q1, at1) && Serves(q1, q2) && DistinctIds(q.requests)
    requires i < j < |q.requests| && |q.log| <= n < |q2.log| && q2.log[n] == Started(q.requests[j].id)
    ensures !InQueue(q2, q.requests[i].id)
  {
    var id := q.requests[i].id;
    if n < |q1.log| {
      assert q1.log[n] == q2.log[n];
      NotBack(q1, q2, id);
    } else if InQueue(q1, id) {
      var i1 :| 0 <= i1 < |q1.requests| && q1.requests[i1].id == id;
      var j1 :| 0 <= j1 < |q1.requests| && q1.requests[j1].id == q2.log[n].id;
      ComesFrom(q.requests, q1.requests, at1, i, i1);
      ComesFrom(q.requests, q1.requests, at1, j, j1);
    } else {
      NotBack(q1, q2, id);
    }
  }

  lemma NotBack(q: Queue, q': Queue, id: nat)
    requires Serves(q, q') && !InQueue(q, id)
    ensures !InQueue(q', id)
  {
  }

  lemma LooksUnstarted(q: Queue, q1: Queue, q2: Queue, at2: seq<nat>, i: nat, n: nat)
    requires Serves(q, q1) && Serving(q1, q2, at2)
    requires i < |q2.requests| && q2.requests[i].state.NotProcessed? && |q.log| <= n < |q2.log|
    ensures q2.log[n] != Started(q2.requests[i].id)
  {
    if n < |q1.log| {
      assert q2.log[n] == q1.log[n];
      assert q1.requests[at2[i]].state.NotProcessed?;
    }
  }

  /** One service after another is a service. */
  lemma ServingTwice(q: Queue, q1: Queue, q2: Queue, at1: seq<nat>, at2: seq<nat>) returns (at: seq<nat>)
    requires DistinctIds(q.requests) && Serving(q, q1, at1) && Serving(q1, q2, at2)
    ensures Serving(q, q2, at)
  {
    hide Thinned, InQueue, MentionedSince;
    at := ThinnedTwice(q.requests, q1.requests, q2.requests, at1, at2);
    assert q.log <= q2.log;
    forall i | 0 <= i < |q2.requests|
      ensures InQueue(q, q2.requests[i].id)
    {
      InBoth(q, q1, q2, q2.requests[i].id);
    }
    forall n | |q.log| <= n < |q2.log| && q2.log[n].Started?
      ensures InQueue(q, q2.log[n].id)
    {
      if n < |q1.log| {
        assert q2.log[n] == q1.log[n];
      } else {
        InFirst(q, q1, q2.log[n].id);
      }
    }
    forall i | 0 <= i < |q.requests| && !InQueue(q2, q.requests[i].id)
      ensures MentionedSince(q2.log, |q.log|, q.requests[i].id)
    {
      LeavesAtLast(q, q1, q2, i);
    }
    forall i, j, n | 0 <= i < j < |q.requests| && |q.log| <= n < |q2.log| && q2.log[n] == Started(q.requests[j].id)
      ensures !InQueue(q2, q.requests[i].id)
    {
      StartsInOrder(q, q1, q2, at1, i, j, n);
    }
    forall i, n | 0 <= i < |q2.requests| && q2.requests[i].state.NotProcessed? && |q.log| <= n < |q2.log|
      ensures q2.log[n] != Started(q2.requests[i].id)
    {
      LooksUnstarted(q, q1, q2, at2, i, n);
    }
  }

  lemma InFirst(q: Queue, q1: Queue, id: nat)
    requires Serves(q, q1) && InQueue(q1, id)
    ensures InQueue(q, id)
  {
    var k :| 0 <= k < |q1.requests| && q1.requests[k].id == id;
    assert InQueue(q, q1.requests[k].id);
  }

  lemma InBoth(q: Queue, q1: Queue, q2: Queue, id: nat)
    requires Serves(q, q1) && Serves(q1, q2) && InQueue(q2, id)
    ensures InQueue(q, id)
  {
    InFirst(q1, q2, id);
    InFirst(q, q1, id);
  }

  lemma ServingLeavesDistinct(q: Queue, q': Queue, at: seq<nat>)
    requires DistinctIds(q.requests) && Serving(q, q', at)
    ensures DistinctIds(q'.requests)
  {
  }

  // ----------------------------------------------------- the parts of a service

  /** The requests stay in their places, and nothing is started behind the head. */
  lemma AllStay(q: Queue, q': Queue) returns (at: seq<nat>)
    requires q.log <= q'.log && |q'.requests| == |q.requests|
    requires forall i :: 0 <= i < |q.requests| ==> q'.requests[i].id == q.requests[i].id
    requires forall i :: 0 < i < |q.requests| ==> q'.requests[i].state == q.requests[i].state
    requires forall n :: |q.log| <= n < |q'.log| && q'.log[n].Started? ==>
               q.requests != [] && q'.log[n].id == q.requests[0].id && q'.requests[0].state.Running? && DistinctIds(q.requests)
    requires q.requests != [] && q'.requests[0].state.NotProcessed? ==> q.requests[0].state.NotProcessed?
    ensures Serving(q, q', at)
  {
    at := seq(|q.requests|, k => k);
    forall k | 0 <= k < |q.requests|
      ensures InQueue(q', q.requests[k].id) && InQueue(q, q'.requests[k].id)
    {
      assert q'.requests[k].id == q.requests[k].id;
    }
  }

  lemma OneLeaves(q: Queue, i: nat, q': Queue)
    requires i < |q.requests| && q'.requests == WithoutAt(q.requests, i) && q.log <= q'.log
    requires MentionedSince(q'.log, |q.log|, q.requests[i].id)
    requires forall n :: |q.log| <= n < |q'.log| ==> !q'.log[n].Started?
    ensures Serves(q, q')
  {
    forall k | 0 <= k < |q'.requests|
      ensures InQueue(q, q'.requests[k].id)
    {
      assert q'.requests[k] == q.requests[if k < i then k else k + 1];
    }
    forall k | 0 <= k < |q.requests| && k != i
      ensures InQueue(q', q.requests[k].id)
    {
      assert q.requests[k] == q'.requests[if k < i then k else k - 1];
    }
  }

  lemma RemovedThins(rs: seq<Request>, i: nat) returns (at: seq<nat>)
    requires i < |rs|
    ensures Thinned(rs, WithoutAt(rs, i), at)
  {
    at := seq(|rs| - 1, k requires 0 <= k < |rs| - 1 => if k < i then k else k + 1);
    assert forall k :: 0 <= k < |at| ==> WithoutAt(rs, i)[k] == rs[at[k]];
  }

  lemma FinishServes(q: Queue, i: nat, result: int, tell: bool, remove: bool) returns (at: seq<nat>)
    requires i < |q.requests|
    ensures Serving(q, Finish(q, i, result, tell, remove), at)
  {
    var q' := Finish(q, i, result, tell, remove);
    assert q'.log[|q.log|] == Finished(q.requests[i].id, result);
    assert Mentions(q'.log[|q.log|], q.requests[i].id);
    if remove {
      OneLeaves(q, i, q');
      at := RemovedThins(q.requests, i);
    } else {
      at := AllStay(q, q');
    }
  }

  lemma {:induction false} PurgeStartsNothing(rs: seq<Request>, c: Criteria, error: int)
    ensures StartsNothing(Purged(rs, c, error).log)
  {
    hide Matched;
    if rs != [] {
      PurgeStartsNothing(rs[1..], c, error);
      MatchIsQuiet(rs[0], c);
      var m, rest := Matched(rs[0], c), Purged(rs[1..], c, error);
      var removal := if m.hit then Removal(rs[0], error) else [];
      RemovalIsQuiet(rs[0], error);
      JoinIsQuiet(m.effects, removal);
      JoinIsQuiet(m.effects + removal, rest.log);
      assert Purged(rs, c, error).log == m.effects + removal + rest.log;
    }
  }

  predicate StartsNothing(log: seq<Note>) {
    forall n :: 0 <= n < |log| ==> !log[n].Started?
  }

  lemma JoinIsQuiet(a: seq<Note>, b: seq<Note>)
    requires StartsNothing(a) && StartsNothing(b)
    ensures StartsNothing(a + b)
  {
  }

  lemma RemovalIsQuiet(r: Request, error: int)
    ensures StartsNothing(Removal(r, error))
  {
  }

  lemma MatchIsQuiet(r: Request, c: Criteria)
    ensures StartsNothing(Matched(r, c).effects)
  {
  }

  /** A request is kept, or told of. */
  lemma {:induction false} PurgeTells(rs: seq<Request>, c: Criteria, error: int, i: nat)
    requires i < |rs|
    ensures var p := Purged(rs, c, error);
            (exists k :: 0 <= k < |p.kept| && p.kept[k].id == rs[i].id) || MentionedSince(p.log, 0, rs[i].id)
  {
    hide Matched, Removal;
    var m := MatchedKeeps(rs[0], c);
    var rest, p := Purged(rs[1..], c, error), Purged(rs, c, error);
    var note := m.effects + if m.hit then Removal(rs[0], error) else [];
    assert p.log == note + rest.log;
    if i == 0 {
      if m.hit {
        var k := RemovalTells(rs[0], error);
        assert p.log[|m.effects| + k] == Removal(rs[0], error)[k];
      } else {
        assert p.kept[0] == m.r;
      }
    } else {
      PurgeTells(rs[1..], c, error, i - 1);
      if MentionedSince(rest.log, 0, rs[i].id) {
        var n :| 0 <= n < |rest.log| && Mentions(rest.log[n], rs[i].id);
        assert p.log[|note| + n] == rest.log[n];
      } else {
        var k :| 0 <= k < |rest.kept| && rest.kept[k].id == rs[i].id;
        assert p.kept[if m.hit then k else k + 1] == rest.kept[k];
      }
    }
  }

  lemma RemovalTells(r: Request, error: int) returns (k: nat)
    ensures k < |Removal(r, error)| && Mentions(Removal(r, error)[k], r.id)
  {
    k := |Removal(r, error)| - 1;
    assert Removal(r, error)[k] == Finished(r.id, error);
  }

  lemma PurgeServes(q: Queue, c: Criteria, error: int)
    ensures var p := Purged(q.requests, c, error); Serves(q, Queue(p.kept, q.log + p.log))
  {
    var p := Purged(q.requests, c, error);
    var q' := Queue(p.kept, q.log + p.log);
    var at := PurgedPicks(q.requests, c, error);
    forall i | 0 <= i < |q.requests| && !InQueue(q', q.requests[i].id)
      ensures MentionedSince(q'.log, |q.log|, q.requests[i].id)
    {
      PurgeTells(q.requests, c, error, i);
      if exists k :: 0 <= k < |p.kept| && p.kept[k].id == q.requests[i].id {
        assert false;
      }
      var n :| 0 <= n < |p.log| && Mentions(p.log[n], q.requests[i].id);
      assert q'.log[|q.log| + n] == p.log[n];
    }
    PurgeStartsNothing(q.requests, c, error);
  }

  lemma ClearedServes(d: Device, q: Queue, r: Request, result: int) returns (at: seq<nat>)
    ensures Serving(q, Cleared(d, q, r, result), at)
  {
    if Clears(r, result) {
      PurgeServes(q, OfItsCall(r), d.failed);
      at := PurgedPicks(q.requests, OfItsCall(r), d.failed);
    } else {
      at := AllStay(q, q);
    }
  }

  lemma AnsweredServes(d: Device, q: Queue, i: nat, result: int, tell: bool, remove: bool) returns (at: seq<nat>)
    requires i < |q.requests| && DistinctIds(q.requests)
    ensures Serving(q, Answered(d, q, i, result, tell, remove), at)
  {
    hide Serves, Thinned, Cleared, Finish, Find;
    var r, q1 := q.requests[i], Finish(q, i, result, tell, remove);
    var q2, q3 := Cleared(d, q1, r, result), Answered(d, q, i, result, tell, remove);
    at := FinishServes(q, i, result, tell, remove);
    var at2 := ClearedServes(d, q1, r, result);
    var at12 := ServingTwice(q, q1, q2, at, at2);
    var at3 := AllStay(q2, q3);
    at := ServingTwice(q, q2, q3, at12, at3);
  }

  lemma BegunServes(q: Queue) returns (at: seq<nat>)
    requires q.requests != [] && DistinctIds(q.requests)
    ensures Serving(q, Begun(q), at) && DistinctIds(Begun(q).requests) && |Begun(q).requests| == |q.requests|
  {
    at := AllStay(q, Begun(q));
  }

  lemma HeadServed(d: Device, q: Queue, withData: bool) returns (at: seq<nat>)
    requires q.requests != [] && HasHandler(d, q.requests[0]) && DistinctIds(q.requests)
    ensures Serving(q, Received(d, q, withData), at)
  {
    at := AllStay(q, Received(d, q, withData));
  }

  lemma HeadAnswered(d: Device, q: Queue) returns (at: seq<nat>)
    requires q.requests != [] && DistinctIds(q.requests)
    ensures Serving(q, AfterHead(d, q), at) && DistinctIds(AfterHead(d, q).requests)
  {
    hide Serves, Thinned, Answered, Begun;
    var at1 := BegunServes(q);
    var at2 := AnsweredServes(d, Begun(q), 0, AutoResult(d, q.requests[0]), true, true);
    at := ServingTwice(q, Begun(q), AfterHead(d, q), at1, at2);
    ServingLeavesDistinct(q, AfterHead(d, q), at);
  }

  lemma {:induction false} ReceivedServes(d: Device, q: Queue, withData: bool) returns (at: seq<nat>)
    requires DistinctIds(q.requests)
    ensures Serving(q, Received(d, q, withData), at)
    decreases |q.requests|
  {
    hide Serves, Thinned, AfterHead;
    if q.requests == [] {
      at := AllStay(q, q);
    } else if HasHandler(d, q.requests[0]) {
      at := HeadServed(d, q, withData);
    } else {
      var q1 := AfterHead(d, q);
      var at1 := HeadAnswered(d, q);
      OneServed(d, q, withData);
      var at2 := ReceivedServes(d, q1, false);
      at := ServingTwice(q, q1, Received(d, q1, false), at1, at2);
    }
  }

  lemma DataServes(d: Device, q: Queue, withData: bool, accepted: bool) returns (at: seq<nat>)
    requires DistinctIds(q.requests)
    ensures Serving(q, DataReceived(d, q, withData, accepted), at)
  {
    hide Serves, Thinned, Received;
    at := ReceivedServes(d, q, withData);
    var at2 := AllStay(Received(d, q, withData), DataReceived(d, q, withData, accepted));
    at := ServingTwice(q, Received(d, q, withData), DataReceived(d, q, withData, accepted), at, at2);
  }

  lemma CompletedServes(d: Device, q: Queue, id: nat, result: int, tell: bool, remove: bool) returns (at: seq<nat>)
    requires DistinctIds(q.requests)
    ensures Serving(q, Completed(d, q, id, result, tell, remove), at)
  {
    hide Serves, Thinned, Answered, Received;
    var i := Find(q.requests, id);
    if i == |q.requests| {
      at := AllStay(q, q);
    } else {
      var q1 := Answered(d, q, i, result, tell, remove);
      at := AnsweredServes(d, q, i, result, tell, remove);
      if remove && i == 0 && q1.requests != [] {
        ServingLeavesDistinct(q, q1, at);
        var at2 := ReceivedServes(d, q1, false);
        at := ServingTwice(q, q1, Received(d, q1, false), at, at2);
      }
    }
  }

  // ------------------------------------------------------- a drop goes first

  /** A request that was started once does not look unstarted. */
  predicate Truthful(q: Queue) {
    forall i :: 0 <= i < |q.requests| && q.requests[i].state.NotProcessed? ==> Started(q.requests[i].id) !in q.log
  }

  lemma ServingStaysTruthful(q: Queue, q': Queue, at: seq<nat>)
    requires Serves(q, q') && Thinned(q.requests, q'.requests, at) && Truthful(q)
    ensures Truthful(q')
  {
    forall i, n | 0 <= i < |q'.requests| && q'.requests[i].state.NotProcessed? && 0 <= n < |q'.log|
      ensures q'.log[n] != Started(q'.requests[i].id)
    {
      if n < |q.log| {
        assert q'.log[n] == q.log[n];
      }
    }
  }

  /** `u` waits behind `drop` and was never started. */
  predicate Behind(q: Queue, drop: nat, u: nat) {
    && Started(u) !in q.log
    && (exists i, j :: 0 <= i < j < |q.requests| && q.requests[i].id == drop && q.requests[j].id == u)
  }

  predicate Gone(q: Queue, id: nat) {
    !InQueue(q, id) && MentionedSince(q.log, 0, id)
  }

  /** While the drop request is in the queue, `u` has not been started. */
  predicate Ordered(q: Queue, drop: nat, u: nat) {
    Behind(q, drop, u) || Gone(q, drop) || (Gone(q, u) && Started(u) !in q.log)
  }

  lemma GoneStays(q: Queue, q': Queue, id: nat)
    requires Serves(q, q') && Gone(q, id)
    ensures Gone(q', id) && (Started(id) !in q.log ==> Started(id) !in q'.log)
  {
    var n :| 0 <= n < |q.log| && Mentions(q.log[n], id);
    assert Mentions(q'.log[n], id);
  }

  lemma ServingKeepsOrder(q: Queue, q': Queue, at: seq<nat>, drop: nat, u: nat)
    requires Serves(q, q') && Thinned(q.requests, q'.requests, at) && DistinctIds(q.requests) && Ordered(q, drop, u)
    ensures Ordered(q', drop, u)
  {
    if Gone(q, drop) {
      GoneStays(q, q', drop);
    } else if Gone(q, u) {
      GoneStays(q, q', u);
    } else {
      var i, j :| 0 <= i < j < |q.requests| && q.requests[i].id == drop && q.requests[j].id == u;
      if !InQueue(q', drop) {
        LeavesWithNote(q, q', i);
      } else {
        NotStartedBehind(q, q', i, j);
        if !InQueue(q', u) {
          LeavesWithNote(q, q', j);
        } else {
          StaysBehind(q.requests, q'.requests, at, i, j);
        }
      }
    }
  }

  lemma LeavesWithNote(q: Queue, q': Queue, i: nat)
    requires Serves(q, q') && i < |q.requests| && !InQueue(q', q.requests[i].id)
    ensures Gone(q', q.requests[i].id)
  {
    assert MentionedSince(q'.log, |q.log|, q.requests[i].id);
  }

  lemma NotStartedBehind(q: Queue, q': Queue, i: nat, j: nat)
    requires Serves(q, q') && i < j < |q.requests| && InQueue(q', q.requests[i].id)
    requires Started(q.requests[j].id) !in q.log
    ensures Started(q.requests[j].id) !in q'.log
  {
    forall n | 0 <= n < |q'.log|
      ensures q'.log[n] != Started(q.requests[j].id)
    {
      assert n < |q.log| ==> q'.log[n] == q.log[n];
    }
  }

  lemma StaysBehind(rs: seq<Request>, rs': seq<Request>, at: seq<nat>, i: nat, j: nat)
    requires Thinned(rs, rs', at) && DistinctIds(rs) && i < j < |rs|
    requires exists k :: 0 <= k < |rs'| && rs'[k].id == rs[i].id
    requires exists k :: 0 <= k < |rs'| && rs'[k].id == rs[j].id
    ensures exists i', j' :: 0 <= i' < j' < |rs'| && rs'[i'].id == rs[i].id && rs'[j'].id == rs[j].id
  {
    var i' :| 0 <= i' < |rs'| && rs'[i'].id == rs[i].id;
    var j' :| 0 <= j' < |rs'| && rs'[j'].id == rs[j].id;
    assert at[i'] == i && at[j'] == j;
  }

  lemma InsertKeepsOrder(q: Queue, r: Request, at: nat, drop: nat, u: nat)
    requires at <= |q.requests| && Unused(q, r.id) && Ordered(q, drop, u)
    ensures Ordered(q.(requests := Inserted(q.requests, r, at)), drop, u)
  {
    var q' := q.(requests := Inserted(q.requests, r, at));
    if Behind(q, drop, u) {
      var i, j :| 0 <= i < j < |q.requests| && q.requests[i].id == drop && q.requests[j].id == u;
      var i', j' := if i < at then i else i + 1, if j < at then j else j + 1;
      assert q'.requests[i'].id == drop && q'.requests[j'].id == u;
    } else {
      var gone := if Gone(q, drop) then drop else u;
      forall k | 0 <= k < |q'.requests|
        ensures q'.requests[k].id != gone
      {
        assert k < at ==> q'.requests[k] == q.requests[k];
        assert k > at ==> q'.requests[k] == q.requests[k - 1];
      }
    }
  }

  /** A step is a service of the queue, after an insertion if it adds a request. */
  lemma StepServes(d: Device, q: Queue, st: Step) returns (q1: Queue, at: seq<nat>)
    requires Enabled(q, st) && DistinctIds(q.requests)
    ensures q1 == if st.Add? then q.(requests := Inserted(q.requests, st.r, Position(q.requests, st.r))) else q
    ensures DistinctIds(q1.requests) && Serving(q1, Apply(d, q, st), at)
  {
    hide Serves, Thinned, Completed, DataReceived, Removed;
    q1 := q;
    match st
    case Add(r) => q1, at := AddServes(d, q, r);
    case Receive(withData, accepted) => at := DataServes(d, q, withData, accepted);
    case Complete(id, result, tell, remove) => at := CompletedServes(d, q, id, result, tell, remove);
    case RemovePending(c, error) => at := RemovedServes(q, c, error);
    case Progress(n) => at := AllStay(q, Apply(d, q, st));
  }

  lemma RemovedServes(q: Queue, c: Criteria, error: int) returns (at: seq<nat>)
    ensures Serving(q, Removed(q, c, error), at)
  {
    PurgeServes(q, c, error);
    at := PurgedPicks(q.requests, c, error);
  }

  lemma AddServes(d: Device, q: Queue, r: Request) returns (q1: Queue, at: seq<nat>)
    requires Unused(q, r.id) && DistinctIds(q.requests)
    ensures q1 == q.(requests := Inserted(q.requests, r, Position(q.requests, r))) && DistinctIds(q1.requests)
    ensures Serving(q1, Added(d, q, r), at)
  {
    hide Serves, Thinned, Received, Position, StartsAtOnce;
    q1 := InsertedDistinct(q, r, Position(q.requests, r));
    if StartsAtOnce(q.requests, r) {
      at := ReceivedServes(d, q1, false);
    } else {
      at := AllStay(q1, q1);
    }
  }

  lemma InsertedDistinct(q: Queue, r: Request, at: nat) returns (q1: Queue)
    requires at <= |q.requests| && Unused(q, r.id) && DistinctIds(q.requests)
    ensures q1 == q.(requests := Inserted(q.requests, r, at)) && DistinctIds(q1.requests)
  {
    q1 := q.(requests := Inserted(q.requests, r, at));
    forall i | 0 <= i < |q1.requests| && i != at
      ensures q1.requests[i] == q.requests[if i < at then i else i - 1]
    {
    }
  }

  predicate Good(q: Queue) {
    OnlyHeadRuns(q.requests) && DistinctIds(q.requests) && Truthful(q)
  }

  lemma InsertKeepsHead(q: Queue, r: Request)
    requires OnlyHeadRuns(q.requests) && r.state.NotProcessed?
    ensures OnlyHeadRuns(Inserted(q.requests, r, Position(q.requests, r)))
  {
    var rs, at := q.requests, Position(q.requests, r);
    forall i | 0 < i < |Inserted(rs, r, at)|
      ensures Inserted(rs, r, at)[i].state.NotProcessed?
    {
      assert i != at ==> Inserted(rs, r, at)[i] == rs[if i < at then i else i - 1];
    }
  }

  /** Every step keeps the queue in order, and does not start what waits behind
      a drop request. */
  lemma StepKeepsDropFirst(d: Device, q: Queue, st: Step, drop: nat, u: nat)
    requires Enabled(q, st) && Good(q)
    ensures Good(Apply(d, q, st))
    ensures Ordered(q, drop, u) ==> Ordered(Apply(d, q, st), drop, u)
  {
    hide Serves, Thinned, Apply, Ordered, Truthful, OnlyHeadRuns, DistinctIds, Unused;
    var q1, at := StepServes(d, q, st);
    var q' := Apply(d, q, st);
    if st.Add? {
      InsertStaysTruthful(q, st.r, Position(q.requests, st.r));
      InsertKeepsHead(q, st.r);
    }
    ThinnedKeepsOrder(q1.requests, q'.requests, at);
    ServingStaysTruthful(q1, q', at);
    if Ordered(q, drop, u) {
      if st.Add? {
        InsertKeepsOrder(q, st.r, Position(q.requests, st.r), drop, u);
      }
      ServingKeepsOrder(q1, q', at, drop, u);
    }
  }

  lemma InsertStaysTruthful(q: Queue, r: Request, at: nat)
    requires at <= |q.requests| && Unused(q, r.id) && Truthful(q)
    ensures Truthful(q.(requests := Inserted(q.requests, r, at)))
  {
    var q' := q.(requests := Inserted(q.requests, r, at));
    forall i | 0 <= i < |q'.requests| && q'.requests[i].state.NotProcessed?
      ensures Started(q'.requests[i].id) !in q.log
    {
      if i == at {
        assert forall n :: 0 <= n < |q.log| ==> !Mentions(q.log[n], r.id);
      } else {
        assert q'.requests[i] == q.requests[if i < at then i else i - 1];
      }
    }
  }

  lemma {:induction false} RunKeepsDropFirst(d: Device, q: Queue, steps: seq<Step>, drop: nat, u: nat)
    requires Legal(d, q, steps) && Good(q)
    ensures Good(Run(d, q, steps))
    ensures Ordered(q, drop, u) ==> Ordered(Run(d, q, steps), drop, u)
    decreases |steps|
  {
    if steps != [] {
      StepKeepsDropFirst(d, q, steps[0], drop, u);
      RunKeepsDropFirst(d, Apply(d, q, steps[0]), steps[1..], drop, u);
    }
  }

  /** In every reachable queue at most one request has been started, and it is
      the head. */
  lemma OnlyTheHeadIsStarted(d: Device, steps: seq<Step>)
    requires Legal(d, EMPTY, steps)
    ensures OnlyHeadRuns(Run(d, EMPTY, steps).requests)
  {
    RunKeepsDropFirst(d, EMPTY, steps, 0, 0);
  }

  /** A request to drop a call is served before everything that had not been
      started when it arrived: as long as it is in the queue, through whatever
      is added, completed or removed, no such request is started. */
  lemma DropGoesFirst(d: Device, steps: seq<Step>, drop: Request, more: seq<Step>, j: nat)
    requires Legal(d, EMPTY, steps)
    requires var q := Run(d, EMPTY, steps);
             && drop.command.DropCall? && Enabled(q, Add(drop)) && Legal(d, Added(d, q, drop), more)
             && j < |q.requests| && q.requests[j].state.NotProcessed?
    ensures var q := Run(d, EMPTY, steps);
            var q' := Run(d, Added(d, q, drop), more);
            InQueue(q', drop.id) ==> Started(q.requests[j].id) !in q'.log
  {
    RunKeepsDropFirst(d, EMPTY, steps, 0, 0);
    var q := Run(d, EMPTY, steps);
    var k, u := Leading(q.requests), q.requests[j].id;
    assert k <= j;
    var q1, at := StepServes(d, q, Add(drop));
    assert q1.requests[k] == drop && q1.requests[j + 1] == q.requests[j];
    assert Behind(q1, drop.id, u);
    ServingKeepsOrder(q1, Added(d, q, drop), at, drop.id, u);
    StepKeepsDropFirst(d, q, Add(drop), drop.id, u);
    RunKeepsDropFirst(d, Added(d, q, drop), more, drop.id, u);
  }

  /** A request goes to the end of a queue that is not empty, and a drop request
      right behind the one being worked on; neither changes anything else. */
  lemma PlaceOfANewRequest(d: Device, q: Queue, r: Request)
    requires OnlyHeadRuns(q.requests) && q.requests != []
    ensures !r.command.DropCall? ==> Added(d, q, r) == Queue(q.requests + [r], q.log)
    ensures r.command.DropCall? && q.requests[0].state.Running? ==>
              Added(d, q, r) == Queue([q.requests[0], r] + q.requests[1..], q.log)
  {
    var rs := q.requests;
    assert rs[..|rs|] + [r] + rs[|rs|..] == rs + [r];
    assert Leading(rs[1..]) == 0;
    assert rs[..1] + [r] + rs[1..] == [rs[0], r] + rs[1..];
  }

  /** First in, first out.  A request that drops no call is not started before
      any request that was queued when it came, as long as that one is in the
      queue, through whatever is added, completed or removed. */
  lemma EarlierRequestsGoFirst(d: Device, steps: seq<Step>, r: Request, more: seq<Step>, j: nat)
    requires Legal(d, EMPTY, steps)
    requires var q := Run(d, EMPTY, steps);
             && !r.command.DropCall? && Enabled(q, Add(r)) && Legal(d, Added(d, q, r), more)
             && j < |q.requests|
    ensures var q := Run(d, EMPTY, steps);
            var q' := Run(d, Added(d, q, r), more);
            InQueue(q', q.requests[j].id) ==> Started(r.id) !in q'.log
  {
    RunKeepsDropFirst(d, EMPTY, steps, 0, 0);
    var q := Run(d, EMPTY, steps);
    var n, u := |q.requests|, q.requests[j].id;
    var q1, at := StepServes(d, q, Add(r));
    PlaceOfANewRequest(d, q, r);
    assert q1.requests[n] == r && q1.requests[j] == q.requests[j];
    NeverMentioned(q, r.id);
    assert Behind(q1, u, r.id);
    ServingKeepsOrder(q1, Added(d, q, r), at, u, r.id);
    StepKeepsDropFirst(d, q, Add(r), u, r.id);
    RunKeepsDropFirst(d, Added(d, q, r), more, u, r.id);
  }

  lemma NeverMentioned(q: Queue, id: nat)
    requires Unused(q, id)
    ensures Started(id) !in q.log
  {
    assert forall n :: 0 <= n < |q.log| ==> !Mentions(q.log[n], id);
  }

  /** The notes made since a point call no handler and start nothing. */
  predicate CallsNobody(log: seq<Note>, from: nat) {
    forall n :: from <= n < |log| ==> !log[n].Started? && !log[n].Handled?
  }

  lemma {:induction false} PurgeCallsNobody(rs: seq<Request>, c: Criteria, error: int)
    ensures CallsNobody(Purged(rs, c, error).log, 0)
  {
    hide Matched;
    if rs != [] {
      PurgeCallsNobody(rs[1..], c, error);
      MatchCallsNobody(rs[0], c);
    }
  }

  lemma MatchCallsNobody(r: Request, c: Criteria)
    ensures CallsNobody(Matched(r, c).effects, 0)
  {
  }

  lemma AnsweringCallsNobody(d: Device, q: Queue, i: nat, result: int, tell: bool, remove: bool)
    requires i < |q.requests|
    ensures q.log < Answered(d, q, i, result, tell, remove).log
    ensures CallsNobody(Answered(d, q, i, result, tell, remove).log, |q.log|)
  {
    PurgeCallsNobody(Finish(q, i, result, tell, remove).requests, OfItsCall(q.requests[i]), d.failed);
  }

  /** Adding, completing and removing requests calls a handler or starts a request
      only where the head makes room: a request added to an empty queue, a drop
      request with nothing started before it, the head completed and removed. */
  lemma NothingStartsUnlessTheHeadGoes(d: Device, q: Queue, st: Step)
    requires Enabled(q, st) && !st.Receive?
    requires st.Add? ==> q.requests != [] && (st.r.command.DropCall? ==> q.requests[0].state.Running?)
    requires st.Complete? && st.remove && Find(q.requests, st.id) == 0 ==> q.requests == []
    ensures q.log <= Apply(d, q, st).log && CallsNobody(Apply(d, q, st).log, |q.log|)
  {
    hide Received, Answered, Purged;
    match st
    case Complete(id, result, tell, remove) =>
      var i := Find(q.requests, id);
      if i < |q.requests| {
        AnsweringCallsNobody(d, q, i, result, tell, remove);
      }
    case RemovePending(c, error) => PurgeCallsNobody(q.requests, c, error);
    case _ =>
  }

  /** New data goes to the handler of the head, or, if that refuses it or there is
      none, to the handler of unsolicited data, and never to both or to nobody. */
  lemma DataReachesOneHandler(d: Device, q: Queue, accepted: bool)
    ensures var q' := DataReceived(d, q, true, accepted);
            var served := q.requests != [] && HasHandler(d, q.requests[0]);
            && q'.log != []
            && (q'.log[|q'.log| - 1].Unsolicited? <==> !served || !accepted)
            && (served ==> Handled(q.requests[0].id, true) in q'.log[|q.log|..])
  {
    var q1 := Received(d, q, true);
    ReceiveEndsAtAHandler(d, q, true);
    if q.requests != [] && HasHandler(d, q.requests[0]) {
      var q' := DataReceived(d, q, true, accepted);
      var n := |Begun(q).log|;
      assert q'.log[n] == Handled(q.requests[0].id, true);
      assert q'.log[|q.log|..][n - |q.log|] == q'.log[n];
    }
  }

  // ----------------------------------------------------- when the queue stalls

  /** Something is being worked on, if there is anything to work on. */
  predicate Moving(q: Queue) {
    q.requests != [] ==> q.requests[0].state.Running?
  }

  lemma ReceiveMoves(d: Device, q: Queue, withData: bool)
    ensures Moving(Received(d, q, withData))
  {
    hide Received;
    ReceiveEndsAtAHandler(d, q, withData);
  }

  lemma AddMoves(d: Device, q: Queue, r: Request)
    requires OnlyHeadRuns(q.requests)
    ensures Moving(Added(d, q, r)) <==> Moving(q) || r.command.DropCall?
  {
    hide Received;
    ReceiveMoves(d, q.(requests := Inserted(q.requests, r, Position(q.requests, r))), false);
  }

  /** The criteria by which a step removes requests, other than one that is
      completed, if it does. */
  function RemovesBy(q: Queue, st: Step): Option<Criteria> {
    if st.RemovePending? then Some(st.c)
    else if st.Complete? && Find(q.requests, st.id) < |q.requests|
            && Clears(q.requests[Find(q.requests, st.id)], st.result)
    then Some(OfItsCall(q.requests[Find(q.requests, st.id)]))
    else None
  }

  /** The requests a removal by these criteria would look through. */
  function Others(q: Queue, st: Step): seq<Request> {
    if st.Complete? && st.remove && Find(q.requests, st.id) < |q.requests|
    then WithoutAt(q.requests, Find(q.requests, st.id)) else q.requests
  }

  /** The step removes the head without completing it, and leaves something behind. */
  predicate CutsOffHead(q: Queue, st: Step) {
    var rule, others := RemovesBy(q, st), Others(q, st);
    && rule.Some? && q.requests != [] && others != []
    && others[0].id == q.requests[0].id
    && Matched(q.requests[0], rule.value).hit
    && (exists i :: 0 < i < |others| && !Matched(others[i], rule.value).hit)
  }

  /** One pass leaves something exactly if something does not match. */
  lemma {:induction false} PurgeLeaves(rs: seq<Request>, c: Criteria, error: int)
    ensures Purged(rs, c, error).kept != [] <==> exists i :: 0 <= i < |rs| && !Matched(rs[i], c).hit
  {
    hide Matched;
    if rs != [] {
      PurgeLeaves(rs[1..], c, error);
      if Matched(rs[0], c).hit {
        assert forall i :: 0 < i < |rs| ==> rs[i] == rs[1..][i - 1];
      }
    }
  }

  /** The head after one pass: the first request that does not match. */
  lemma PurgeMoves(rs: seq<Request>, c: Criteria, error: int)
    requires OnlyHeadRuns(rs) && (rs != [] ==> rs[0].state.Running?)
    ensures var kept := Purged(rs, c, error).kept;
            (kept != [] ==> kept[0].state.Running?)
            <==> !(rs != [] && Matched(rs[0], c).hit && exists i :: 0 < i < |rs| && !Matched(rs[i], c).hit)
  {
    hide Matched;
    if rs != [] {
      var m := MatchedKeeps(rs[0], c);
      PurgeLeaves(rs[1..], c, error);
      var at := PurgedPicks(rs[1..], c, error);
      if m.hit {
        var kept := Purged(rs, c, error).kept;
        assert kept == Purged(rs[1..], c, error).kept;
        assert forall i :: 0 < i < |rs| ==> rs[i] == rs[1..][i - 1];
        assert kept != [] ==> kept[0].state.NotProcessed?;
      }
    }
  }

  /** Completing a request of which nothing else depends on leaves the others. */
  lemma AnsweredIs(d: Device, q: Queue, i: nat, result: int, tell: bool, remove: bool)
    requires i < |q.requests|
    ensures var r := q.requests[i];
            var rest := Finish(q, i, result, tell, remove).requests;
            Answered(d, q, i, result, tell, remove).requests ==
              if Clears(r, result) then Purged(rest, OfItsCall(r), d.failed).kept else rest
  {
  }

  lemma CompletionMoves(d: Device, q: Queue, st: Step)
    requires st.Complete? && OnlyHeadRuns(q.requests) && DistinctIds(q.requests) && Moving(q)
    ensures Moving(Apply(d, q, st)) <==> !CutsOffHead(q, st)
  {
    hide Received, Answered, Matched, Purged;
    var i := Find(q.requests, st.id);
    if i < |q.requests| {
      var r, q1 := q.requests[i], Answered(d, q, i, st.result, st.tell, st.remove);
      if i == 0 && st.remove {
        ReceiveMoves(d, q1, false);
        assert Others(q, st) != [] ==> Others(q, st)[0] == q.requests[1];
      } else {
        HeadAfterCompletion(d, q, i, st);
      }
    }
  }

  lemma HeadAfterCompletion(d: Device, q: Queue, i: nat, st: Step)
    requires st.Complete? && OnlyHeadRuns(q.requests) && DistinctIds(q.requests) && Moving(q)
    requires i < |q.requests| && i == Find(q.requests, st.id) && !(i == 0 && st.remove)
    ensures Moving(Answered(d, q, i, st.result, st.tell, st.remove)) <==> !CutsOffHead(q, st)
  {
    hide Received, Matched, Purged, Answered;
    var r, rest := q.requests[i], Finish(q, i, st.result, st.tell, st.remove).requests;
    AnsweredIs(d, q, i, st.result, st.tell, st.remove);
    assert OnlyHeadRuns(rest) && rest != [] && rest[0].state.Running?;
    if Clears(r, st.result) {
      PurgeMoves(rest, OfItsCall(r), d.failed);
      SameMatches(q, i, st, rest);
    }
  }

  /** Marking a request as answered does not change what matches. */
  lemma SameMatches(q: Queue, i: nat, st: Step, rest: seq<Request>)
    requires st.Complete? && i < |q.requests| && i == Find(q.requests, st.id) && !(i == 0 && st.remove)
    requires rest == Finish(q, i, st.result, st.tell, st.remove).requests
    ensures |rest| == |Others(q, st)|
    ensures forall k, c :: 0 <= k < |rest| ==> Matched(rest[k], c).hit == Matched(Others(q, st)[k], c).hit
    ensures rest != [] ==> Others(q, st)[0].id == q.requests[0].id && forall c :: Matched(rest[0], c).hit == Matched(q.requests[0], c).hit
  {
  }

  /** Requests go on being worked on through every step but one kind: a step that
      removes the request being worked on, without completing it, starts no
      other, and what is left waits until a drop request or new data arrives.
      Completing a drop request that waits behind it does the same, since that
      removes the other requests of the call. */
  lemma QueueStallsExactlyWhen(d: Device, q: Queue, st: Step)
    requires Enabled(q, st) && OnlyHeadRuns(q.requests) && DistinctIds(q.requests) && Moving(q)
    ensures Moving(Apply(d, q, st)) <==> !CutsOffHead(q, st)
  {
    hide Received, Completed, Matched, Purged;
    match st
    case Add(r) => AddMoves(d, q, r);
    case Receive(withData, accepted) => ReceiveMoves(d, q, withData);
    case Complete(_, _, _, _) => CompletionMoves(d, q, st);
    case RemovePending(c, error) => PurgeMoves(q.requests, c, error);
    case Progress(n) =>
  }

  /** Nothing but the head itself is left by the step. */
  predicate LeavesNothing(q: Queue, st: Step) {
    var rule, others := RemovesBy(q, st), Others(q, st);
    others == [] || (rule.Some? && forall i :: 0 <= i < |others| ==> Matched(others[i], rule.value).hit)
  }

  lemma StalledCompletion(d: Device, q: Queue, st: Step)
    requires st.Complete? && OnlyHeadRuns(q.requests) && DistinctIds(q.requests) && !Moving(q)
    ensures Moving(Apply(d, q, st)) <==> (Find(q.requests, st.id) == 0 && st.remove) || LeavesNothing(q, st)
  {
    hide Received, Answered, Matched, Purged;
    var i := Find(q.requests, st.id);
    if i < |q.requests| {
      var q1 := Answered(d, q, i, st.result, st.tell, st.remove);
      if i == 0 && st.remove {
        ReceiveMoves(d, q1, false);
      } else {
        StalledAfterCompletion(d, q, i, st);
      }
    }
  }

  lemma StalledAfterCompletion(d: Device, q: Queue, i: nat, st: Step)
    requires st.Complete? && OnlyHeadRuns(q.requests) && !Moving(q)
    requires i < |q.requests| && i == Find(q.requests, st.id) && !(i == 0 && st.remove)
    ensures Moving(Answered(d, q, i, st.result, st.tell, st.remove)) <==> LeavesNothing(q, st)
  {
    hide Received, Matched, Purged, Answered;
    var r, rest := q.requests[i], Finish(q, i, st.result, st.tell, st.remove).requests;
    AnsweredIs(d, q, i, st.result, st.tell, st.remove);
    assert rest != [] && forall k :: 0 <= k < |rest| ==> rest[k].state.NotProcessed?;
    SameMatches(q, i, st, rest);
    if Clears(r, st.result) {
      PurgeLeaves(rest, OfItsCall(r), d.failed);
      var at := PurgedPicks(rest, OfItsCall(r), d.failed);
    }
  }

  /** A queue that stalled is got going by exactly these steps; another request,
      unless it drops a call, only joins the queue. */
  lemma StalledQueueResumesExactlyWhen(d: Device, q: Queue, st: Step)
    requires Enabled(q, st) && OnlyHeadRuns(q.requests) && DistinctIds(q.requests) && !Moving(q)
    ensures Moving(Apply(d, q, st)) <==>
              || st.Receive? || (st.Add? && st.r.command.DropCall?)
              || (st.Complete? && Find(q.requests, st.id) == 0 && st.remove)
              || ((st.RemovePending? || st.Complete?) && LeavesNothing(q, st))
  {
    hide Received, Completed, Matched, Purged;
    match st
    case Add(r) => AddMoves(d, q, r);
    case Receive(withData, accepted) => ReceiveMoves(d, q, withData);
    case Complete(_, _, _, _) => StalledCompletion(d, q, st);
    case RemovePending(c, error) =>
      PurgeLeaves(q.requests, c, error);
      var at := PurgedPicks(q.requests, c, error);
      assert forall k :: 0 <= k < |q.requests| ==> q.requests[k].state.NotProcessed?;
    case Progress(n) =>
  }

  // ------------------------------------------------------- a queue that stalls

  /** A device with a handler for one command and for dropping calls. */
  const PLAIN := Device(map[0x0009 := true, 0x0008 := true], -1)

  function Asking(id: nat, call: nat): Request {
    Request(id, Other(0x0009), Some(call), NotProcessed, true, false)
  }

  /** A request of call 1, being worked on, and one of call 2 behind it. */
  const TWO_CALLS := [Add(Asking(1, 1)), Add(Asking(2, 2))]

  function TwoRequests(): Queue {
    Queue([Asking(1, 1).(state := INITIAL), Asking(2, 2)], [Started(1), Handled(1, false)])
  }

  lemma TwoRequestsReached()
    ensures Legal(PLAIN, EMPTY, TWO_CALLS) && Run(PLAIN, EMPTY, TWO_CALLS) == TwoRequests()
  {
    var q1 := Queue([Asking(1, 1).(state := INITIAL)], [Started(1), Handled(1, false)]);
    assert Added(PLAIN, EMPTY, Asking(1, 1)) == q1;
    assert Added(PLAIN, q1, Asking(2, 2)) == TwoRequests();
    assert TWO_CALLS[1..][1..] == [];
  }

  /** Removing the requests of call 1, as when its handle is closed, leaves the
      request of call 2 waiting for nobody. */
  lemma RemovalCanStall()
    ensures Legal(PLAIN, EMPTY, TWO_CALLS) && Moving(Run(PLAIN, EMPTY, TWO_CALLS))
    ensures var q := Apply(PLAIN, Run(PLAIN, EMPTY, TWO_CALLS), RemovePending(Criteria(Some(1), None, false, None), -1));
            q.requests == [Asking(2, 2)] && !Moving(q)
  {
    hide Run, Legal;
    TwoRequestsReached();
    var rs, c := TwoRequests().requests, Criteria(Some(1), None, false, None);
    assert rs[1..][1..] == [];
    assert Purged(rs[1..], c, -1).kept == [Asking(2, 2)];
  }

  /** So does a drop request for call 1 that is completed while it waits behind
      the request being worked on. */
  lemma CompletedDropCanStall()
    ensures var drop := Request(3, DropCall, Some(1), NotProcessed, true, false);
            Enabled(TwoRequests(), Add(drop))
    ensures var drop := Request(3, DropCall, Some(1), NotProcessed, true, false);
            var q := Apply(PLAIN, TwoRequests(), Add(drop));
            var q' := Apply(PLAIN, q, Complete(3, 0, true, true));
            Moving(q) && q'.requests == [Asking(2, 2)] && !Moving(q')
  {
    var drop := Request(3, DropCall, Some(1), NotProcessed, true, false);
    var rs := TwoRequests().requests;
    var q := Queue([rs[0], drop, rs[1]], TwoRequests().log);
    assert Leading(rs[1..]) == 0 && Leading(rs) == 1;
    assert Added(PLAIN, TwoRequests(), drop) == q;
    assert Find(q.requests[1..], 3) == 0 && Find(q.requests, 3) == 1;
    assert WithoutAt(q.requests, 1) == rs;
    assert rs[1..][1..] == [];
    assert Purged(rs[1..], OfItsCall(drop), -1).kept == [rs[1]];
  }
}
