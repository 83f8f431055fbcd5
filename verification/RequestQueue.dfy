/**
 * The asynchronous request queue of a line or telephone: requests wait in a
 * list, the head is worked on, a request to drop a call overtakes everything
 * that has not been started.
 *
 * One call into the connection is one step.  A request handler belongs to the
 * service provider; what it does to the queue is a step of its own.
 */
module RequestQueue {

  import opened Options
  import opened Sequences

  datatype State = NotProcessed | Running(n: nat)

  const INITIAL := Running(0)

  /** The commands the queue looks into; calls are named by their address. */
  datatype Command =
    | DropCall
    | SetupTransfer(consult: Option<nat>)
    | CompleteTransfer(consult: Option<nat>, conference: Option<nat>, joins: bool)
    | SetupConference(original: nat, meeting: nat, consult: Option<nat>)
    | AddToConference(consult: Option<nat>)
    | Other(n: nat)

  function Code(c: Command): nat {
    match c
    case AddToConference(_) => 0x0002
    case CompleteTransfer(_, _, _) => 0x0006
    case DropCall => 0x0008
    case SetupConference(_, _, _) => 0x0014
    case SetupTransfer(_) => 0x0015
    case Other(n) => n
  }

  /** The entries of a request map these commands are looked up under; no two of
      them share one. */
  lemma CommandsHaveTheirOwnEntries(c: Command, c': Command)
    requires !c.Other? && !c'.Other?
    ensures Code(c) == Code(c') <==>
              || (c.DropCall? && c'.DropCall?) || (c.SetupTransfer? && c'.SetupTransfer?)
              || (c.CompleteTransfer? && c'.CompleteTransfer?) || (c.SetupConference? && c'.SetupConference?)
              || (c.AddToConference? && c'.AddToConference?)
    ensures Code(DropCall) == 8
  {
  }

  /** `asynch`: TAPI waits for an answer; `responded`: it has had one. */
  datatype Request = Request(id: nat, command: Command, call: Option<nat>, state: State, asynch: bool, responded: bool)

  /** A call out of the queue. */
  datatype Note =
    | Started(id: nat)
    | Handled(id: nat, withData: bool)
    | Finished(id: nat, result: int)
    | Told(id: nat, result: int)
    | Cancelled(id: nat)
    | Idled(call: nat)
    | Detached(call: nat)
    | Unsolicited

  datatype Queue = Queue(requests: seq<Request>, log: seq<Note>)

  const EMPTY := Queue([], [])

  /** The request map of the provider (a command may be mapped to nothing), and
      the error for a command without an entry. */
  datatype Device = Device(handlers: map<nat, bool>, failed: int)

  predicate HasHandler(d: Device, r: Request) {
    Code(r.command) in d.handlers && d.handlers[Code(r.command)]
  }

  function AutoResult(d: Device, r: Request): int {
    if Code(r.command) in d.handlers then 0 else d.failed
  }

  // --------------------------------------------------------------- operations

  /** How many requests at the front have been started. */
  function Leading(rs: seq<Request>): (k: nat)
    ensures k <= |rs|
    ensures forall i :: 0 <= i < k ==> rs[i].state.Running?
    ensures k < |rs| ==> rs[k].state.NotProcessed?
  {
    if rs == [] || rs[0].state.NotProcessed? then 0 else 1 + Leading(rs[1..])
  }

  function Position(rs: seq<Request>, r: Request): (at: nat)
    ensures at <= |rs|
  {
    if r.command.DropCall? then Leading(rs) else |rs|
  }

  function Inserted(rs: seq<Request>, r: Request, at: nat): seq<Request>
    requires at <= |rs|
  {
    rs[..at] + [r] + rs[at..]
  }

  /** Whether a request is started as it is added. */
  predicate StartsAtOnce(rs: seq<Request>, r: Request) {
    if r.command.DropCall? then Leading(rs) == 0 else rs == []
  }

  function Added(d: Device, q: Queue, r: Request): Queue {
    var q' := q.(requests := Inserted(q.requests, r, Position(q.requests, r)));
    if StartsAtOnce(q.requests, r) then Received(d, q', false) else q'
  }

  function Begun(q: Queue): Queue
    requires q.requests != []
  {
    var r := q.requests[0];
    if r.state.NotProcessed? then Queue(q.requests[0 := r.(state := INITIAL)], q.log + [Started(r.id)]) else q
  }

  /** ReceiveData and DispatchRequest, up to the handler of unsolicited data. */
  function Received(d: Device, q: Queue, withData: bool): Queue
    decreases |q.requests|, 1
  {
    if q.requests == [] then q
    else
      var q1, r := Begun(q), q.requests[0];
      if HasHandler(d, r) then q1.(log := q1.log + [Handled(r.id, withData)])
      else CompletedAt(d, q1, 0, AutoResult(d, r), true, true)
  }

  /** Whether the head's handler is called; it may still refuse the data. */
  predicate Taken(d: Device, q: Queue) {
    q.requests != [] && HasHandler(d, q.requests[0])
  }

  /** ReceiveData with all it does: data that no handler accepts goes to the
      handler of unsolicited data.  `accepted` is the answer of the handler. */
  function DataReceived(d: Device, q: Queue, withData: bool, accepted: bool): Queue {
    var q' := Received(d, q, withData);
    if withData && !(Taken(d, q) && accepted) then q'.(log := q'.log + [Unsolicited]) else q'
  }

  function Answer(r: Request, result: int, tell: bool): seq<Note> {
    if r.asynch && !r.responded && tell then [Told(r.id, result)] else []
  }

  /** A request to drop a call that went well takes the call's other requests
      with it. */
  predicate Clears(r: Request, result: int) {
    r.command.DropCall? && result == 0 && r.call.Some?
  }

  function OfItsCall(r: Request): Criteria {
    Criteria(r.call, None, false, Some(r.id))
  }

  /** The request at `i` taken out, or marked as answered, and completed. */
  function Finish(q: Queue, i: nat, result: int, tell: bool, remove: bool): Queue
    requires i < |q.requests|
  {
    var r := q.requests[i];
    Queue(if remove then WithoutAt(q.requests, i) else q.requests[i := r.(responded := r.responded || tell)],
          q.log + [Finished(r.id, result)])
  }

  /** What its completion does to the other requests of its call. */
  function Cleared(d: Device, q: Queue, r: Request, result: int): Queue {
    if !Clears(r, result) then q
    else Removed(q, OfItsCall(r), d.failed)
  }

  /** CompleteRequest of the request at `i`, before the next one is started. */
  function Answered(d: Device, q: Queue, i: nat, result: int, tell: bool, remove: bool): (q': Queue)
    requires i < |q.requests|
    ensures |q'.requests| <= |q.requests| - if remove then 1 else 0
  {
    var r := q.requests[i];
    var q1 := Cleared(d, Finish(q, i, result, tell, remove), r, result);
    q1.(log := q1.log + Answer(r, result, tell))
  }

  /** CompleteRequest of the request at `i`. */
  function CompletedAt(d: Device, q: Queue, i: nat, result: int, tell: bool, remove: bool): Queue
    requires i < |q.requests|
    decreases |q.requests|, 0
  {
    var q' := Answered(d, q, i, result, tell, remove);
    if remove && i == 0 && q'.requests != [] then Received(d, q', false) else q'
  }

  /** Where a request is, or the length of the queue. */
  function Find(rs: seq<Request>, id: nat): (i: nat)
    ensures i <= |rs|
    ensures i < |rs| ==> rs[i].id == id
    ensures forall j :: 0 <= j < i ==> rs[j].id != id
  {
    if rs == [] || rs[0].id == id then 0 else 1 + Find(rs[1..], id)
  }

  /** CompleteRequest.  A request that was completed before is not in the queue. */
  function Completed(d: Device, q: Queue, id: nat, result: int, tell: bool, remove: bool): Queue {
    var i := Find(q.requests, id);
    if i == |q.requests| then q else CompletedAt(d, q, i, result, tell, remove)
  }

  // ------------------------------------------------ removing pending requests

  /** Which requests to remove: of a call or of all, of one command or of all,
      perhaps only those not started, and not the one in hand. */
  datatype Criteria = Criteria(call: Option<nat>, code: Option<nat>, onlyUnstarted: bool, except: Option<nat>)

  datatype Match = Match(hit: bool, r: Request, effects: seq<Note>)

  function NoMatch(r: Request): Match {
    Match(false, r, [])
  }

  /** A request not of the call itself, but with the call among its parameters. */
  function MatchedInside(r: Request, call: nat): Match {
    match r.command
    case SetupTransfer(consult) =>
      if consult == Some(call) then Match(false, r.(command := SetupTransfer(None)), []) else NoMatch(r)
    case CompleteTransfer(consult, conference, joins) =>
      if consult == Some(call) then Match(true, r, if conference.Some? && joins then [Idled(conference.value)] else [])
      else Match(conference == Some(call), r, [])
    case SetupConference(original, meeting, consult) =>
      if original == call then
        Match(true, r, [Idled(meeting)] + if consult.Some? then [Idled(consult.value)] else [])
      else if consult == Some(call) then
        Match(false, r.(command := SetupConference(original, meeting, None)), [Detached(meeting), Detached(call)])
      else NoMatch(r)
    case AddToConference(consult) => Match(consult == Some(call), r, [])
    case _ => NoMatch(r)
  }

  /** IsMatchingRequest, and the exempted request. */
  function Matched(r: Request, c: Criteria): Match {
    if c.except == Some(r.id) then NoMatch(r)
    else if c.code != None && c.code != Some(Code(r.command)) then NoMatch(r)
    else if c.onlyUnstarted && !r.state.NotProcessed? then NoMatch(r)
    else if c.call == None || c.call == r.call then Match(true, r, [])
    else MatchedInside(r, c.call.value)
  }

  /** The provider hears of the removal unless the request is in its first state. */
  function Removal(r: Request, error: int): seq<Note> {
    (if r.state != INITIAL then [Cancelled(r.id)] else []) +
    (if r.asynch && !r.responded then [Told(r.id, error)] else []) + [Finished(r.id, error)]
  }

  datatype Purge = Purge(kept: seq<Request>, log: seq<Note>)

  /** One pass over the list. */
  function Purged(rs: seq<Request>, c: Criteria, error: int): (p: Purge)
    ensures |p.kept| <= |rs|
  {
    if rs == [] then Purge([], [])
    else
      var m, rest := Matched(rs[0], c), Purged(rs[1..], c, error);
      if m.hit then Purge(rest.kept, m.effects + Removal(rs[0], error) + rest.log)
      else Purge([m.r] + rest.kept, m.effects + rest.log)
  }

  /** RemovePendingRequests. */
  function Removed(q: Queue, c: Criteria, error: int): Queue {
    var p := Purged(q.requests, c, error);
    Queue(p.kept, q.log + p.log)
  }

  /** Asked again, a request that did not match still does not, and there is
      nothing left to do about it. */
  lemma MatchingSettles(r: Request, c: Criteria)
    requires !Matched(r, c).hit
    ensures Matched(Matched(r, c).r, c) == NoMatch(Matched(r, c).r)
  {
  }

  /** Nothing in the list matches, or would be touched. */
  predicate Settled(rs: seq<Request>, c: Criteria) {
    forall i :: 0 <= i < |rs| ==> Matched(rs[i], c) == NoMatch(rs[i])
  }

  lemma {:induction false} PurgedIsSettled(rs: seq<Request>, c: Criteria, error: int)
    ensures Settled(Purged(rs, c, error).kept, c)
  {
    if rs != [] {
      PurgedIsSettled(rs[1..], c, error);
      if !Matched(rs[0], c).hit {
        MatchingSettles(rs[0], c);
      }
    }
  }

  lemma {:induction false} SettledIsLeftAlone(rs: seq<Request>, c: Criteria, error: int)
    requires Settled(rs, c)
    ensures Purged(rs, c, error) == Purge(rs, [])
  {
    if rs != [] {
      SettledIsLeftAlone(rs[1..], c, error);
      assert rs == [rs[0]] + rs[1..];
    }
  }

  /** Purging twice is purging once. */
  lemma PurgeIsIdempotent(rs: seq<Request>, c: Criteria, error: int)
    ensures Purged(Purged(rs, c, error).kept, c, error) == Purge(Purged(rs, c, error).kept, [])
  {
    PurgedIsSettled(rs, c, error);
    SettledIsLeftAlone(Purged(rs, c, error).kept, c, error);
  }

  /** The requests kept are those that do not match, in their order. */
  function Misses(rs: seq<Request>, c: Criteria): seq<nat> {
    if rs == [] then [] else (if Matched(rs[0], c).hit then [] else [rs[0].id]) + Misses(rs[1..], c)
  }

  function IdsOf(rs: seq<Request>): seq<nat> {
    seq(|rs|, i requires 0 <= i < |rs| => rs[i].id)
  }

  lemma {:induction false} PurgeKeepsTheMisses(rs: seq<Request>, c: Criteria, error: int)
    ensures IdsOf(Purged(rs, c, error).kept) == Misses(rs, c)
  {
    hide Matched;
    if rs != [] {
      PurgeKeepsTheMisses(rs[1..], c, error);
      var m := MatchedKeeps(rs[0], c);
      var rest := Purged(rs[1..], c, error).kept;
      assert IdsOf([m.r] + rest) == [rs[0].id] + IdsOf(rest);
    }
  }

  lemma MatchedKeeps(r: Request, c: Criteria) returns (m: Match)
    ensures m == Matched(r, c) && m.r.id == r.id && m.r.state == r.state
  {
    m := Matched(r, c);
  }

  /** The request is about the call though it is not the call's own: it would
      end with the call. */
  predicate EndsWithCall(c: Command, call: nat) {
    match c
    case CompleteTransfer(consult, conference, _) => consult == Some(call) || conference == Some(call)
    case SetupConference(original, _, _) => original == call
    case AddToConference(consult) => consult == Some(call)
    case _ => false
  }

  /** What a removal asks for: not the request in hand, of the command if one is
      named, not started if so wished, and of the call if one is named. */
  predicate AskedFor(r: Request, c: Criteria) {
    && c.except != Some(r.id)
    && (c.code.Some? ==> c.code.value == Code(r.command))
    && (c.onlyUnstarted ==> r.state.NotProcessed?)
    && (c.call.Some? ==> r.call == c.call || EndsWithCall(r.command, c.call.value))
  }

  lemma MatchedExactlyWhen(r: Request, c: Criteria)
    ensures Matched(r, c).hit <==> AskedFor(r, c)
  {
  }

  predicate Has(rs: seq<Request>, id: nat) {
    exists k :: 0 <= k < |rs| && rs[k].id == id
  }

  /** What the log of a removal says of each request: removed ones are finished
      with the error, cancelled at the provider unless in their first state, and
      answered with the error if TAPI waits; of the others nothing is said. */
  ghost predicate RemovalTold(log: seq<Note>, r: Request, removed: bool, error: int) {
    && (forall x :: Finished(r.id, x) in log <==> removed && x == error)
    && (Cancelled(r.id) in log <==> removed && r.state != INITIAL)
    && (forall x :: Told(r.id, x) in log <==> removed && r.asynch && !r.responded && x == error)
  }

  predicate Aside(note: Note) {
    note.Idled? || note.Detached?
  }

  lemma AboutOne(r: Request, error: int, m: seq<Note>)
    requires forall n :: n in m ==> Aside(n)
    ensures RemovalTold(m + Removal(r, error), r, true, error) && RemovalTold(m, r, false, error)
    ensures forall n :: n in m + Removal(r, error) ==> Aside(n) || n.Finished? || n.Cancelled? || n.Told?
    ensures forall n :: n in m + Removal(r, error) && !Aside(n) ==> n.id == r.id
  {
    var fin := Finished(r.id, error);
    assert Removal(r, error)[|Removal(r, error)| - 1] == fin;
    assert r.asynch && !r.responded ==> Removal(r, error)[|Removal(r, error)| - 2] == Told(r.id, error);
    assert r.state != INITIAL ==> Removal(r, error)[0] == Cancelled(r.id);
  }

  lemma EffectsAreAside(r: Request, c: Criteria)
    ensures forall n :: n in Matched(r, c).effects ==> Aside(n)
    ensures Matched(r, c).r == r.(command := Matched(r, c).r.command)
  {
  }

  predicate AllDiffer(rs: seq<Request>) {
    forall i, j :: 0 <= i < j < |rs| ==> rs[i].id != rs[j].id
  }

  lemma {:induction false} PurgeMentionsOnly(rs: seq<Request>, c: Criteria, error: int)
    ensures forall n :: n in Purged(rs, c, error).log ==> Aside(n) || ((n.Finished? || n.Cancelled? || n.Told?) && Has(rs, n.id))
    ensures forall k :: 0 <= k < |Purged(rs, c, error).kept| ==> Has(rs, Purged(rs, c, error).kept[k].id)
  {
    hide Matched, Removal;
    if rs != [] {
      PurgeMentionsOnly(rs[1..], c, error);
      EffectsAreAside(rs[0], c);
      AboutOne(rs[0], error, Matched(rs[0], c).effects);
      assert forall id :: Has(rs[1..], id) ==> Has(rs, id) by {
        assert forall k :: 0 <= k < |rs[1..]| ==> rs[1..][k] == rs[k + 1];
      }
      assert rs[0].id == rs[0].id && Has(rs, rs[0].id);
    }
  }

  /** Which requests a removal takes, and what is said of them: exactly those
      asked for, each finished once with the error, and the provider and TAPI
      told as they should be. */
  lemma {:induction false} RemovedExactlyWhenAskedFor(rs: seq<Request>, c: Criteria, error: int, i: nat)
    requires AllDiffer(rs) && i < |rs|
    ensures var p := Purged(rs, c, error);
            && (Has(p.kept, rs[i].id) <==> !AskedFor(rs[i], c))
            && RemovalTold(p.log, rs[i], AskedFor(rs[i], c), error)
  {
    hide Matched, AskedFor, Removal;
    var r, m, rest := rs[0], Matched(rs[0], c), Purged(rs[1..], c, error);
    var note := m.effects + if m.hit then Removal(r, error) else [];
    MatchedExactlyWhen(r, c);
    EffectsAreAside(r, c);
    AboutOne(r, error, m.effects);
    PurgeMentionsOnly(rs[1..], c, error);
    assert Purged(rs, c, error).log == note + rest.log;
    HasFirst(m.r, rest.kept, rs[i].id);
    if i == 0 {
      NotAmongOthers(rs, rest);
    } else {
      RemovedExactlyWhenAskedFor(rs[1..], c, error, i - 1);
    }
  }

  lemma HasFirst(r: Request, rs: seq<Request>, id: nat)
    ensures Has([r] + rs, id) <==> r.id == id || Has(rs, id)
  {
    var all := [r] + rs;
    assert all[0] == r && forall k :: 0 <= k < |rs| ==> all[k + 1] == rs[k];
  }

  lemma NotAmongOthers(rs: seq<Request>, p: Purge)
    requires rs != [] && AllDiffer(rs)
    requires forall n :: n in p.log ==> Aside(n) || ((n.Finished? || n.Cancelled? || n.Told?) && Has(rs[1..], n.id))
    requires forall k :: 0 <= k < |p.kept| ==> Has(rs[1..], p.kept[k].id)
    ensures !Has(p.kept, rs[0].id) && RemovalTold(p.log, rs[0], false, 0)
    ensures forall n :: n in p.log && !Aside(n) ==> n.id != rs[0].id
  {
    assert forall k :: 0 <= k < |rs[1..]| ==> rs[1..][k] == rs[k + 1];
  }

  /** What completing one request does to another: it goes too exactly if the
      one completed is a drop request that went well and the other is of its call
      or would end with it. */
  lemma CompletionTakesExactlyWhen(d: Device, q: Queue, i: nat, result: int, tell: bool, remove: bool, k: nat)
    requires AllDiffer(q.requests) && i < |q.requests| && k < |q.requests| && k != i
    ensures var r, s := q.requests[i], q.requests[k];
            Has(Answered(d, q, i, result, tell, remove).requests, s.id)
            <==> !(r.command.DropCall? && result == 0 && r.call.Some? && (s.call == r.call || EndsWithCall(s.command, r.call.value)))
  {
    var r, rest := q.requests[i], Finish(q, i, result, tell, remove).requests;
    var k' := if remove && k > i then k - 1 else k;
    assert rest[k'] == q.requests[k];
    assert remove ==> forall j :: 0 <= j < |rest| ==> rest[j] == q.requests[if j < i then j else j + 1];
    if Clears(r, result) {
      RemovedExactlyWhenAskedFor(rest, OfItsCall(r), d.failed, k');
    } else {
      assert Has(rest, q.requests[k].id);
    }
  }

  /** The request belongs to the removal but for the call. */
  predicate Eligible(r: Request, c: Criteria) {
    c.except != Some(r.id) && (c.code.Some? ==> c.code.value == Code(r.command)) && (c.onlyUnstarted ==> r.state.NotProcessed?)
  }

  /** Removing the request sets another call idle: the conference a transfer ends
      in, or the conference being set up and its consultation call. */
  predicate Idles(r: Request, c: Criteria, x: nat) {
    && Eligible(r, c) && c.call.Some? && r.call != c.call
    && match r.command
       case CompleteTransfer(consult, conference, joins) => consult == c.call && joins && conference == Some(x)
       case SetupConference(original, meeting, consult) => original == c.call.value && (x == meeting || consult == Some(x))
       case _ => false
  }

  /** The request is kept, but its conference and consultation call are parted. */
  predicate Parts(r: Request, c: Criteria, x: nat) {
    && Eligible(r, c) && c.call.Some? && r.call != c.call && r.command.SetupConference?
    && r.command.original != c.call.value && r.command.consult == c.call && (x == r.command.meeting || x == c.call.value)
  }

  lemma EffectsExactlyWhen(r: Request, c: Criteria, x: nat)
    ensures Idled(x) in Matched(r, c).effects <==> Idles(r, c, x)
    ensures Detached(x) in Matched(r, c).effects <==> Parts(r, c, x)
  {
  }

  /** Which calls a removal sets idle, and which it parts from their conference. */
  lemma {:induction false} RemovalIdlesExactlyWhen(rs: seq<Request>, c: Criteria, error: int, x: nat)
    ensures Idled(x) in Purged(rs, c, error).log <==> exists i :: 0 <= i < |rs| && Idles(rs[i], c, x)
    ensures Detached(x) in Purged(rs, c, error).log <==> exists i :: 0 <= i < |rs| && Parts(rs[i], c, x)
  {
    hide Matched, Idles, Parts;
    if rs != [] {
      var m, rest := Matched(rs[0], c), Purged(rs[1..], c, error);
      RemovalIdlesExactlyWhen(rs[1..], c, error, x);
      EffectsExactlyWhen(rs[0], c, x);
      NoIdling(rs[0], error, x);
      var note := m.effects + if m.hit then Removal(rs[0], error) else [];
      assert Purged(rs, c, error).log == note + rest.log;
      assert forall i :: 0 < i < |rs| ==> rs[i] == rs[1..][i - 1];
      assert forall i :: 0 <= i < |rs[1..]| ==> rs[1..][i] == rs[i + 1];
    }
  }

  lemma NoIdling(r: Request, error: int, x: nat)
    ensures Idled(x) !in Removal(r, error) && Detached(x) !in Removal(r, error)
  {
  }

  /** The request is a call's own, or has the call among its parameters. */
  predicate Names(r: Request, call: nat) {
    || r.call == Some(call) || EndsWithCall(r.command, call)
    || (r.command.SetupTransfer? && r.command.consult == Some(call))
    || (r.command.SetupConference? && r.command.consult == Some(call))
  }

  /** Everything about one call. */
  function AllOf(call: nat): Criteria {
    Criteria(Some(call), None, false, None)
  }

  predicate NoneNames(rs: seq<Request>, call: nat) {
    forall k :: 0 <= k < |rs| ==> !Names(rs[k], call)
  }

  /** Once everything about a call has been removed no request left names it; of
      what is left only the consultation call of a transfer or conference is
      forgotten, and of those that did not name the call nothing. */
  lemma {:induction false} RemovedCallIsForgotten(rs: seq<Request>, call: nat, error: int)
    ensures NoneNames(Purged(rs, AllOf(call), error).kept, call)
    ensures forall r :: r in rs && !Names(r, call) ==> r in Purged(rs, AllOf(call), error).kept
    decreases |rs|
  {
    hide Matched, Removal, Names;
    if rs != [] {
      RemovedCallIsForgotten(rs[1..], call, error);
      UnnamedAfterMatch(rs[0], call);
      assert rs == [rs[0]] + rs[1..];
    }
  }

  lemma UnnamedAfterMatch(r: Request, call: nat)
    ensures var m := Matched(r, AllOf(call));
            (m.hit ==> Names(r, call)) && (!m.hit ==> !Names(m.r, call)) && (!Names(r, call) ==> m.r == r)
  {
  }

  // --------------------------------------------------- what ReceiveData serves

  /** A request without a handler at the head is completed, and the rest served. */
  function AfterHead(d: Device, q: Queue): (q': Queue)
    requires q.requests != []
    ensures |q'.requests| < |q.requests|
  {
    Answered(d, Begun(q), 0, AutoResult(d, q.requests[0]), true, true)
  }

  lemma OneServed(d: Device, q: Queue, withData: bool)
    requires q.requests != [] && !HasHandler(d, q.requests[0])
    ensures Received(d, q, withData) == Received(d, AfterHead(d, q), false)
  {
    hide Answered;
  }

  /** ReceiveData always ends, with nothing left or with the head started and its
      handler called. */
  lemma {:induction false} ReceiveEndsAtAHandler(d: Device, q: Queue, withData: bool)
    ensures var q' := Received(d, q, withData);
            q'.requests == [] ||
            (q'.requests[0].state.Running? && HasHandler(d, q'.requests[0])
             && |q'.log| > 0 && q'.log[|q'.log| - 1].Handled? && q'.log[|q'.log| - 1].id == q'.requests[0].id)
    decreases |q.requests|
  {
    hide Answered;
    if q.requests != [] && !HasHandler(d, q.requests[0]) {
      OneServed(d, q, withData);
      ReceiveEndsAtAHandler(d, AfterHead(d, q), false);
    }
  }

  /** Length of the run of requests at the front that no handler waits for. */
  function AutoRun(d: Device, rs: seq<Request>): (k: nat)
    ensures k <= |rs|
    ensures forall i :: 0 <= i < k ==> !HasHandler(d, rs[i])
    ensures k < |rs| ==> HasHandler(d, rs[k])
  {
    if rs == [] || HasHandler(d, rs[0]) then 0 else 1 + AutoRun(d, rs[1..])
  }

  function StartNote(r: Request): seq<Note> {
    if r.state.NotProcessed? then [Started(r.id)] else []
  }

  /** Starting and completing a request that has no handler. */
  function AutoNotes(d: Device, r: Request): seq<Note> {
    StartNote(r) + [Finished(r.id, AutoResult(d, r))] + Answer(r, AutoResult(d, r), true)
  }

  function AutoLog(d: Device, rs: seq<Request>): seq<Note> {
    if rs == [] then [] else AutoNotes(d, rs[0]) + AutoLog(d, rs[1..])
  }

  function AsStarted(r: Request): Request {
    if r.state.NotProcessed? then r.(state := INITIAL) else r
  }

  function Served(d: Device, q: Queue, withData: bool): Queue {
    var k := AutoRun(d, q.requests);
    var log := q.log + AutoLog(d, q.requests[..k]);
    if k == |q.requests| then Queue([], log)
    else
      var r := q.requests[k];
      Queue([AsStarted(r)] + q.requests[k + 1..], log + StartNote(r) + [Handled(r.id, withData && k == 0)])
  }

  /** No request of the run takes others with it as it is completed. */
  predicate ClearsNothing(d: Device, rs: seq<Request>) {
    forall i :: 0 <= i < |rs| ==> !Clears(rs[i], AutoResult(d, rs[i]))
  }

  /** ReceiveData completes the whole run of handler-less requests at the head,
      in order, and hands the first request with a handler to it, started; the
      data goes to that handler only if nothing was completed before it. */
  lemma {:induction false} ReceiveServesTheHeadRun(d: Device, q: Queue, withData: bool)
    requires ClearsNothing(d, q.requests[..AutoRun(d, q.requests)])
    ensures Received(d, q, withData) == Served(d, q, withData)
    decreases |q.requests|
  {
    hide Received, Served;
    if q.requests == [] {
      NothingReceived(d, q, withData);
    } else if HasHandler(d, q.requests[0]) {
      HandlerIsCalled(d, q, withData);
    } else {
      var k, tail := AutoRun(d, q.requests), q.requests[1..];
      assert q.requests[..k][0] == q.requests[0] && q.requests[..k][1..] == tail[..k - 1];
      AfterPlainHead(d, q);
      OneServed(d, q, withData);
      ReceiveServesTheHeadRun(d, AfterHead(d, q), false);
      ServedGoesOn(d, q, withData);
    }
  }

  lemma NothingReceived(d: Device, q: Queue, withData: bool)
    requires q.requests == []
    ensures Received(d, q, withData) == Served(d, q, withData)
  {
    assert q.log + AutoLog(d, []) == q.log;
  }

  lemma HandlerIsCalled(d: Device, q: Queue, withData: bool)
    requires q.requests != [] && HasHandler(d, q.requests[0])
    ensures Received(d, q, withData) == Served(d, q, withData)
  {
    var r := q.requests[0];
    assert q.requests[0 := AsStarted(r)] == [AsStarted(r)] + q.requests[1..];
    assert AutoRun(d, q.requests) == 0;
    assert q.log + AutoLog(d, q.requests[..0]) == q.log;
  }

  lemma AfterPlainHead(d: Device, q: Queue)
    requires q.requests != [] && !Clears(q.requests[0], AutoResult(d, q.requests[0]))
    ensures AfterHead(d, q) == Queue(q.requests[1..], q.log + AutoNotes(d, q.requests[0]))
  {
    var r, q1 := q.requests[0], Begun(q);
    assert WithoutAt(q1.requests, 0) == q.requests[1..];
    assert q1.log == q.log + StartNote(r);
  }

  lemma ServedGoesOn(d: Device, q: Queue, withData: bool)
    requires q.requests != [] && !HasHandler(d, q.requests[0])
    requires AfterHead(d, q) == Queue(q.requests[1..], q.log + AutoNotes(d, q.requests[0]))
    ensures Served(d, q, withData) == Served(d, AfterHead(d, q), false)
  {
    hide AfterHead, AutoNotes;
    var k, tail := AutoRun(d, q.requests), q.requests[1..];
    assert q.requests[..k][1..] == tail[..k - 1];
    assert k == |q.requests| || (tail[k - 1] == q.requests[k] && tail[k..] == q.requests[k + 1..]);
    var note, rest := AutoNotes(d, q.requests[0]), AutoLog(d, tail[..k - 1]);
    assert q.log + (note + rest) == q.log + note + rest;
  }

  // --------------------------------------------------------------------- runs

  datatype Step =
    | Add(r: Request)
    | Receive(withData: bool, accepted: bool)
    | Complete(id: nat, result: int, tell: bool, remove: bool)
    | RemovePending(c: Criteria, error: int)
    | Progress(n: nat)       // the handler of the head moves its request on

  predicate Mentions(note: Note, id: nat) {
    match note
    case Idled(_) => false
    case Detached(_) => false
    case Unsolicited => false
    case _ => note.id == id
  }

  predicate Unused(q: Queue, id: nat) {
    && (forall i :: 0 <= i < |q.requests| ==> q.requests[i].id != id)
    && (forall i :: 0 <= i < |q.log| ==> !Mentions(q.log[i], id))
  }

  predicate Enabled(q: Queue, st: Step) {
    match st
    case Add(r) => r.state.NotProcessed? && !r.responded && Unused(q, r.id)
    case Progress(_) => q.requests != [] && q.requests[0].state.Running?
    case _ => true
  }

  function Apply(d: Device, q: Queue, st: Step): Queue
    requires Enabled(q, st)
  {
    match st
    case Add(r) => Added(d, q, r)
    case Receive(withData, accepted) => DataReceived(d, q, withData, accepted)
    case Complete(id, result, tell, remove) => Completed(d, q, id, result, tell, remove)
    case RemovePending(c, error) => Removed(q, c, error)
    case Progress(n) => q.(requests := q.requests[0 := q.requests[0].(state := Running(n))])
  }

  predicate Legal(d: Device, q: Queue, steps: seq<Step>)
    decreases |steps|
  {
    steps == [] || (Enabled(q, steps[0]) && Legal(d, Apply(d, q, steps[0]), steps[1..]))
  }

  function Run(d: Device, q: Queue, steps: seq<Step>): Queue
    requires Legal(d, q, steps)
    decreases |steps|
  {
    if steps == [] then q else Run(d, Apply(d, q, steps[0]), steps[1..])
  }
}
