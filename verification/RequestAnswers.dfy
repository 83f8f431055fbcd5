/**
 * Answers to TAPI: every asynchronous request of a queue is answered once.
 */
module RequestAnswers {

  import opened Sequences
  import opened RequestQueue

  function Owes(r: Request): multiset<nat> {
    if r.asynch && !r.responded then multiset{r.id} else multiset{}
  }

  /** The requests in the queue TAPI waits for. */
  function Owed(rs: seq<Request>): multiset<nat> {
    if rs == [] then multiset{} else Owes(rs[0]) + Owed(rs[1..])
  }

  /** The requests TAPI was told about. */
  function Answers(log: seq<Note>): multiset<nat> {
    if log == [] then multiset{} else (if log[0].Told? then multiset{log[0].id} else multiset{}) + Answers(log[1..])
  }

  /** Completed without telling TAPI, which was waiting. */
  function Forgone(q: Queue, st: Step): multiset<nat>
    requires Enabled(q, st)
  {
    if st.Complete? && st.remove && !st.tell && Find(q.requests, st.id) < |q.requests|
    then Owes(q.requests[Find(q.requests, st.id)]) else multiset{}
  }

  function Asked(st: Step): multiset<nat> {
    if st.Add? then Owes(st.r) else multiset{}
  }

  function Balance(q: Queue): multiset<nat> {
    Answers(q.log) + Owed(q.requests)
  }

  lemma {:induction false} AnswersJoin(a: seq<Note>, b: seq<Note>)
    ensures Answers(a + b) == Answers(a) + Answers(b)
  {
    if a == [] {
      assert a + b == b;
    } else {
      assert (a + b)[1..] == a[1..] + b;
      AnswersJoin(a[1..], b);
    }
  }

  lemma {:induction false} OwedJoin(a: seq<Request>, b: seq<Request>)
    ensures Owed(a + b) == Owed(a) + Owed(b)
  {
    if a == [] {
      assert a + b == b;
    } else {
      assert (a + b)[1..] == a[1..] + b;
      OwedJoin(a[1..], b);
    }
  }

  lemma AnswerSettles(r: Request, result: int, tell: bool)
    ensures Answers(Answer(r, result, tell)) == if tell then Owes(r) else multiset{}
  {
  }

  /** Notes that tell nothing leave the balance. */
  lemma QuietNotes(log: seq<Note>, notes: seq<Note>)
    requires forall n :: 0 <= n < |notes| ==> !notes[n].Told?
    ensures Answers(log + notes) == Answers(log)
  {
    AnswersJoin(log, notes);
    NothingTold(notes);
  }

  lemma Swap(a: multiset<nat>, b: multiset<nat>, c: multiset<nat>)
    ensures a + (b + c) == b + (a + c) && (a + b) + c == a + (b + c)
  {
  }

  lemma {:induction false} OwedWithout(rs: seq<Request>, i: nat)
    requires i < |rs|
    ensures Owed(rs) == Owes(rs[i]) + Owed(WithoutAt(rs, i))
  {
    var rest := WithoutAt(rs, i);
    if i == 0 {
      assert rest == rs[1..];
    } else {
      assert rest[0] == rs[0] && rest[1..] == WithoutAt(rs[1..], i - 1);
      OwedWithout(rs[1..], i - 1);
      Swap(Owes(rs[0]), Owes(rs[i]), Owed(rest[1..]));
    }
  }

  /** What a request still owes once it was finished. */
  function Left(r: Request, tell: bool, remove: bool): multiset<nat> {
    if remove || tell then multiset{} else Owes(r)
  }

  lemma FinishBalances(q: Queue, i: nat, result: int, tell: bool, remove: bool)
    requires i < |q.requests|
    ensures var q' := Finish(q, i, result, tell, remove);
            var r := q.requests[i];
            Balance(q') + Owes(r) == Balance(q) + Left(r, tell, remove)
  {
    var r, rest := q.requests[i], WithoutAt(q.requests, i);
    QuietNotes(q.log, [Finished(r.id, result)]);
    OwedWithout(q.requests, i);
    if !remove {
      var rs := q.requests[i := r.(responded := r.responded || tell)];
      OwedWithout(rs, i);
      assert WithoutAt(rs, i) == rest;
      Swap(Answers(q.log), Owes(rs[i]), Owed(rest));
    }
    Swap(Answers(q.log), Owes(r), Owed(rest));
  }

  lemma RemovedBalances(q: Queue, c: Criteria, error: int)
    ensures Balance(Removed(q, c, error)) == Balance(q)
  {
    var p := Purged(q.requests, c, error);
    PurgeBalances(q.requests, c, error);
    AnswersJoin(q.log, p.log);
    Swap(Answers(q.log), Answers(p.log), Owed(p.kept));
  }

  lemma ClearedBalances(d: Device, q: Queue, r: Request, result: int)
    ensures Balance(Cleared(d, q, r, result)) == Balance(q)
  {
    if Clears(r, result) {
      RemovedBalances(q, OfItsCall(r), d.failed);
    }
  }

  /** A completed request is answered, or forgone, and nothing else changes. */
  lemma AnsweredBalances(d: Device, q: Queue, i: nat, result: int, tell: bool, remove: bool)
    requires i < |q.requests|
    ensures Balance(Answered(d, q, i, result, tell, remove)) + (if remove && !tell then Owes(q.requests[i]) else multiset{})
         == Balance(q)
  {
    hide Cleared, Finish, Answer, Answers, Owed;
    var r, q1 := q.requests[i], Finish(q, i, result, tell, remove);
    var q2, told := Cleared(d, q1, r, result), Answer(r, result, tell);
    FinishBalances(q, i, result, tell, remove);
    ClearedBalances(d, q1, r, result);
    AnswersJoin(q2.log, told);
    AnswerSettles(r, result, tell);
    Swap(Answers(q2.log), Answers(told), Owed(q2.requests));
    SettleUp(Balance(q2), Answers(told), Owes(r), Balance(q), Left(r, tell, remove),
             if remove && !tell then Owes(r) else multiset{});
  }

  lemma SettleUp(b2: multiset<nat>, told: multiset<nat>, owes: multiset<nat>, b: multiset<nat>, left: multiset<nat>, forgone: multiset<nat>)
    requires b2 + owes == b + left && told + forgone + left == owes
    ensures (told + b2) + forgone == b
  {
    forall e: nat
      ensures ((told + b2) + forgone)[e] == b[e]
    {
      assert (b2 + owes)[e] == (b + left)[e];
      assert (told + forgone + left)[e] == owes[e];
    }
  }

  lemma BegunBalances(q: Queue)
    requires q.requests != []
    ensures Balance(Begun(q)) == Balance(q)
  {
    var r := q.requests[0];
    QuietNotes(q.log, StartNote(r));
    assert q.log + [] == q.log;
    assert Begun(q).requests[1..] == q.requests[1..];
  }

  lemma {:induction false} ReceiveBalances(d: Device, q: Queue, withData: bool)
    ensures Balance(Received(d, q, withData)) == Balance(q)
    decreases |q.requests|
  {
    hide Answered, Begun, Answers, Owed;
    if q.requests != [] {
      BegunBalances(q);
      if HasHandler(d, q.requests[0]) {
        QuietNotes(Begun(q).log, [Handled(q.requests[0].id, withData)]);
      } else {
        OneServed(d, q, withData);
        AnsweredBalances(d, Begun(q), 0, AutoResult(d, q.requests[0]), true, true);
        assert AfterHead(d, q) == Answered(d, Begun(q), 0, AutoResult(d, q.requests[0]), true, true);
        ReceiveBalances(d, AfterHead(d, q), false);
      }
    }
  }

  lemma DataBalances(d: Device, q: Queue, withData: bool, accepted: bool)
    ensures Balance(DataReceived(d, q, withData, accepted)) == Balance(q)
  {
    hide Received, Answers, Owed;
    ReceiveBalances(d, q, withData);
    QuietNotes(Received(d, q, withData).log, [Unsolicited]);
  }

  lemma CompletedBalances(d: Device, q: Queue, id: nat, result: int, tell: bool, remove: bool)
    ensures Balance(Completed(d, q, id, result, tell, remove)) + Forgone(q, Complete(id, result, tell, remove)) == Balance(q)
  {
    hide Received, Answered, Answers, Owed;
    var i := Find(q.requests, id);
    if i < |q.requests| {
      AnsweredBalances(d, q, i, result, tell, remove);
      ReceiveBalances(d, Answered(d, q, i, result, tell, remove), false);
    }
  }

  lemma RemovalSettles(r: Request, error: int)
    ensures Answers(Removal(r, error)) == Owes(r)
  {
    var told := if r.asynch && !r.responded then [Told(r.id, error)] else [];
    var cancel := if r.state != INITIAL then [Cancelled(r.id)] else [];
    AnswersJoin(cancel, told);
    AnswersJoin(cancel + told, [Finished(r.id, error)]);
  }

  lemma {:induction false} NothingTold(log: seq<Note>)
    requires forall n :: 0 <= n < |log| ==> !log[n].Told?
    ensures Answers(log) == multiset{}
  {
    if log != [] {
      NothingTold(log[1..]);
    }
  }

  lemma MatchTellsNothing(r: Request, c: Criteria) returns (m: Match)
    ensures m == Matched(r, c) && m.r.id == r.id && m.r.asynch == r.asynch && m.r.responded == r.responded
    ensures forall n :: 0 <= n < |m.effects| ==> !m.effects[n].Told?
  {
    m := Matched(r, c);
  }

  lemma MatchOwesTheSame(r: Request, c: Criteria) returns (m: Match)
    ensures m == Matched(r, c) && Owes(m.r) == Owes(r) && Answers(m.effects) == multiset{}
  {
    m := MatchTellsNothing(r, c);
    NothingTold(m.effects);
  }

  lemma {:induction false} PurgeBalances(rs: seq<Request>, c: Criteria, error: int)
    ensures Answers(Purged(rs, c, error).log) + Owed(Purged(rs, c, error).kept) == Owed(rs)
  {
    if rs != [] {
      var m := MatchOwesTheSame(rs[0], c);
      var rest := Purged(rs[1..], c, error);
      PurgeBalances(rs[1..], c, error);
      RemovalSettles(rs[0], error);
      AnswersJoin(m.effects, Removal(rs[0], error));
      AnswersJoin(m.effects + Removal(rs[0], error), rest.log);
      AnswersJoin(m.effects, rest.log);
      OwedJoin([m.r], rest.kept);
    }
  }

  lemma StepBalances(d: Device, q: Queue, st: Step)
    requires Enabled(q, st)
    ensures Balance(Apply(d, q, st)) + Forgone(q, st) == Balance(q) + Asked(st)
  {
    hide Added, DataReceived, Completed, Removed, Answers;
    match st
    case Add(r) => AddBalances(d, q, r);
    case Receive(withData, accepted) => DataBalances(d, q, withData, accepted);
    case Complete(id, result, tell, remove) => CompletedBalances(d, q, id, result, tell, remove);
    case RemovePending(c, error) => RemovedBalances(q, c, error);
    case Progress(n) =>
      assert q.requests[0 := q.requests[0].(state := Running(n))][1..] == q.requests[1..];
  }

  lemma AddBalances(d: Device, q: Queue, r: Request)
    ensures Balance(Added(d, q, r)) == Balance(q) + Owes(r)
  {
    hide Received, Position, Inserted, Answers, Owed;
    var q1 := q.(requests := Inserted(q.requests, r, Position(q.requests, r)));
    InsertBalances(q, r, Position(q.requests, r));
    ReceiveBalances(d, q1, false);
  }

  lemma InsertBalances(q: Queue, r: Request, k: nat)
    requires k <= |q.requests|
    ensures Balance(q.(requests := Inserted(q.requests, r, k))) == Balance(q) + Owes(r)
  {
    var rs := Inserted(q.requests, r, k);
    OwedWithout(rs, k);
    assert WithoutAt(rs, k) == q.requests;
    Swap(Answers(q.log), Owes(r), Owed(q.requests));
  }

  function ForgoneAll(d: Device, q: Queue, steps: seq<Step>): multiset<nat>
    requires Legal(d, q, steps)
    decreases |steps|
  {
    if steps == [] then multiset{} else Forgone(q, steps[0]) + ForgoneAll(d, Apply(d, q, steps[0]), steps[1..])
  }

  function AskedAll(steps: seq<Step>): multiset<nat> {
    if steps == [] then multiset{} else Asked(steps[0]) + AskedAll(steps[1..])
  }

  /** Every asynchronous request ever added has been answered to TAPI, or is in
      the queue and still owed an answer, or was completed without telling TAPI;
      each time it was added, one of the three, once. */
  lemma {:induction false} EveryRequestIsAnsweredOnce(d: Device, q: Queue, steps: seq<Step>)
    requires Legal(d, q, steps)
    ensures Balance(Run(d, q, steps)) + ForgoneAll(d, q, steps) == Balance(q) + AskedAll(steps)
    decreases |steps|
  {
    if steps != [] {
      var q' := Apply(d, q, steps[0]);
      StepBalances(d, q, steps[0]);
      EveryRequestIsAnsweredOnce(d, q', steps[1..]);
      AddUp(Balance(Run(d, q, steps)), ForgoneAll(d, q', steps[1..]), Balance(q'), AskedAll(steps[1..]),
            Forgone(q, steps[0]), Balance(q), Asked(steps[0]));
    }
  }

  lemma AddUp(a: multiset<nat>, f: multiset<nat>, b: multiset<nat>, k: multiset<nat>,
              f': multiset<nat>, c: multiset<nat>, k': multiset<nat>)
    requires a + f == b + k && b + f' == c + k'
    ensures a + (f' + f) == c + (k' + k)
  {
    assert a + (f' + f) == (a + f) + f' == b + k + f' == (b + f') + k;
  }

  // ------------------------------------------------------ what TAPI is told

  /** Whatever TAPI is told of a request, the request was finished with. */
  predicate Agrees(log: seq<Note>) {
    forall n :: 0 <= n < |log| && log[n].Told? ==> Finished(log[n].id, log[n].result) in log
  }

  lemma AgreesJoin(a: seq<Note>, b: seq<Note>)
    requires Agrees(a) && Agrees(b)
    ensures Agrees(a + b)
  {
  }

  lemma RemovalAgrees(r: Request, error: int)
    ensures Agrees(Removal(r, error))
  {
    assert Removal(r, error)[|Removal(r, error)| - 1] == Finished(r.id, error);
  }

  lemma SilenceAgrees(log: seq<Note>)
    requires forall n :: 0 <= n < |log| ==> !log[n].Told?
    ensures Agrees(log)
  {
  }

  lemma {:induction false} PurgeAgrees(rs: seq<Request>, c: Criteria, error: int)
    ensures Agrees(Purged(rs, c, error).log)
  {
    hide Agrees, Removal;
    if rs == [] {
      SilenceAgrees([]);
    } else {
      var m := MatchTellsNothing(rs[0], c);
      var rest := Purged(rs[1..], c, error);
      PurgeAgrees(rs[1..], c, error);
      SilenceAgrees(m.effects);
      RemovalAgrees(rs[0], error);
      AgreesJoin(m.effects, Removal(rs[0], error));
      AgreesJoin(m.effects + Removal(rs[0], error), rest.log);
      AgreesJoin(m.effects, rest.log);
    }
  }

  lemma AnsweredAgrees(d: Device, q: Queue, i: nat, result: int, tell: bool, remove: bool)
    requires i < |q.requests| && Agrees(q.log)
    ensures Agrees(Answered(d, q, i, result, tell, remove).log)
  {
    hide Purged;
    var r, q1 := q.requests[i], Finish(q, i, result, tell, remove);
    var q2 := Cleared(d, q1, r, result);
    assert q1.log[|q.log|] == Finished(r.id, result);
    SilenceAgrees([Finished(r.id, result)]);
    AgreesJoin(q.log, [Finished(r.id, result)]);
    if Clears(r, result) {
      PurgeAgrees(q1.requests, OfItsCall(r), d.failed);
      AgreesJoin(q1.log, Purged(q1.requests, OfItsCall(r), d.failed).log);
    }
    assert q2.log[|q.log|] == Finished(r.id, result);
    AnswerAgrees(q2.log, r, result, tell);
  }

  lemma AnswerAgrees(log: seq<Note>, r: Request, result: int, tell: bool)
    requires Agrees(log) && Finished(r.id, result) in log
    ensures Agrees(log + Answer(r, result, tell))
  {
  }

  lemma {:induction false} ReceiveAgrees(d: Device, q: Queue, withData: bool)
    requires Agrees(q.log)
    ensures Agrees(Received(d, q, withData).log)
    decreases |q.requests|
  {
    hide Answered, Agrees;
    if q.requests != [] {
      SilenceAgrees(StartNote(q.requests[0]));
      AgreesJoin(q.log, StartNote(q.requests[0]));
      assert Begun(q).log == q.log + StartNote(q.requests[0]);
      if HasHandler(d, q.requests[0]) {
        SilenceAgrees([Handled(q.requests[0].id, withData)]);
        AgreesJoin(Begun(q).log, [Handled(q.requests[0].id, withData)]);
      } else {
        OneServed(d, q, withData);
        AnsweredAgrees(d, Begun(q), 0, AutoResult(d, q.requests[0]), true, true);
        assert AfterHead(d, q) == Answered(d, Begun(q), 0, AutoResult(d, q.requests[0]), true, true);
        ReceiveAgrees(d, AfterHead(d, q), false);
      }
    }
  }

  lemma StepAgrees(d: Device, q: Queue, st: Step)
    requires Enabled(q, st) && Agrees(q.log)
    ensures Agrees(Apply(d, q, st).log)
  {
    hide Received, Answered, Purged, Agrees, Position, Inserted, StartsAtOnce;
    match st
    case Add(r) => ReceiveAgrees(d, q.(requests := Inserted(q.requests, r, Position(q.requests, r))), false);
    case Receive(withData, _) =>
      ReceiveAgrees(d, q, withData);
      SilenceAgrees([Unsolicited]);
      AgreesJoin(Received(d, q, withData).log, [Unsolicited]);
    case Complete(id, result, tell, remove) =>
      var i := Find(q.requests, id);
      if i < |q.requests| {
        AnsweredAgrees(d, q, i, result, tell, remove);
        ReceiveAgrees(d, Answered(d, q, i, result, tell, remove), false);
      }
    case RemovePending(c, error) =>
      PurgeAgrees(q.requests, c, error);
      AgreesJoin(q.log, Purged(q.requests, c, error).log);
    case Progress(_) =>
  }

  lemma {:induction false} RunAgrees(d: Device, q: Queue, steps: seq<Step>)
    requires Legal(d, q, steps) && Agrees(q.log)
    ensures Agrees(Run(d, q, steps).log)
    decreases |steps|
  {
    hide Apply, Agrees, Enabled;
    if steps != [] {
      StepAgrees(d, q, steps[0]);
      RunAgrees(d, Apply(d, q, steps[0]), steps[1..]);
    }
  }

  /** TAPI and the waiting threads hear the same: whatever result TAPI was told
      of a request, the request was finished with that result. */
  lemma AnswersAgreeWithResults(d: Device, steps: seq<Step>, id: nat, result: int)
    requires Legal(d, EMPTY, steps) && Told(id, result) in Run(d, EMPTY, steps).log
    ensures Finished(id, result) in Run(d, EMPTY, steps).log
  {
    RunAgrees(d, EMPTY, steps);
  }

  lemma {:induction false} AutoLogHas(d: Device, rs: seq<Request>, i: nat)
    requires i < |rs|
    ensures Finished(rs[i].id, if Code(rs[i].command) in d.handlers then 0 else d.failed) in AutoLog(d, rs)
  {
    if i == 0 {
      var result := AutoResult(d, rs[0]);
      assert AutoNotes(d, rs[0])[|StartNote(rs[0])|] == Finished(rs[0].id, result);
      assert AutoLog(d, rs)[|StartNote(rs[0])|] == Finished(rs[0].id, result);
    } else {
      AutoLogHas(d, rs[1..], i - 1);
      var k :| 0 <= k < |AutoLog(d, rs[1..])| && AutoLog(d, rs[1..])[k] == Finished(rs[i].id, if Code(rs[i].command) in d.handlers then 0 else d.failed);
      assert AutoLog(d, rs)[|AutoNotes(d, rs[0])| + k] == AutoLog(d, rs[1..])[k];
    }
  }

  /** A request of the head run succeeds if its command is mapped, to no handler,
      and fails with the error of the device if it is not. */
  lemma UnmappedCommandsFail(d: Device, q: Queue, withData: bool, i: nat)
    requires i < AutoRun(d, q.requests) && ClearsNothing(d, q.requests[..AutoRun(d, q.requests)])
    ensures Finished(q.requests[i].id, if Code(q.requests[i].command) in d.handlers then 0 else d.failed)
            in Received(d, q, withData).log
  {
    hide Received;
    var k := AutoRun(d, q.requests);
    ReceiveServesTheHeadRun(d, q, withData);
    AutoLogHas(d, q.requests[..k], i);
    assert Finished(q.requests[i].id, if Code(q.requests[i].command) in d.handlers then 0 else d.failed)
           in q.log + AutoLog(d, q.requests[..k]);
  }
}
