/**
 * The keyed worker pool: one queue, one auto-reset event, a map of the keys
 * being worked on, and any number of worker and producer threads.
 *
 * `ThreadPool` holds the critical sections as methods.  `Pool`, `Enabled` and
 * `Apply` interleave them: one step is one critical section or one event wait.
 */
module WorkerPool {

  import opened Options

  // Keys are only ever compared for equality.
  type Key = int

  /** A queued request.  `id` stands for the address of the request object.
      The two flags are the answers of TPM_CanRunEvent for this request. */
  datatype Request = Request(id: nat, key: Key, runsWhenFree: bool, runsWhenHeld: bool)

  predicate CanRun(r: Request, keyHeld: bool) {
    if keyHeld then r.runsWhenHeld else r.runsWhenFree
  }

  /** The policy used unless a provider overrides TPM_CanRunEvent. */
  predicate DefaultPolicy(r: Request) {
    CanRun(r, false) && !CanRun(r, true)
  }

  /** The data guarded by the request lock, and the event. */
  datatype Shared = Shared(queue: seq<Request>, running: map<Key, nat>, evt: bool)

  predicate Runnable(sh: Shared, r: Request) {
    CanRun(r, r.key in sh.running)
  }

  /** No request in front of position `n` may run now. */
  predicate NoneRunnable(sh: Shared, n: nat)
    requires n <= |sh.queue|
  {
    forall i :: 0 <= i < n ==> !Runnable(sh, sh.queue[i])
  }

  function Released(running: map<Key, nat>, k: Key): map<Key, nat> {
    if k !in running then running
    else if running[k] <= 1 then running - {k}
    else running[k := running[k] - 1]
  }

  function Claimed(running: map<Key, nat>, k: Key): map<Key, nat> {
    running[k := if k in running then running[k] + 1 else 1]
  }

  /** Position of the first request that may run, or the queue length. */
  function FirstRunnable(sh: Shared, from: nat := 0): (i: nat)
    requires from <= |sh.queue|
    ensures from <= i <= |sh.queue|
    ensures i < |sh.queue| ==> Runnable(sh, sh.queue[i])
    ensures forall j :: from <= j < i ==> !Runnable(sh, sh.queue[j])
    decreases |sh.queue| - from
  {
    if from == |sh.queue| || Runnable(sh, sh.queue[from]) then from else FirstRunnable(sh, from + 1)
  }

  /** What one pass over the queue leaves behind when it takes position `i`. */
  function Taken(sh: Shared, i: nat): Shared
    requires i < |sh.queue|
  {
    var rest := sh.queue[..i] + sh.queue[i + 1..];
    Shared(rest, Claimed(sh.running, sh.queue[i].key), sh.evt || rest != [])
  }

  /** The pool object; each method is one critical section of the source. */
  class ThreadPool {
    var requests: seq<Request>
    var running: map<Key, nat>
    var evt: bool

    ghost function View(): Shared
      reads this
    {
      Shared(requests, running, evt)
    }

    constructor ()
      ensures View() == Shared([], map[], false)
    {
      requests, running, evt := [], map[], false;
    }

    // First half of Add; the event is set later, outside the lock.
    method Enqueue(r: Request) returns (size: nat)
      modifies this
      ensures View() == old(View()).(queue := old(requests) + [r])
      ensures size == |requests| > 0
    {
      requests := requests + [r];
      size := |requests|;
    }

    // Entry of GetNextAvailableRequest.
    method TopUpEvent()
      modifies this
      ensures View() == old(View()).(evt := old(evt || requests != []))
    {
      if requests != [] {
        evt := true;
      }
    }

    // One turn of the loop of GetNextAvailableRequest, after the wait.
    method TakeRunnable() returns (taken: Option<Request>)
      modifies this
      ensures taken.None? ==> View() == old(View()) && NoneRunnable(old(View()), |old(requests)|)
      ensures taken.Some? ==>
                var i := FirstRunnable(old(View()));
                && i < |old(requests)|
                && taken.value == old(requests)[i]
                && NoneRunnable(old(View()), i)
                && View() == Taken(old(View()), i)
                && requests == old(requests)[..i] + old(requests)[i + 1..]
                && evt == (old(evt) || requests != [])
    {
      taken := None;
      var pos := 0;
      while pos < |requests|
        invariant pos <= |requests| && taken == None
        invariant View() == old(View())
        invariant NoneRunnable(old(View()), pos)
        invariant FirstRunnable(old(View())) == FirstRunnable(old(View()), pos)
      {
        var r := requests[pos];
        if CanRun(r, r.key in running) {
          taken := Some(r);
          if r.key in running {
            running := running[r.key := running[r.key] + 1];
          } else {
            running := running[r.key := 1];
          }
          requests := requests[..pos] + requests[pos + 1..];
          break;
        }
        pos := pos + 1;
      }
      if taken.Some? && requests != [] {
        evt := true;
      }
    }

    // The locked part of Runner, after the request was processed.
    method ReleaseKey(k: Key)
      requires k in running ==> running[k] > 0
      modifies this
      ensures View() == old(View()).(running := Released(old(running), k))
    {
      if running != map[] {
        if k in running {
          if running[k] == 1 {
            running := running - {k};
          } else {
            running := running[k := running[k] - 1];
          }
        }
      }
    }
  }

  // ---------------------------------------------------------------- steps

  /** Where a worker thread is. */
  datatype Worker =
    | Entering                // about to call GetNextAvailableRequest
    | Asleep                  // waiting for the event
    | Awake                   // released by the event, has not scanned yet
    | Running(req: Request)   // working on a request

  /** The whole system.  `added` and `finished` are histories. */
  datatype Pool = Pool(
    shared: Shared,
    unsignalled: nat,         // calls of Add between their push and their SetEvent
    workers: seq<Worker>,
    added: seq<Request>,
    finished: seq<Request>)

  datatype Step =
    | Push(r: Request)
    | Signal
    | Spawn
    | Enter(w: nat)
    | Wake(w: nat)
    | Scan(w: nat)
    | Finish(w: nat)

  const START := Pool(Shared([], map[], false), 0, [], [], [])

  predicate Enabled(p: Pool, st: Step) {
    match st
    case Push(r) => r.id == |p.added|
    case Signal => p.unsignalled > 0
    case Spawn => true
    case Enter(w) => w < |p.workers| && p.workers[w].Entering?
    case Wake(w) => w < |p.workers| && p.workers[w].Asleep? && p.shared.evt
    case Scan(w) => w < |p.workers| && p.workers[w].Awake?
    case Finish(w) => w < |p.workers| && p.workers[w].Running?
  }

  function Apply(p: Pool, st: Step): Pool
    requires Enabled(p, st)
  {
    var sh := p.shared;
    match st
    case Push(r) =>
      p.(shared := sh.(queue := sh.queue + [r]), unsignalled := p.unsignalled + 1, added := p.added + [r])
    case Signal =>
      p.(shared := sh.(evt := true), unsignalled := p.unsignalled - 1)
    case Spawn =>
      p.(workers := p.workers + [Entering])
    case Enter(w) =>
      p.(shared := sh.(evt := sh.evt || sh.queue != []), workers := p.workers[w := Asleep])
    case Wake(w) =>
      p.(shared := sh.(evt := false), workers := p.workers[w := Awake])
    case Scan(w) =>
      var i := FirstRunnable(sh);
      if i == |sh.queue| then p.(workers := p.workers[w := Asleep])
      else p.(shared := Taken(sh, i), workers := p.workers[w := Running(sh.queue[i])])
    case Finish(w) =>
      var r := p.workers[w].req;
      p.(shared := sh.(running := Released(sh.running, r.key)),
         workers := p.workers[w := Entering],
         finished := p.finished + [r])
  }

  predicate Legal(p: Pool, steps: seq<Step>)
    decreases |steps|
  {
    steps == [] || (Enabled(p, steps[0]) && Legal(Apply(p, steps[0]), steps[1..]))
  }

  function Run(p: Pool, steps: seq<Step>): Pool
    requires Legal(p, steps)
    decreases |steps|
  {
    if steps == [] then p else Run(Apply(p, steps[0]), steps[1..])
  }

  // ---------------------------------------------- filters over sequences

  function ForKey(s: seq<Request>, k: Key): seq<Request> {
    if s == [] then []
    else (if s[0].key == k then [s[0]] else []) + ForKey(s[1..], k)
  }

  function InFlight(ws: seq<Worker>): seq<Request> {
    if ws == [] then []
    else (if ws[0].Running? then [ws[0].req] else []) + InFlight(ws[1..])
  }

  lemma {:induction false} ForKeyConcat(a: seq<Request>, b: seq<Request>, k: Key)
    ensures ForKey(a + b, k) == ForKey(a, k) + ForKey(b, k)
  {
    if a == [] {
      assert a + b == b;
    } else {
      assert (a + b)[1..] == a[1..] + b;
      ForKeyConcat(a[1..], b, k);
    }
  }

  lemma {:induction false} InFlightConcat(a: seq<Worker>, b: seq<Worker>)
    ensures InFlight(a + b) == InFlight(a) + InFlight(b)
  {
    if a == [] {
      assert a + b == b;
    } else {
      assert (a + b)[1..] == a[1..] + b;
      InFlightConcat(a[1..], b);
    }
  }

  lemma {:induction false} ForKeyNone(s: seq<Request>, k: Key)
    requires forall i :: 0 <= i < |s| ==> s[i].key != k
    ensures ForKey(s, k) == []
  {
    if s != [] {
      ForKeyNone(s[1..], k);
    }
  }

  /** What replacing one worker does to the requests in flight. */
  lemma InFlightUpdate(ws: seq<Worker>, w: nat, x: Worker)
    requires w < |ws|
    ensures InFlight(ws) == InFlight(ws[..w]) + InFlight([ws[w]]) + InFlight(ws[w + 1..])
    ensures InFlight(ws[w := x]) == InFlight(ws[..w]) + InFlight([x]) + InFlight(ws[w + 1..])
  {
    assert ws == ws[..w] + [ws[w]] + ws[w + 1..];
    assert ws[w := x] == ws[..w] + [x] + ws[w + 1..];
    InFlightConcat(ws[..w] + [ws[w]], ws[w + 1..]);
    InFlightConcat(ws[..w], [ws[w]]);
    InFlightConcat(ws[..w] + [x], ws[w + 1..]);
    InFlightConcat(ws[..w], [x]);
  }

  lemma ForKey3(a: seq<Request>, b: seq<Request>, c: seq<Request>, k: Key)
    ensures ForKey(a + b + c, k) == ForKey(a, k) + ForKey(b, k) + ForKey(c, k)
  {
    ForKeyConcat(a + b, c, k);
    ForKeyConcat(a, b, k);
  }

  // ---------------------------------------------------------- invariants

  /** Somebody is bound to look at the queue again. */
  predicate Attended(p: Pool) {
    || p.shared.evt
    || p.unsignalled > 0
    || exists w :: 0 <= w < |p.workers| && (p.workers[w].Awake? || p.workers[w].Entering?)
  }

  ghost predicate NoLostWakeup(p: Pool) {
    (exists i :: 0 <= i < |p.shared.queue| && Runnable(p.shared, p.shared.queue[i])) ==> Attended(p)
  }

  /** The map holds exactly the number of requests in flight for each key. */
  ghost predicate CountsMatch(p: Pool) {
    forall k ::
      && (k in p.shared.running <==> ForKey(InFlight(p.workers), k) != [])
      && (k in p.shared.running ==> p.shared.running[k] == |ForKey(InFlight(p.workers), k)|)
  }

  predicate KeyCounted(running: map<Key, nat>, flying: seq<Request>, k: Key) {
    && (k in running <==> ForKey(flying, k) != [])
    && (k in running ==> running[k] == |ForKey(flying, k)|)
  }

  predicate Numbered(p: Pool) {
    forall i :: 0 <= i < |p.added| ==> p.added[i].id == i
  }

  ghost predicate Conserved(p: Pool) {
    multiset(p.added) == multiset(p.shared.queue) + multiset(InFlight(p.workers)) + multiset(p.finished)
  }

  predicate AllDefault(p: Pool) {
    forall i :: 0 <= i < |p.added| ==> DefaultPolicy(p.added[i])
  }

  /** Under the default policy each key is served one request at a time and
      in the order of arrival. */
  predicate InOrder(p: Pool, k: Key) {
    && ForKey(p.added, k) == ForKey(p.finished, k) + ForKey(InFlight(p.workers), k) + ForKey(p.shared.queue, k)
    && |ForKey(InFlight(p.workers), k)| <= 1
  }

  ghost predicate SerialFifo(p: Pool) {
    forall k :: InOrder(p, k)
  }

  ghost predicate Inv(p: Pool) {
    && NoLostWakeup(p)
    && CountsMatch(p)
    && Numbered(p)
    && Conserved(p)
    && (AllDefault(p) ==> SerialFifo(p))
  }

  lemma NoLostWakeupStep(p: Pool, st: Step)
    requires Enabled(p, st) && NoLostWakeup(p)
    ensures NoLostWakeup(Apply(p, st))
  {
    var q := Apply(p, st);
    match st
    case Push(_) =>
    case Signal =>
    case Spawn => assert q.workers[|p.workers|].Entering?;
    case Enter(w) =>
      if p.shared.queue == [] {
        assert q.shared.queue == [];
      }
    case Wake(w) => assert q.workers[w].Awake?;
    case Scan(w) =>
    case Finish(w) => assert q.workers[w].Entering?;
  }

  /** How a step changes the requests in flight. */
  function Started(p: Pool, st: Step): seq<Request>
    requires Enabled(p, st)
  {
    if st.Scan? && FirstRunnable(p.shared) < |p.shared.queue| then [p.shared.queue[FirstRunnable(p.shared)]] else []
  }

  function Ended(p: Pool, st: Step): seq<Request>
    requires Enabled(p, st)
  {
    if st.Finish? then [p.workers[st.w].req] else []
  }

  lemma InFlightStep(p: Pool, st: Step) returns (a: seq<Request>, c: seq<Request>)
    requires Enabled(p, st)
    ensures InFlight(p.workers) == a + Ended(p, st) + c
    ensures InFlight(Apply(p, st).workers) == a + Started(p, st) + c
  {
    match st
    case Push(_) => a, c := InFlight(p.workers), [];
    case Signal => a, c := InFlight(p.workers), [];
    case Spawn =>
      InFlightConcat(p.workers, [Entering]);
      a, c := InFlight(p.workers), [];
    case _ =>
      var x := WorkerMoves(p, st);
      InFlightUpdate(p.workers, st.w, x);
      a, c := InFlight(p.workers[..st.w]), InFlight(p.workers[st.w + 1..]);
  }

  /** A step of one worker, and what it has in hand before and after. */
  lemma WorkerMoves(p: Pool, st: Step) returns (x: Worker)
    requires Enabled(p, st) && (st.Enter? || st.Wake? || st.Scan? || st.Finish?)
    ensures Apply(p, st).workers == p.workers[st.w := x]
    ensures InFlight([p.workers[st.w]]) == Ended(p, st) && InFlight([x]) == Started(p, st)
  {
    x := Apply(p, st).workers[st.w];
  }

  lemma CountsMatchStep(p: Pool, st: Step)
    requires Enabled(p, st) && CountsMatch(p)
    ensures CountsMatch(Apply(p, st))
  {
    var q := Apply(p, st);
    var a, c := InFlightStep(p, st);
    forall k
      ensures (k in q.shared.running <==> ForKey(InFlight(q.workers), k) != [])
      ensures k in q.shared.running ==> q.shared.running[k] == |ForKey(InFlight(q.workers), k)|
    {
      assert k in p.shared.running <==> ForKey(InFlight(p.workers), k) != [];
      KeyCountedStep(p, st, a, c, k);
    }
  }

  lemma KeyCountedStep(p: Pool, st: Step, a: seq<Request>, c: seq<Request>, k: Key)
    requires Enabled(p, st) && KeyCounted(p.shared.running, a + Ended(p, st) + c, k)
    ensures KeyCounted(Apply(p, st).shared.running, a + Started(p, st) + c, k)
  {
    if Ended(p, st) != [] {
      ReleaseCounts(p.shared.running, a, p.workers[st.w].req, c, k);
    } else if Started(p, st) != [] {
      ClaimCounts(p.shared.running, a, p.shared.queue[FirstRunnable(p.shared)], c, k);
    }
  }

  lemma ClaimCounts(running: map<Key, nat>, a: seq<Request>, r: Request, c: seq<Request>, k: Key)
    requires KeyCounted(running, a + [] + c, k)
    ensures KeyCounted(Claimed(running, r.key), a + [r] + c, k)
  {
    ForKey3(a, [], c, k);
    ForKey3(a, [r], c, k);
  }

  lemma ReleaseCounts(running: map<Key, nat>, a: seq<Request>, r: Request, c: seq<Request>, k: Key)
    requires KeyCounted(running, a + [r] + c, k)
    ensures KeyCounted(Released(running, r.key), a + [] + c, k)
  {
    ForKey3(a, [r], c, k);
    ForKey3(a, [], c, k);
  }

  lemma MultisetSplit(q: seq<Request>, i: nat)
    requires i < |q|
    ensures multiset(q) == multiset(q[..i] + q[i + 1..]) + multiset{q[i]}
  {
    assert q == q[..i] + [q[i]] + q[i + 1..];
  }

  lemma ConservedStep(p: Pool, st: Step)
    requires Enabled(p, st) && Conserved(p)
    ensures Conserved(Apply(p, st))
  {
    var q := Apply(p, st);
    var flying, flying' := multiset(InFlight(p.workers)), multiset(InFlight(q.workers));
    assert flying + multiset(Started(p, st)) == flying' + multiset(Ended(p, st)) by {
      var a, c := InFlightStep(p, st);
    }
    QueueLedger(p, st);
    assert multiset(q.finished) == multiset(p.finished) + multiset(Ended(p, st));
    Ledger(multiset(p.added), multiset(p.shared.queue), flying, multiset(p.finished),
           multiset(q.added), multiset(q.shared.queue), flying', multiset(q.finished),
           multiset(Started(p, st)), multiset(Ended(p, st)));
  }

  lemma QueueLedger(p: Pool, st: Step)
    requires Enabled(p, st)
    ensures var q := Apply(p, st);
            multiset(p.shared.queue) + multiset(q.added)
            == multiset(q.shared.queue) + multiset(p.added) + multiset(Started(p, st))
  {
    match st
    case Push(r) => PushLedger(p.shared.queue, p.added, r);
    case Scan(w) =>
      if FirstRunnable(p.shared) < |p.shared.queue| {
        MultisetSplit(p.shared.queue, FirstRunnable(p.shared));
      }
    case _ =>
  }

  lemma PushLedger(queue: seq<Request>, added: seq<Request>, r: Request)
    ensures multiset(queue) + multiset(added + [r]) == multiset(queue + [r]) + multiset(added)
  {
  }

  lemma Ledger(a: multiset<Request>, q: multiset<Request>, f: multiset<Request>, d: multiset<Request>,
               a': multiset<Request>, q': multiset<Request>, f': multiset<Request>, d': multiset<Request>,
               started: multiset<Request>, ended: multiset<Request>)
    requires a == q + f + d
    requires f + started == f' + ended
    requires q + a' == q' + a + started
    requires d' == d + ended
    ensures a' == q' + f' + d'
  {
    forall r
      ensures a'[r] == (q' + f' + d')[r]
    {
      assert a[r] == q[r] + f[r] + d[r];
      assert (f + started)[r] == (f' + ended)[r];
      assert (q + a')[r] == (q' + a + started)[r];
    }
  }

  /** A scan takes the oldest queued request of its key. */
  lemma ScanTakesOldest(p: Pool, k: Key)
    requires forall i :: 0 <= i < |p.shared.queue| ==> DefaultPolicy(p.shared.queue[i])
    requires FirstRunnable(p.shared) < |p.shared.queue|
    ensures var i := FirstRunnable(p.shared);
            var r := p.shared.queue[i];
            && r.key !in p.shared.running
            && ForKey(p.shared.queue, k)
               == (if r.key == k then [r] else []) + ForKey(p.shared.queue[..i] + p.shared.queue[i + 1..], k)
  {
    var queue, i := p.shared.queue, FirstRunnable(p.shared);
    OldestIsFirst(queue, i, k);
  }

  lemma {:induction false} OldestIsFirst(queue: seq<Request>, i: nat, k: Key)
    requires i < |queue| && (queue[i].key == k ==> forall j :: 0 <= j < i ==> queue[j].key != k)
    ensures ForKey(queue, k) == (if queue[i].key == k then [queue[i]] else []) + ForKey(queue[..i] + queue[i + 1..], k)
  {
    var rest := queue[..i] + queue[i + 1..];
    if i == 0 {
      assert rest == queue[1..];
    } else {
      assert rest[0] == queue[0] && rest[1..] == queue[1..][..i - 1] + queue[1..][i..];
      OldestIsFirst(queue[1..], i - 1, k);
    }
  }

  /** Everything queued was added, so it has the default policy too. */
  lemma QueueIsDefault(p: Pool)
    requires Conserved(p) && AllDefault(p)
    ensures forall i :: 0 <= i < |p.shared.queue| ==> DefaultPolicy(p.shared.queue[i])
  {
    forall i | 0 <= i < |p.shared.queue|
      ensures DefaultPolicy(p.shared.queue[i])
    {
      assert p.shared.queue[i] in multiset(p.shared.queue);
      assert p.shared.queue[i] in multiset(p.added);
    }
  }

  lemma SerialFifoStep(p: Pool, st: Step)
    requires Enabled(p, st) && CountsMatch(p) && Conserved(p)
    requires AllDefault(p) ==> SerialFifo(p)
    ensures AllDefault(Apply(p, st)) ==> SerialFifo(Apply(p, st))
  {
    var q := Apply(p, st);
    if AllDefault(q) {
      assert AllDefault(p) by {
        forall i | 0 <= i < |p.added|
          ensures DefaultPolicy(p.added[i])
        {
          assert p.added[i] == q.added[i];
        }
      }
      forall k
        ensures InOrder(q, k)
      {
        assert InOrder(p, k);
        InOrderStep(p, st, k);
      }
    }
  }

  lemma InOrderStep(p: Pool, st: Step, k: Key)
    requires Enabled(p, st) && CountsMatch(p) && Conserved(p) && AllDefault(p) && InOrder(p, k)
    ensures InOrder(Apply(p, st), k)
  {
    match st
    case Push(r) =>
      ForKeyConcat(p.added, [r], k);
      ForKeyConcat(p.shared.queue, [r], k);
    case Scan(w) => ScanKeepsOrder(p, w, k);
    case Finish(w) => FinishKeepsOrder(p, w, k);
    case _ => OthersKeepOrder(p, st, k);
  }

  lemma OthersKeepOrder(p: Pool, st: Step, k: Key)
    requires Enabled(p, st) && !st.Push? && !st.Scan? && !st.Finish?
    requires InOrder(p, k)
    ensures InOrder(Apply(p, st), k)
  {
    var a, c := InFlightStep(p, st);
  }

  lemma Regroup<T>(a: seq<T>, b: seq<T>, c: seq<T>, b': seq<T>, c': seq<T>)
    requires b + c == b' + c'
    ensures a + b + c == a + b' + c'
  {
    assert a + b + c == a + (b + c);
    assert a + b' + c' == a + (b' + c');
  }

  lemma ScanKeepsOrder(p: Pool, w: nat, k: Key)
    requires Enabled(p, Scan(w)) && CountsMatch(p) && Conserved(p) && AllDefault(p) && InOrder(p, k)
    ensures InOrder(Apply(p, Scan(w)), k)
  {
    hide ForKey, InFlight;
    var q := Apply(p, Scan(w));
    var i := FirstRunnable(p.shared);
    var a, c := InFlightStep(p, Scan(w));
    if i < |p.shared.queue| {
      var r := p.shared.queue[i];
      QueueIsDefault(p);
      ScanTakesOldest(p, k);
      assert r.key == k ==> ForKey(InFlight(p.workers), k) == [];
      assert InFlight(p.workers) == a + c;
      SetGoing(ForKey(p.finished, k), a, r, c, ForKey(p.shared.queue, k), ForKey(q.shared.queue, k), k);
    } else {
      assert InFlight(p.workers) == InFlight(q.workers);
    }
  }

  lemma Inserted(a: seq<Request>, r: Request, c: seq<Request>, k: Key)
    ensures r.key != k ==> ForKey(a + [r] + c, k) == ForKey(a + c, k)
    ensures r.key == k && ForKey(a + c, k) == [] ==> ForKey(a + [r] + c, k) == [r]
    ensures r.key == k && |ForKey(a + [r] + c, k)| <= 1 ==> ForKey(a + [r] + c, k) == [r] && ForKey(a + c, k) == []
  {
    ForKeyConcat(a, c, k);
    ForKey3(a, [r], c, k);
  }

  lemma SetGoing(done: seq<Request>, a: seq<Request>, r: Request, c: seq<Request>,
                 queued: seq<Request>, queued': seq<Request>, k: Key)
    requires queued == (if r.key == k then [r] else []) + queued'
    requires |ForKey(a + c, k)| <= 1 && (r.key == k ==> ForKey(a + c, k) == [])
    ensures done + ForKey(a + c, k) + queued == done + ForKey(a + [r] + c, k) + queued'
    ensures |ForKey(a + [r] + c, k)| <= 1
  {
    Inserted(a, r, c, k);
    Regroup(done, ForKey(a + c, k), queued, ForKey(a + [r] + c, k), queued');
  }

  lemma FinishKeepsOrder(p: Pool, w: nat, k: Key)
    requires Enabled(p, Finish(w)) && InOrder(p, k)
    ensures InOrder(Apply(p, Finish(w)), k)
  {
    var r := p.workers[w].req;
    var a, c := InFlightStep(p, Finish(w));
    assert InFlight(Apply(p, Finish(w)).workers) == a + c;
    MovedOn(p.finished, a, r, c, ForKey(p.shared.queue, k), k);
  }

  lemma MovedOn(done: seq<Request>, a: seq<Request>, r: Request, c: seq<Request>, queued: seq<Request>, k: Key)
    requires |ForKey(a + [r] + c, k)| <= 1
    ensures ForKey(done, k) + ForKey(a + [r] + c, k) + queued == ForKey(done + [r], k) + ForKey(a + c, k) + queued
    ensures |ForKey(a + c, k)| <= 1
  {
    Inserted(a, r, c, k);
    ForKeyConcat(done, [r], k);
    Regroup([], ForKey(done, k), ForKey(a + [r] + c, k), ForKey(done + [r], k), ForKey(a + c, k));
  }

  lemma InvStep(p: Pool, st: Step)
    requires Enabled(p, st) && Inv(p)
    ensures Inv(Apply(p, st))
  {
    NoLostWakeupStep(p, st);
    CountsMatchStep(p, st);
    ConservedStep(p, st);
    SerialFifoStep(p, st);
  }

  lemma {:induction false} InvRun(p: Pool, steps: seq<Step>)
    requires Inv(p) && Legal(p, steps)
    ensures Inv(Run(p, steps))
    decreases |steps|
  {
    if steps != [] {
      InvStep(p, steps[0]);
      InvRun(Apply(p, steps[0]), steps[1..]);
    }
  }

  // -------------------------------------------------------- main results

  /** Work is never stranded: in every reachable state a request that may run
      has somebody coming for it, whatever the policy. */
  lemma WorkIsNeverStranded(steps: seq<Step>)
    requires Legal(START, steps)
    ensures NoLostWakeup(Run(START, steps))
  {
    InvRun(START, steps);
  }

  /** With at least one worker, all of them asleep, no Add half done and the
      event clear, nothing is queued, provided a free key never blocks a request. */
  lemma AllAsleepMeansEmpty(steps: seq<Step>)
    requires Legal(START, steps)
    requires var p := Run(START, steps);
             && |p.workers| > 0
             && (forall w :: 0 <= w < |p.workers| ==> p.workers[w].Asleep?)
             && p.unsignalled == 0 && !p.shared.evt
             && (forall i :: 0 <= i < |p.added| ==> p.added[i].runsWhenFree)
    ensures Run(START, steps).shared.queue == []
  {
    InvRun(START, steps);
    SleepingPoolIsEmpty(Run(START, steps));
  }

  lemma SleepingPoolIsEmpty(p: Pool)
    requires NoLostWakeup(p) && CountsMatch(p) && Conserved(p)
    requires forall w :: 0 <= w < |p.workers| ==> p.workers[w].Asleep?
    requires p.unsignalled == 0 && !p.shared.evt
    requires forall i :: 0 <= i < |p.added| ==> p.added[i].runsWhenFree
    ensures p.shared.queue == [] && InFlight(p.workers) == []
  {
    NobodyInFlight(p.workers);
    if p.shared.queue != [] {
      var r := p.shared.queue[0];
      assert r in multiset(p.added);
      assert ForKey([], r.key) == [];
      assert Runnable(p.shared, r);
    }
  }

  lemma {:induction false} NobodyInFlight(ws: seq<Worker>)
    requires forall w :: 0 <= w < |ws| ==> !ws[w].Running?
    ensures InFlight(ws) == []
  {
    if ws != [] {
      NobodyInFlight(ws[1..]);
    }
  }

  /** The running-key map is exact in every reachable state. */
  lemma RunningMapIsExact(steps: seq<Step>, k: Key)
    requires Legal(START, steps)
    ensures var p := Run(START, steps);
            && (k in p.shared.running <==> ForKey(InFlight(p.workers), k) != [])
            && (k in p.shared.running ==> p.shared.running[k] == |ForKey(InFlight(p.workers), k)|)
  {
    InvRun(START, steps);
  }

  /** Under the default policy no two requests in flight share a key, and the
      requests of a key are finished, then in flight, then queued, in exactly
      the order they were added. */
  lemma PerKeySerialFifo(steps: seq<Step>, k: Key)
    requires Legal(START, steps) && AllDefault(Run(START, steps))
    ensures var p := Run(START, steps);
            && |ForKey(InFlight(p.workers), k)| <= 1
            && ForKey(p.added, k)
               == ForKey(p.finished, k) + ForKey(InFlight(p.workers), k) + ForKey(p.shared.queue, k)
  {
    InvRun(START, steps);
    assert InOrder(Run(START, steps), k);
  }

  lemma NoDuplicates(s: seq<Request>, n: nat)
    requires n <= |s| && forall i :: 0 <= i < |s| ==> s[i].id == i
    ensures forall r :: multiset(s[..n])[r] <= 1
    ensures forall r :: r in multiset(s[..n]) ==> r.id < n
  {
    if n > 0 {
      NoDuplicates(s, n - 1);
      assert s[..n] == s[..n - 1] + [s[n - 1]];
    }
  }

  /** Every request ever added is queued, in flight or finished, exactly once. */
  lemma EveryRequestExactlyOnce(steps: seq<Step>, i: nat)
    requires Legal(START, steps) && i < |Run(START, steps).added|
    ensures var p := Run(START, steps);
            multiset(p.shared.queue)[p.added[i]] + multiset(InFlight(p.workers))[p.added[i]]
            + multiset(p.finished)[p.added[i]] == 1
  {
    var p := Run(START, steps);
    InvRun(START, steps);
    NoDuplicates(p.added, |p.added|);
    assert p.added[..|p.added|] == p.added;
    assert p.added[i] in multiset(p.added);
  }

  // ------------------------------------------------------------ progress

  function WorkerWeight(w: Worker): nat {
    match w
    case Entering => 3
    case Asleep => 0
    case Awake => 1
    case Running(_) => 4
  }

  function TotalWeight(ws: seq<Worker>): nat {
    if ws == [] then 0 else WorkerWeight(ws[0]) + TotalWeight(ws[1..])
  }

  /** Bounds the number of steps left before the pool comes to rest. */
  function Potential(p: Pool): nat {
    3 * p.unsignalled + 6 * |p.shared.queue| + TotalWeight(p.workers) + (if p.shared.evt then 2 else 0)
  }

  lemma {:induction false} TotalWeightUpdate(ws: seq<Worker>, w: nat, x: Worker)
    requires w < |ws|
    ensures TotalWeight(ws[w := x]) + WorkerWeight(ws[w]) == TotalWeight(ws) + WorkerWeight(x)
  {
    if w == 0 {
      assert ws[w := x][1..] == ws[1..];
    } else {
      assert ws[w := x][1..] == ws[1..][w - 1 := x];
      TotalWeightUpdate(ws[1..], w - 1, x);
    }
  }

  /** No request is added and no worker started. */
  predicate Internal(st: Step) {
    !st.Push? && !st.Spawn?
  }

  lemma PotentialFalls(p: Pool, st: Step)
    requires Enabled(p, st) && Internal(st)
    ensures Potential(Apply(p, st)) < Potential(p)
  {
    if st.Enter? || st.Wake? || st.Scan? || st.Finish? {
      TotalWeightUpdate(p.workers, st.w, Apply(p, st).workers[st.w]);
    }
  }

  predicate AllInternal(steps: seq<Step>) {
    forall i :: 0 <= i < |steps| ==> Internal(steps[i])
  }

  lemma {:induction false} InternalRunIsBounded(p: Pool, steps: seq<Step>)
    requires Legal(p, steps) && AllInternal(steps)
    ensures |steps| + Potential(Run(p, steps)) <= Potential(p)
    ensures Run(p, steps).added == p.added && |Run(p, steps).workers| == |p.workers|
    decreases |steps|
  {
    if steps != [] {
      PotentialFalls(p, steps[0]);
      InternalRunIsBounded(Apply(p, steps[0]), steps[1..]);
    }
  }

  ghost predicate AtRest(p: Pool) {
    forall st :: Enabled(p, st) ==> !Internal(st)
  }

  lemma RestingPoolIsEmpty(p: Pool)
    requires Inv(p) && AtRest(p) && |p.workers| > 0
    requires forall i :: 0 <= i < |p.added| ==> p.added[i].runsWhenFree
    ensures p.shared.queue == [] && InFlight(p.workers) == []
  {
    assert !Enabled(p, Signal);
    forall w | 0 <= w < |p.workers|
      ensures p.workers[w].Asleep?
    {
      assert !Enabled(p, Enter(w)) && !Enabled(p, Scan(w)) && !Enabled(p, Finish(w));
    }
    assert !Enabled(p, Wake(0));
    SleepingPoolIsEmpty(p);
  }

  /** Left alone, a pool with a worker comes to rest after a bounded number of
      steps, however the threads are scheduled, and it only ever comes to rest
      with every added request finished. */
  lemma LeftAloneEverythingFinishes(before: seq<Step>, steps: seq<Step>)
    requires Legal(START, before) && Legal(Run(START, before), steps) && AllInternal(steps)
    requires |Run(START, before).workers| > 0
    requires forall i :: 0 <= i < |Run(START, before).added| ==> Run(START, before).added[i].runsWhenFree
    ensures |steps| <= Potential(Run(START, before))
    ensures AtRest(Run(Run(START, before), steps)) ==>
              multiset(Run(Run(START, before), steps).finished) == multiset(Run(START, before).added)
  {
    var p0 := Run(START, before);
    var p := Run(p0, steps);
    InvRun(START, before);
    InvRun(p0, steps);
    InternalRunIsBounded(p0, steps);
    if AtRest(p) {
      RestingPoolIsEmpty(p);
      assert multiset(p.added) == multiset([]) + multiset([]) + multiset(p.finished);
    }
  }

  /** A key that is held blocks its own requests only: the first queued request
      of any free key is runnable. */
  lemma FreeKeyIsRunnable(steps: seq<Step>, i: nat)
    requires Legal(START, steps) && AllDefault(Run(START, steps))
    requires i < |Run(START, steps).shared.queue|
    ensures var p := Run(START, steps);
            var r := p.shared.queue[i];
            Runnable(p.shared, r) <==> forall w :: 0 <= w < |p.workers| && p.workers[w].Running? ==> p.workers[w].req.key != r.key
  {
    var p := Run(START, steps);
    var r := p.shared.queue[i];
    InvRun(START, steps);
    QueueIsDefault(p);
    KeyInFlight(p.workers, r.key);
  }

  lemma {:induction false} KeyInFlight(ws: seq<Worker>, k: Key)
    ensures ForKey(InFlight(ws), k) == [] <==> forall w :: 0 <= w < |ws| && ws[w].Running? ==> ws[w].req.key != k
  {
    if ws != [] {
      KeyInFlight(ws[1..], k);
      var first := if ws[0].Running? then [ws[0].req] else [];
      ForKeyConcat(first, InFlight(ws[1..]), k);
      assert forall w :: 1 <= w < |ws| ==> ws[w] == ws[1..][w - 1];
    }
  }
}
