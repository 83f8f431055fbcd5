/**
 * The inbox of a state machine: any thread may add, one thread polls.  The
 * poller looks at the change counter without the lock, and takes the lock only
 * if it is not zero.  The inbox of events and that of new handlers work alike.
 */
module Inbox {

  /** The inbox as one thread sees it. */
  class MailBox<T> {
    var items: seq<T>
    var change: int
    // What the poller has handed to the state machine.
    var delivered: seq<T>

    ghost predicate Valid()
      reads this
    {
      change == |items|
    }

    constructor ()
      ensures Valid() && items == delivered == []
    {
      items, change, delivered := [], 0, [];
    }

    method Add(item: T)
      requires Valid()
      modifies this`items, this`change
      ensures Valid() && items == old(items) + [item]
    {
      items := items + [item];
      change := change + 1;
    }

    method TakeAll() returns (taken: seq<T>)
      requires Valid()
      modifies this`items, this`change
      ensures Valid() && items == [] && taken == old(items)
    {
      taken := [];
      if change > 0 {
        taken := items;
        items := [];
        change := 0;
      }
    }

    method Poll()
      requires Valid()
      modifies this
      ensures Valid() && items == [] && delivered == old(delivered) + old(items)
    {
      var taken := TakeAll();
      var i := 0;
      while i < |taken|
        invariant i <= |taken| && Valid() && items == [] && taken == old(items)
        invariant delivered == old(delivered) + taken[..i]
      {
        delivered := delivered + [taken[i]];
        i := i + 1;
      }
      assert taken[..i] == taken;
    }
  }

  // ------------------------------------------------------- the steps in between

  /** A producer between the statements of Add. */
  datatype Producer = Outside | Locked(item: nat) | Pushed | Counted

  /** The poller between the statements of a poll. */
  datatype Poller =
    | Idle
    | Seen                       // the counter was not zero
    | Holding                    // has the lock
    | Copied(copy: seq<nat>)
    | Cleared(copy: seq<nat>)
    | Reset(copy: seq<nat>)
    | Delivering(taken: seq<nat>)

  datatype Holder = Free | ByProducer(t: nat) | ByPoller

  /** `added` is the history of items in the order the lock was taken. */
  datatype Inbox = Inbox(items: seq<nat>, change: int, holder: Holder, producers: map<nat, Producer>,
                         poller: Poller, added: seq<nat>, delivered: seq<nat>)

  const START := Inbox([], 0, Free, map[], Idle, [], [])

  datatype Step = Enter(t: nat, item: nat) | Push(t: nat) | Count(t: nat) | Leave(t: nat) | Poll

  function At(s: Inbox, t: nat): Producer {
    if t in s.producers then s.producers[t] else Outside
  }

  predicate Enabled(s: Inbox, st: Step) {
    match st
    case Enter(t, _) => At(s, t).Outside? && s.holder.Free?
    case Push(t) => At(s, t).Locked?
    case Count(t) => At(s, t).Pushed?
    case Leave(t) => At(s, t).Counted?
    case Poll => s.poller.Seen? ==> s.holder.Free?
  }

  /** The next statement of the poller. */
  function Polled(s: Inbox): Inbox {
    match s.poller
    case Idle => if s.change > 0 then s.(poller := Seen) else s
    case Seen => s.(holder := ByPoller, poller := Holding)
    case Holding => s.(poller := Copied(s.items))
    case Copied(copy) => s.(items := [], poller := Cleared(copy))
    case Cleared(copy) => s.(change := 0, poller := Reset(copy))
    case Reset(copy) => s.(holder := Free, poller := Delivering(copy))
    case Delivering(taken) =>
      if taken == [] then s.(poller := Idle)
      else s.(delivered := s.delivered + [taken[0]], poller := Delivering(taken[1..]))
  }

  function Apply(s: Inbox, st: Step): Inbox
    requires Enabled(s, st)
  {
    match st
    case Enter(t, item) => s.(holder := ByProducer(t), producers := s.producers[t := Locked(item)])
    case Push(t) =>
      s.(items := s.items + [At(s, t).item], added := s.added + [At(s, t).item], producers := s.producers[t := Pushed])
    case Count(t) => s.(change := s.change + 1, producers := s.producers[t := Counted])
    case Leave(t) => s.(holder := Free, producers := s.producers[t := Outside])
    case Poll => Polled(s)
  }

  predicate Legal(s: Inbox, steps: seq<Step>)
    decreases |steps|
  {
    steps == [] || (Enabled(s, steps[0]) && Legal(Apply(s, steps[0]), steps[1..]))
  }

  function Run(s: Inbox, steps: seq<Step>): Inbox
    requires Legal(s, steps)
    decreases |steps|
  {
    if steps == [] then s else Run(Apply(s, steps[0]), steps[1..])
  }

  // ------------------------------------------------------------------ invariant

  /** What the poller has taken out and not yet delivered. */
  function InHand(p: Poller): seq<nat> {
    match p
    case Cleared(copy) => copy
    case Reset(copy) => copy
    case Delivering(taken) => taken
    case _ => []
  }

  predicate PollerLocks(p: Poller) {
    p.Holding? || p.Copied? || p.Cleared? || p.Reset?
  }

  /** How many items the counter does not count, or counts too many. */
  function Miscount(s: Inbox): int {
    if s.holder.ByProducer? && At(s, s.holder.t).Pushed? then 1
    else if s.poller.Cleared? then -|s.poller.copy|
    else 0
  }

  predicate Inv(s: Inbox) {
    && s.added == s.delivered + InHand(s.poller) + s.items
    && s.change + Miscount(s) == |s.items|
    && (forall t :: t in s.producers && !s.producers[t].Outside? ==> s.holder == ByProducer(t))
    && (s.holder.ByProducer? ==> !At(s, s.holder.t).Outside?)
    && (s.holder.ByPoller? <==> PollerLocks(s.poller))
    && (s.poller.Copied? ==> s.poller.copy == s.items)
    && (s.poller.Cleared? || s.poller.Reset? ==> s.items == [])
  }

  lemma StepKeepsInv(s: Inbox, st: Step)
    requires Inv(s) && Enabled(s, st)
    ensures Inv(Apply(s, st))
  {
    match st
    case Push(t) =>
      assert s.delivered + InHand(s.poller) + s.items + [At(s, t).item]
          == s.delivered + InHand(s.poller) + (s.items + [At(s, t).item]);
    case Poll => PollKeepsInv(s);
    case _ =>
  }

  lemma PollKeepsInv(s: Inbox)
    requires Inv(s) && Enabled(s, Poll)
    ensures Inv(Polled(s))
  {
    match s.poller
    case Copied(copy) => assert s.delivered + [] + s.items == s.delivered + copy + [];
    case Delivering(taken) =>
      if taken != [] {
        assert taken == [taken[0]] + taken[1..];
        assert s.delivered + taken == (s.delivered + [taken[0]]) + taken[1..];
      }
    case _ =>
  }

  lemma {:induction false} RunKeepsInv(s: Inbox, steps: seq<Step>)
    requires Legal(s, steps) && Inv(s)
    ensures Inv(Run(s, steps))
    decreases |steps|
  {
    if steps != [] {
      StepKeepsInv(s, steps[0]);
      RunKeepsInv(Apply(s, steps[0]), steps[1..]);
    }
  }

  /** Whatever the interleaving, what was delivered is a beginning of what was
      added in lock order, the rest is in the poller's hand or in the inbox, and
      the counter is the number of waiting items whenever the lock is free. */
  lemma NothingIsLostOrReordered(steps: seq<Step>)
    requires Legal(START, steps)
    ensures var s := Run(START, steps);
            && s.added == s.delivered + InHand(s.poller) + s.items
            && s.delivered <= s.added
            && (s.holder.Free? ==> s.change == |s.items|)
  {
    RunKeepsInv(START, steps);
    var s := Run(START, steps);
    assert s.delivered + InHand(s.poller) + s.items == s.delivered + (InHand(s.poller) + s.items);
  }

  // ------------------------------------------------ the unlocked test only delays

  /** How many items had been counted when the poll began. */
  function CountedItems(s: Inbox): int {
    |s.added| - if Miscount(s) == 1 then 1 else 0
  }

  /** The first `n` items are delivered, or will be by the poll under way. */
  predicate Promised(s: Inbox, n: int) {
    || n <= |s.delivered|
    || ((s.poller.Seen? || s.poller.Holding? || s.poller.Copied?) && n <= |s.added|)
    || n <= |s.delivered| + |InHand(s.poller)|
  }

  lemma PollPromises(s: Inbox)
    requires Inv(s) && s.poller.Idle?
    ensures Promised(Apply(s, Poll), CountedItems(s))
  {
  }

  lemma StepKeepsPromise(s: Inbox, st: Step, n: int)
    requires Inv(s) && Enabled(s, st) && Promised(s, n)
    ensures Promised(Apply(s, st), n)
  {
  }

  lemma {:induction false} RunKeepsPromise(s: Inbox, steps: seq<Step>, n: int)
    requires Legal(s, steps) && Inv(s) && Promised(s, n)
    ensures Promised(Run(s, steps), n)
    decreases |steps|
  {
    if steps != [] {
      StepKeepsInv(s, steps[0]);
      StepKeepsPromise(s, steps[0], n);
      RunKeepsPromise(Apply(s, steps[0]), steps[1..], n);
    }
  }

  /** A poll delivers every item whose Add had counted it when the poll began,
      whatever the producers do meanwhile: the unlocked look at the counter can
      only miss the one item being added at that moment. */
  lemma PollDeliversAllThatWasCounted(steps: seq<Step>, rest: seq<Step>)
    requires Legal(START, steps) && Run(START, steps).poller.Idle?
    requires var s := Apply(Run(START, steps), Poll); Legal(s, rest) && Run(s, rest).poller.Idle?
    ensures var s := Run(START, steps);
            var s' := Run(Apply(s, Poll), rest);
            && |s'.delivered| >= CountedItems(s) >= |s.added| - 1
            && (s.holder.Free? ==> |s'.delivered| >= |s.added|)
            && s'.delivered <= s'.added
  {
    RunKeepsInv(START, steps);
    var s := Run(START, steps);
    PollPromises(s);
    StepKeepsInv(s, Poll);
    RunKeepsPromise(Apply(s, Poll), rest, CountedItems(s));
    RunKeepsInv(Apply(s, Poll), rest);
    var s' := Run(Apply(s, Poll), rest);
    assert s'.delivered + [] + s'.items == s'.delivered + s'.items;
  }
}
