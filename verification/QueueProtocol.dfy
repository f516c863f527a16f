/**
 The signalling queue as a system of interleaved steps.

 `Push` appends under the queue's lock and, still holding it, sends the new length
 plus one on a channel of capacity two. The single consumer receives `n` and then
 pops `n - 1` times, taking the lock for each pop. It may leave instead of receiving, and
 after any pop; its deferred unsubscribe needs the lock as well. One lock acquisition, one
 send and one receive are one step each, so a run is any interleaving the scheduler can pick.
 */
module QueueProtocol {
  import opened Wrappers

  /** Capacity of a listener's signal channel. */
  const CAPACITY := 2

  /** What happened at the head of the queue, oldest first. */
  datatype Exit<T> =
    | Delivered(item: T) // popped by the consumer
    | Dropped(item: T)   // discarded by a push that found the queue at its limit
    | Empty              // a pop that found the queue empty and returned nil

  /** Leaving: it has stopped reading and waits for the lock to unsubscribe. */
  datatype Consumer = Reading | Leaving | Gone

  datatype State<T> = State(
    limit: int,
    queue: seq<T>,
    signals: seq<int>,    // sent and not yet received
    sending: Option<int>, // the signal of the push that holds the lock
    todo: int,            // pops the consumer still owes, or will never make, for the signal it received
    consumer: Consumer,
    pushed: seq<T>,       // every item a push has appended, in order
    exits: seq<Exit<T>>,  // everything that left the head of the queue, in order
    found: nat,           // items that pushes found in the queue, added up
    crashed: bool)        // a push sliced an empty queue

  datatype Step<T> =
    | PushBegin(item: T)
    | PushSend
    | Receive
    | Pop(leaves: bool) // and the consumer returns after it, or goes on
    | Leave             // instead of receiving
    | Unsub

  function Init<T>(limit: int): State<T> {
    State(limit, [], [], None, 0, Reading, [], [], 0, false)
  }

  predicate Enabled<T>(s: State<T>, step: Step<T>) {
    && !s.crashed
    && match step
       case PushBegin(_) => s.sending.None?
       case PushSend => s.sending.Some? && |s.signals| < CAPACITY
       case Receive => s.consumer == Reading && s.todo == 0 && s.signals != []
       case Pop(_) => s.consumer == Reading && s.todo > 0 && s.sending.None?
       case Leave => s.consumer == Reading && s.todo == 0
       case Unsub => s.consumer == Leaving && s.sending.None?
  }

  function Apply<T>(s: State<T>, step: Step<T>): State<T>
    requires Enabled(s, step)
  {
    match step
    case PushBegin(x) =>
      if s.limit == 0 && s.queue == [] then
        s.(crashed := true)
      else
        var full := |s.queue| == s.limit;
        var queue := (if full then s.queue[1..] else s.queue) + [x];
        s.(queue := queue, pushed := s.pushed + [x], found := s.found + |s.queue|,
           exits := if full then s.exits + [Dropped(s.queue[0])] else s.exits,
           sending := if s.consumer == Gone then None else Some(|queue| + 1))
    case PushSend =>
      s.(signals := s.signals + [s.sending.value], sending := None)
    case Receive =>
      s.(todo := s.signals[0] - 1, signals := s.signals[1..])
    case Pop(leaves) =>
      var consumer := if leaves then Leaving else Reading;
      if s.queue == [] then
        s.(todo := s.todo - 1, consumer := consumer, exits := s.exits + [Empty])
      else
        s.(todo := s.todo - 1, consumer := consumer, queue := s.queue[1..],
           exits := s.exits + [Delivered(s.queue[0])])
    case Leave =>
      s.(consumer := Leaving)
    case Unsub =>
      s.(consumer := Gone)
  }

  // Runs

  predicate IsRun<T>(s: State<T>, steps: seq<Step<T>>)
    decreases steps
  {
    steps == [] || (Enabled(s, steps[0]) && IsRun(Apply(s, steps[0]), steps[1..]))
  }

  function Run<T>(s: State<T>, steps: seq<Step<T>>): State<T>
    requires IsRun(s, steps)
    decreases steps
  {
    if steps == [] then s else Run(Apply(s, steps[0]), steps[1..])
  }

  ghost predicate Reachable<T(!new)>(limit: int, s: State<T>) {
    exists steps: seq<Step<T>> :: IsRun(Init(limit), steps) && Run(Init(limit), steps) == s
  }

  lemma {:induction false} RunSnoc<T>(s: State<T>, steps: seq<Step<T>>, step: Step<T>)
    requires IsRun(s, steps) && Enabled(Run(s, steps), step)
    ensures IsRun(s, steps + [step]) && Run(s, steps + [step]) == Apply(Run(s, steps), step)
    decreases steps
  {
    if steps == [] {
      assert [step][1..] == [];
    } else {
      RunSnoc(Apply(s, steps[0]), steps[1..], step);
      assert (steps + [step])[1..] == steps[1..] + [step];
    }
  }

  lemma InitReachable<T(!new)>(limit: int)
    ensures Reachable(limit, Init<T>(limit))
  {
    var none: seq<Step<T>> := [];
    assert IsRun(Init(limit), none) && Run(Init(limit), none) == Init(limit);
  }

  lemma ReachStep<T(!new)>(limit: int, s: State<T>, step: Step<T>)
    requires Reachable(limit, s) && Enabled(s, step)
    ensures Reachable(limit, Apply(s, step))
  {
    var steps: seq<Step<T>> :| IsRun(Init(limit), steps) && Run(Init(limit), steps) == s;
    RunSnoc(Init(limit), steps, step);
  }

  // The invariant

  function Held<T>(s: State<T>): (h: int) {
    if s.sending.Some? then 1 else 0
  }

  /** Signals not yet fully processed: received and unfinished, buffered, or still being sent. */
  function Outstanding<T>(s: State<T>): int {
    (if s.todo > 0 then 1 else 0) + |s.signals| + Held(s)
  }

  /**
   While there is a consumer, the pops announced by a signal cover the whole queue except what later
   pushes added; hence the queue never outgrows the signals still outstanding.
   */
  predicate Inv<T>(s: State<T>) {
    && |s.signals| <= CAPACITY
    && 0 <= s.todo
    && (s.limit >= 0 ==> |s.queue| <= s.limit)
    && if s.consumer == Gone then s.sending.None? else Announced(s)
  }

  predicate Announced<T>(s: State<T>) {
    && (forall i :: 0 <= i < |s.signals| ==>
          s.signals[i] >= 2 && |s.queue| <= s.signals[i] - 1 + (|s.signals| - 1 - i) + Held(s))
    && (s.sending.Some? ==> s.queue != [] && s.sending.value == |s.queue| + 1)
    && (s.todo > 0 ==> |s.queue| <= s.todo + |s.signals| + Held(s))
    && |s.queue| <= Outstanding(s)
  }

  lemma StepKeepsInv<T>(s: State<T>, step: Step<T>)
    requires Inv(s) && Enabled(s, step)
    ensures Inv(Apply(s, step)) && Apply(s, step).limit == s.limit
  {
    var s' := Apply(s, step);
    if step.Receive? {
      assert forall i :: 0 <= i < |s'.signals| ==> s'.signals[i] == s.signals[i + 1];
    }
  }

  lemma {:induction false} RunKeepsInv<T>(s: State<T>, steps: seq<Step<T>>)
    requires Inv(s) && IsRun(s, steps)
    ensures Inv(Run(s, steps)) && Run(s, steps).limit == s.limit
    decreases steps
  {
    if steps != [] {
      StepKeepsInv(s, steps[0]);
      RunKeepsInv(Apply(s, steps[0]), steps[1..]);
    }
  }

  lemma ReachableInv<T(!new)>(limit: int, s: State<T>)
    requires Reachable(limit, s)
    ensures Inv(s) && s.limit == limit
  {
    var steps: seq<Step<T>> :| IsRun(Init(limit), steps) && Run(Init(limit), steps) == s;
    RunKeepsInv(Init(limit), steps);
  }

  // Backlog and deadlock

  /** No step of any kind is possible. */
  ghost predicate Stuck<T(!new)>(s: State<T>) {
    !s.crashed && forall step :: !Enabled(s, step)
  }

  /** A push holds the lock, its channel is full, and the consumer needs the lock, to pop or to unsubscribe. */
  predicate Deadlocked<T>(s: State<T>) {
    && !s.crashed && s.sending.Some? && |s.signals| == CAPACITY
    && (s.todo > 0 || s.consumer == Leaving)
  }

  lemma StuckIffDeadlocked<T(!new)>(limit: int, s: State<T>, any: T)
    requires Reachable(limit, s)
    ensures Stuck(s) <==> Deadlocked(s)
  {
    ReachableInv(limit, s);
    if Stuck(s) {
      assert !Enabled(s, PushBegin(any)) && !Enabled(s, PushSend) && !Enabled(s, Receive) && !Enabled(s, Leave);
    }
  }

  /** The limit is kept for good; the bound of four as long as there is a consumer. */
  lemma BacklogBound<T(!new)>(limit: int, s: State<T>)
    requires Reachable(limit, s)
    ensures limit >= 0 ==> |s.queue| <= limit
    ensures s.consumer != Gone ==> |s.queue| <= Outstanding(s) <= 4
    ensures s.consumer != Gone && |s.queue| == 4 && !s.crashed ==> Deadlocked(s)
  {
    ReachableInv(limit, s);
  }

  /** Four pushes against one unlucky consumer: the bound is met, and the system is stuck. */
  lemma DeadlockReachable<T(!new)>(limit: int, x: T) returns (s: State<T>)
    requires limit < 0 || limit >= 4
    ensures Reachable(limit, s) && |s.queue| == 4 && Deadlocked(s)
  {
    s := ThreePushesBehind(limit, x);
    ReachStep(limit, s, PushBegin(x));
    s := Apply(s, PushBegin(x));
  }

  /** One signal received and not acted on, two buffered, three items queued. */
  lemma ThreePushesBehind<T(!new)>(limit: int, x: T) returns (s: State<T>)
    requires limit < 0 || limit >= 3
    ensures Reachable(limit, s) && !s.crashed && s.limit == limit && s.sending.None? && s.consumer == Reading
    ensures s.queue == [x, x, x] && |s.signals| == CAPACITY && s.todo == 1
    ensures s.pushed == [x, x, x] && s.exits == []
  {
    s := Init(limit);
    InitReachable<T>(limit);
    s := PushWhole(limit, s, x);
    ReachStep(limit, s, Receive);
    s := Apply(s, Receive);
    s := PushWhole(limit, s, x);
    s := PushWhole(limit, s, x);
  }

  /** An undisturbed push. */
  lemma PushWhole<T(!new)>(limit: int, s: State<T>, x: T) returns (s': State<T>)
    requires Reachable(limit, s) && !s.crashed && s.limit == limit
    requires s.consumer != Gone && s.sending.None? && |s.signals| < CAPACITY && |s.queue| != limit
    ensures Reachable(limit, s')
    ensures s' == s.(queue := s.queue + [x], signals := s.signals + [|s.queue| + 2], pushed := s.pushed + [x],
                     found := s.found + |s.queue|)
  {
    ReachStep(limit, s, PushBegin(x));
    s' := Apply(s, PushBegin(x));
    ReachStep(limit, s', PushSend);
    s' := Apply(s', PushSend);
  }

  /** A push that finds the lock free and room in the channel, whatever it has to drop. */
  lemma PushSomehow<T(!new)>(limit: int, s: State<T>, x: T) returns (s': State<T>)
    requires Reachable(limit, s) && !s.crashed && limit != 0
    requires s.consumer != Gone && s.sending.None? && |s.signals| < CAPACITY
    ensures Reachable(limit, s') && !s'.crashed && s'.sending.None? && s'.consumer == s.consumer
    ensures |s'.signals| == |s.signals| + 1 && s'.todo == s.todo
    ensures s'.signals[0] >= 2
  {
    ReachableInv(limit, s);
    s' := ReachApply(limit, s, PushBegin(x));
    s' := ReachApply(limit, s', PushSend);
    ReachableInv(limit, s');
  }

  /** With limit zero nothing but the first, crashing, push can happen. */
  lemma {:induction false} ZeroLimitOnlyCrashes<T>(s: State<T>, steps: seq<Step<T>>)
    requires s.limit == 0 && s.queue == [] && s.signals == [] && s.todo == 0 && s.sending.None? && Empty !in s.exits
    requires IsRun(s, steps)
    ensures Idle(Run(s, steps)) && Empty !in Run(s, steps).exits
    decreases steps
  {
    if steps != [] {
      ZeroLimitOnlyCrashes(Apply(s, steps[0]), steps[1..]);
    }
  }

  /** The deadlock is a property of the design, not of the limit: only a queue that crashes first escapes it. */
  lemma DeadlockReachableIff<T(!new)>(limit: int, x: T)
    ensures (exists s: State<T> :: Reachable(limit, s) && Deadlocked(s)) <==> limit != 0
  {
    if limit == 0 {
      forall s: State<T> | Reachable(limit, s) ensures !Deadlocked(s) {
        var steps: seq<Step<T>> :| IsRun(Init(limit), steps) && Run(Init(limit), steps) == s;
        ZeroLimitOnlyCrashes(Init(limit), steps);
      }
    } else {
      var s: State<T> := Init(limit);
      InitReachable<T>(limit);
      s := PushSomehow(limit, s, x);
      s := ReachApply(limit, s, Receive);
      s := PushSomehow(limit, s, x);
      s := PushSomehow(limit, s, x);
      ReachableInv(limit, s);
      s := ReachApply(limit, s, PushBegin(x));
      assert Deadlocked(s);
    }
  }

  // Which pushes can hang

  /** Every push of the run begins with a free place in the channel, or after the consumer has unsubscribed. */
  predicate Throttled<T>(s: State<T>, steps: seq<Step<T>>)
    requires IsRun(s, steps)
    decreases steps
  {
    steps == [] ||
    (&& (steps[0].PushBegin? ==> |s.signals| < CAPACITY || s.consumer == Gone)
     && Throttled(Apply(s, steps[0]), steps[1..]))
  }

  /** The push that holds the lock, if there is one, does not have to wait. */
  predicate Roomy<T>(s: State<T>) {
    s.sending.Some? ==> |s.signals| < CAPACITY
  }

  /** Then no push ever waits, whatever the consumer does and whenever it leaves. */
  lemma {:induction false} ThrottledNeverStuck<T>(s: State<T>, steps: seq<Step<T>>)
    requires Roomy(s) && IsRun(s, steps) && Throttled(s, steps)
    ensures Roomy(Run(s, steps)) && !Deadlocked(Run(s, steps))
    decreases steps
  {
    if steps != [] {
      ThrottledNeverStuck(Apply(s, steps[0]), steps[1..]);
    }
  }

  predicate NoSends<T>(steps: seq<Step<T>>) {
    forall i :: 0 <= i < |steps| ==> !steps[i].PushSend?
  }

  lemma {:induction false} NoSendsStayRoomy<T>(s: State<T>, steps: seq<Step<T>>)
    requires s.sending.Some? && |s.signals| < CAPACITY && IsRun(s, steps) && NoSends(steps)
    ensures |Run(s, steps).signals| < CAPACITY
    decreases steps
  {
    if steps != [] {
      assert !steps[0].PushSend?;
      assert forall i :: 0 <= i < |steps[1..]| ==> steps[1..][i] == steps[i + 1];
      NoSendsStayRoomy(Apply(s, steps[0]), steps[1..]);
    }
  }

  /** The push of `x` begun in `s` can end up waiting for ever. */
  ghost predicate CanHang<T(!new)>(s: State<T>, x: T)
    requires Enabled(s, PushBegin(x))
  {
    exists steps: seq<Step<T>> :: Hangs(Apply(s, PushBegin(x)), steps)
  }

  predicate Hangs<T>(s: State<T>, steps: seq<Step<T>>) {
    IsRun(s, steps) && NoSends(steps) && Deadlocked(Run(s, steps))
  }

  /** A push can hang exactly if it begins with both places of its consumer's channel taken. */
  lemma PushCanHangIff<T(!new)>(limit: int, s: State<T>, x: T)
    requires Reachable(limit, s) && limit != 0 && Enabled(s, PushBegin(x))
    ensures CanHang(s, x) <==> s.consumer != Gone && |s.signals| == CAPACITY
  {
    ReachableInv(limit, s);
    var begun := Apply(s, PushBegin(x));
    if s.consumer == Gone {
      forall steps: seq<Step<T>> | IsRun(begun, steps) ensures !Deadlocked(Run(begun, steps)) {
        GoneForGood(begun, steps);
      }
    } else if |s.signals| < CAPACITY {
      forall steps: seq<Step<T>> | IsRun(begun, steps) && NoSends(steps) ensures !Deadlocked(Run(begun, steps)) {
        NoSendsStayRoomy(begun, steps);
      }
    } else {
      var none: seq<Step<T>>, leave: seq<Step<T>> := [], [Leave];
      if Deadlocked(begun) {
        assert Hangs(begun, none);
      } else {
        assert leave[1..] == [];
        assert Hangs(begun, leave);
      }
    }
  }

  lemma {:induction false} GoneForGood<T>(s: State<T>, steps: seq<Step<T>>)
    requires s.consumer == Gone && s.sending.None? && IsRun(s, steps)
    ensures Run(s, steps).consumer == Gone && Run(s, steps).sending.None?
    decreases steps
  {
    if steps != [] {
      GoneForGood(Apply(s, steps[0]), steps[1..]);
    }
  }

  // Losslessness

  function Items<T>(exits: seq<Exit<T>>): seq<T> {
    if exits == [] then []
    else Items(exits[..|exits| - 1]) +
         (match exits[|exits| - 1] case Delivered(x) => [x] case Dropped(x) => [x] case Empty => [])
  }

  /** The non-nil items the consumer has popped, in order. */
  function Received<T>(exits: seq<Exit<T>>): seq<T> {
    if exits == [] then []
    else Received(exits[..|exits| - 1]) +
         (match exits[|exits| - 1] case Delivered(x) => [x] case _ => [])
  }

  /** What the consumer popped, followed by what is queued until it unsubscribes, is exactly what was pushed. */
  ghost predicate Lossless<T>(s: State<T>) {
    && !s.crashed
    && if s.consumer == Gone then Received(s.exits) <= s.pushed else Received(s.exits) + s.queue == s.pushed
  }

  lemma ItemsSnoc<T>(exits: seq<Exit<T>>, e: Exit<T>)
    ensures Items(exits + [e]) ==
              Items(exits) + (match e case Delivered(x) => [x] case Dropped(x) => [x] case Empty => [])
    ensures Received(exits + [e]) == Received(exits) + (match e case Delivered(x) => [x] case _ => [])
  {
    assert (exits + [e])[..|exits|] == exits;
  }

  /** Moving the head of a queue to the end of what has left it keeps the whole. */
  lemma MoveHead<T>(left: seq<T>, queue: seq<T>, whole: seq<T>)
    requires queue != [] && left + queue == whole
    ensures left + [queue[0]] + queue[1..] == whole
  {
    assert queue == [queue[0]] + queue[1..];
  }

  lemma AppendEnd<T>(left: seq<T>, queue: seq<T>, whole: seq<T>, x: T)
    requires left + queue == whole
    ensures left + (queue + [x]) == whole + [x]
  {
  }

  lemma StepKeepsOrder<T>(s: State<T>, step: Step<T>)
    requires Items(s.exits) + s.queue == s.pushed && Enabled(s, step)
    ensures Items(Apply(s, step).exits) + Apply(s, step).queue == Apply(s, step).pushed
  {
    match step
    case PushBegin(x) =>
      if |s.queue| != s.limit {
        AppendEnd(Items(s.exits), s.queue, s.pushed, x);
      } else if s.queue != [] {
        ItemsSnoc(s.exits, Dropped(s.queue[0]));
        MoveHead(Items(s.exits), s.queue, s.pushed);
        AppendEnd(Items(s.exits) + [s.queue[0]], s.queue[1..], s.pushed, x);
      }
    case Pop(_) =>
      if s.queue == [] {
        ItemsSnoc(s.exits, Empty);
      } else {
        ItemsSnoc(s.exits, Delivered(s.queue[0]));
        MoveHead(Items(s.exits), s.queue, s.pushed);
      }
    case _ =>
  }

  /** For any limit: items leave strictly in the order they were pushed, delivered or dropped. */
  lemma {:induction false} NothingOvertakes<T>(s: State<T>, steps: seq<Step<T>>)
    requires Items(s.exits) + s.queue == s.pushed && IsRun(s, steps)
    ensures Items(Run(s, steps).exits) + Run(s, steps).queue == Run(s, steps).pushed
    decreases steps
  {
    if steps != [] {
      StepKeepsOrder(s, steps[0]);
      NothingOvertakes(Apply(s, steps[0]), steps[1..]);
    }
  }

  lemma StepKeepsLossless<T>(s: State<T>, step: Step<T>)
    requires Inv(s) && Lossless(s) && (s.limit < 0 || s.limit >= 4) && Enabled(s, step)
    ensures Lossless(Apply(s, step))
  {
    match step
    case PushBegin(x) =>
      if s.consumer == Gone {
        if s.queue != [] { ItemsSnoc(s.exits, Dropped(s.queue[0])); }
      } else {
        assert |s.queue| <= 3;
        AppendEnd(Received(s.exits), s.queue, s.pushed, x);
      }
    case Pop(_) =>
      if s.queue == [] {
        ItemsSnoc(s.exits, Empty);
      } else {
        ItemsSnoc(s.exits, Delivered(s.queue[0]));
        MoveHead(Received(s.exits), s.queue, s.pushed);
      }
    case _ =>
  }

  lemma {:induction false} RunKeepsLossless<T>(s: State<T>, steps: seq<Step<T>>)
    requires Inv(s) && Lossless(s) && (s.limit < 0 || s.limit >= 4) && IsRun(s, steps)
    ensures Lossless(Run(s, steps))
    decreases steps
  {
    if steps != [] {
      StepKeepsInv(s, steps[0]);
      StepKeepsLossless(s, steps[0]);
      RunKeepsLossless(Apply(s, steps[0]), steps[1..]);
    }
  }

  /** A push into a lock-free queue standing at its limit loses the oldest item for good. */
  lemma DropLoses<T(!new)>(limit: int, s: State<T>, x: T)
    requires Reachable(limit, s) && s.limit == limit && |s.queue| == limit
    requires s.consumer != Gone && Enabled(s, PushBegin(x))
    ensures Reachable(limit, Apply(s, PushBegin(x))) && !Lossless(Apply(s, PushBegin(x)))
  {
    ReachStep(limit, s, PushBegin(x));
    var s' := Apply(s, PushBegin(x));
    if s.queue != [] {
      var steps: seq<Step<T>> :| IsRun(Init(limit), steps) && Run(Init(limit), steps) == s;
      NothingOvertakes(Init(limit), steps);
      ReceivedAtMostItems(s.exits);
      ItemsSnoc(s.exits, Dropped(s.queue[0]));
      assert |Received(s'.exits) + s'.queue| < |s'.pushed|;
    }
  }

  lemma {:induction false} ReceivedAtMostItems<T>(exits: seq<Exit<T>>)
    ensures |Received(exits)| <= |Items(exits)|
  {
    if exits != [] {
      ReceivedAtMostItems(exits[..|exits| - 1]);
    }
  }

  /** No interleaving loses an item, wherever the consumer leaves, exactly if the limit is negative or at least four. */
  lemma LosslessIff<T(!new)>(limit: int, x: T)
    ensures (forall s: State<T> :: Reachable(limit, s) ==> Lossless(s)) <==> (limit < 0 || limit >= 4)
  {
    if limit < 0 || limit >= 4 {
      forall s: State<T> | Reachable(limit, s) ensures Lossless(s) {
        var steps: seq<Step<T>> :| IsRun(Init(limit), steps) && Run(Init(limit), steps) == s;
        RunKeepsLossless(Init(limit), steps);
      }
    } else {
      var s: State<T> := Init(limit);
      InitReachable<T>(limit);
      if limit == 3 {
        s := ThreePushesBehind(limit, x);
      } else if limit > 0 {
        s := PushWhole(limit, s, x);
        if limit == 2 {
          s := PushWhole(limit, s, x);
        }
      }
      DropLoses(limit, s, x);
    }
  }

  // Nil pops

  /** Pops that found the queue empty and returned nil. */
  function Empties<T>(exits: seq<Exit<T>>): nat {
    if exits == [] then 0 else Empties(exits[..|exits| - 1]) + if exits[|exits| - 1].Empty? then 1 else 0
  }

  lemma EmptiesSnoc<T>(exits: seq<Exit<T>>, e: Exit<T>)
    ensures Empties(exits + [e]) == Empties(exits) + if e.Empty? then 1 else 0
  {
    assert (exits + [e])[..|exits|] == exits;
  }

  lemma {:induction false} EmptiesPositive<T>(exits: seq<Exit<T>>)
    ensures Empties(exits) > 0 <==> Empty in exits
  {
    if exits != [] {
      EmptiesPositive(exits[..|exits| - 1]);
      assert exits == exits[..|exits| - 1] + [exits[|exits| - 1]];
    }
  }

  /** Pops announced and not yet made. */
  function Owed<T>(s: State<T>): int {
    s.todo + Sum(s.signals) - |s.signals| + (if s.sending.Some? then s.sending.value - 1 else 0)
  }

  /** The pops owed are one for each queued item, and one for each item a push found that no nil has answered yet. */
  predicate Balanced<T>(s: State<T>) {
    && (s.consumer != Gone ==> Owed(s) == |s.queue| + s.found - Empties(s.exits))
    && Empties(s.exits) <= s.found
  }

  lemma OwedCoversQueue<T>(s: State<T>)
    requires Inv(s) && s.consumer != Gone
    ensures Owed(s) >= |s.queue|
  {
    SumAtLeast(s.signals);
    if s.signals != [] {
      SumLast(s.signals);
    }
  }

  lemma SumLast(signals: seq<int>)
    requires signals != [] && forall i :: 0 <= i < |signals| ==> signals[i] >= 2
    ensures Sum(signals) >= signals[|signals| - 1] + 2 * (|signals| - 1)
  {
    var front := signals[..|signals| - 1];
    assert signals == front + [signals[|signals| - 1]];
    SumSnoc(front, signals[|signals| - 1]);
    SumAtLeast(front);
  }

  lemma StepKeepsBalanced<T>(s: State<T>, step: Step<T>)
    requires Inv(s) && Balanced(s) && Enabled(s, step)
    ensures Balanced(Apply(s, step))
  {
    var s' := Apply(s, step);
    StepKeepsInv(s, step);
    if s'.consumer != Gone { OwedCoversQueue(s'); }
    match step
    case PushBegin(x) =>
      if s.queue != [] { EmptiesSnoc(s.exits, Dropped(s.queue[0])); }
    case PushSend =>
      SumSnoc(s.signals, s.sending.value);
    case Pop(_) =>
      EmptiesSnoc(s.exits, if s.queue == [] then Empty else Delivered(s.queue[0]));
    case _ =>
  }

  lemma {:induction false} RunKeepsBalanced<T>(s: State<T>, steps: seq<Step<T>>)
    requires Inv(s) && Balanced(s) && IsRun(s, steps)
    ensures Balanced(Run(s, steps))
    decreases steps
  {
    if steps != [] {
      StepKeepsInv(s, steps[0]);
      StepKeepsBalanced(s, steps[0]);
      RunKeepsBalanced(Apply(s, steps[0]), steps[1..]);
    }
  }

  /** Items found in the queue by the pushes of a run, as each could be counted before its push. */
  function FoundBy<T>(s: State<T>, steps: seq<Step<T>>): nat
    requires IsRun(s, steps)
    decreases steps
  {
    if steps == [] then 0
    else (if steps[0].PushBegin? then |s.queue| else 0) + FoundBy(Apply(s, steps[0]), steps[1..])
  }

  lemma {:induction false} FoundAddsUp<T>(s: State<T>, steps: seq<Step<T>>)
    requires Inv(s) && IsRun(s, steps)
    ensures Run(s, steps).found == s.found + FoundBy(s, steps)
    decreases steps
  {
    if steps != [] {
      StepKeepsInv(s, steps[0]);
      FoundAddsUp(Apply(s, steps[0]), steps[1..]);
    }
  }

  /**
   For any limit, a consumer that has caught up has been handed exactly as many nils as the pushes, taken together,
   found items in the queue; so it got one exactly if some push found the queue non-empty. Before it has caught up
   it got at most as many.
   */
  lemma NilsAreFinds<T(!new)>(limit: int, steps: seq<Step<T>>)
    requires IsRun(Init<T>(limit), steps)
    ensures var s, finds := Run(Init<T>(limit), steps), FoundBy(Init<T>(limit), steps);
            && Empties(s.exits) <= finds
            && (finds == 0 ==> Empty !in s.exits)
            && (Idle(s) && s.consumer != Gone ==> Empties(s.exits) == finds && (Empty in s.exits <==> finds > 0))
  {
    RunKeepsInv(Init<T>(limit), steps);
    RunKeepsBalanced(Init<T>(limit), steps);
    FoundAddsUp(Init<T>(limit), steps);
    EmptiesPositive(Run(Init<T>(limit), steps).exits);
  }

  /** Two pushes before the consumer gets to run make it pop an empty queue. */
  lemma OverPopReachable<T(!new)>(limit: int, x: T) returns (s: State<T>)
    requires limit != 0
    ensures Reachable(limit, s) && Empty in s.exits
  {
    s := Init(limit);
    InitReachable<T>(limit);
    s := PushWhole(limit, s, x);
    s := ReachApply(limit, s, PushBegin(x));
    s := ReachApply(limit, s, PushSend);
    s := ReachApply(limit, s, Receive);
    s := ReachApply(limit, s, Pop(false));
    s := ReachApply(limit, s, Receive);
    s := ReachApply(limit, s, Pop(false));
    if limit != 1 {
      s := ReachApply(limit, s, Pop(false));
    }
    assert s.exits[|s.exits| - 1] == Empty;
  }

  /** Nil can reach the consumer for exactly the limits other than zero. */
  lemma OverPopReachableIff<T(!new)>(limit: int, x: T)
    ensures (exists s: State<T> :: Reachable(limit, s) && Empty in s.exits) <==> limit != 0
  {
    if limit == 0 {
      forall s: State<T> | Reachable(limit, s) ensures Empty !in s.exits {
        var steps: seq<Step<T>> :| IsRun(Init(limit), steps) && Run(Init(limit), steps) == s;
        ZeroLimitOnlyCrashes(Init(limit), steps);
      }
    } else {
      var s := OverPopReachable(limit, x);
    }
  }

  lemma ReachApply<T(!new)>(limit: int, s: State<T>, step: Step<T>) returns (s': State<T>)
    requires Reachable(limit, s) && Enabled(s, step)
    ensures Reachable(limit, s') && s' == Apply(s, step)
  {
    ReachStep(limit, s, step);
    s' := Apply(s, step);
  }

  // Draining

  function Sum(signals: seq<int>): int {
    if signals == [] then 0 else signals[0] + Sum(signals[1..])
  }

  lemma {:induction false} SumSnoc(signals: seq<int>, n: int)
    ensures Sum(signals + [n]) == Sum(signals) + n
  {
    if signals == [] {
      assert (signals + [n])[1..] == [];
    } else {
      assert (signals + [n])[1..] == signals[1..] + [n];
      SumSnoc(signals[1..], n);
    }
  }

  /** Steps left if no further push begins. */
  function Work<T>(s: State<T>): int {
    s.todo + Sum(s.signals) + (if s.sending.Some? then s.sending.value + 1 else 0)
  }

  predicate Idle<T>(s: State<T>) {
    s.todo == 0 && s.signals == [] && s.sending.None?
  }

  /** No push begins, and the consumer goes on reading. */
  predicate OnlyReading<T>(steps: seq<Step<T>>) {
    forall i :: 0 <= i < |steps| ==>
      steps[i] == PushSend || steps[i] == Receive || steps[i] == Pop(false)
  }

  predicate NoPushes<T>(steps: seq<Step<T>>) {
    forall i :: 0 <= i < |steps| ==> !steps[i].PushBegin?
  }

  lemma {:induction false} SumAtLeast(signals: seq<int>)
    requires forall i :: 0 <= i < |signals| ==> signals[i] >= 2
    ensures Sum(signals) >= 2 * |signals|
  {
    if signals != [] {
      SumAtLeast(signals[1..]);
    }
  }

  /** While the consumer reads on and some work is left, some step of the push or the consumer is enabled. */
  lemma ReadingGoesOn<T>(s: State<T>)
    requires Inv(s) && s.consumer == Reading && !s.crashed && !Deadlocked(s)
    ensures Work(s) >= 0 && (Work(s) == 0 <==> Idle(s)) && (Idle(s) ==> s.queue == [])
    ensures !Idle(s) ==> Enabled(s, PushSend) || Enabled(s, Receive) || Enabled(s, Pop(false))
  {
    SumAtLeast(s.signals);
  }

  lemma ReadingStepWorks<T>(s: State<T>, step: Step<T>)
    requires Inv(s) && s.consumer == Reading && !s.crashed && !Deadlocked(s) && Enabled(s, step)
    requires step == PushSend || step == Receive || step == Pop(false)
    ensures var t := Apply(s, step);
            Inv(t) && t.consumer == Reading && !t.crashed && !Deadlocked(t) && Work(t) == Work(s) - 1
  {
    StepKeepsInv(s, step);
    if step.PushSend? {
      SumSnoc(s.signals, s.sending.value);
    }
  }

  /**
   Once pushing stops and the consumer reads on, the order of the remaining steps does not matter: each one uses up
   exactly one unit of work, none leads into the deadlock, and while any work is left some step is enabled.
   */
  lemma {:induction false} DrainProgress<T>(s: State<T>, steps: seq<Step<T>>)
    requires Inv(s) && s.consumer == Reading && !s.crashed && !Deadlocked(s) && IsRun(s, steps) && OnlyReading(steps)
    ensures var t := Run(s, steps);
            && !t.crashed && !Deadlocked(t) && Inv(t) && t.consumer == Reading
            && Work(t) == Work(s) - |steps| >= 0
            && (Work(t) == 0 <==> Idle(t))
            && (Idle(t) ==> t.queue == [])
            && (!Idle(t) ==> Enabled(t, PushSend) || Enabled(t, Receive) || Enabled(t, Pop(false)))
    decreases steps
  {
    if steps == [] {
      ReadingGoesOn(s);
    } else {
      ReadingStepWorks(s, steps[0]);
      assert forall i :: 0 <= i < |steps[1..]| ==> steps[1..][i] == steps[i + 1];
      DrainProgress(Apply(s, steps[0]), steps[1..]);
    }
  }

  /** From any reachable state that is not the deadlock, `Work` further steps empty the queue into the consumer. */
  lemma DrainDelivers<T(!new)>(limit: int, s: State<T>, steps: seq<Step<T>>)
    requires Reachable(limit, s) && (limit < 0 || limit >= 4) && s.consumer == Reading && !Deadlocked(s)
    requires IsRun(s, steps) && OnlyReading(steps) && |steps| == Work(s)
    ensures Idle(Run(s, steps)) && Run(s, steps).queue == []
    ensures Received(Run(s, steps).exits) == s.pushed
  {
    hide Run, IsRun, Sum;
    ReachableInv(limit, s);
    var before: seq<Step<T>> :| IsRun(Init(limit), before) && Run(Init(limit), before) == s;
    RunKeepsLossless(Init(limit), before);
    DrainProgress(s, steps);
    RunKeepsLossless(s, steps);
    NoPushesKeepPushed(s, steps);
  }

  lemma {:induction false} NoPushesKeepPushed<T>(s: State<T>, steps: seq<Step<T>>)
    requires IsRun(s, steps) && NoPushes(steps)
    ensures Run(s, steps).pushed == s.pushed
    decreases steps
  {
    if steps != [] {
      assert forall i :: 0 <= i < |steps[1..]| ==> steps[1..][i] == steps[i + 1];
      NoPushesKeepPushed(Apply(s, steps[0]), steps[1..]);
    }
  }

  /** Steps left, at most, if no further push begins and the consumer may leave. */
  function Effort<T>(s: State<T>): int {
    (if s.sending.Some? then s.sending.value + 1 else 0) +
    match s.consumer case Reading => s.todo + Sum(s.signals) + 2 case Leaving => 1 case Gone => 0
  }

  /** No push in progress, and the consumer either caught up or unsubscribed. */
  predicate AtRest<T>(s: State<T>) {
    s.sending.None? && (s.consumer == Gone || (s.consumer == Reading && Idle(s)))
  }

  /** Outside the deadlock, and short of rest, some step of the push in progress or the consumer is enabled. */
  lemma GoesOn<T>(s: State<T>)
    requires Inv(s) && !s.crashed && !Deadlocked(s)
    ensures !AtRest(s) ==> Enabled(s, PushSend) || Enabled(s, Receive) || Enabled(s, Pop(false)) || Enabled(s, Unsub)
    ensures AtRest(s) && s.consumer == Reading ==> s.queue == []
  {
    if s.consumer != Gone { SumAtLeast(s.signals); }
  }

  /** Only a push that begins without room, or a departure, leads into the deadlock. */
  lemma StaysUnstuck<T>(s: State<T>, step: Step<T>)
    requires |s.signals| <= CAPACITY && !Deadlocked(s) && Enabled(s, step) && !step.Leave?
    requires step.PushBegin? ==> |s.signals| < CAPACITY || s.consumer == Gone
    ensures !Deadlocked(Apply(s, step))
  {
  }

  lemma EffortIsNatural<T>(s: State<T>)
    requires Inv(s)
    ensures Effort(s) >= 0
  {
    if s.consumer != Gone { SumAtLeast(s.signals); }
  }

  /** Every step but the beginning of a push uses up effort. */
  lemma StepTires<T>(s: State<T>, step: Step<T>)
    requires Inv(s) && Enabled(s, step) && !step.PushBegin?
    ensures 0 <= Effort(Apply(s, step)) <= Effort(s) - 1
  {
    StepKeepsInv(s, step);
    EffortIsNatural(s);
    EffortIsNatural(Apply(s, step));
    if s.consumer != Gone { SumAtLeast(s.signals); }
    if step.PushSend? {
      SumSnoc(s.signals, s.sending.value);
    }
  }

  /**
   With a consumer that may leave at any point, things still come to rest once pushing stops, provided the push in
   progress found a free place: at every point before some step is enabled, and each step uses up some effort.
   */
  lemma {:induction false} LeavingComesToRest<T>(s: State<T>, steps: seq<Step<T>>)
    requires Inv(s) && !s.crashed && Roomy(s) && IsRun(s, steps) && NoPushes(steps)
    ensures var t := Run(s, steps);
            && Inv(t) && Roomy(t) && !t.crashed && !Deadlocked(t)
            && 0 <= Effort(t) <= Effort(s) - |steps|
            && (!AtRest(t) ==>
                  Enabled(t, PushSend) || Enabled(t, Receive) || Enabled(t, Pop(false)) || Enabled(t, Unsub))
            && (AtRest(t) && t.consumer == Reading ==> t.queue == [])
    decreases steps
  {
    if steps == [] {
      GoesOn(s);
      EffortIsNatural(s);
    } else {
      StepKeepsInv(s, steps[0]);
      StepTires(s, steps[0]);
      assert !steps[0].PushBegin?;
      assert forall i :: 0 <= i < |steps[1..]| ==> steps[1..][i] == steps[i + 1];
      LeavingComesToRest(Apply(s, steps[0]), steps[1..]);
    }
  }

  // Departures

  lemma {:induction false} NotReadingTakesNothing<T>(s: State<T>, steps: seq<Step<T>>)
    requires s.consumer != Reading && IsRun(s, steps)
    ensures Run(s, steps).consumer != Reading && Received(Run(s, steps).exits) == Received(s.exits)
    decreases steps
  {
    if steps != [] {
      if steps[0].PushBegin? && s.queue != [] { ItemsSnoc(s.exits, Dropped(s.queue[0])); }
      NotReadingTakesNothing(Apply(s, steps[0]), steps[1..]);
    }
  }

  /** A consumer that leaves, in the middle of its pops or instead of receiving, takes nothing any more. */
  lemma LeaverTakesNothing<T>(s: State<T>, step: Step<T>, steps: seq<Step<T>>)
    requires Enabled(s, step) && (step == Pop(true) || step == Leave) && IsRun(Apply(s, step), steps)
    ensures Received(Run(Apply(s, step), steps).exits) == Received(Apply(s, step).exits)
  {
    NotReadingTakesNothing(Apply(s, step), steps);
  }

  // After the consumer

  function Newest<T>(items: seq<T>, count: nat): seq<T> {
    if |items| <= count then items else items[|items| - count..]
  }

  /** With nobody left to read, a queue of positive limit holds the newest items pushed, as many as the limit allows. */
  ghost predicate KeepsNewest<T>(s: State<T>) {
    && s.consumer == Gone && s.sending.None? && s.limit > 0 && !s.crashed
    && |s.queue| <= s.limit && |s.queue| <= |s.pushed|
    && s.queue == s.pushed[|s.pushed| - |s.queue|..]
  }

  /** A consumer that loses nothing until it unsubscribes leaves the queue so. */
  lemma UnsubLeavesNewest<T>(s: State<T>)
    requires Inv(s) && Lossless(s) && s.limit > 0 && Enabled(s, Unsub)
    ensures KeepsNewest(Apply(s, Unsub))
  {
    assert s.pushed[|Received(s.exits)|..] == s.queue;
  }

  lemma PushKeepsNewest<T>(s: State<T>, x: T)
    requires KeepsNewest(s) && Enabled(s, PushBegin(x))
    ensures var t := Apply(s, PushBegin(x));
            && KeepsNewest(t) && t.pushed == s.pushed + [x] && t.limit == s.limit
            && |t.queue| == if |s.queue| < s.limit then |s.queue| + 1 else s.limit
  {
  }

  lemma {:induction false} AbandonedRun<T>(s: State<T>, steps: seq<Step<T>>)
    requires KeepsNewest(s) && IsRun(s, steps)
    ensures var t := Run(s, steps);
            && KeepsNewest(t) && t.limit == s.limit && |t.pushed| >= |s.pushed|
            && |t.queue| == if |s.queue| + |t.pushed| - |s.pushed| <= s.limit
                            then |s.queue| + |t.pushed| - |s.pushed| else s.limit
    decreases steps
  {
    if steps != [] {
      assert steps[0].PushBegin?;
      PushKeepsNewest(s, steps[0].item);
      hide KeepsNewest;
      AbandonedRun(Apply(s, steps[0]), steps[1..]);
    }
  }

  /** In particular, after as many pushes as the limit it holds exactly that many, the newest. */
  lemma AbandonedQueueKeepsNewest<T>(s: State<T>, steps: seq<Step<T>>)
    requires KeepsNewest(s) && IsRun(s, steps)
    ensures var t := Run(s, steps);
            && KeepsNewest(t) && |t.pushed| >= |s.pushed|
            && (|t.pushed| - |s.pushed| >= s.limit ==> t.queue == Newest(t.pushed, s.limit))
  {
    AbandonedRun(s, steps);
  }
}
