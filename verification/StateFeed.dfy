/**
 One state subscription: the setters of a plugin instance on one side, `subscribeStateLoop` on the other.

 A setter assigns the state and, still holding the instance's lock, sends it on the subscriber's channel of
 capacity two. The loop has subscribed; it reads the state once under the read lock, reports it, and from
 then on reports every received state that differs from the last one it saw. It may quit instead of receiving;
 its deferred unsubscribe needs the lock as well.
 */
module StateFeed {
  import opened Wrappers

  const CAPACITY := 2

  /** Starting: subscribed, the state not read yet. Leaving: it has quit and waits for the lock to unsubscribe. */
  datatype Phase = Starting | Looping | Leaving | Gone

  datatype Feed<S> = Feed(
    current: S,           // the instance's state
    sending: Option<S>,   // the setter that holds the lock
    channel: seq<S>,      // sent and not yet received
    loop: Phase,
    last: Option<S>,      // the loop's lastState, None before its first read
    reported: seq<S>,     // updates pushed on the subscriber's queue
    // history
    atStart: S,           // the state when the loop subscribed
    first: Option<S>,     // the state it read
    before: nat,          // states assigned between the subscription and that read
    sets: seq<S>,         // every state assigned since
    received: seq<S>)     // every state received

  datatype Step<S> = SetBegin(state: S) | SetSend | Read | Receive | Quit | Unsub

  function Init<S>(state: S): Feed<S> {
    Feed(state, None, [], Starting, None, [], state, None, 0, [], [])
  }

  predicate Enabled<S>(f: Feed<S>, step: Step<S>) {
    match step
    case SetBegin(_) => f.sending.None?
    case SetSend => f.sending.Some? && |f.channel| < CAPACITY
    case Read => f.loop == Starting && f.sending.None?
    case Receive => f.loop == Looping && f.last.Some? && f.channel != []
    case Quit => f.loop == Looping
    case Unsub => f.loop == Leaving && f.sending.None?
  }

  function Apply<S(==)>(f: Feed<S>, step: Step<S>): Feed<S>
    requires Enabled(f, step)
  {
    match step
    case SetBegin(s) => f.(current := s, sending := if f.loop == Gone then None else Some(s), sets := f.sets + [s])
    case SetSend => f.(channel := f.channel + [f.sending.value], sending := None)
    case Read =>
      f.(loop := Looping, last := Some(f.current), first := Some(f.current), before := |f.sets|,
         reported := [f.current])
    case Receive =>
      var s := f.channel[0];
      var g := f.(channel := f.channel[1..], received := f.received + [s]);
      if s != f.last.value then g.(last := Some(s), reported := f.reported + [s]) else g
    case Quit => f.(loop := Leaving)
    case Unsub => f.(loop := Gone)
  }

  predicate IsRun<S(==)>(f: Feed<S>, steps: seq<Step<S>>)
    decreases steps
  {
    steps == [] || (Enabled(f, steps[0]) && IsRun(Apply(f, steps[0]), steps[1..]))
  }

  function Run<S(==)>(f: Feed<S>, steps: seq<Step<S>>): Feed<S>
    requires IsRun(f, steps)
    decreases steps
  {
    if steps == [] then f else Run(Apply(f, steps[0]), steps[1..])
  }

  // Stutter-free sequences

  /** `s` without the elements that equal the one just before them. */
  function StutterFree<S(==)>(s: seq<S>): seq<S> {
    if |s| <= 1 then s
    else
      var front := StutterFree(s[..|s| - 1]);
      if s[|s| - 1] == s[|s| - 2] then front else front + [s[|s| - 1]]
  }

  lemma {:induction false} StutterFreeIsFree<S>(s: seq<S>)
    ensures forall i :: 0 < i < |StutterFree(s)| ==> StutterFree(s)[i] != StutterFree(s)[i - 1]
    ensures s != [] ==> StutterFree(s) != [] && StutterFree(s)[0] == s[0]
    ensures s != [] ==> StutterFree(s)[|StutterFree(s)| - 1] == s[|s| - 1]
    ensures forall x :: x in StutterFree(s) <==> x in s
  {
    if |s| > 1 {
      StutterFreeIsFree(s[..|s| - 1]);
      assert s == s[..|s| - 1] + [s[|s| - 1]];
    }
  }

  // The invariant

  /** States assigned and not yet received, oldest first. */
  function Pending<S>(f: Feed<S>): seq<S> {
    f.channel + (if f.sending.Some? then [f.sending.value] else [])
  }

  ghost predicate Inv<S>(f: Feed<S>) {
    && |f.channel| <= CAPACITY
    && (f.loop == Gone ==> f.sending.None?)
    && (if f.loop == Gone then f.received <= f.sets else f.received + Pending(f) == f.sets)
    && f.current == StateAfter(f.atStart, f.sets, |f.sets|)
    && (f.last.Some? <==> f.loop != Starting) && (f.first.Some? <==> f.loop != Starting)
    && (if f.loop == Starting then f.received == [] && f.reported == [] else Reports(f))
  }

  /** The instance's state after the first `n` of the assignments. */
  function StateAfter<S>(atStart: S, sets: seq<S>, n: nat): S
    requires n <= |sets|
  {
    if n == 0 then atStart else sets[n - 1]
  }

  ghost predicate Reports<S>(f: Feed<S>)
    requires f.first.Some? && f.last.Some?
  {
    var seen := [f.first.value] + f.received;
    && f.reported == StutterFree(seen)
    && f.last.value == seen[|seen| - 1]
    && f.before <= CAPACITY && f.before <= |f.sets|
    && f.first.value == StateAfter(f.atStart, f.sets, f.before)
  }

  lemma SetBeginKeepsInv<S>(f: Feed<S>, s: S)
    requires Inv(f) && Enabled(f, SetBegin(s))
    ensures Inv(Apply(f, SetBegin(s)))
  {
    hide StutterFree;
    var g := Apply(f, SetBegin(s));
    if f.loop != Gone {
      assert Pending(g) == Pending(f) + [s];
      assert f.received + (Pending(f) + [s]) == f.received + Pending(f) + [s];
    }
  }

  lemma SetSendKeepsInv<S>(f: Feed<S>)
    requires Inv(f) && Enabled(f, SetSend)
    ensures Inv(Apply(f, SetSend))
  {
    hide StutterFree;
    assert Pending(Apply(f, SetSend)) == Pending(f);
  }

  lemma ReadKeepsInv<S>(f: Feed<S>)
    requires Inv(f) && Enabled(f, Read)
    ensures Inv(Apply(f, Read))
  {
    assert f.sets == f.channel;
    assert [f.current] + [] == [f.current];
  }

  lemma LeavingKeepsInv<S>(f: Feed<S>, step: Step<S>)
    requires Inv(f) && Enabled(f, step) && (step == Quit || step == Unsub)
    ensures Inv(Apply(f, step))
  {
    hide StutterFree;
    assert step == Unsub ==> f.sets[..|f.received|] == f.received;
  }

  lemma MoveHead<S>(received: seq<S>, channel: seq<S>, tail: seq<S>)
    requires channel != []
    ensures received + [channel[0]] + (channel[1..] + tail) == received + (channel + tail)
  {
    assert channel == [channel[0]] + channel[1..];
  }

  lemma StutterFreeSnoc<S>(seen: seq<S>, s: S)
    requires seen != []
    ensures StutterFree(seen + [s]) == if s == seen[|seen| - 1] then StutterFree(seen) else StutterFree(seen) + [s]
  {
    var longer := seen + [s];
    var front := StutterFree(longer[..|longer| - 1]);
    assert StutterFree(longer) ==
           if longer[|longer| - 1] == longer[|longer| - 2] then front else front + [longer[|longer| - 1]];
    hide StutterFree;
    assert longer[..|longer| - 1] == seen;
    assert longer[|longer| - 1] == s && longer[|longer| - 2] == seen[|seen| - 1];
  }

  lemma ReceiveKeepsReports<S>(f: Feed<S>)
    requires f.first.Some? && f.last.Some? && Reports(f) && Enabled(f, Receive)
    ensures Reports(Apply(f, Receive))
  {
    var seen, s := [f.first.value] + f.received, f.channel[0];
    assert [f.first.value] + (f.received + [s]) == seen + [s];
    StutterFreeSnoc(seen, s);
  }

  lemma ReceiveKeepsInv<S>(f: Feed<S>)
    requires Inv(f) && Enabled(f, Receive)
    ensures Inv(Apply(f, Receive))
  {
    hide StutterFree;
    MoveHead(f.received, f.channel, if f.sending.Some? then [f.sending.value] else []);
    ReceiveKeepsReports(f);
  }

  lemma StepKeepsInv<S>(f: Feed<S>, step: Step<S>)
    requires Inv(f) && Enabled(f, step)
    ensures Inv(Apply(f, step))
  {
    hide Inv;
    match step {
      case SetBegin(s) => SetBeginKeepsInv(f, s);
      case SetSend => SetSendKeepsInv(f);
      case Read => ReadKeepsInv(f);
      case Receive => ReceiveKeepsInv(f);
      case Quit => LeavingKeepsInv(f, step);
      case Unsub => LeavingKeepsInv(f, step);
    }
  }

  lemma {:induction false} RunKeepsInv<S>(f: Feed<S>, steps: seq<Step<S>>)
    requires Inv(f) && IsRun(f, steps)
    ensures Inv(Run(f, steps))
    decreases steps
  {
    if steps != [] {
      StepKeepsInv(f, steps[0]);
      RunKeepsInv(Apply(f, steps[0]), steps[1..]);
    }
  }

  /**
   In every interleaving the loop reports the stutter-free form of the state it first read followed by every
   state it has received. It receives the states assigned since it subscribed, once and in order, all but the last
   three at most until it unsubscribes; and it first read the state after the first `before` of them, at most two.
   */
  lemma ReportsEveryChange<S>(state: S, steps: seq<Step<S>>)
    requires IsRun(Init(state), steps) && Run(Init(state), steps).loop != Starting
    ensures var f := Run(Init(state), steps);
            && f.first.Some? && f.atStart == state
            && f.reported == StutterFree([f.first.value] + f.received)
            && f.received <= f.sets
            && (f.loop != Gone ==> |f.sets| - |f.received| <= CAPACITY + 1)
            && f.before <= CAPACITY && f.before <= |f.sets|
            && f.first.value == StateAfter(state, f.sets, f.before)
  {
    hide Run, IsRun;
    RunKeepsInv(Init(state), steps);
    AtStartStays(Init(state), steps);
    var f := Run(Init(state), steps);
    assert f.sets[..|f.received|] == f.received;
  }

  lemma {:induction false} AtStartStays<S>(f: Feed<S>, steps: seq<Step<S>>)
    requires IsRun(f, steps)
    ensures Run(f, steps).atStart == f.atStart
    decreases steps
  {
    if steps != [] {
      AtStartStays(Apply(f, steps[0]), steps[1..]);
    }
  }

  // Stepping back

  /** A repeated first state does not show. */
  lemma {:induction false} StutterFreeRepeat<S>(x: S, s: seq<S>)
    ensures StutterFree([x, x] + s) == StutterFree([x] + s)
  {
    if s == [] {
      assert [x, x] + s == [x] + [x];
      assert [x] + s == [x];
      StutterFreeSnoc([x], x);
    } else {
      var front, last := s[..|s| - 1], s[|s| - 1];
      assert [x, x] + s == ([x, x] + front) + [last] && [x] + s == ([x] + front) + [last];
      StutterFreeRepeat(x, front);
      StutterFreeSnoc([x, x] + front, last);
      StutterFreeSnoc([x] + front, last);
    }
  }

  /** A different first state shows, in front of all others. */
  lemma {:induction false} StutterFreeCons<S>(x: S, y: S, s: seq<S>)
    requires x != y
    ensures StutterFree([x, y] + s) == [x] + StutterFree([y] + s)
  {
    if s == [] {
      assert [x, y] + s == [x] + [y];
      assert [y] + s == [y];
      StutterFreeSnoc([x], y);
    } else {
      var front, last := s[..|s| - 1], s[|s| - 1];
      assert [x, y] + s == ([x, y] + front) + [last] && [y] + s == ([y] + front) + [last];
      StutterFreeCons(x, y, front);
      StutterFreeSnoc([x, y] + front, last);
      StutterFreeSnoc([y] + front, last);
    }
  }

  /** The states received that were assigned after the first read. */
  function AfterRead<S>(received: seq<S>, before: nat): seq<S> {
    if |received| <= before then [] else received[before..]
  }

  /** Reporting `x` and `y` again after `y` shows, unless they are the same. */
  lemma BackAndForth<S>(x: S, y: S, rest: seq<S>)
    ensures StutterFree([y, x] + ([y] + rest)) == StutterFree([y] + rest) <==> x == y
  {
    hide StutterFree;
    if x == y {
      StutterFreeRepeat(y, [y] + rest);
      assert [y] + ([y] + rest) == [y, y] + rest;
      StutterFreeRepeat(y, rest);
    } else {
      StutterFreeCons(y, x, [y] + rest);
      assert [x] + ([y] + rest) == [x, y] + rest;
      StutterFreeCons(x, y, rest);
    }
  }

  lemma BackOnly<S>(x: S, y: S)
    ensures StutterFree([y, x]) == StutterFree([y]) <==> x == y
  {
  }

  /** Reading `y` when `x` and `y` are still on their way reports `x` after `y`, unless they are the same. */
  lemma TwoBeforeRead<S>(x: S, y: S, received: seq<S>)
    requires received != [] && received <= [x, y] + AfterRead(received, 2)
    ensures StutterFree([y] + received) == StutterFree([y] + AfterRead(received, 2)) <==> x == y
  {
    hide StutterFree;
    var rest := AfterRead(received, 2);
    if |received| == 1 {
      assert [y] + received == [y, x] && [y] + rest == [y];
      BackOnly(x, y);
    } else {
      assert [y] + received == [y, x] + ([y] + rest);
      BackAndForth(x, y, rest);
    }
  }

  lemma OneBeforeRead<S>(x: S, received: seq<S>)
    requires received <= [x] + AfterRead(received, 1)
    ensures StutterFree([x] + received) == StutterFree([x] + AfterRead(received, 1))
  {
    hide StutterFree;
    if received != [] {
      assert [x] + received == [x, x] + AfterRead(received, 1);
      StutterFreeRepeat(x, AfterRead(received, 1));
    }
  }

  /**
   In every run past the first read, the report is the state read followed by the changes after that read, exactly
   unless two different states were assigned between the subscription and the read and one of them has been received
   since: then it steps back to a state that is over.
   */
  lemma ReportStepsBackIff<S>(state: S, steps: seq<Step<S>>)
    requires IsRun(Init(state), steps) && Run(Init(state), steps).loop != Starting
    ensures var f := Run(Init(state), steps);
            && f.first.Some? && f.before <= |f.sets|
            && (f.reported == StutterFree([f.first.value] + AfterRead(f.received, f.before)) <==>
                  f.before <= 1 || f.received == [] || f.sets[0] == f.sets[1])
  {
    hide Run, IsRun, StutterFree;
    ReportsEveryChange(state, steps);
    var f := Run(Init(state), steps);
    assert f.received == f.sets[..|f.received|];
    if f.before == 0 {
      assert AfterRead(f.received, 0) == f.received;
    } else if f.before == 1 {
      OneBeforeRead(f.first.value, f.received);
    } else if f.received != [] {
      TwoBeforeRead(f.sets[0], f.sets[1], f.received);
    } else {
      assert AfterRead(f.received, 2) == [];
    }
  }

  /** Such a run: the read is ahead of the channel. */
  lemma ReportStepsBack<S>(state: S, a: S, b: S) returns (steps: seq<Step<S>>)
    requires a != b
    ensures IsRun(Init(state), steps)
    ensures var f := Run(Init(state), steps); f.sets == [a, b] && f.reported == [b, a, b]
  {
    var f0 := Init(state);
    var f1 := Apply(f0, SetBegin(a));
    var f2 := Apply(f1, SetSend);
    var f3 := Apply(f2, SetBegin(b));
    var f4 := Apply(f3, SetSend);
    var f5 := Apply(f4, Read);
    var f6 := Apply(f5, Receive);
    steps := [];
    steps := RunCons(f6, Receive, steps);
    steps := RunCons(f5, Receive, steps);
    steps := RunCons(f4, Read, steps);
    steps := RunCons(f3, SetSend, steps);
    steps := RunCons(f2, SetBegin(b), steps);
    steps := RunCons(f1, SetSend, steps);
    steps := RunCons(f0, SetBegin(a), steps);
  }

  /** Once the channel is drained and no setter is mid-send, the last state reported is the instance's state. */
  lemma Converges<S>(state: S, steps: seq<Step<S>>)
    requires IsRun(Init(state), steps)
    requires var f := Run(Init(state), steps);
             (f.loop == Looping || f.loop == Leaving) && f.channel == [] && f.sending.None?
    ensures var f := Run(Init(state), steps);
            && f.received == f.sets
            && f.reported != [] && f.reported[|f.reported| - 1] == f.current
  {
    RunKeepsInv(Init(state), steps);
    var f := Run(Init(state), steps);
    StutterFreeIsFree([f.first.value] + f.received);
    if f.sets != [] {
      assert ([f.first.value] + f.received)[|f.sets|] == f.sets[|f.sets| - 1];
    }
  }

  // Deadlock

  ghost predicate Stuck<S(!new)>(f: Feed<S>) {
    forall step :: !Enabled(f, step)
  }

  /** A setter holds the lock, its channel is full, and the loop needs the lock, to read the state or to unsubscribe. */
  predicate Deadlocked<S>(f: Feed<S>) {
    f.sending.Some? && |f.channel| == CAPACITY && (f.loop == Starting || f.loop == Leaving)
  }

  lemma {:induction false} StuckIff<S(!new)>(state: S, steps: seq<Step<S>>)
    requires IsRun(Init(state), steps)
    ensures Stuck(Run(Init(state), steps)) <==> Deadlocked(Run(Init(state), steps))
  {
    RunKeepsInv(Init(state), steps);
    var f := Run(Init(state), steps);
    if Stuck(f) {
      assert !Enabled(f, SetBegin(state)) && !Enabled(f, SetSend) && !Enabled(f, Read);
      assert !Enabled(f, Quit) && !Enabled(f, Unsub);
    }
  }

  /** Three states assigned before the first read. */
  lemma DeadlockBeforeReadReachable<S>(state: S, a: S, b: S, c: S) returns (steps: seq<Step<S>>)
    ensures IsRun(Init(state), steps)
    ensures Deadlocked(Run(Init(state), steps)) && Run(Init(state), steps).loop == Starting
  {
    var f0 := Init(state);
    var f1 := Apply(f0, SetBegin(a));
    var f2 := Apply(f1, SetSend);
    var f3 := Apply(f2, SetBegin(b));
    var f4 := Apply(f3, SetSend);
    steps := [];
    steps := RunCons(f4, SetBegin(c), steps);
    steps := RunCons(f3, SetSend, steps);
    steps := RunCons(f2, SetBegin(b), steps);
    steps := RunCons(f1, SetSend, steps);
    steps := RunCons(f0, SetBegin(a), steps);
  }

  /** Or three states assigned after it, and not received by the time the loop quits. */
  lemma DeadlockAfterReadReachable<S>(state: S, a: S, b: S, c: S) returns (steps: seq<Step<S>>)
    ensures IsRun(Init(state), steps)
    ensures Deadlocked(Run(Init(state), steps)) && Run(Init(state), steps).loop == Leaving
  {
    var f0 := Init(state);
    var f1 := Apply(f0, Read);
    var f2 := Apply(f1, SetBegin(a));
    var f3 := Apply(f2, SetSend);
    var f4 := Apply(f3, SetBegin(b));
    var f5 := Apply(f4, SetSend);
    var f6 := Apply(f5, SetBegin(c));
    steps := [];
    steps := RunCons(f6, Quit, steps);
    steps := RunCons(f5, SetBegin(c), steps);
    steps := RunCons(f4, SetSend, steps);
    steps := RunCons(f3, SetBegin(b), steps);
    steps := RunCons(f2, SetSend, steps);
    steps := RunCons(f1, SetBegin(a), steps);
    steps := RunCons(f0, Read, steps);
  }

  lemma RunCons<S>(f: Feed<S>, step: Step<S>, rest: seq<Step<S>>) returns (steps: seq<Step<S>>)
    requires Enabled(f, step) && IsRun(Apply(f, step), rest)
    ensures steps == [step] + rest && IsRun(f, steps) && Run(f, steps) == Run(Apply(f, step), rest)
  {
    steps := [step] + rest;
    assert steps[1..] == rest;
  }

  // Which setters can hang

  predicate NoSends<S>(steps: seq<Step<S>>) {
    forall i :: 0 <= i < |steps| ==> !steps[i].SetSend?
  }

  predicate Hangs<S(==)>(f: Feed<S>, steps: seq<Step<S>>) {
    IsRun(f, steps) && NoSends(steps) && Deadlocked(Run(f, steps))
  }

  /** The setter that holds the lock does not have to wait. */
  predicate Roomy<S>(f: Feed<S>) {
    && (f.sending.Some? ==> |f.channel| < CAPACITY)
    && (f.loop == Gone ==> f.sending.None?)
  }

  lemma {:induction false} NoSendsStayRoomy<S>(f: Feed<S>, steps: seq<Step<S>>)
    requires f.loop != Gone ==> f.sending.Some? && |f.channel| < CAPACITY
    requires f.loop == Gone ==> f.sending.None?
    requires IsRun(f, steps) && NoSends(steps)
    ensures !Deadlocked(Run(f, steps))
    decreases steps
  {
    if steps != [] {
      assert !steps[0].SetSend?;
      assert forall i :: 0 <= i < |steps[1..]| ==> steps[1..][i] == steps[i + 1];
      NoSendsStayRoomy(Apply(f, steps[0]), steps[1..]);
    }
  }

  /** A setter can wait for ever exactly if it finds the subscriber's channel full before the loop has unsubscribed. */
  lemma SetterCanHangIff<S(!new)>(state: S, steps: seq<Step<S>>, s: S)
    requires IsRun(Init(state), steps) && Enabled(Run(Init(state), steps), SetBegin(s))
    ensures var f := Run(Init(state), steps);
            (exists more :: Hangs(Apply(f, SetBegin(s)), more)) <==> f.loop != Gone && |f.channel| == CAPACITY
  {
    RunKeepsInv(Init(state), steps);
    var f := Run(Init(state), steps);
    var begun := Apply(f, SetBegin(s));
    if f.loop == Gone || |f.channel| < CAPACITY {
      forall more | IsRun(begun, more) && NoSends(more) ensures !Deadlocked(Run(begun, more)) {
        NoSendsStayRoomy(begun, more);
      }
    } else {
      var none: seq<Step<S>>, quit: seq<Step<S>> := [], [Quit];
      if f.loop == Looping {
        assert quit[1..] == [];
        assert Hangs(begun, quit);
      } else {
        assert Hangs(begun, none);
      }
    }
  }

  /** Every state of the run is assigned when the channel has a free place, or after the loop has unsubscribed. */
  predicate Throttled<S(==)>(f: Feed<S>, steps: seq<Step<S>>)
    requires IsRun(f, steps)
    decreases steps
  {
    steps == [] ||
    ((steps[0].SetBegin? ==> |f.channel| < CAPACITY || f.loop == Gone) && Throttled(Apply(f, steps[0]), steps[1..]))
  }

  /** Then no setter ever waits, whenever the loop quits. */
  lemma {:induction false} ThrottledNeverStuck<S>(f: Feed<S>, steps: seq<Step<S>>)
    requires Roomy(f) && IsRun(f, steps) && Throttled(f, steps)
    ensures Roomy(Run(f, steps)) && !Deadlocked(Run(f, steps))
    decreases steps
  {
    if steps != [] {
      ThrottledNeverStuck(Apply(f, steps[0]), steps[1..]);
    }
  }

  // Settling

  /** Steps left, at most, once the setters rest. */
  function InFlight<S>(f: Feed<S>): nat {
    2 * (if f.sending.Some? then 1 else 0) + |f.channel|
  }

  /** While the loop goes on, exactly `InFlight` steps bring it up to date once the setters rest. */
  lemma {:induction false} SettlesAfterRead<S>(f: Feed<S>, steps: seq<Step<S>>)
    requires f.loop == Looping && f.last.Some? && |f.channel| <= CAPACITY && IsRun(f, steps)
    requires forall i :: 0 <= i < |steps| ==> steps[i] == SetSend || steps[i] == Receive
    ensures var g := Run(f, steps);
            && InFlight(g) == InFlight(f) - |steps|
            && (InFlight(g) > 0 ==> Enabled(g, SetSend) || Enabled(g, Receive))
            && (InFlight(g) == 0 ==> g.channel == [] && g.sending.None?)
    decreases steps
  {
    if steps != [] {
      assert forall i :: 0 <= i < |steps[1..]| ==> steps[1..][i] == steps[i + 1];
      SettlesAfterRead(Apply(f, steps[0]), steps[1..]);
    }
  }

  /** Steps left, at most, once the setters rest and the loop may quit. */
  function Effort<S>(f: Feed<S>): nat {
    InFlight(f) + match f.loop case Starting => 3 case Looping => 2 case Leaving => 1 case Gone => 0
  }

  /** Nothing in progress, and the loop is up to date or has unsubscribed. */
  predicate AtRest<S>(f: Feed<S>) {
    f.sending.None? && (f.loop == Gone || (f.loop == Looping && f.channel == []))
  }

  lemma RestingStep<S>(f: Feed<S>, step: Step<S>)
    requires Roomy(f) && (f.loop == Looping ==> f.last.Some?) && Enabled(f, step) && !step.SetBegin?
    ensures var g := Apply(f, step);
            Roomy(g) && (g.loop == Looping ==> g.last.Some?) && Effort(g) <= Effort(f) - 1
  {
  }

  /**
   If the setter in progress found a free place, everything comes to rest once the setters rest, wherever the loop
   quits: until then some step is enabled, and each step uses up some effort.
   */
  lemma {:induction false} QuittingComesToRest<S>(f: Feed<S>, steps: seq<Step<S>>)
    requires Roomy(f) && (f.loop == Looping ==> f.last.Some?) && IsRun(f, steps)
    requires forall i :: 0 <= i < |steps| ==> !steps[i].SetBegin?
    ensures var g := Run(f, steps);
            && Roomy(g) && !Deadlocked(g)
            && Effort(g) <= Effort(f) - |steps|
            && (!AtRest(g) ==> Enabled(g, SetSend) || Enabled(g, Read) || Enabled(g, Receive) || Enabled(g, Unsub))
    decreases steps
  {
    if steps != [] {
      RestingStep(f, steps[0]);
      assert forall i :: 0 <= i < |steps[1..]| ==> steps[1..][i] == steps[i + 1];
      QuittingComesToRest(Apply(f, steps[0]), steps[1..]);
    }
  }
}
