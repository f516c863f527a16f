/**
 The queue manager's pump: one source queue, any number of listener queues.

 The pump is the source queue's only consumer. It pops a frame, possibly nil, and pushes it on every
 registered listener's queue, waiting inside each push as any pusher does; each listener queue has one
 consumer of its own. All of them run the protocol of `QueueProtocol` and interleave freely, and each may leave.

 A stream handler reads a field of every frame it pops, so a nil makes it panic: it runs its deferred
 unsubscribe and takes the daemon down. The loops that only pass frames on do not look at them.
 */
module FanOut {
  import opened Wrappers
  import P = QueueProtocol

  const SOURCE_LIMIT := 10
  const LISTENER_LIMIT := 20

  datatype Outlet<F> = Outlet(
    q: P.State<Option<F>>,
    start: nat,     // pops the pump had made before those this listener is pushed
    stream: bool,   // its consumer is a stream handler
    panicked: bool)

  /** The pump's loop over the listeners: the item in hand and the names not yet served. */
  datatype Forward<F> = Forward(item: Option<F>, left: set<string>, at: Option<string>)

  datatype Net<F> = Net(
    source: P.State<F>,
    outlets: map<string, Outlet<F>>,
    forward: Option<Forward<F>>,
    down: bool) // a panic has ended the daemon

  datatype Step<F> =
    | Produce(frame: F)              // a plugin's push on the source queue appends
    | ProduceSend                    // ... and sends
    | PumpReceive
    | PumpPop
    | PumpLeave                      // the pump's quit channel is closed
    | PumpUnsub
    | ForwardBegin(name: string)     // the pump's push on a listener's queue appends
    | ForwardSend                    // ... and sends
    | ConsumerReceive(name: string)
    | ConsumerPop(name: string, leaves: bool)
    | ConsumerLeave(name: string)
    | ConsumerUnsub(name: string)
    | Register(name: string, stream: bool, visited: bool) // and subscribe; a running loop may still visit it
    | Deregister(name: string)

  function Init<F>(): Net<F> {
    Net(P.Init(SOURCE_LIMIT), map[], None, false)
  }

  /** Every pop recorded in `exits`, nil for an empty one. */
  function Pops<F>(exits: seq<P.Exit<F>>): seq<Option<F>> {
    if exits == [] then []
    else Pops(exits[..|exits| - 1]) +
         (match exits[|exits| - 1] case Delivered(x) => [Some(x)] case Empty => [None] case Dropped(_) => [])
  }

  /** What a listener's consumer has been handed: the items popped, and nil for an empty pop. */
  function Handed<F>(exits: seq<P.Exit<Option<F>>>): seq<Option<F>> {
    if exits == [] then []
    else Handed(exits[..|exits| - 1]) +
         (match exits[|exits| - 1] case Delivered(item) => [item] case Empty => [None] case Dropped(_) => [])
  }

  /** The frames among possibly nil items, in order. */
  function Frames<F>(items: seq<Option<F>>): seq<F> {
    if items == [] then []
    else Frames(items[..|items| - 1]) +
         (match items[|items| - 1] case Some(f) => [f] case None => [])
  }

  predicate Enabled<F>(n: Net<F>, step: Step<F>) {
    && !n.down
    && match step
       case Produce(f) => P.Enabled(n.source, P.PushBegin(f))
       case ProduceSend => P.Enabled(n.source, P.PushSend)
       case PumpReceive => n.forward.None? && P.Enabled(n.source, P.Receive)
       case PumpPop => n.forward.None? && P.Enabled(n.source, P.Pop(false))
       case PumpLeave => n.forward.None? && P.Enabled(n.source, P.Leave)
       case PumpUnsub => P.Enabled(n.source, P.Unsub)
       case ForwardBegin(l) =>
         && n.forward.Some? && n.forward.value.at.None? && l in n.forward.value.left && l in n.outlets
         && P.Enabled(n.outlets[l].q, P.PushBegin(n.forward.value.item))
       case ForwardSend =>
         && n.forward.Some? && n.forward.value.at.Some? && n.forward.value.at.value in n.outlets
         && P.Enabled(n.outlets[n.forward.value.at.value].q, P.PushSend)
       case ConsumerReceive(l) => l in n.outlets && P.Enabled(n.outlets[l].q, P.Receive)
       case ConsumerPop(l, leaves) => l in n.outlets && P.Enabled(n.outlets[l].q, P.Pop(leaves))
       case ConsumerLeave(l) => l in n.outlets && P.Enabled(n.outlets[l].q, P.Leave)
       case ConsumerUnsub(l) => l in n.outlets && P.Enabled(n.outlets[l].q, P.Unsub)
       case Register(l, _, visited) =>
         l !in n.outlets && (visited ==> n.forward.Some? && Pops(n.source.exits) != [])
       case Deregister(l) =>
         && l in n.outlets && n.outlets[l].q.consumer == P.Gone
         && (n.forward.Some? ==> n.forward.value.at != Some(l))
  }

  function StepSource<F>(n: Net<F>, step: P.Step<F>): Net<F>
    requires P.Enabled(n.source, step)
  {
    n.(source := P.Apply(n.source, step))
  }

  function StepOutlet<F>(n: Net<F>, l: string, step: P.Step<Option<F>>): Net<F>
    requires l in n.outlets && P.Enabled(n.outlets[l].q, step)
  {
    n.(outlets := n.outlets[l := n.outlets[l].(q := P.Apply(n.outlets[l].q, step))])
  }

  /** The next pop hands nil to a stream handler. */
  predicate Dies<F>(o: Outlet<F>) {
    o.stream && (o.q.queue == [] || o.q.queue[0].None?)
  }

  /** A consumer pops; a stream handler that is handed nil panics, and goes no further than its deferred calls. */
  function PopOutlet<F>(o: Outlet<F>, leaves: bool): Outlet<F>
    requires P.Enabled(o.q, P.Pop(leaves))
  {
    o.(q := P.Apply(o.q, P.Pop(leaves || Dies(o))), panicked := Dies(o))
  }

  /** The pump's loop without the name `l`. */
  function Without<F>(forward: Option<Forward<F>>, l: string): Option<Forward<F>> {
    match forward
    case None => None
    case Some(f) => if f.left - {l} == {} then None else Some(f.(left := f.left - {l}))
  }

  /** ... once `l` has been served. */
  function AfterServing<F>(f: Forward<F>, l: string): Option<Forward<F>> {
    Without(Some(f.(at := None)), l)
  }

  function Apply<F>(n: Net<F>, step: Step<F>): Net<F>
    requires Enabled(n, step)
  {
    match step
    case Produce(f) => StepSource(n, P.PushBegin(f))
    case ProduceSend => StepSource(n, P.PushSend)
    case PumpReceive => StepSource(n, P.Receive)
    case PumpPop =>
      var item := if n.source.queue == [] then None else Some(n.source.queue[0]);
      StepSource(n, P.Pop(false))
        .(forward := if n.outlets.Keys == {} then None else Some(Forward(item, n.outlets.Keys, None)))
    case PumpLeave => StepSource(n, P.Leave)
    case PumpUnsub => StepSource(n, P.Unsub)
    case ForwardBegin(l) =>
      var f := n.forward.value;
      StepOutlet(n, l, P.PushBegin(f.item))
        .(forward := if n.outlets[l].q.consumer == P.Gone then AfterServing(f, l) else Some(f.(at := Some(l))))
    case ForwardSend =>
      var f := n.forward.value;
      StepOutlet(n, f.at.value, P.PushSend).(forward := AfterServing(f, f.at.value))
    case ConsumerReceive(l) => StepOutlet(n, l, P.Receive)
    case ConsumerPop(l, leaves) => n.(outlets := n.outlets[l := PopOutlet(n.outlets[l], leaves)])
    case ConsumerLeave(l) => StepOutlet(n, l, P.Leave)
    case ConsumerUnsub(l) => StepOutlet(n, l, P.Unsub).(down := n.outlets[l].panicked)
    case Register(l, stream, visited) =>
      var pops := |Pops(n.source.exits)|;
      var o := Outlet(P.Init(LISTENER_LIMIT), if visited then pops - 1 else pops, stream, false);
      n.(outlets := n.outlets[l := o],
         forward := if visited then Some(n.forward.value.(left := n.forward.value.left + {l})) else n.forward)
    case Deregister(l) =>
      n.(outlets := n.outlets - {l}, forward := Without(n.forward, l))
  }

  predicate IsRun<F>(n: Net<F>, steps: seq<Step<F>>)
    decreases steps
  {
    steps == [] || (Enabled(n, steps[0]) && IsRun(Apply(n, steps[0]), steps[1..]))
  }

  function Run<F>(n: Net<F>, steps: seq<Step<F>>): Net<F>
    requires IsRun(n, steps)
    decreases steps
  {
    if steps == [] then n else Run(Apply(n, steps[0]), steps[1..])
  }

  // The invariant

  /** Where a listener stands in the pump's loop. */
  datatype Turn = NoLoop | Waiting | Sending | Served

  function TurnOf<F>(n: Net<F>, l: string): Turn {
    match n.forward
    case None => NoLoop
    case Some(f) => if f.at == Some(l) then Sending else if l in f.left then Waiting else Served
  }

  /** A queue that has kept the protocol, lost nothing, and owes the pops it should. */
  ghost predicate Sound<T>(q: P.State<T>, limit: int) {
    P.Inv(q) && P.Lossless(q) && P.Balanced(q) && q.limit == limit && limit >= 4
  }

  /** A stream handler has panicked exactly if it was handed a nil, and then it reads no further. */
  ghost predicate PanicsAtNil<F>(o: Outlet<F>) {
    && (o.panicked <==> o.stream && None in Handed(o.q.exits))
    && (o.panicked ==> o.q.consumer != P.Reading)
  }

  /** The listener's queue has been pushed exactly what the pump popped since it registered. */
  ghost predicate Fed<F>(o: Outlet<F>, pops: seq<Option<F>>, turn: Turn) {
    && Sound(o.q, LISTENER_LIMIT) && PanicsAtNil(o)
    && (o.q.sending.Some? <==> turn == Sending)
    && o.start <= |pops| && (turn == Waiting || turn == Sending ==> o.start < |pops|)
    && o.q.pushed == pops[o.start..if turn == Waiting then |pops| - 1 else |pops|]
  }

  ghost predicate Inv<F>(n: Net<F>) {
    && Sound(n.source, SOURCE_LIMIT)
    && (n.forward.Some? ==> n.source.consumer == P.Reading)
    && (forall l :: l in n.outlets ==> Fed(n.outlets[l], Pops(n.source.exits), TurnOf(n, l)))
    && (n.forward.Some? ==> InHand(n.forward.value, n.outlets.Keys, Pops(n.source.exits)))
  }

  predicate InHand<F(==)>(f: Forward<F>, names: set<string>, pops: seq<Option<F>>) {
    && f.left <= names && f.left != {}
    && (f.at.Some? ==> f.at.value in f.left)
    && pops != [] && pops[|pops| - 1] == f.item
  }

  lemma SoundStep<T>(q: P.State<T>, limit: int, step: P.Step<T>)
    requires Sound(q, limit) && P.Enabled(q, step)
    ensures Sound(P.Apply(q, step), limit)
  {
    P.StepKeepsInv(q, step);
    P.StepKeepsLossless(q, step);
    P.StepKeepsBalanced(q, step);
  }

  lemma PopsSnoc<F>(exits: seq<P.Exit<F>>, e: P.Exit<F>)
    ensures Pops(exits + [e]) ==
              Pops(exits) + (match e case Delivered(x) => [Some(x)] case Empty => [None] case Dropped(_) => [])
  {
    assert (exits + [e])[..|exits|] == exits;
  }

  lemma HandedSnoc<F>(exits: seq<P.Exit<Option<F>>>, e: P.Exit<Option<F>>)
    ensures Handed(exits + [e]) ==
              Handed(exits) + (match e case Delivered(item) => [item] case Empty => [None] case Dropped(_) => [])
  {
    assert (exits + [e])[..|exits|] == exits;
  }

  lemma SourceStep<F>(n: Net<F>, step: P.Step<F>)
    requires Inv(n) && P.Enabled(n.source, step)
    ensures Sound(P.Apply(n.source, step), SOURCE_LIMIT)
    ensures !step.Pop? ==> Pops(P.Apply(n.source, step).exits) == Pops(n.source.exits)
    ensures step.Pop? ==>
              Pops(P.Apply(n.source, step).exits) ==
              Pops(n.source.exits) + [if n.source.queue == [] then None else Some(n.source.queue[0])]
  {
    SoundStep(n.source, SOURCE_LIMIT, step);
    if step.PushBegin? && n.source.queue != [] {
      PopsSnoc(n.source.exits, P.Dropped(n.source.queue[0]));
    } else if step.Pop? {
      PopsSnoc(n.source.exits, if n.source.queue == [] then P.Empty else P.Delivered(n.source.queue[0]));
    }
  }

  // One listener queue at a time

  lemma PopKeepsFed<F>(o: Outlet<F>, pops: seq<Option<F>>, turn: Turn, leaves: bool)
    requires Fed(o, pops, turn) && P.Enabled(o.q, P.Pop(leaves))
    ensures Fed(PopOutlet(o, leaves), pops, turn)
  {
    var o' := PopOutlet(o, leaves);
    SoundStep(o.q, LISTENER_LIMIT, P.Pop(leaves || Dies(o)));
    HandedSnoc(o.q.exits, if o.q.queue == [] then P.Empty else P.Delivered(o.q.queue[0]));
  }

  lemma ConsumeKeepsFed<F>(o: Outlet<F>, pops: seq<Option<F>>, turn: Turn, step: P.Step<Option<F>>)
    requires Fed(o, pops, turn) && P.Enabled(o.q, step) && (step.Receive? || step.Leave? || step.Unsub?)
    ensures Fed(o.(q := P.Apply(o.q, step)), pops, turn)
  {
    SoundStep(o.q, LISTENER_LIMIT, step);
  }

  lemma BeginHandsNothing<F>(q: P.State<Option<F>>, item: Option<F>)
    requires Sound(q, LISTENER_LIMIT) && P.Enabled(q, P.PushBegin(item))
    ensures var q' := P.Apply(q, P.PushBegin(item));
            && Sound(q', LISTENER_LIMIT)
            && q'.pushed == q.pushed + [item] && Handed(q'.exits) == Handed(q.exits)
            && q'.consumer == q.consumer && (q'.sending.Some? <==> q.consumer != P.Gone)
  {
    SoundStep(q, LISTENER_LIMIT, P.PushBegin(item));
    if q.queue != [] { HandedSnoc(q.exits, P.Dropped(q.queue[0])); }
  }

  lemma PushedIsFed<F>(o: Outlet<F>, q: P.State<Option<F>>, pops: seq<Option<F>>, item: Option<F>, turn: Turn)
    requires Fed(o, pops, Waiting) && pops[|pops| - 1] == item
    requires Sound(q, LISTENER_LIMIT) && q.pushed == o.q.pushed + [item] && Handed(q.exits) == Handed(o.q.exits)
    requires q.consumer == o.q.consumer && (q.sending.Some? <==> turn == Sending) && turn != Waiting
    ensures Fed(o.(q := q), pops, turn)
  {
    hide Sound, Handed;
    assert pops[o.start..] == pops[o.start..|pops| - 1] + [item];
  }

  /** The pump's append; on the queue of a consumer that has gone it is the whole push. */
  lemma BeginKeepsFed<F>(o: Outlet<F>, pops: seq<Option<F>>, item: Option<F>, turn: Turn)
    requires Fed(o, pops, Waiting) && pops != [] && pops[|pops| - 1] == item && P.Enabled(o.q, P.PushBegin(item))
    requires if o.q.consumer == P.Gone then turn == NoLoop || turn == Served else turn == Sending
    ensures Fed(o.(q := P.Apply(o.q, P.PushBegin(item))), pops, turn)
  {
    BeginHandsNothing(o.q, item);
    PushedIsFed(o, P.Apply(o.q, P.PushBegin(item)), pops, item, turn);
  }

  lemma SendKeepsFed<F>(o: Outlet<F>, pops: seq<Option<F>>, turn: Turn)
    requires Fed(o, pops, Sending) && P.Enabled(o.q, P.PushSend) && (turn == NoLoop || turn == Served)
    ensures Fed(o.(q := P.Apply(o.q, P.PushSend)), pops, turn)
  {
    SoundStep(o.q, LISTENER_LIMIT, P.PushSend);
  }

  lemma PumpPopMakesWaiting<F>(o: Outlet<F>, pops: seq<Option<F>>, item: Option<F>)
    requires Fed(o, pops, NoLoop)
    ensures Fed(o, pops + [item], Waiting)
  {
    hide Sound, PanicsAtNil;
    assert (pops + [item])[o.start..|pops|] == pops[o.start..];
  }

  lemma NewOutletFed<F>(pops: seq<Option<F>>, stream: bool, turn: Turn)
    requires turn == NoLoop || turn == Served || (turn == Waiting && pops != [])
    ensures var start := if turn == Waiting then |pops| - 1 else |pops|;
            Fed(Outlet(P.Init(LISTENER_LIMIT), start, stream, false), pops, turn)
  {
  }

  // The whole net

  lemma SourceStepKeepsInv<F>(n: Net<F>, step: P.Step<F>)
    requires Inv(n) && P.Enabled(n.source, step) && !step.Pop?
    requires step.Leave? ==> n.forward.None?
    ensures Inv(StepSource(n, step))
  {
    SourceStep(n, step);
    var n' := StepSource(n, step);
    assert forall l :: TurnOf(n', l) == TurnOf(n, l);
  }

  /** The pump takes one more item and starts to hand it round. */
  lemma NewItemKeepsInv<F>(n: Net<F>, source: P.State<F>, item: Option<F>)
    requires Inv(n) && n.forward.None?
    requires Sound(source, SOURCE_LIMIT) && source.consumer == P.Reading
    requires Pops(source.exits) == Pops(n.source.exits) + [item]
    ensures Inv(n.(source := source,
                   forward := if n.outlets.Keys == {} then None else Some(Forward(item, n.outlets.Keys, None))))
  {
    hide Fed;
    var forward := if n.outlets.Keys == {} then None else Some(Forward(item, n.outlets.Keys, None));
    var n', pops := n.(source := source, forward := forward), Pops(n.source.exits);
    forall l | l in n.outlets ensures Fed(n'.outlets[l], pops + [item], TurnOf(n', l)) {
      PumpPopMakesWaiting(n.outlets[l], pops, item);
    }
  }

  lemma PumpPopKeepsInv<F>(n: Net<F>)
    requires Inv(n) && Enabled(n, PumpPop)
    ensures Inv(Apply(n, PumpPop))
  {
    SourceStep(n, P.Pop(false));
    var item := if n.source.queue == [] then None else Some(n.source.queue[0]);
    NewItemKeepsInv(n, P.Apply(n.source, P.Pop(false)), item);
  }

  lemma LoopEnds<F>(o: Outlet<F>, pops: seq<Option<F>>)
    requires Fed(o, pops, Served)
    ensures Fed(o, pops, NoLoop)
  {
    hide Sound, PanicsAtNil;
  }

  /** A step on one listener's queue leaves the others as they were. */
  lemma OutletChangeKeepsInv<F>(n: Net<F>, n': Net<F>, name: string)
    requires Inv(n) && n'.source == n.source
    requires n'.outlets.Keys <= n.outlets.Keys + {name}
    requires forall l :: l in n'.outlets && l != name ==> n'.outlets[l] == n.outlets[l]
    requires forall l :: l in n'.outlets && l != name ==>
               TurnOf(n', l) == TurnOf(n, l) || (TurnOf(n, l) == Served && TurnOf(n', l) == NoLoop)
    requires name in n'.outlets ==> Fed(n'.outlets[name], Pops(n.source.exits), TurnOf(n', name))
    requires n'.forward.Some? ==> n.forward.Some? && InHand(n'.forward.value, n'.outlets.Keys, Pops(n.source.exits))
    ensures Inv(n')
  {
    hide Fed;
    forall l | l in n'.outlets ensures Fed(n'.outlets[l], Pops(n'.source.exits), TurnOf(n', l)) {
      if l != name {
        assert Fed(n.outlets[l], Pops(n.source.exits), TurnOf(n, l));
        if TurnOf(n, l) == Served { LoopEnds(n.outlets[l], Pops(n.source.exits)); }
      }
    }
  }

  lemma ReplaceOutletKeepsInv<F>(n: Net<F>, name: string, o: Outlet<F>)
    requires Inv(n) && name in n.outlets && Fed(o, Pops(n.source.exits), TurnOf(n, name))
    ensures Inv(n.(outlets := n.outlets[name := o]))
  {
    hide Fed;
    var n' := n.(outlets := n.outlets[name := o]);
    assert n'.outlets.Keys == n.outlets.Keys;
    assert forall l :: TurnOf(n', l) == TurnOf(n, l);
  }

  lemma ConsumerStepKeepsInv<F>(n: Net<F>, name: string, step: P.Step<Option<F>>)
    requires Inv(n) && name in n.outlets && P.Enabled(n.outlets[name].q, step)
    requires step.Receive? || step.Leave? || step.Unsub?
    ensures Inv(StepOutlet(n, name, step))
  {
    var o, pops, turn := n.outlets[name], Pops(n.source.exits), TurnOf(n, name);
    assert Fed(o, pops, turn);
    ConsumeKeepsFed(o, pops, turn, step);
    ReplaceOutletKeepsInv(n, name, o.(q := P.Apply(o.q, step)));
  }

  lemma ConsumerPopKeepsInv<F>(n: Net<F>, name: string, leaves: bool)
    requires Inv(n) && Enabled(n, ConsumerPop(name, leaves))
    ensures Inv(Apply(n, ConsumerPop(name, leaves)))
  {
    var o, pops, turn := n.outlets[name], Pops(n.source.exits), TurnOf(n, name);
    assert Fed(o, pops, turn);
    PopKeepsFed(o, pops, turn, leaves);
    ReplaceOutletKeepsInv(n, name, PopOutlet(o, leaves));
  }

  lemma ConsumerUnsubKeepsInv<F>(n: Net<F>, name: string)
    requires Inv(n) && Enabled(n, ConsumerUnsub(name))
    ensures Inv(Apply(n, ConsumerUnsub(name)))
  {
    ConsumerStepKeepsInv(n, name, P.Unsub);
    var m := StepOutlet(n, name, P.Unsub);
    assert forall l :: TurnOf(m.(down := n.outlets[name].panicked), l) == TurnOf(m, l);
  }

  /** The pump is done with one listener, and with its loop if that was the last. */
  lemma ServedKeepsInv<F>(n: Net<F>, name: string, o: Outlet<F>)
    requires Inv(n) && n.forward.Some? && name in n.outlets && name in n.forward.value.left
    requires n.forward.value.at.None? || n.forward.value.at == Some(name)
    requires Fed(o, Pops(n.source.exits), if n.forward.value.left - {name} == {} then NoLoop else Served)
    ensures Inv(n.(outlets := n.outlets[name := o], forward := AfterServing(n.forward.value, name)))
  {
    hide Fed;
    var n' := n.(outlets := n.outlets[name := o], forward := AfterServing(n.forward.value, name));
    assert n'.outlets.Keys == n.outlets.Keys;
    forall l | l in n.outlets && l != name
      ensures TurnOf(n', l) == TurnOf(n, l) || (TurnOf(n, l) == Served && TurnOf(n', l) == NoLoop)
    {
      assert l in n.forward.value.left <==> l in n.forward.value.left - {name};
    }
    OutletChangeKeepsInv(n, n', name);
  }

  /** The pump has appended to one listener's queue and is about to send. */
  lemma SendingKeepsInv<F>(n: Net<F>, name: string, o: Outlet<F>)
    requires Inv(n) && n.forward.Some? && n.forward.value.at.None? && name in n.outlets && name in n.forward.value.left
    requires Fed(o, Pops(n.source.exits), Sending)
    ensures Inv(n.(outlets := n.outlets[name := o], forward := Some(n.forward.value.(at := Some(name)))))
  {
    hide Fed;
    var n' := n.(outlets := n.outlets[name := o], forward := Some(n.forward.value.(at := Some(name))));
    assert n'.outlets.Keys == n.outlets.Keys;
    OutletChangeKeepsInv(n, n', name);
  }

  lemma ForwardBeginKeepsInv<F>(n: Net<F>, name: string)
    requires Inv(n) && Enabled(n, ForwardBegin(name))
    ensures Inv(Apply(n, ForwardBegin(name)))
  {
    var o, f, pops := n.outlets[name], n.forward.value, Pops(n.source.exits);
    assert TurnOf(n, name) == Waiting;
    var o' := o.(q := P.Apply(o.q, P.PushBegin(f.item)));
    if o.q.consumer == P.Gone {
      BeginKeepsFed(o, pops, f.item, if f.left - {name} == {} then NoLoop else Served);
      ServedKeepsInv(n, name, o');
    } else {
      BeginKeepsFed(o, pops, f.item, Sending);
      SendingKeepsInv(n, name, o');
    }
  }

  lemma ForwardSendKeepsInv<F>(n: Net<F>)
    requires Inv(n) && Enabled(n, ForwardSend)
    ensures Inv(Apply(n, ForwardSend))
  {
    var name := n.forward.value.at.value;
    var left, o := n.forward.value.left - {name}, n.outlets[name];
    assert TurnOf(n, name) == Sending;
    SendKeepsFed(o, Pops(n.source.exits), if left == {} then NoLoop else Served);
    ServedKeepsInv(n, name, o.(q := P.Apply(o.q, P.PushSend)));
  }

  /** One more listener, which a running loop still visits or has passed already. */
  lemma AddOutletKeepsInv<F>(n: Net<F>, name: string, o: Outlet<F>, visited: bool)
    requires Inv(n) && name !in n.outlets && (visited ==> n.forward.Some?)
    requires Fed(o, Pops(n.source.exits), if n.forward.None? then NoLoop else if visited then Waiting else Served)
    ensures var f := if visited then Some(n.forward.value.(left := n.forward.value.left + {name})) else n.forward;
            Inv(n.(outlets := n.outlets[name := o], forward := f))
  {
    hide Fed;
    var f := if visited then Some(n.forward.value.(left := n.forward.value.left + {name})) else n.forward;
    var n' := n.(outlets := n.outlets[name := o], forward := f);
    assert n.forward.Some? ==> n.forward.value.at != Some(name);
    forall l | l in n'.outlets ensures Fed(n'.outlets[l], Pops(n.source.exits), TurnOf(n', l)) {
      if l != name {
        assert TurnOf(n', l) == TurnOf(n, l);
      }
    }
  }

  lemma RegisterKeepsInv<F>(n: Net<F>, name: string, stream: bool, visited: bool)
    requires Inv(n) && Enabled(n, Register(name, stream, visited))
    ensures Inv(Apply(n, Register(name, stream, visited)))
  {
    hide Fed;
    var turn := if n.forward.None? then NoLoop else if visited then Waiting else Served;
    var pops := Pops(n.source.exits);
    NewOutletFed(pops, stream, turn);
    var o := Outlet(P.Init(LISTENER_LIMIT), if visited then |pops| - 1 else |pops|, stream, false);
    AddOutletKeepsInv(n, name, o, visited);
  }

  lemma DeregisterKeepsInv<F>(n: Net<F>, name: string)
    requires Inv(n) && Enabled(n, Deregister(name))
    ensures Inv(Apply(n, Deregister(name)))
  {
    hide Fed;
    var n' := Apply(n, Deregister(name));
    forall l | l in n'.outlets && l != name
      ensures TurnOf(n', l) == TurnOf(n, l) || (TurnOf(n, l) == Served && TurnOf(n', l) == NoLoop)
    {
      if n.forward.Some? {
        assert l in n.forward.value.left <==> l in n.forward.value.left - {name};
        if n.forward.value.at.Some? { assert n.forward.value.at.value in n.forward.value.left - {name}; }
      }
    }
    OutletChangeKeepsInv(n, n', name);
  }

  lemma StepKeepsInv<F>(n: Net<F>, step: Step<F>)
    requires Inv(n) && Enabled(n, step)
    ensures Inv(Apply(n, step))
  {
    hide Inv;
    match step {
      case Produce(f) => SourceStepKeepsInv(n, P.PushBegin(f));
      case ProduceSend => SourceStepKeepsInv(n, P.PushSend);
      case PumpReceive => SourceStepKeepsInv(n, P.Receive);
      case PumpPop => PumpPopKeepsInv(n);
      case PumpLeave => SourceStepKeepsInv(n, P.Leave);
      case PumpUnsub => SourceStepKeepsInv(n, P.Unsub);
      case ForwardBegin(name) => ForwardBeginKeepsInv(n, name);
      case ForwardSend => ForwardSendKeepsInv(n);
      case ConsumerReceive(name) => ConsumerStepKeepsInv(n, name, P.Receive);
      case ConsumerPop(name, leaves) => ConsumerPopKeepsInv(n, name, leaves);
      case ConsumerLeave(name) => ConsumerStepKeepsInv(n, name, P.Leave);
      case ConsumerUnsub(name) => ConsumerUnsubKeepsInv(n, name);
      case Register(name, stream, visited) => RegisterKeepsInv(n, name, stream, visited);
      case Deregister(name) => DeregisterKeepsInv(n, name);
    }
  }

  lemma {:induction false} RunKeepsInv<F>(n: Net<F>, steps: seq<Step<F>>)
    requires Inv(n) && IsRun(n, steps)
    ensures Inv(Run(n, steps))
    decreases steps
  {
    if steps != [] {
      StepKeepsInv(n, steps[0]);
      RunKeepsInv(Apply(n, steps[0]), steps[1..]);
    }
  }

  // What consumers see

  /** The frames, nil ones left out, that listener `l` has handed to its consumer. */
  function Seen<F>(n: Net<F>, l: string): seq<F>
    requires l in n.outlets
  {
    Frames(P.Received(n.outlets[l].q.exits))
  }

  /** Frames the pump had handed round before `l` registered. */
  function Offset<F>(n: Net<F>, l: string): nat
    requires l in n.outlets && n.outlets[l].start <= |Pops(n.source.exits)|
  {
    |Frames(Pops(n.source.exits)[..n.outlets[l].start])|
  }

  lemma {:induction false} FramesConcat<F>(a: seq<Option<F>>, b: seq<Option<F>>)
    ensures Frames(a + b) == Frames(a) + Frames(b)
  {
    if b == [] {
      assert a + b == a;
    } else {
      var last := |b| - 1;
      assert (a + b)[..|a + b| - 1] == a + b[..last];
      FramesConcat(a, b[..last]);
    }
  }

  lemma {:induction false} FramesOfPopsReceived<F>(exits: seq<P.Exit<F>>)
    ensures Frames(Pops(exits)) == P.Received(exits)
  {
    if exits != [] {
      var front := exits[..|exits| - 1];
      FramesOfPopsReceived(front);
      if Pops(exits) != Pops(front) {
        assert Pops(exits)[..|Pops(exits)| - 1] == Pops(front);
      }
    }
  }

  /** The pushed frames are those the pump has taken followed, until it unsubscribes, by those still queued. */
  lemma SourceOrder<F>(n: Net<F>)
    requires Inv(n)
    ensures Frames(Pops(n.source.exits)) <= n.source.pushed
    ensures n.source.consumer != P.Gone ==> n.source.pushed == Frames(Pops(n.source.exits)) + n.source.queue
  {
    FramesOfPopsReceived(n.source.exits);
  }

  /** Cutting a sequence of pops at two places cuts its frames at two places. */
  lemma FramesSegment<F>(pops: seq<Option<F>>, lo: nat, hi: nat)
    requires lo <= hi <= |pops|
    ensures var a, b := |Frames(pops[..lo])|, |Frames(pops[..lo])| + |Frames(pops[lo..hi])|;
            b <= |Frames(pops)| && Frames(pops[lo..hi]) == Frames(pops)[a..b]
    ensures hi == |pops| ==> |Frames(pops[..lo])| + |Frames(pops[lo..hi])| == |Frames(pops)|
  {
    assert pops[..lo] + pops[lo..] == pops;
    assert pops[lo..hi] + pops[hi..] == pops[lo..];
    FramesConcat(pops[..lo], pops[lo..]);
    FramesConcat(pops[lo..hi], pops[hi..]);
    if hi == |pops| {
      assert pops[lo..hi] == pops[lo..];
    }
  }

  /** What a listener has been pushed, as a slice of the pump's pops. */
  ghost predicate PushedSlice<F>(o: Outlet<F>, pops: seq<Option<F>>, turn: Turn) {
    && P.Received(o.q.exits) <= o.q.pushed
    && (o.q.consumer != P.Gone ==> P.Received(o.q.exits) + o.q.queue == o.q.pushed)
    && o.start <= |pops| && (turn == Waiting || turn == Sending ==> o.start < |pops|)
    && |o.q.pushed| == (if turn == Waiting then |pops| - 1 else |pops|) - o.start
    && o.q.pushed == pops[o.start..o.start + |o.q.pushed|]
    && (P.Idle(o.q) && o.q.consumer != P.Gone ==> o.q.queue == [])
  }

  lemma FedMeansSlice<F>(o: Outlet<F>, pops: seq<Option<F>>, turn: Turn)
    requires Fed(o, pops, turn)
    ensures PushedSlice(o, pops, turn)
  {
  }

  lemma RunFacts<F>(steps: seq<Step<F>>, l: string)
    requires IsRun(Init<F>(), steps) && l in Run(Init<F>(), steps).outlets
    ensures var n := Run(Init<F>(), steps);
            && PushedSlice(n.outlets[l], Pops(n.source.exits), TurnOf(n, l))
            && Frames(Pops(n.source.exits)) <= n.source.pushed
            && (P.Idle(n.source) && n.source.consumer != P.Gone ==> Frames(Pops(n.source.exits)) == n.source.pushed)
  {
    hide Run, IsRun;
    RunKeepsInv(Init<F>(), steps);
    var n := Run(Init<F>(), steps);
    FedMeansSlice(n.outlets[l], Pops(n.source.exits), TurnOf(n, l));
    SourceOrder(n);
  }

  lemma PrefixOfSlice<T>(got: seq<T>, pushed: seq<T>, pops: seq<T>, lo: nat)
    requires got <= pushed && lo + |pushed| <= |pops| && pushed == pops[lo..lo + |pushed|]
    ensures got == pops[lo..lo + |got|]
  {
    assert got == pushed[..|got|];
  }

  /** The frames delivered from a slice of the pops are a slice of the frames. */
  lemma SeenSegment<F>(o: Outlet<F>, pops: seq<Option<F>>, turn: Turn)
    requires PushedSlice(o, pops, turn)
    ensures var a, seen := |Frames(pops[..o.start])|, Frames(P.Received(o.q.exits));
            && a + |seen| <= |Frames(pops)| && seen == Frames(pops)[a..a + |seen|]
            && (o.q.consumer != P.Gone && o.q.queue == [] && turn != Waiting ==> a + |seen| == |Frames(pops)|)
  {
    var got := P.Received(o.q.exits);
    PrefixOfSlice(got, o.q.pushed, pops, o.start);
    FramesSegment(pops, o.start, o.start + |got|);
  }

  /**
   In every interleaving, what a consumer has seen is one contiguous segment of the frames pushed at the
   source: in order, without gaps, repeats or strangers, from the first frame handed round since it registered.
   That holds however its consumer, the pump or anyone else leaves, and up to the point where a nil makes it panic.
   */
  lemma SeenIsSegment<F>(steps: seq<Step<F>>, l: string)
    requires IsRun(Init<F>(), steps) && l in Run(Init<F>(), steps).outlets
    ensures var n := Run(Init<F>(), steps);
            && n.outlets[l].start <= |Pops(n.source.exits)|
            && Offset(n, l) + |Seen(n, l)| <= |n.source.pushed|
            && Seen(n, l) == n.source.pushed[Offset(n, l)..Offset(n, l) + |Seen(n, l)|]
  {
    hide Run, IsRun;
    RunFacts(steps, l);
    var n := Run(Init<F>(), steps);
    SeenSegment(n.outlets[l], Pops(n.source.exits), TurnOf(n, l));
  }

  /** Nothing is on its way from the source to the pump or to any listener. */
  predicate PumpQuiet<F>(n: Net<F>) {
    P.Idle(n.source) && n.source.consumer == P.Reading && n.forward.None?
  }

  /** ... nor in the queue of `l`, whose consumer still reads. */
  predicate Quiet<F>(n: Net<F>, l: string)
    requires l in n.outlets
  {
    PumpQuiet(n) && P.Idle(n.outlets[l].q) && n.outlets[l].q.consumer == P.Reading
  }

  /** A consumer that still reads when nothing is in flight has seen every frame taken since it registered. */
  lemma QuietMeansDelivered<F>(steps: seq<Step<F>>, l: string)
    requires IsRun(Init<F>(), steps) && l in Run(Init<F>(), steps).outlets && Quiet(Run(Init<F>(), steps), l)
    ensures var n := Run(Init<F>(), steps);
            && n.outlets[l].start <= |Pops(n.source.exits)|
            && Offset(n, l) <= |n.source.pushed|
            && Seen(n, l) == n.source.pushed[Offset(n, l)..]
  {
    hide Run, IsRun;
    RunFacts(steps, l);
    var n := Run(Init<F>(), steps);
    SeenSegment(n.outlets[l], Pops(n.source.exits), TurnOf(n, l));
  }

  // Nils

  /** Each nil a consumer is handed is a nil it was pushed, or a pop of its own that found the queue empty. */
  lemma {:induction false} HandedNil<F>(exits: seq<P.Exit<Option<F>>>)
    ensures None in Handed(exits) <==> None in P.Received(exits) || P.Empty in exits
  {
    if exits != [] {
      var front, e := exits[..|exits| - 1], exits[|exits| - 1];
      HandedNil(front);
      assert exits == front + [e];
    }
  }

  lemma {:induction false} PopsNil<F>(exits: seq<P.Exit<F>>)
    ensures None in Pops(exits) <==> P.Empty in exits
  {
    if exits != [] {
      var front, e := exits[..|exits| - 1], exits[|exits| - 1];
      PopsNil(front);
      assert exits == front + [e];
    }
  }

  /** No push on the listener's own queue found anything in it, and the pump has popped no nil since it registered. */
  ghost predicate NilFree<F>(o: Outlet<F>, pops: seq<Option<F>>) {
    o.start <= |pops| && o.q.found == 0 && None !in pops[o.start..]
  }

  lemma NilOfSlice<F>(got: seq<Option<F>>, pushed: seq<Option<F>>, pops: seq<Option<F>>, lo: nat)
    requires got <= pushed && lo + |pushed| <= |pops| && pushed == pops[lo..lo + |pushed|]
    ensures None in got ==> None in pops[lo..]
  {
    PrefixOfSlice(got, pushed, pops, lo);
    assert got == pops[lo..][..|got|];
  }

  lemma NilFreeHandsNoNil<F>(o: Outlet<F>, pops: seq<Option<F>>, turn: Turn)
    requires Fed(o, pops, turn)
    ensures NilFree(o, pops) ==> None !in Handed(o.q.exits)
    ensures P.Idle(o.q) && o.q.consumer != P.Gone && turn != Waiting && None !in Handed(o.q.exits) ==> NilFree(o, pops)
  {
    HandedNil(o.q.exits);
    P.EmptiesPositive(o.q.exits);
    FedMeansSlice(o, pops, turn);
    NilOfSlice(P.Received(o.q.exits), o.q.pushed, pops, o.start);
    if P.Idle(o.q) && o.q.consumer != P.Gone && turn != Waiting {
      assert P.Received(o.q.exits) == pops[o.start..];
    }
  }

  /** In every interleaving: a stream handler has panicked if and only if it was handed a nil. */
  lemma PanicsIffNil<F>(steps: seq<Step<F>>, l: string)
    requires IsRun(Init<F>(), steps) && l in Run(Init<F>(), steps).outlets
    ensures var o := Run(Init<F>(), steps).outlets[l];
            && (o.panicked <==> o.stream && None in Handed(o.q.exits))
            && (o.panicked ==> o.q.consumer != P.Reading)
  {
    hide Run, IsRun;
    RunKeepsInv(Init<F>(), steps);
    assert Fed(Run(Init<F>(), steps).outlets[l], Pops(Run(Init<F>(), steps).source.exits),
               TurnOf(Run(Init<F>(), steps), l));
  }

  /**
   Which stream handlers survive: at any time one whose queue was always empty when pushed and to which no nil was
   forwarded has not panicked; and one that has caught up, panicked or not, has survived exactly if that was so.
   It has then seen everything since it registered.
   */
  lemma StreamSurvivesIff<F>(steps: seq<Step<F>>, l: string)
    requires IsRun(Init<F>(), steps) && l in Run(Init<F>(), steps).outlets && Run(Init<F>(), steps).outlets[l].stream
    ensures var n := Run(Init<F>(), steps);
            var o, pops := n.outlets[l], Pops(n.source.exits);
            && o.start <= |pops|
            && (NilFree(o, pops) ==> !o.panicked)
            && (PumpQuiet(n) && (Quiet(n, l) || o.panicked) ==> (!o.panicked <==> NilFree(o, pops)))
            && (Quiet(n, l) ==> Offset(n, l) <= |n.source.pushed| && Seen(n, l) == n.source.pushed[Offset(n, l)..])
  {
    hide Run, IsRun;
    RunKeepsInv(Init<F>(), steps);
    var n := Run(Init<F>(), steps);
    assert Fed(n.outlets[l], Pops(n.source.exits), TurnOf(n, l));
    NilFreeHandsNoNil(n.outlets[l], Pops(n.source.exits), TurnOf(n, l));
    if Quiet(n, l) { QuietMeansDelivered(steps, l); }
  }

  /**
   Where the pump's nils come from: it has popped none while every push at the source found the source queue empty,
   and once it has caught up exactly then.
   */
  lemma PumpNils<F>(steps: seq<Step<F>>)
    requires IsRun(Init<F>(), steps)
    ensures var n := Run(Init<F>(), steps);
            && (n.source.found == 0 ==> None !in Pops(n.source.exits))
            && (P.Idle(n.source) && n.source.consumer != P.Gone ==>
                  (None in Pops(n.source.exits) <==> n.source.found > 0))
  {
    hide Run, IsRun;
    RunKeepsInv(Init<F>(), steps);
    var n := Run(Init<F>(), steps);
    PopsNil(n.source.exits);
    P.EmptiesPositive(n.source.exits);
  }

  /**
   So a stream handler that was there from the first frame, in a net that has come to rest, has survived if and only
   if every push, at the source and on its own queue, found an empty queue.
   */
  lemma FirstStreamSurvivesIff<F>(steps: seq<Step<F>>, l: string)
    requires IsRun(Init<F>(), steps) && l in Run(Init<F>(), steps).outlets
    requires var n := Run(Init<F>(), steps);
             && n.outlets[l].stream && n.outlets[l].start == 0
             && PumpQuiet(n) && (Quiet(n, l) || n.outlets[l].panicked)
    ensures var n := Run(Init<F>(), steps);
            !n.outlets[l].panicked <==> n.source.found == 0 && n.outlets[l].q.found == 0
  {
    hide Run, IsRun;
    StreamSurvivesIff(steps, l);
    PumpNils(steps);
    var n := Run(Init<F>(), steps);
    assert Pops(n.source.exits)[0..] == Pops(n.source.exits);
  }

  // Agreement of two listeners

  /** `a` from position `skip` on. */
  function From<T>(a: seq<T>, skip: nat): seq<T> {
    if skip <= |a| then a[skip..] else []
  }

  /** Two slices of a sequence that end at most one place apart. */
  lemma SlicesAgree<T>(pops: seq<T>, a: seq<T>, b: seq<T>, lo: nat, mid: nat)
    requires lo <= mid && lo + |a| <= |pops| && mid + |b| <= |pops| && -1 <= lo + |a| - mid - |b| <= 1
    requires a == pops[lo..lo + |a|] && b == pops[mid..mid + |b|]
    ensures var c := From(a, mid - lo);
            (c <= b || b <= c) && -1 <= |c| - |b| <= 1 && (lo + |a| == mid + |b| ==> c == b)
  {
    if mid - lo <= |a| {
      assert a[mid - lo..] == pops[mid..lo + |a|];
    }
  }

  /** The later sequence is the end of the earlier one, up to one item. */
  ghost predicate Agree<F>(earlier: Outlet<F>, later: Outlet<F>)
    requires earlier.start <= later.start
  {
    var a, b := From(earlier.q.pushed, later.start - earlier.start), later.q.pushed;
    (a <= b || b <= a) && -1 <= |a| - |b| <= 1
  }

  lemma SlicesMeanAgree<F>(earlier: Outlet<F>, later: Outlet<F>, pops: seq<Option<F>>, turn: Turn, turn': Turn)
    requires PushedSlice(earlier, pops, turn) && PushedSlice(later, pops, turn') && earlier.start <= later.start
    ensures Agree(earlier, later)
    ensures (turn == Waiting <==> turn' == Waiting) ==>
              From(earlier.q.pushed, later.start - earlier.start) == later.q.pushed
  {
    hide P.Received, P.Idle, P.Inv;
    SlicesAgree(pops, earlier.q.pushed, later.q.pushed, earlier.start, later.start);
  }

  /**
   Over the time both are registered two listeners are pushed the same items: the later one's sequence is the
   end of the earlier one's, up to the one item the pump is just handing round.
   */
  lemma ListenersAgree<F>(steps: seq<Step<F>>, l: string, m: string)
    requires IsRun(Init<F>(), steps)
    requires var n := Run(Init<F>(), steps);
             l in n.outlets && m in n.outlets && n.outlets[l].start <= n.outlets[m].start
    ensures var n := Run(Init<F>(), steps);
            && Agree(n.outlets[l], n.outlets[m])
            && (n.forward.None? ==>
                  From(n.outlets[l].q.pushed, n.outlets[m].start - n.outlets[l].start) == n.outlets[m].q.pushed)
  {
    hide Run, IsRun, PushedSlice, Agree, P.Received;
    RunFacts(steps, l);
    RunFacts(steps, m);
    var n := Run(Init<F>(), steps);
    SlicesMeanAgree(n.outlets[l], n.outlets[m], Pops(n.source.exits), TurnOf(n, l), TurnOf(n, m));
  }

  // Queues nobody reads any more

  /** Once the pump has left, the source queue comes to hold the ten newest frames. */
  lemma AbandonedSourceKeepsTen<F>(n: Net<F>, steps: seq<P.Step<F>>)
    requires Inv(n) && P.Enabled(n.source, P.Unsub) && P.IsRun(P.Apply(n.source, P.Unsub), steps)
    ensures var before, after := P.Apply(n.source, P.Unsub), P.Run(P.Apply(n.source, P.Unsub), steps);
            |after.pushed| >= |before.pushed| + 10 ==> after.queue == P.Newest(after.pushed, 10)
  {
    P.UnsubLeavesNewest(n.source);
    P.AbandonedQueueKeepsNewest(P.Apply(n.source, P.Unsub), steps);
  }

  /** And the queue of a listener that has left, until it is deregistered, the twenty newest items. */
  lemma AbandonedListenerKeepsTwenty<F>(n: Net<F>, l: string, steps: seq<P.Step<Option<F>>>)
    requires Inv(n) && l in n.outlets && P.Enabled(n.outlets[l].q, P.Unsub)
    requires P.IsRun(P.Apply(n.outlets[l].q, P.Unsub), steps)
    ensures var before, after := P.Apply(n.outlets[l].q, P.Unsub), P.Run(P.Apply(n.outlets[l].q, P.Unsub), steps);
            |after.pushed| >= |before.pushed| + 20 ==> after.queue == P.Newest(after.pushed, 20)
  {
    assert Fed(n.outlets[l], Pops(n.source.exits), TurnOf(n, l));
    P.UnsubLeavesNewest(n.outlets[l].q);
    P.AbandonedQueueKeepsNewest(P.Apply(n.outlets[l].q, P.Unsub), steps);
  }

  // One blocked listener blocks the pump

  /** The pump waits for good inside its push on the queue of `l`. */
  predicate BlockedAt<F>(n: Net<F>, l: string) {
    && n.forward.Some? && n.forward.value.at == Some(l) && l in n.forward.value.left
    && l in n.outlets && P.Deadlocked(n.outlets[l].q)
  }

  /** Every listener that is still there has been pushed nothing more, and a new one nothing at all. */
  ghost predicate NothingPushed<F>(n: Net<F>, n': Net<F>) {
    forall m :: m in n'.outlets ==>
      n'.outlets[m].q.pushed == [] || (m in n.outlets && n'.outlets[m].q.pushed == n.outlets[m].q.pushed)
  }

  lemma BlockedStep<F>(n: Net<F>, l: string, step: Step<F>)
    requires BlockedAt(n, l) && Enabled(n, step)
    ensures BlockedAt(Apply(n, step), l) && NothingPushed(n, Apply(n, step))
    ensures Pops(Apply(n, step).source.exits) == Pops(n.source.exits)
  {
    hide Pops, Handed;
    if step.Produce? && n.source.queue != [] {
      PopsSnoc(n.source.exits, P.Dropped(n.source.queue[0]));
    } else if step.Deregister? {
      assert l in n.forward.value.left - {step.name};
    }
  }

  /** From then on, whatever else happens, the pump takes no frame and no listener is pushed anything. */
  lemma {:induction false} BlockedListenerStopsPump<F>(n: Net<F>, l: string, steps: seq<Step<F>>)
    requires BlockedAt(n, l) && IsRun(n, steps)
    ensures BlockedAt(Run(n, steps), l) && NothingPushed(n, Run(n, steps))
    ensures Pops(Run(n, steps).source.exits) == Pops(n.source.exits)
    decreases steps
  {
    if steps != [] {
      BlockedStep(n, l, steps[0]);
      BlockedListenerStopsPump(Apply(n, steps[0]), l, steps[1..]);
    }
  }

  predicate NoForwardSends<F>(steps: seq<Step<F>>) {
    forall i :: 0 <= i < |steps| ==> !steps[i].ForwardSend?
  }

  predicate EndsBlocked<F>(n: Net<F>, l: string, steps: seq<Step<F>>) {
    IsRun(n, steps) && NoForwardSends(steps) && BlockedAt(Run(n, steps), l)
  }

  /** A push on the queue of `l` would find a free place, or nobody to signal. */
  predicate HasRoom<F>(n: Net<F>, l: string) {
    l in n.outlets ==> n.outlets[l].q.consumer == P.Gone || |n.outlets[l].q.signals| < P.CAPACITY
  }

  /** Only the pump's sends take places, so without one the room stays, even if the name is registered anew. */
  lemma {:induction false} NoForwardSendsKeepRoom<F>(n: Net<F>, l: string, steps: seq<Step<F>>)
    requires HasRoom(n, l) && IsRun(n, steps) && NoForwardSends(steps)
    ensures HasRoom(Run(n, steps), l)
    decreases steps
  {
    if steps != [] {
      assert !steps[0].ForwardSend?;
      assert forall i :: 0 <= i < |steps[1..]| ==> steps[1..][i] == steps[i + 1];
      NoForwardSendsKeepRoom(Apply(n, steps[0]), l, steps[1..]);
    }
  }

  lemma RoomIsNotBlocked<F>(n: Net<F>, l: string)
    requires Inv(n) && HasRoom(n, l)
    ensures !BlockedAt(n, l)
  {
    if l in n.outlets {
      assert Fed(n.outlets[l], Pops(n.source.exits), TurnOf(n, l));
    }
  }

  /** The pump, about to push on the queue of `l`, can be blocked there exactly if it finds the channel full. */
  lemma PumpCanBlockIff<F(!new)>(n: Net<F>, l: string)
    requires Inv(n) && Enabled(n, ForwardBegin(l))
    ensures (exists steps :: EndsBlocked(Apply(n, ForwardBegin(l)), l, steps)) <==>
            n.outlets[l].q.consumer != P.Gone && |n.outlets[l].q.signals| == P.CAPACITY
  {
    var begun := Apply(n, ForwardBegin(l));
    StepKeepsInv(n, ForwardBegin(l));
    assert Fed(n.outlets[l], Pops(n.source.exits), TurnOf(n, l));
    if HasRoom(n, l) {
      forall steps | IsRun(begun, steps) && NoForwardSends(steps) ensures !BlockedAt(Run(begun, steps), l) {
        RunKeepsInv(begun, steps);
        NoForwardSendsKeepRoom(begun, l, steps);
        RoomIsNotBlocked(Run(begun, steps), l);
      }
    } else {
      FullCanBlock(n, l);
    }
  }

  lemma FullCanBlock<F(!new)>(n: Net<F>, l: string)
    requires Inv(n) && Enabled(n, ForwardBegin(l)) && !HasRoom(n, l)
    ensures exists steps :: EndsBlocked(Apply(n, ForwardBegin(l)), l, steps)
  {
    var begun := Apply(n, ForwardBegin(l));
    SendingWithoutRoom(n, l);
    if BlockedAt(begun, l) {
      var none: seq<Step<F>> := [];
      assert EndsBlocked(begun, l, none);
    } else {
      LeavingBlocks(begun, l);
      var leave: seq<Step<F>> := [ConsumerLeave(l)];
      assert leave[1..] == [] && IsRun(Apply(begun, ConsumerLeave(l)), leave[1..]);
      assert EndsBlocked(begun, l, leave);
    }
  }

  /** The pump waits in its push on the queue of `l`, whose consumer may still help it out. */
  predicate WaitsAt<F>(n: Net<F>, l: string) {
    && !n.down && n.forward.Some? && n.forward.value.at == Some(l) && l in n.forward.value.left && l in n.outlets
    && !n.outlets[l].q.crashed && n.outlets[l].q.sending.Some? && |n.outlets[l].q.signals| == P.CAPACITY
    && n.outlets[l].q.todo >= 0 && n.outlets[l].q.consumer != P.Gone
  }

  lemma SendingWithoutRoom<F>(n: Net<F>, l: string)
    requires Inv(n) && Enabled(n, ForwardBegin(l)) && !HasRoom(n, l)
    ensures WaitsAt(Apply(n, ForwardBegin(l)), l)
  {
    assert Fed(n.outlets[l], Pops(n.source.exits), TurnOf(n, l));
    BeginHandsNothing(n.outlets[l].q, n.forward.value.item);
  }

  lemma LeavingBlocks<F>(n: Net<F>, l: string)
    requires WaitsAt(n, l) && !BlockedAt(n, l)
    ensures Enabled(n, ConsumerLeave(l)) && BlockedAt(Apply(n, ConsumerLeave(l)), l)
  {
  }

  // Coming to rest

  /** Not a new frame, a new listener, or somebody's decision to leave. */
  predicate Internal<F>(step: Step<F>) {
    match step
    case Produce(_) => false
    case PumpLeave => false
    case ConsumerPop(_, leaves) => !leaves
    case ConsumerLeave(_) => false
    case Register(_, _, _) => false
    case _ => true
  }

  ghost predicate NoneStuck<F>(n: Net<F>) {
    !P.Deadlocked(n.source) && forall l :: l in n.outlets ==> !P.Deadlocked(n.outlets[l].q)
  }

  /** Nothing in flight anywhere, and every consumer that has left is deregistered. */
  ghost predicate AtRest<F>(n: Net<F>) {
    && P.AtRest(n.source) && n.forward.None?
    && forall l :: l in n.outlets ==> P.AtRest(n.outlets[l].q) && n.outlets[l].q.consumer != P.Gone
  }

  /** A push that begins finds a free place, or its consumer gone. */
  predicate FindsRoom<F>(n: Net<F>, step: Step<F>) {
    match step
    case Produce(_) => n.source.consumer == P.Gone || |n.source.signals| < P.CAPACITY
    case ForwardBegin(l) => HasRoom(n, l)
    case _ => true
  }

  /** Short of rest some internal step is enabled that begins no push without room, unless a queue is stuck. */
  lemma NetGoesOn<F>(n: Net<F>) returns (step: Step<F>)
    requires Inv(n) && !n.down && NoneStuck(n) && !AtRest(n)
    ensures Internal(step) && Enabled(n, step) && FindsRoom(n, step)
  {
    hide Fed, P.Inv, P.Apply, P.AtRest, Pops, Sound;
    if n.forward.Some? {
      step := PumpGoesOn(n);
    } else if !P.AtRest(n.source) {
      step := SourceGoesOn(n);
    } else {
      var l :| l in n.outlets && !(P.AtRest(n.outlets[l].q) && n.outlets[l].q.consumer != P.Gone);
      OutletFacts(n, l);
      if n.outlets[l].q.consumer == P.Gone {
        step := Deregister(l);
      } else {
        step := ConsumerGoesOn(n, l);
      }
    }
  }

  lemma SourceGoesOn<F>(n: Net<F>) returns (step: Step<F>)
    requires !n.down && n.forward.None? && !P.AtRest(n.source)
    requires Sound(n.source, SOURCE_LIMIT) && !P.Deadlocked(n.source)
    ensures Internal(step) && Enabled(n, step) && FindsRoom(n, step)
  {
    P.GoesOn(n.source);
    step := if P.Enabled(n.source, P.PushSend) then ProduceSend
            else if P.Enabled(n.source, P.Receive) then PumpReceive
            else if P.Enabled(n.source, P.Pop(false)) then PumpPop
            else PumpUnsub;
  }

  /** A consumer with something left to do, and no push in its way, can do it. */
  lemma ConsumerGoesOn<F>(n: Net<F>, l: string) returns (step: Step<F>)
    requires !n.down && l in n.outlets && P.Inv(n.outlets[l].q) && !n.outlets[l].q.crashed
    requires n.outlets[l].q.sending.None? && !P.AtRest(n.outlets[l].q)
    ensures Internal(step) && Enabled(n, step) && FindsRoom(n, step)
  {
    var q := n.outlets[l].q;
    P.GoesOn(q);
    step := if P.Enabled(q, P.Receive) then ConsumerReceive(l)
            else if P.Enabled(q, P.Pop(false)) then ConsumerPop(l, false)
            else ConsumerUnsub(l);
  }

  /** What a listener's place in the pump's loop says about its queue. */
  lemma OutletFacts<F>(n: Net<F>, l: string)
    requires Inv(n) && l in n.outlets
    ensures var q := n.outlets[l].q;
            && P.Inv(q) && !q.crashed && |q.signals| <= P.CAPACITY && q.todo >= 0
            && (q.sending.Some? <==> TurnOf(n, l) == Sending) && (q.sending.Some? ==> q.consumer != P.Gone)
  {
    assert Fed(n.outlets[l], Pops(n.source.exits), TurnOf(n, l));
  }

  lemma PumpGoesOn<F>(n: Net<F>) returns (step: Step<F>)
    requires Inv(n) && !n.down && NoneStuck(n) && n.forward.Some?
    ensures Internal(step) && Enabled(n, step) && FindsRoom(n, step)
  {
    hide Fed, P.Inv, P.Apply, Pops, Sound;
    var f := n.forward.value;
    var l :| l in f.left && (f.at.Some? ==> f.at == Some(l));
    OutletFacts(n, l);
    if f.at.Some? {
      step := if |n.outlets[l].q.signals| < P.CAPACITY then ForwardSend else ConsumerReceive(l);
    } else if HasRoom(n, l) {
      step := ForwardBegin(l);
    } else {
      step := ConsumerGoesOn(n, l);
    }
  }

  /** Effort left in the pump's loop. */
  function ForwardEffort<F>(n: Net<F>): int {
    EffortOf(n.forward)
  }

  /** Effort left in the queues of `names`, and one for each of them to deregister. */
  ghost function Total<F>(outlets: map<string, Outlet<F>>, names: set<string>): int
    requires names <= outlets.Keys
  {
    if names == {} then 0
    else
      var l :| l in names;
      P.Effort(outlets[l].q) + 1 + Total(outlets, names - {l})
  }

  lemma {:induction false} TotalSplit<F>(outlets: map<string, Outlet<F>>, names: set<string>, l: string)
    requires names <= outlets.Keys && l in names
    ensures Total(outlets, names) == P.Effort(outlets[l].q) + 1 + Total(outlets, names - {l})
    decreases names
  {
    var m :| m in names && Total(outlets, names) == P.Effort(outlets[m].q) + 1 + Total(outlets, names - {m});
    if m != l {
      TotalSplit(outlets, names - {m}, l);
      TotalSplit(outlets, names - {l}, m);
      assert names - {m} - {l} == names - {l} - {m};
    }
  }

  lemma {:induction false} TotalSame<F>(a: map<string, Outlet<F>>, b: map<string, Outlet<F>>, names: set<string>)
    requires names <= a.Keys && names <= b.Keys && forall l :: l in names ==> a[l].q == b[l].q
    ensures Total(a, names) == Total(b, names)
    decreases names
  {
    if names != {} {
      var l :| l in names;
      TotalSplit(a, names, l);
      TotalSplit(b, names, l);
      TotalSame(a, b, names - {l});
    }
  }

  lemma {:induction false} TotalIsNatural<F>(outlets: map<string, Outlet<F>>, names: set<string>)
    requires names <= outlets.Keys && forall l :: l in names ==> P.Inv(outlets[l].q)
    ensures Total(outlets, names) >= 0
    decreases names
  {
    if names != {} {
      var l :| l in names;
      TotalSplit(outlets, names, l);
      P.EffortIsNatural(outlets[l].q);
      TotalIsNatural(outlets, names - {l});
    }
  }

  /** Replacing one queue by one with less effort left lowers the total. */
  lemma TotalLowered<F>(outlets: map<string, Outlet<F>>, l: string, o: Outlet<F>)
    requires l in outlets && P.Effort(o.q) < P.Effort(outlets[l].q)
    ensures Total(outlets[l := o], outlets[l := o].Keys) < Total(outlets, outlets.Keys)
  {
    var after := outlets[l := o];
    assert after.Keys == outlets.Keys;
    TotalSplit(outlets, outlets.Keys, l);
    TotalSplit(after, after.Keys, l);
    TotalSame(outlets, after, outlets.Keys - {l});
  }

  /** Work at the source first, then in the pump's loop, then at the listeners. */
  ghost predicate LessLeft<F>(n': Net<F>, n: Net<F>) {
    var source, forward, total := P.Effort(n.source), ForwardEffort(n), Total(n.outlets, n.outlets.Keys);
    var source', forward', total' := P.Effort(n'.source), ForwardEffort(n'), Total(n'.outlets, n'.outlets.Keys);
    || source' < source
    || (source' == source && forward' < forward)
    || (source' == source && forward' == forward && total' < total)
  }

  lemma LeftNames<F>(f: Forward<F>, l: string)
    ensures l in f.left ==> |f.left - {l}| == |f.left| - 1
    ensures l !in f.left ==> f.left - {l} == f.left
  {
  }

  lemma ConsumerStepTires<F>(n: Net<F>, l: string, step: P.Step<Option<F>>, o: Outlet<F>)
    requires Inv(n) && l in n.outlets && P.Enabled(n.outlets[l].q, step) && !step.PushBegin?
    requires o.q == P.Apply(n.outlets[l].q, step)
    ensures LessLeft(n.(outlets := n.outlets[l := o]), n)
  {
    assert Fed(n.outlets[l], Pops(n.source.exits), TurnOf(n, l));
    P.StepTires(n.outlets[l].q, step);
    TotalLowered(n.outlets, l, o);
  }

  lemma DeregisterTires<F>(n: Net<F>, l: string)
    requires Inv(n) && Enabled(n, Deregister(l))
    ensures LessLeft(Apply(n, Deregister(l)), n)
  {
    assert Fed(n.outlets[l], Pops(n.source.exits), TurnOf(n, l));
    var n' := Apply(n, Deregister(l));
    P.EffortIsNatural(n.outlets[l].q);
    TotalSplit(n.outlets, n.outlets.Keys, l);
    assert n'.outlets.Keys == n.outlets.Keys - {l};
    TotalSame(n.outlets, n'.outlets, n'.outlets.Keys);
    if n.forward.Some? {
      LeftNames(n.forward.value, l);
      assert n.forward.value.left - {l} == {} ==> ForwardEffort(n) > 0;
    }
  }

  /** The pump's loop after a forwarding step. */
  lemma ForwardAfter<F>(n: Net<F>, step: Step<F>)
    requires Enabled(n, step) && (step.ForwardBegin? || step.ForwardSend?)
    ensures var f := n.forward.value;
            && Apply(n, step).source == n.source
            && Apply(n, step).forward ==
                 if step.ForwardSend? then AfterServing(f, f.at.value)
                 else if n.outlets[step.name].q.consumer == P.Gone then AfterServing(f, step.name)
                 else Some(f.(at := Some(step.name)))
  {
    hide P.Apply, P.Enabled;
  }

  function EffortOf<F>(forward: Option<Forward<F>>): int {
    match forward
    case None => 0
    case Some(f) => 2 * |f.left| - if f.at.Some? then 1 else 0
  }

  /** Serving a listener shortens the pump's loop, and so does getting as far as its send. */
  lemma ServingTires<F>(f: Forward<F>, l: string)
    requires l in f.left && (f.at.None? || f.at == Some(l))
    ensures EffortOf(AfterServing(f, l)) < EffortOf(Some(f))
    ensures f.at.None? ==> EffortOf(Some(f.(at := Some(l)))) < EffortOf(Some(f))
  {
    LeftNames(f, l);
  }

  lemma ForwardStepTires<F>(n: Net<F>, step: Step<F>)
    requires Inv(n) && Enabled(n, step) && (step.ForwardBegin? || step.ForwardSend?)
    ensures Apply(n, step).source == n.source && ForwardEffort(Apply(n, step)) < ForwardEffort(n)
  {
    var f := n.forward.value;
    assert f.at.Some? ==> f.at.value in f.left;
    ForwardAfter(n, step);
    hide Inv, Apply, AfterServing, EffortOf;
    ServingTires(f, if step.ForwardBegin? then step.name else f.at.value);
  }

  /** Every internal step uses up some of the work left. */
  lemma InternalStepTires<F>(n: Net<F>, step: Step<F>)
    requires Inv(n) && Internal(step) && Enabled(n, step)
    ensures LessLeft(Apply(n, step), n)
  {
    hide Fed, P.Apply;
    match step {
      case ProduceSend => P.StepTires(n.source, P.PushSend);
      case PumpReceive => P.StepTires(n.source, P.Receive);
      case PumpPop => P.StepTires(n.source, P.Pop(false));
      case PumpUnsub => P.StepTires(n.source, P.Unsub);
      case ForwardBegin(_) => ForwardStepTires(n, step);
      case ForwardSend => ForwardStepTires(n, step);
      case ConsumerReceive(l) =>
        ConsumerStepTires(n, l, P.Receive, Apply(n, step).outlets[l]);
      case ConsumerPop(l, _) =>
        ConsumerStepTires(n, l, P.Pop(Dies(n.outlets[l])), PopOutlet(n.outlets[l], false));
      case ConsumerUnsub(l) =>
        ConsumerStepTires(n, l, P.Unsub, Apply(n, step).outlets[l]);
      case Deregister(l) => DeregisterTires(n, l);
    }
  }

  lemma RunCons<F>(n: Net<F>, step: Step<F>, rest: seq<Step<F>>) returns (steps: seq<Step<F>>)
    requires Enabled(n, step) && IsRun(Apply(n, step), rest)
    ensures steps == [step] + rest && IsRun(n, steps) && Run(n, steps) == Run(Apply(n, step), rest)
  {
    steps := [step] + rest;
    assert steps[1..] == rest;
  }

  /** Changing one queue into one that is not stuck leaves none stuck. */
  lemma NoneStuckAfter<F>(n: Net<F>, n': Net<F>, name: string)
    requires NoneStuck(n) && n'.source == n.source
    requires forall l :: l in n'.outlets && l != name ==> l in n.outlets && n'.outlets[l] == n.outlets[l]
    requires name in n'.outlets ==> !P.Deadlocked(n'.outlets[name].q)
    ensures NoneStuck(n')
  {
  }

  lemma OutletStaysUnstuck<F>(n: Net<F>, n': Net<F>, l: string, step: P.Step<Option<F>>)
    requires NoneStuck(n) && l in n.outlets && P.Enabled(n.outlets[l].q, step) && !step.Leave?
    requires |n.outlets[l].q.signals| <= P.CAPACITY
    requires step.PushBegin? ==> HasRoom(n, l)
    requires n'.source == n.source && n'.outlets.Keys == n.outlets.Keys
    requires n'.outlets[l].q == P.Apply(n.outlets[l].q, step)
    requires forall m :: m in n.outlets && m != l ==> n'.outlets[m] == n.outlets[m]
    ensures NoneStuck(n')
  {
    P.StaysUnstuck(n.outlets[l].q, step);
    NoneStuckAfter(n, n', l);
  }

  lemma SourceStaysUnstuck<F>(n: Net<F>, n': Net<F>, step: P.Step<F>)
    requires NoneStuck(n) && P.Enabled(n.source, step) && !step.Leave? && !step.PushBegin?
    requires |n.source.signals| <= P.CAPACITY
    requires n'.source == P.Apply(n.source, step) && n'.outlets == n.outlets
    ensures NoneStuck(n')
  {
    P.StaysUnstuck(n.source, step);
  }

  ghost predicate SignalsFit<F>(n: Net<F>) {
    && |n.source.signals| <= P.CAPACITY
    && forall l :: l in n.outlets ==> |n.outlets[l].q.signals| <= P.CAPACITY
  }

  lemma InvSignalsFit<F>(n: Net<F>)
    requires Inv(n)
    ensures SignalsFit(n)
  {
    forall l | l in n.outlets ensures |n.outlets[l].q.signals| <= P.CAPACITY {
      assert Fed(n.outlets[l], Pops(n.source.exits), TurnOf(n, l));
    }
  }

  /** Internal steps that begin no push without room leave no queue stuck. */
  lemma StaysUnstuck<F>(n: Net<F>, step: Step<F>)
    requires SignalsFit(n) && NoneStuck(n) && Internal(step) && Enabled(n, step) && FindsRoom(n, step)
    ensures NoneStuck(Apply(n, step))
  {
    hide P.Apply, P.Deadlocked;
    var n' := Apply(n, step);
    match step {
      case ProduceSend => SourceStaysUnstuck(n, n', P.PushSend);
      case PumpReceive => SourceStaysUnstuck(n, n', P.Receive);
      case PumpPop => SourceStaysUnstuck(n, n', P.Pop(false));
      case PumpUnsub => SourceStaysUnstuck(n, n', P.Unsub);
      case ForwardBegin(l) => OutletStaysUnstuck(n, n', l, P.PushBegin(n.forward.value.item));
      case ForwardSend => OutletStaysUnstuck(n, n', n.forward.value.at.value, P.PushSend);
      case ConsumerReceive(l) => OutletStaysUnstuck(n, n', l, P.Receive);
      case ConsumerPop(l, _) => OutletStaysUnstuck(n, n', l, P.Pop(Dies(n.outlets[l])));
      case ConsumerUnsub(l) => OutletStaysUnstuck(n, n', l, P.Unsub);
      case Deregister(l) => NoneStuckAfter(n, n', l);
    }
  }

  /**
   Once producers stop and nobody decides to leave, a net with no stuck queue can come to rest: every internal step
   leaves less work, and some order of them ends at rest, or with the daemon down. At rest, with the pump still there,
   every listener is quiet, so `QuietMeansDelivered` applies to all of them.
   */
  lemma {:induction false} ComesToRest<F>(n: Net<F>) returns (steps: seq<Step<F>>)
    requires Inv(n) && NoneStuck(n)
    ensures IsRun(n, steps) && forall i :: 0 <= i < |steps| ==> Internal(steps[i])
    ensures var n' := Run(n, steps); Inv(n') && (n'.down || AtRest(n'))
    ensures var n' := Run(n, steps);
            AtRest(n') && n'.source.consumer != P.Gone ==> forall l :: l in n'.outlets ==> Quiet(n', l)
    decreases P.Effort(n.source), ForwardEffort(n), Total(n.outlets, n.outlets.Keys)
  {
    hide Inv, Apply, NoneStuck, Fed;
    steps := [];
    if !n.down && !AtRest(n) {
      var step := NetGoesOn(n);
      InternalStepTires(n, step);
      StepKeepsInv(n, step);
      InvSignalsFit(n);
      StaysUnstuck(n, step);
      EffortsAreNatural(n);
      var rest := ComesToRest(Apply(n, step));
      steps := RunCons(n, step, rest);
      assert forall i :: 0 <= i < |steps| ==> steps[i] == if i == 0 then step else rest[i - 1];
    }
  }

  // The throttled net

  /** The push in progress in each queue, if there is one, does not have to wait. */
  ghost predicate Roomy<F>(n: Net<F>) {
    P.Roomy(n.source) && forall l :: l in n.outlets ==> P.Roomy(n.outlets[l].q)
  }

  predicate Throttled<F>(n: Net<F>, steps: seq<Step<F>>)
    requires IsRun(n, steps)
    decreases steps
  {
    steps == [] || (FindsRoom(n, steps[0]) && Throttled(Apply(n, steps[0]), steps[1..]))
  }

  lemma RoomyStep<F>(n: Net<F>, step: Step<F>)
    requires Roomy(n) && Enabled(n, step) && FindsRoom(n, step)
    ensures Roomy(Apply(n, step))
  {
    var n' := Apply(n, step);
    forall l | l in n'.outlets ensures P.Roomy(n'.outlets[l].q) {
      if l in n.outlets { assert P.Roomy(n.outlets[l].q); }
    }
  }

  /**
   If every push, at the source and on the listeners' queues, begins with a free place or after the departure of its
   consumer, no queue is ever stuck, in whatever order things happen and whoever leaves.
   */
  lemma {:induction false} ThrottledNeverStuck<F>(n: Net<F>, steps: seq<Step<F>>)
    requires Roomy(n) && IsRun(n, steps) && Throttled(n, steps)
    ensures Roomy(Run(n, steps)) && NoneStuck(Run(n, steps))
    decreases steps
  {
    if steps == [] {
      forall l | l in n.outlets ensures !P.Deadlocked(n.outlets[l].q) {
        assert P.Roomy(n.outlets[l].q);
      }
    } else {
      RoomyStep(n, steps[0]);
      ThrottledNeverStuck(Apply(n, steps[0]), steps[1..]);
    }
  }

  lemma EffortsAreNatural<F>(n: Net<F>)
    requires Inv(n)
    ensures P.Effort(n.source) >= 0 && ForwardEffort(n) >= 0 && Total(n.outlets, n.outlets.Keys) >= 0
  {
    P.EffortIsNatural(n.source);
    forall l | l in n.outlets ensures P.Inv(n.outlets[l].q) {
      assert Fed(n.outlets[l], Pops(n.source.exits), TurnOf(n, l));
    }
    TotalIsNatural(n.outlets, n.outlets.Keys);
    if n.forward.Some? {
      assert n.forward.value.left != {};
    }
  }

  // A run that ends the daemon

  ghost predicate Reachable<F(!new)>(n: Net<F>) {
    exists steps: seq<Step<F>> :: IsRun(Init<F>(), steps) && Run(Init<F>(), steps) == n
  }

  lemma {:induction false} RunSnoc<F>(n: Net<F>, steps: seq<Step<F>>, step: Step<F>)
    requires IsRun(n, steps) && Enabled(Run(n, steps), step)
    ensures IsRun(n, steps + [step]) && Run(n, steps + [step]) == Apply(Run(n, steps), step)
    decreases steps
  {
    if steps == [] {
      assert [step][1..] == [];
    } else {
      RunSnoc(Apply(n, steps[0]), steps[1..], step);
      assert (steps + [step])[1..] == steps[1..] + [step];
    }
  }

  lemma ReachApply<F(!new)>(n: Net<F>, step: Step<F>) returns (n': Net<F>)
    requires Reachable(n) && Enabled(n, step)
    ensures Reachable(n') && n' == Apply(n, step)
  {
    var steps: seq<Step<F>> :| IsRun(Init<F>(), steps) && Run(Init<F>(), steps) == n;
    RunSnoc(Init<F>(), steps, step);
    n' := Apply(n, step);
  }

  /** A source whose consumer has caught up. */
  predicate CaughtUp<F>(q: P.State<F>) {
    && q.queue == [] && q.signals == [] && q.todo == 0 && q.sending.None?
    && q.consumer == P.Reading && !q.crashed && q.limit == SOURCE_LIMIT
  }

  /** A net with one listener, whose pump has caught up. */
  predicate Fresh<F>(n: Net<F>, l: string) {
    !n.down && n.forward.None? && n.outlets.Keys == {l} && CaughtUp(n.source)
  }

  /** An undisturbed frame, from its push at the source into the pump's hands. */
  lemma PumpTakes<F(!new)>(n: Net<F>, l: string, f: F) returns (n': Net<F>)
    requires Reachable(n) && Fresh(n, l)
    ensures Reachable(n') && !n'.down && n'.outlets == n.outlets
    ensures n'.forward == Some(Forward(Some(f), {l}, None))
    ensures CaughtUp(n'.source) && n'.source.found == n.source.found
  {
    hide Run, IsRun, Reachable, Pops;
    n' := ReachApply(n, Produce(f));
    n' := ReachApply(n', ProduceSend);
    n' := ReachApply(n', PumpReceive);
    n' := ReachApply(n', PumpPop);
  }

  /** A listener's queue after an undisturbed push. */
  function Pushed<T>(q: P.State<T>, x: T): P.State<T> {
    q.(queue := q.queue + [x], signals := q.signals + [|q.queue| + 2], pushed := q.pushed + [x],
       found := q.found + |q.queue|)
  }

  /** ... and on into the queue of the only listener. */
  lemma PumpForwards<F(!new)>(n: Net<F>, l: string, item: Option<F>) returns (n': Net<F>)
    requires Reachable(n) && !n.down && l in n.outlets && n.forward == Some(Forward(item, {l}, None))
    requires var q := n.outlets[l].q;
             && q.sending.None? && |q.signals| < P.CAPACITY && !q.crashed && q.consumer == P.Reading
             && q.limit == LISTENER_LIMIT && |q.queue| != LISTENER_LIMIT
    ensures Reachable(n') && !n'.down && n'.forward.None? && n'.source == n.source
    ensures n'.outlets == n.outlets[l := n.outlets[l].(q := Pushed(n.outlets[l].q, item))]
  {
    hide Run, IsRun, Reachable, Pops;
    n' := ReachApply(n, ForwardBegin(l));
    n' := ReachApply(n', ForwardSend);
    assert {l} - {l} == {};
  }

  lemma FrameTravels<F(!new)>(n: Net<F>, l: string, f: F) returns (n': Net<F>)
    requires Reachable(n) && Fresh(n, l) && l in n.outlets
    requires var q := n.outlets[l].q;
             && q.sending.None? && |q.signals| < P.CAPACITY && !q.crashed && q.consumer == P.Reading
             && q.limit == LISTENER_LIMIT && |q.queue| != LISTENER_LIMIT
    ensures Reachable(n') && Fresh(n', l) && n'.source.found == n.source.found
    ensures n'.outlets == n.outlets[l := n.outlets[l].(q := Pushed(n.outlets[l].q, Some(f)))]
  {
    n' := PumpTakes(n, l, f);
    n' := PumpForwards(n', l, Some(f));
    assert n'.outlets.Keys == n.outlets.Keys;
  }

  lemma OneListener<F(!new)>(l: string, stream: bool) returns (n: Net<F>)
    ensures Reachable(n) && Fresh(n, l) && l in n.outlets && n.source.found == 0
    ensures n.outlets[l] == Outlet(P.Init(LISTENER_LIMIT), 0, stream, false)
  {
    n := Init();
    var none: seq<Step<F>> := [];
    assert IsRun(Init<F>(), none) && Run(Init<F>(), none) == n;
    n := ReachApply(n, Register(l, stream, false));
  }

  /** A stream handler pops once more than there are frames. */
  lemma HandlerOverPops<F(!new)>(n: Net<F>, l: string, f: F) returns (n': Net<F>)
    requires Reachable(n) && !n.down && l in n.outlets && n.outlets[l].stream
    requires var q := n.outlets[l].q;
             && q.queue == [Some(f)] && q.todo == 2 && q.sending.None? && q.consumer == P.Reading && !q.crashed
    ensures Reachable(n') && n'.down && n'.source == n.source
    ensures l in n'.outlets && n'.outlets[l].panicked && n'.outlets[l].q.found == n.outlets[l].q.found
  {
    hide Run, IsRun, Reachable, Pops;
    n' := ReachApply(n, ConsumerPop(l, false));
    n' := ReachApply(n', ConsumerPop(l, false));
    n' := ReachApply(n', ConsumerUnsub(l));
  }

  lemma HandlerTakesFirst<F(!new)>(n: Net<F>, l: string, f: F, g: F) returns (n': Net<F>)
    requires Reachable(n) && !n.down && l in n.outlets
    requires var q := n.outlets[l].q;
             && q.queue == [Some(f), Some(g)] && q.signals == [2, 3] && q.todo == 0
             && q.sending.None? && q.consumer == P.Reading && !q.crashed
    ensures Reachable(n') && !n'.down && n'.source == n.source
    ensures l in n'.outlets && n'.outlets[l].stream == n.outlets[l].stream
    ensures var q := n'.outlets[l].q;
            && q.queue == [Some(g)] && q.todo == 2 && q.sending.None? && q.consumer == P.Reading && !q.crashed
            && q.found == n.outlets[l].q.found
  {
    hide Run, IsRun, Reachable, Pops;
    n' := ReachApply(n, ConsumerReceive(l));
    n' := ReachApply(n', ConsumerPop(l, false));
    n' := ReachApply(n', ConsumerReceive(l));
  }

  /** Two frames that reach a stream handler's queue before it looks are enough: it over-pops, and the daemon ends. */
  lemma StreamEndsDaemon<F(!new)>(l: string, f: F, g: F) returns (n: Net<F>)
    ensures Reachable(n) && n.down && n.source.found == 0
    ensures l in n.outlets && n.outlets[l].panicked && n.outlets[l].q.found == 1
  {
    n := OneListener(l, true);
    n := FrameTravels(n, l, f);
    n := FrameTravels(n, l, g);
    n := HandlerTakesFirst(n, l, f, g);
    n := HandlerOverPops(n, l, g);
  }

  lemma ForwardsIntoFull<F(!new)>(n: Net<F>, l: string, item: Option<F>) returns (n': Net<F>)
    requires Reachable(n) && !n.down && l in n.outlets && n.forward == Some(Forward(item, {l}, None))
    requires var q := n.outlets[l].q;
             && q.sending.None? && |q.signals| == P.CAPACITY && q.todo > 0 && !q.crashed && q.consumer == P.Reading
             && q.limit == LISTENER_LIMIT && |q.queue| != LISTENER_LIMIT
    ensures Reachable(n') && BlockedAt(n', l)
  {
    n' := ReachApply(n, ForwardBegin(l));
  }

  /** Four frames against a listener that has received one signal and not acted on it block the pump. */
  lemma BlockedReachable<F(!new)>(l: string, stream: bool, f: F) returns (n: Net<F>)
    ensures Reachable(n) && BlockedAt(n, l)
  {
    hide Run, IsRun, Reachable, Pops;
    n := OneListener(l, stream);
    n := FrameTravels(n, l, f);
    n := TakesSignal(n, l);
    n := FrameTravels(n, l, f);
    n := FrameTravels(n, l, f);
    n := PumpTakes(n, l, f);
    n := ForwardsIntoFull(n, l, Some(f));
  }

  lemma TakesSignal<F(!new)>(n: Net<F>, l: string) returns (n': Net<F>)
    requires Reachable(n) && Fresh(n, l) && l in n.outlets
    requires n.outlets[l].q.signals == [2] && P.Enabled(n.outlets[l].q, P.Receive)
    ensures Reachable(n') && Fresh(n', l)
    ensures n'.outlets == n.outlets[l := n.outlets[l].(q := n.outlets[l].q.(signals := [], todo := 1))]
  {
    n' := ReachApply(n, ConsumerReceive(l));
    assert n.outlets[l].q.signals[1..] == [];
    assert n'.outlets.Keys == n.outlets.Keys;
  }
}
