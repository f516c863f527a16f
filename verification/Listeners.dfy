/**
 Named listeners fed through channels of capacity two.

 `queue.Queue` (signals) and `plugins.PluginInstance` (state updates) keep the same table: a map from
 name to listener, a subscribe call that adds an entry, an unsubscribe closure that only marks the entry,
 and a loop, run with the owner's lock held, that sends a value to every connected listener and closes and
 forgets the others. Each iteration of that loop is a step of its own, because a full channel makes it wait
 while consumers go on receiving.
 */
module Listeners {
  import opened Wrappers

  const CAPACITY := 2

  datatype Channel<S> = Channel(
    buffer: seq<S>, // sent and not yet received
    sent: seq<S>,   // everything ever sent
    closed: bool)

  datatype Listener = Listener(
    isConnected: bool,
    signal: nat,    // its channel
    since: nat)     // broadcasts begun before it subscribed

  /** The loop over the map while it is running: names still to visit, entries carried over so far. */
  datatype Pass<S> = Pass(left: set<string>, kept: map<string, Listener>)

  datatype Table<S> = Table(
    channels: seq<Channel<S>>,
    listeners: map<string, Listener>,
    pass: Option<Pass<S>>, // Some while the lock is held by a broadcast
    values: seq<S>,        // every value broadcast, in order
    panicked: bool)        // a send on or close of a closed channel, or a nil listener dereferenced

  datatype Step<S> =
    | Subscribe(name: string)
    | Unsubscribe(name: string)
    | Broadcast(value: S)
    | Visit(name: string)
    | Finish
    | Receive(channel: nat)

  function Empty<S>(): Table<S> {
    Table([], map[], None, [], false)
  }

  predicate Enabled<S>(t: Table<S>, step: Step<S>) {
    && !t.panicked
    && match step
       case Subscribe(_) => t.pass.None?
       case Unsubscribe(_) => t.pass.None?
       case Broadcast(_) => t.pass.None?
       case Visit(n) => t.pass.Some? && n in t.pass.value.left && n in t.listeners && CanVisit(t, t.listeners[n])
       case Finish => t.pass.Some? && t.pass.value.left == {}
       case Receive(c) => c < |t.channels| && t.channels[c].buffer != []
  }

  /** Closing never waits, a send waits for room, and a send on a closed channel panics at once. */
  predicate CanVisit<S>(t: Table<S>, l: Listener) {
    && l.signal < |t.channels|
    && t.values != []
    && (l.isConnected && !t.channels[l.signal].closed ==> |t.channels[l.signal].buffer| < CAPACITY)
  }

  function Apply<S>(t: Table<S>, step: Step<S>): Table<S>
    requires Enabled(t, step)
  {
    match step
    case Subscribe(n) =>
      if n in t.listeners then t // "already subscribed"
      else t.(channels := t.channels + [Channel([], [], false)],
              listeners := t.listeners[n := Listener(true, |t.channels|, |t.values|)])
    case Unsubscribe(n) =>
      if n in t.listeners then t.(listeners := t.listeners[n := t.listeners[n].(isConnected := false)])
      else t.(panicked := true)
    case Broadcast(v) =>
      t.(pass := Some(Pass(t.listeners.Keys, map[])), values := t.values + [v])
    case Visit(n) =>
      var l, p := t.listeners[n], t.pass.value;
      var c, v := t.channels[l.signal], t.values[|t.values| - 1];
      if c.closed then t.(panicked := true)
      else if l.isConnected then
        t.(channels := t.channels[l.signal := c.(buffer := c.buffer + [v], sent := c.sent + [v])],
           pass := Some(Pass(p.left - {n}, p.kept[n := l])))
      else
        t.(channels := t.channels[l.signal := c.(closed := true)], pass := Some(p.(left := p.left - {n})))
    case Finish =>
      t.(listeners := t.pass.value.kept, pass := None)
    case Receive(i) =>
      var c := t.channels[i];
      t.(channels := t.channels[i := c.(buffer := c.buffer[1..])])
  }

  predicate IsRun<S>(t: Table<S>, steps: seq<Step<S>>)
    decreases steps
  {
    steps == [] || (Enabled(t, steps[0]) && IsRun(Apply(t, steps[0]), steps[1..]))
  }

  function Run<S>(t: Table<S>, steps: seq<Step<S>>): Table<S>
    requires IsRun(t, steps)
    decreases steps
  {
    if steps == [] then t else Run(Apply(t, steps[0]), steps[1..])
  }

  // The invariant

  predicate Open<S>(t: Table<S>, l: Listener) {
    l.signal < |t.channels| && !t.channels[l.signal].closed
  }

  /** The listener has been sent every value broadcast since it subscribed, except the last `missing`. */
  ghost predicate UpToDate<S>(t: Table<S>, l: Listener, missing: nat) {
    && l.signal < |t.channels|
    && l.since + missing <= |t.values|
    && t.channels[l.signal].sent == t.values[l.since..|t.values| - missing]
  }

  /** At most two values are unread, and they are the last ones sent. */
  predicate Queued<S(==)>(c: Channel<S>) {
    |c.buffer| <= CAPACITY && |c.buffer| <= |c.sent| && c.buffer == c.sent[|c.sent| - |c.buffer|..]
  }

  predicate AllQueued<S(==)>(channels: seq<Channel<S>>) {
    forall c :: 0 <= c < |channels| ==> Queued(channels[c])
  }

  /** No two listeners share a channel. */
  ghost predicate Separate(listeners: map<string, Listener>) {
    forall n, m :: n in listeners && m in listeners && n != m ==> listeners[n].signal != listeners[m].signal
  }

  ghost predicate Inv<S>(t: Table<S>) {
    && !t.panicked
    && AllQueued(t.channels)
    && Separate(t.listeners)
    && match t.pass
       case None =>
         forall n :: n in t.listeners ==> Settled(t, t.listeners[n])
       case Some(p) =>
         && t.values != []
         && p.left <= t.listeners.Keys
         && (forall n :: n in p.kept ==> n !in p.left && n in t.listeners && p.kept[n] == t.listeners[n])
         && forall n :: n in t.listeners ==> Visited(t, n, p)
  }

  /** Between broadcasts: an open channel, and, while connected, everything sent. */
  ghost predicate Settled<S>(t: Table<S>, l: Listener) {
    Open(t, l) && (l.isConnected ==> UpToDate(t, l, 0))
  }

  ghost predicate Visited<S>(t: Table<S>, n: string, p: Pass<S>)
    requires n in t.listeners
  {
    var l := t.listeners[n];
    if n in p.left then Open(t, l) && (l.isConnected ==> UpToDate(t, l, 1))
    else if l.isConnected then n in p.kept && Open(t, l) && UpToDate(t, l, 0)
    else n !in p.kept && l.signal < |t.channels| && t.channels[l.signal].closed
  }

  /** The only step that breaks the invariant calls an unsubscribe closure whose entry is gone. */
  predicate Safe<S>(t: Table<S>, step: Step<S>) {
    step.Unsubscribe? ==> step.name in t.listeners
  }

  lemma StepKeepsQueued<S>(t: Table<S>, step: Step<S>)
    requires AllQueued(t.channels) && Enabled(t, step)
    ensures AllQueued(Apply(t, step).channels)
  {
    if step.Visit? || step.Receive? {
      var i := if step.Visit? then t.listeners[step.name].signal else step.channel;
      assert Queued(t.channels[i]);
    }
  }

  /** Nothing sent to the listener, and its channel neither closed nor opened. */
  predicate SameRecord<S(==)>(t: Table<S>, t': Table<S>, l: Listener) {
    && |t.channels| <= |t'.channels| && t'.values == t.values && l.signal < |t.channels|
    && t'.channels[l.signal].sent == t.channels[l.signal].sent
    && t'.channels[l.signal].closed == t.channels[l.signal].closed
  }

  lemma VisitedFrame<S>(t: Table<S>, t': Table<S>, n: string, p: Pass<S>, p': Pass<S>)
    requires n in t.listeners && n in t'.listeners && t'.listeners[n] == t.listeners[n] && Visited(t, n, p)
    requires SameRecord(t, t', t.listeners[n])
    requires (n in p'.left <==> n in p.left) && (n in p'.kept <==> n in p.kept)
    ensures Visited(t', n, p')
  {
  }

  lemma SettledFrame<S>(t: Table<S>, t': Table<S>, l: Listener)
    requires Settled(t, l) && SameRecord(t, t', l)
    ensures Settled(t', l)
  {
  }

  lemma VisitedHasChannel<S>(t: Table<S>, n: string, p: Pass<S>)
    requires n in t.listeners && Visited(t, n, p)
    ensures t.listeners[n].signal < |t.channels|
  {
  }

  lemma VisitRecords<S>(t: Table<S>, name: string)
    requires t.pass.Some? && !t.panicked && Enabled(t, Visit(name)) && Visited(t, name, t.pass.value)
    requires name !in t.pass.value.kept
    ensures var t' := Apply(t, Visit(name));
            && !t'.panicked && t'.pass.Some? && name in t'.listeners && Visited(t', name, t'.pass.value)
  {
  }

  lemma Distinct<S>(t: Table<S>, name: string)
    requires Separate(t.listeners) && name in t.listeners
    ensures forall n :: n in t.listeners && n != name ==> t.listeners[n].signal != t.listeners[name].signal
  {
  }

  lemma VisitKeepsInv<S>(t: Table<S>, name: string)
    requires Inv(t) && Enabled(t, Visit(name))
    ensures Inv(Apply(t, Visit(name)))
  {
    StepKeepsQueued(t, Visit(name));
    assert Visited(t, name, t.pass.value);
    VisitRecords(t, name);
    VisitedHasChannel(t, name, t.pass.value);
    Distinct(t, name);
    hide AllQueued, Visited, UpToDate, Separate;
    var t' := Apply(t, Visit(name));
    var p, p' := t.pass.value, t'.pass.value;
    forall n | n in t'.listeners ensures Visited(t', n, p') {
      assert Visited(t, n, p);
      if n != name {
        VisitedHasChannel(t, n, p);
        VisitedFrame(t, t', n, p, p');
      }
    }
  }

  lemma BroadcastKeepsInv<S>(t: Table<S>, v: S)
    requires Inv(t) && Enabled(t, Broadcast(v))
    ensures Inv(Apply(t, Broadcast(v)))
  {
    var t' := Apply(t, Broadcast(v));
    forall n | n in t'.listeners ensures Visited(t', n, t'.pass.value) {
      var l := t.listeners[n];
      assert l.isConnected ==> t'.values[l.since..|t'.values| - 1] == t.values[l.since..];
    }
  }

  lemma FinishKeepsInv<S>(t: Table<S>)
    requires Inv(t) && Enabled(t, Finish)
    ensures Inv(Apply(t, Finish))
  {
    var t' := Apply(t, Finish);
    forall n | n in t'.listeners
      ensures Open(t', t'.listeners[n]) && (t'.listeners[n].isConnected ==> UpToDate(t', t'.listeners[n], 0))
    {
      assert Visited(t, n, t.pass.value);
    }
  }

  lemma ReceiveKeepsInv<S>(t: Table<S>, c: nat)
    requires Inv(t) && Enabled(t, Receive(c))
    ensures Inv(Apply(t, Receive(c)))
  {
    StepKeepsQueued(t, Receive(c));
    hide AllQueued, Separate, Visited, Settled;
    var t' := Apply(t, Receive(c));
    assert forall l: Listener :: l.signal < |t.channels| ==> SameRecord(t, t', l);
    hide Apply;
    if t.pass.Some? {
      forall n | n in t'.listeners ensures Visited(t', n, t'.pass.value) {
        VisitedHasChannel(t, n, t.pass.value);
        VisitedFrame(t, t', n, t.pass.value, t'.pass.value);
      }
    } else {
      forall n | n in t'.listeners ensures Settled(t', t'.listeners[n]) {
        SettledHasChannel(t, t.listeners[n]);
        SettledFrame(t, t', t.listeners[n]);
      }
    }
  }

  lemma NewListenerSettled<S>(t: Table<S>, l: Listener)
    requires l.signal < |t.channels| && !t.channels[l.signal].closed && t.channels[l.signal].sent == []
    requires l.since == |t.values|
    ensures Settled(t, l)
  {
  }

  lemma SeparateAfterAdding(listeners: map<string, Listener>, name: string, l: Listener)
    requires Separate(listeners) && forall n :: n in listeners ==> listeners[n].signal < l.signal
    ensures Separate(listeners[name := l])
  {
  }

  lemma SettledHasChannel<S>(t: Table<S>, l: Listener)
    requires Settled(t, l)
    ensures l.signal < |t.channels|
  {
  }

  lemma SubscribeKeepsInv<S>(t: Table<S>, name: string)
    requires Inv(t) && Enabled(t, Subscribe(name))
    ensures Inv(Apply(t, Subscribe(name)))
  {
    if name in t.listeners {
      return;
    }
    StepKeepsQueued(t, Subscribe(name));
    hide AllQueued, Settled, Separate;
    var t' := Apply(t, Subscribe(name));
    NewListenerSettled(t', t'.listeners[name]);
    forall n | n in t.listeners ensures t.listeners[n].signal < |t.channels| && Settled(t', t.listeners[n]) {
      SettledHasChannel(t, t.listeners[n]);
      SettledFrame(t, t', t.listeners[n]);
    }
    SeparateAfterAdding(t.listeners, name, t'.listeners[name]);
  }

  lemma StepKeepsInv<S>(t: Table<S>, step: Step<S>)
    requires Inv(t) && Enabled(t, step)
    ensures Safe(t, step) ==> Inv(Apply(t, step))
    ensures Apply(t, step).panicked <==> !Safe(t, step)
  {
    match step
    case Visit(name) => VisitKeepsInv(t, name);
    case Broadcast(v) => BroadcastKeepsInv(t, v);
    case Finish => FinishKeepsInv(t);
    case Receive(c) => ReceiveKeepsInv(t, c);
    case Subscribe(name) => SubscribeKeepsInv(t, name);
    case Unsubscribe(_) =>
  }

  /** Each unsubscribe of the run happens while its entry is still in the map. */
  predicate Disciplined<S>(t: Table<S>, steps: seq<Step<S>>)
    requires IsRun(t, steps)
    decreases steps
  {
    steps == [] || (Safe(t, steps[0]) && Disciplined(Apply(t, steps[0]), steps[1..]))
  }

  /**
   Over any interleaving nothing is sent on a closed channel and none is closed twice: a run panics
   exactly when it calls an unsubscribe closure after its listener has left the map.
   */
  lemma {:induction false} RunPanicsIff<S>(t: Table<S>, steps: seq<Step<S>>)
    requires Inv(t) && IsRun(t, steps)
    ensures Run(t, steps).panicked <==> !Disciplined(t, steps)
    ensures Disciplined(t, steps) ==> Inv(Run(t, steps))
    decreases steps
  {
    if steps != [] {
      StepKeepsInv(t, steps[0]);
      var t' := Apply(t, steps[0]);
      if Safe(t, steps[0]) {
        RunPanicsIff(t', steps[1..]);
      } else {
        assert steps[1..] == [];
      }
    }
  }

  /** A second unsubscribe, after the broadcast that removed the listener, dereferences nil. */
  lemma UnsubscribeTwicePanics<S>(name: string, v: S) returns (steps: seq<Step<S>>)
    ensures IsRun(Empty(), steps) && Run(Empty(), steps).panicked
  {
    var t: Table<S> := Empty();
    var t1 := Apply(t, Subscribe(name));
    var t2 := Apply(t1, Unsubscribe(name));
    var t3 := Apply(t2, Broadcast(v));
    var t4 := Apply(t3, Visit(name));
    var t5 := Apply(t4, Finish);
    steps := [Unsubscribe(name)];
    assert steps[1..] == [];
    steps := RunCons(t4, Finish, steps);
    steps := RunCons(t3, Visit(name), steps);
    steps := RunCons(t2, Broadcast(v), steps);
    steps := RunCons(t1, Unsubscribe(name), steps);
    steps := RunCons(t, Subscribe(name), steps);
  }

  lemma RunCons<S>(t: Table<S>, step: Step<S>, rest: seq<Step<S>>) returns (steps: seq<Step<S>>)
    requires Enabled(t, step) && IsRun(Apply(t, step), rest)
    ensures steps == [step] + rest && IsRun(t, steps) && Run(t, steps) == Run(Apply(t, step), rest)
  {
    steps := [step] + rest;
    assert steps[1..] == rest;
  }

  function Connected(listeners: map<string, Listener>): map<string, Listener> {
    map n | n in listeners && listeners[n].isConnected :: listeners[n]
  }

  /** When a broadcast ends the map holds exactly the connected listeners, in whatever order they were visited. */
  lemma FinishKeepsConnected<S>(t: Table<S>)
    requires Inv(t) && Enabled(t, Finish)
    ensures Apply(t, Finish).listeners == Connected(t.listeners)
    ensures forall n :: n in t.listeners && !t.listeners[n].isConnected ==>
              t.listeners[n].signal < |t.channels| && t.channels[t.listeners[n].signal].closed
  {
    var p := t.pass.value;
    forall n | n in t.listeners
      ensures n in p.kept <==> t.listeners[n].isConnected
      ensures !t.listeners[n].isConnected ==>
                t.listeners[n].signal < |t.channels| && t.channels[t.listeners[n].signal].closed
    {
      assert Visited(t, n, p);
    }
  }

  // The loop

  predicate Full<S>(t: Table<S>, l: Listener) {
    l.signal < |t.channels| && l.isConnected && |t.channels[l.signal].buffer| == CAPACITY
  }

  /** The channel after an undisturbed broadcast of `v` that reached its listener. */
  function Served<S>(c: Channel<S>, l: Listener, v: S): Channel<S> {
    if l.isConnected then c.(buffer := c.buffer + [v], sent := c.sent + [v]) else c.(closed := true)
  }

  /** `t'` is `t` partway through an undisturbed broadcast of `v`. */
  ghost predicate Serving<S>(t: Table<S>, v: S, t': Table<S>) {
    && t'.pass.Some? && t'.pass.value.left <= t.listeners.Keys
    && t'.values == t.values + [v] && t'.listeners == t.listeners && |t'.channels| == |t.channels|
    && (forall n :: n in t.listeners ==> ServedSoFar(t, v, t', t.listeners[n], n in t'.pass.value.left))
    && Untouched(t, t')
  }

  ghost predicate ServedSoFar<S>(t: Table<S>, v: S, t': Table<S>, l: Listener, waiting: bool)
    requires |t'.channels| == |t.channels|
  {
    && l.signal < |t.channels|
    && (!waiting ==> !Full(t, l))
    && t'.channels[l.signal] == if waiting then t.channels[l.signal] else Served(t.channels[l.signal], l, v)
  }

  ghost predicate Untouched<S>(t: Table<S>, t': Table<S>)
    requires |t'.channels| == |t.channels|
  {
    forall c :: 0 <= c < |t.channels| && (forall n :: n in t.listeners ==> t.listeners[n].signal != c) ==>
      t'.channels[c] == t.channels[c]
  }

  /** The state after the loop has served everyone. */
  ghost predicate Broadcasted<S>(t: Table<S>, v: S, t': Table<S>) {
    && t'.pass.None? && !t'.panicked
    && t'.values == t.values + [v]
    && t'.listeners == Connected(t.listeners)
    && |t'.channels| == |t.channels|
    && (forall n :: n in t.listeners ==> ServedSoFar(t, v, t', t.listeners[n], false))
    && Untouched(t, t')
  }

  lemma VisitServes<S>(t: Table<S>, v: S, t': Table<S>, name: string)
    requires Inv(t) && t.pass.None? && Inv(t') && Serving(t, v, t')
    requires name in t'.pass.value.left && !Full(t', t'.listeners[name])
    ensures Enabled(t', Visit(name))
    ensures Inv(Apply(t', Visit(name))) && Serving(t, v, Apply(t', Visit(name)))
    ensures Apply(t', Visit(name)).pass.value.left == t'.pass.value.left - {name}
  {
    assert Visited(t', name, t'.pass.value);
    assert ServedSoFar(t, v, t', t.listeners[name], true);
    VisitKeepsInv(t', name);
    var t2 := Apply(t', Visit(name));
    forall n | n in t.listeners ensures ServedSoFar(t, v, t2, t.listeners[n], n in t2.pass.value.left) {
      assert ServedSoFar(t, v, t', t.listeners[n], n in t'.pass.value.left);
    }
  }

  /**
   The loop of a caller that nobody interrupts. It stops, still holding the lock, exactly when some
   connected listener's channel is full; otherwise every listener is served, whatever the map order.
   */
  method UpdateListeners<S>(t: Table<S>, v: S) returns (t': Table<S>, blocked: bool)
    requires Inv(t) && t.pass.None?
    ensures Inv(t') && t'.values == t.values + [v]
    ensures blocked <==> exists n :: n in t.listeners && Full(t, t.listeners[n])
    ensures (forall n :: n in t.listeners && t.listeners[n].isConnected && t.listeners[n].signal < |t.channels| ==>
               |t.channels[t.listeners[n].signal].buffer| < 2) ==> !blocked
    ensures !blocked ==> Broadcasted(t, v, t')
    ensures blocked ==> Serving(t, v, t')
  {
    t', blocked := Apply(t, Broadcast(v)), false;
    StepKeepsInv(t, Broadcast(v));
    while t'.pass.value.left != {}
      invariant Inv(t') && Serving(t, v, t')
      decreases t'.pass.value.left
    {
      var n :| n in t'.pass.value.left;
      if Full(t', t'.listeners[n]) {
        assert ServedSoFar(t, v, t', t.listeners[n], true);
        assert Full(t, t.listeners[n]);
        blocked := true;
        return;
      }
      VisitServes(t, v, t', n);
      t' := Apply(t', Visit(n));
    }
    forall n | n in t.listeners ensures ServedSoFar(t, v, t', t.listeners[n], false) {
    }
    FinishKeepsConnected(t');
    StepKeepsInv(t', Finish);
    t' := Apply(t', Finish);
  }
}
