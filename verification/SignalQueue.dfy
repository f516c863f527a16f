/**
 `queue.Queue`: a bounded queue that tells its listeners how long it has become.

 Each method models one call from the moment it owns the lock until it returns or waits on a channel.
 `Protocol` reads the fields as a state of `QueueProtocol`, and every method is a sequence of its steps.
 */
module SignalQueue {
  import opened Wrappers
  import L = Listeners
  import P = QueueProtocol

  datatype Outcome =
    | Done
    | Blocked  // waiting for room in a listener's channel, lock held
    | Panicked // slice bounds out of range

  datatype Error = AlreadySubscribed

  /** What `k` consecutive pops of `queue` return. */
  function Popped<T>(queue: seq<T>, k: nat): seq<Option<T>> {
    seq(k, i requires 0 <= i < k => if i < |queue| then Some(queue[i]) else None)
  }

  /** What they leave. */
  function Rest<T>(queue: seq<T>, k: nat): seq<T> {
    if k <= |queue| then queue[k..] else []
  }

  lemma EmptyPopped<T>(queue: seq<T>)
    ensures Popped(queue, 0) == [] && Rest(queue, 0) == queue
  {
  }

  lemma PoppedSnoc<T>(queue: seq<T>, k: nat)
    ensures var rest := Rest(queue, k);
            && Popped(queue, k + 1) == Popped(queue, k) + [if rest == [] then None else Some(rest[0])]
            && Rest(queue, k + 1) == if rest == [] then [] else rest[1..]
  {
  }

  /** The queue after a push of `v` that did not panic. */
  function Appended<T>(limit: int, queue: seq<T>, v: T): seq<T>
    requires limit != 0 || queue != []
  {
    (if |queue| == limit then queue[1..] else queue) + [v]
  }

  /** The fields of a queue, real and ghost. */
  datatype Fields<T> = Fields(
    limit: int, queue: seq<T>, table: L.Table<int>, pushed: seq<T>, exits: seq<P.Exit<T>>, found: nat)

  /** `name` is the table's only listener. */
  predicate OnlyListener(t: L.Table<int>, name: string) {
    name in t.listeners && t.listeners.Keys == {name} && t.listeners[name].signal < |t.channels|
  }

  /** `name` is the table's only listener, and connected. */
  predicate SoleListener(t: L.Table<int>, name: string) {
    OnlyListener(t, name) && t.listeners[name].isConnected
  }

  /**
   A queue with one listener as a protocol state. Its consumer still owes `todo` pops; `leaving` says that it is on
   its way to unsubscribe.
   */
  function View<T>(f: Fields<T>, name: string, todo: int, leaving: bool): P.State<T>
    requires OnlyListener(f.table, name)
  {
    P.State(f.limit, f.queue, f.table.channels[f.table.listeners[name].signal].buffer,
            if f.table.pass.Some? && f.table.values != [] then Some(f.table.values[|f.table.values| - 1]) else None,
            todo,
            if !f.table.listeners[name].isConnected then P.Gone else if leaving then P.Leaving else P.Reading,
            f.pushed, f.exits, f.found, false)
  }

  /** A push by itself is the protocol's append, followed by its send, or by nothing while that send has to wait. */
  ghost predicate PushRefines<T>(f: Fields<T>, v: T, outcome: Outcome, f': Fields<T>) {
    forall name, todo, leaving :: SoleListener(f.table, name) ==> PushSteps(f, v, outcome, f', name, todo, leaving)
  }

  ghost predicate PushSteps<T>(f: Fields<T>, v: T, outcome: Outcome, f': Fields<T>, name: string,
                               todo: int, leaving: bool)
    requires SoleListener(f.table, name)
  {
    && SoleListener(f'.table, name)
    && P.Enabled(View(f, name, todo, leaving), P.PushBegin(v))
    && var begun, end := P.Apply(View(f, name, todo, leaving), P.PushBegin(v)), View(f', name, todo, leaving);
       if outcome == Done then P.Enabled(begun, P.PushSend) && end == P.Apply(begun, P.PushSend)
       else !P.Enabled(begun, P.PushSend) && end == begun
  }

  /** The fields right after the append, before the loop over the listeners. */
  function Begun<T>(f: Fields<T>, v: T): Fields<T>
    requires f.limit != 0 || f.queue != []
  {
    f.(queue := Appended(f.limit, f.queue, v), pushed := f.pushed + [v], found := f.found + |f.queue|,
       exits := if |f.queue| == f.limit then f.exits + [P.Dropped(f.queue[0])] else f.exits)
  }

  lemma PushIsProtocolSteps<T>(f: Fields<T>, v: T, t': L.Table<int>, outcome: Outcome)
    requires L.Inv(f.table) && f.table.pass.None? && (f.limit != 0 || f.queue != [])
    requires outcome == Done || outcome == Blocked
    requires outcome == Done ==> L.Broadcasted(f.table, |Begun(f, v).queue| + 1, t')
    requires outcome == Blocked ==>
               && L.Serving(f.table, |Begun(f, v).queue| + 1, t')
               && exists n :: n in f.table.listeners && L.Full(f.table, f.table.listeners[n])
    ensures PushRefines(f, v, outcome, Begun(f, v).(table := t'))
  {
    forall name, todo, leaving | SoleListener(f.table, name)
      ensures PushSteps(f, v, outcome, Begun(f, v).(table := t'), name, todo, leaving)
    {
      SoleListenerServed(f.table, |Begun(f, v).queue| + 1, t', name, outcome == Done);
      SolePushSteps(f, v, t', outcome, name, todo, leaving);
    }
  }

  /** The listener `n` is connected and has left as many signals unread as the protocol's channel holds. */
  predicate KeepsTwo(t: L.Table<int>, n: string)
    requires n in t.listeners
  {
    && t.listeners[n].isConnected && t.listeners[n].signal < |t.channels|
    && |t.channels[t.listeners[n].signal].buffer| >= P.CAPACITY
  }

  /** The signal channel of the listener `name`. */
  function Signals(t: L.Table<int>, name: string): seq<int>
    requires OnlyListener(t, name)
  {
    t.channels[t.listeners[name].signal].buffer
  }

  lemma SolePushSteps<T>(f: Fields<T>, v: T, t': L.Table<int>, outcome: Outcome, name: string, todo: int, leaving: bool)
    requires f.table.pass.None? && (f.limit != 0 || f.queue != [])
    requires SoleListener(f.table, name) && SoleListener(t', name)
    requires t'.values == f.table.values + [|Begun(f, v).queue| + 1] && (t'.pass.None? <==> outcome == Done)
    requires if outcome == Done then
               && |Signals(f.table, name)| < L.CAPACITY
               && Signals(t', name) == Signals(f.table, name) + [|Begun(f, v).queue| + 1]
             else |Signals(f.table, name)| == L.CAPACITY && Signals(t', name) == Signals(f.table, name)
    ensures PushSteps(f, v, outcome, Begun(f, v).(table := t'), name, todo, leaving)
  {
    var begun, end := P.Apply(View(f, name, todo, leaving), P.PushBegin(v)),
                      View(Begun(f, v).(table := t'), name, todo, leaving);
    assert begun.sending == Some(|Begun(f, v).queue| + 1) && begun.signals == Signals(f.table, name);
    assert end.signals == Signals(t', name) && (end.sending.None? <==> outcome == Done);
  }

  /** A broadcast over a table with one connected listener sends it the value, or stops before it. */
  lemma SoleListenerServed(t: L.Table<int>, n: int, t': L.Table<int>, name: string, done: bool)
    requires L.Inv(t) && t.pass.None? && SoleListener(t, name)
    requires done ==> L.Broadcasted(t, n, t')
    requires !done ==> L.Serving(t, n, t') && exists m :: m in t.listeners && L.Full(t, t.listeners[m])
    ensures SoleListener(t', name) && t'.listeners[name] == t.listeners[name]
    ensures t'.values == t.values + [n] && (t'.pass.None? <==> done)
    ensures if done then |Signals(t, name)| < L.CAPACITY && Signals(t', name) == Signals(t, name) + [n]
            else |Signals(t, name)| == L.CAPACITY && Signals(t', name) == Signals(t, name)
  {
    assert L.ServedSoFar(t, n, t', t.listeners[name], !done && name in t'.pass.value.left);
  }

  /** On a queue with one listener the unsubscribe closure is the protocol's last step of a consumer that leaves. */
  ghost predicate UnsubscribeRefines<T>(f: Fields<T>, name: string, f': Fields<T>) {
    SoleListener(f.table, name) && f.table.pass.None? ==>
      && OnlyListener(f'.table, name)
      && forall todo :: View(f', name, todo, true) == P.Apply(View(f, name, todo, true), P.Unsub)
  }

  lemma UnsubscribeIsProtocolStep<T>(f: Fields<T>, name: string)
    requires name in f.table.listeners && f.table.pass.None? && L.Enabled(f.table, L.Unsubscribe(name))
    ensures UnsubscribeRefines(f, name, f.(table := L.Apply(f.table, L.Unsubscribe(name))))
  {
    var table := L.Apply(f.table, L.Unsubscribe(name));
    assert table.listeners.Keys == f.table.listeners.Keys;
  }

  class Queue<T> {
    const limit: int
    var queue: seq<T>
    var table: L.Table<int>
    ghost var pushed: seq<T>
    ghost var exits: seq<P.Exit<T>>
    ghost var found: nat

    ghost predicate Valid()
      reads this
    {
      L.Inv(table)
    }

    /** No push is waiting inside the lock. */
    ghost predicate Free()
      reads this
    {
      Valid() && table.pass.None?
    }

    ghost function Contents(): Fields<T>
      reads this
    {
      Fields(limit, queue, table, pushed, exits, found)
    }

    constructor (queueLimit: int)
      ensures Free() && limit == queueLimit && queue == [] && table == L.Empty()
      ensures pushed == [] && exits == [] && found == 0
    {
      limit, queue, table := queueLimit, [], L.Empty();
      pushed, exits, found := [], [], 0;
    }

    method Pop() returns (item: Option<T>)
      requires Free()
      modifies this`queue, this`exits
      ensures item == if old(queue) == [] then None else Some(old(queue)[0])
      ensures queue == if old(queue) == [] then [] else old(queue)[1..]
      ensures forall name, todo :: SoleListener(table, name) && todo > 0 ==>
                View(Contents(), name, todo - 1, false) ==
                P.Apply(View(old(Contents()), name, todo, false), P.Pop(false))
    {
      item := None;
      if |queue| > 0 {
        item := Some(queue[0]);
        exits := exits + [P.Delivered(queue[0])];
        queue := queue[1..];
      } else {
        queue := [];
        exits := exits + [P.Empty];
      }
    }

    /** The first half of a push: make room if need be, and append. */
    method Append(v: T) returns (panicked: bool)
      modifies this`queue, this`pushed, this`exits, this`found
      ensures panicked <==> limit == 0 && old(queue) == []
      ensures Contents() == if panicked then old(Contents()) else Begun(old(Contents()), v)
    {
      if |queue| == limit {
        if |queue| == 0 {
          return true;
        }
        exits := exits + [P.Dropped(queue[0])];
        queue := queue[1..];
      }
      queue := queue + [v];
      pushed := pushed + [v];
      found := found + |old(queue)|;
      panicked := false;
    }

    method Push(v: T) returns (outcome: Outcome)
      requires Free()
      modifies this
      ensures Valid()
      ensures outcome == Panicked <==> limit == 0 && old(queue) == []
      ensures outcome == Panicked ==> Contents() == old(Contents())
      ensures outcome == Blocked <==>
                && outcome != Panicked
                && exists n :: n in old(table.listeners) && L.Full(old(table), old(table.listeners)[n])
      ensures outcome == Blocked ==> exists n :: n in old(table.listeners) && KeepsTwo(old(table), n)
      ensures outcome != Panicked ==> Contents() == Begun(old(Contents()), v).(table := table)
      ensures outcome == Done ==> L.Broadcasted(old(table), |queue| + 1, table)
      ensures outcome == Blocked ==> L.Serving(old(table), |queue| + 1, table)
      ensures outcome != Panicked ==> PushRefines(old(Contents()), v, outcome, Contents())
    {
      hide L.Inv, L.Broadcasted, L.Serving, PushRefines;
      var panicked := Append(v);
      if panicked {
        return Panicked;
      }
      var t, blocked := L.UpdateListeners(table, |queue| + 1);
      table := t;
      outcome := if blocked then Blocked else Done;
      if blocked {
        ghost var n :| n in old(table.listeners) && L.Full(old(table), old(table.listeners)[n]);
        assert KeepsTwo(old(table), n);
      }
      PushIsProtocolSteps(old(Contents()), v, t, outcome);
    }

    method Subscribe(name: string) returns (r: Result<nat, Error>)
      requires Free()
      modifies this`table
      ensures Free()
      ensures r.Err? <==> name in old(table.listeners)
      ensures r.Err? ==> table == old(table)
      ensures r.Ok? ==> table == L.Apply(old(table), L.Subscribe(name)) && r.value == table.listeners[name].signal
    {
      if name in table.listeners {
        return Err(AlreadySubscribed);
      }
      L.StepKeepsInv(table, L.Subscribe(name));
      table := L.Apply(table, L.Subscribe(name));
      r := Ok(table.listeners[name].signal);
    }

    /** The closure `Subscribe` returned: it looks the name up again, and dereferences nil if it has gone. */
    method Unsubscribe(name: string) returns (panicked: bool)
      requires Free()
      modifies this`table
      ensures panicked <==> name !in old(table.listeners)
      ensures panicked ==> table == old(table)
      ensures !panicked ==> Free() && table == L.Apply(old(table), L.Unsubscribe(name))
      ensures !panicked ==> UnsubscribeRefines(old(Contents()), name, Contents())
    {
      if name !in table.listeners {
        return true;
      }
      L.StepKeepsInv(table, L.Unsubscribe(name));
      table := L.Apply(table, L.Unsubscribe(name));
      UnsubscribeIsProtocolStep(old(Contents()), name);
      panicked := false;
    }

    /** The receive of a consumer's select. */
    method ReceiveSignal(name: string) returns (n: int)
      requires Free() && SoleListener(table, name) && Signals(table, name) != []
      modifies this`table
      ensures Free() && SoleListener(table, name)
      ensures n == old(Signals(table, name))[0] && Signals(table, name) == old(Signals(table, name))[1..]
      ensures table == L.Apply(old(table), L.Receive(old(table.listeners)[name].signal))
    {
      var channel := table.listeners[name].signal;
      n := table.channels[channel].buffer[0];
      L.StepKeepsInv(table, L.Receive(channel));
      table := L.Apply(table, L.Receive(channel));
    }

    /**
     One turn of a consumer's loop (the manager's pump, `Subscribe`, `Command`), undisturbed: it receives a
     signal `n` and pops `n - 1` times. It empties the queue whenever the signal told the truth or more.
     */
    method ConsumeSignal(name: string) returns (items: seq<Option<T>>)
      requires Free() && SoleListener(table, name)
      requires table.channels[table.listeners[name].signal].buffer != []
      requires table.channels[table.listeners[name].signal].buffer[0] >= 1
      modifies this`queue, this`exits, this`table
      ensures Free() && SoleListener(table, name)
      ensures var n := old(table.channels[table.listeners[name].signal].buffer[0]);
              items == Popped(old(queue), n - 1) && queue == Rest(old(queue), n - 1)
      ensures table == L.Apply(old(table), L.Receive(old(table.listeners)[name].signal))
    {
      hide View, P.Apply, L.Inv;
      var n := ReceiveSignal(name);
      items := PopAll(n - 1);
    }

    /** The loop of that turn. */
    method PopAll(count: nat) returns (items: seq<Option<T>>)
      requires Free()
      modifies this`queue, this`exits
      ensures items == Popped(old(queue), count) && queue == Rest(old(queue), count)
    {
      hide View, P.Apply, L.Inv, Popped, Rest, SoleListener;
      items := [];
      EmptyPopped(queue);
      for i := 0 to count
        invariant items == Popped(old(queue), i) && queue == Rest(old(queue), i)
      {
        PoppedSnoc(old(queue), i);
        var item := Pop();
        items := items + [item];
      }
    }
  }
}
