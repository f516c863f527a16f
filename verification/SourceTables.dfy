/**
 The queue manager's source tables and the plugin manager that fills them.

 Registering a source makes a quit channel for its pump. Creating a plugin registers its source first; when the
 plugin then fails its version calls the source stays behind. Stopping the plugin manager has to close every quit
 channel, and Go panics on closing one twice. Channels are numbered in the order they are made.
 */
module SourceTables {
  import opened Wrappers

  datatype Error =
    | SourceAlreadyRegistered | DuplicatePluginName | InvalidPluginType | InvalidPluginConfig | PluginFailed

  /** Hung: the call waits for ever for a goroutine that never returns. */
  datatype Outcome = Done | Panicked | Hung

  /** The three tables, the channels made so far, and how often each has been closed. */
  datatype Tables = Tables(
    incoming: map<string, nat>,
    quitChans: map<string, nat>,
    wgs: map<string, nat>,
    issued: nat,
    closed: multiset<nat>)

  function NoTables(): Tables {
    Tables(map[], map[], map[], 0, multiset{})
  }

  function Registered(t: Tables, name: string): Tables {
    Tables(t.incoming[name := t.issued], t.quitChans[name := t.issued], t.wgs[name := t.issued], t.issued + 1, t.closed)
  }

  /** Channel `c` is still in the table. */
  ghost predicate Live(quitChans: map<string, nat>, c: nat) {
    exists n :: n in quitChans && quitChans[n] == c
  }

  ghost predicate Distinct(quitChans: map<string, nat>) {
    forall m, n :: m in quitChans && n in quitChans && quitChans[m] == quitChans[n] ==> m == n
  }

  /** Of the channels made, those outside the table have been closed once, and those in it not at all. */
  ghost predicate ClosedOnceExcept(closed: multiset<nat>, issued: nat, quitChans: map<string, nat>) {
    forall c: nat :: closed[c] == if c < issued && !Live(quitChans, c) then 1 else 0
  }

  /** Equal key sets; every channel made is either in the tables and open, or out of them and closed once. */
  ghost predicate Inv(t: Tables) {
    && t.incoming.Keys == t.quitChans.Keys == t.wgs.Keys
    && Distinct(t.quitChans)
    && (forall n :: n in t.quitChans ==> t.quitChans[n] < t.issued)
    && ClosedOnceExcept(t.closed, t.issued, t.quitChans)
  }

  /** Every channel ever made has been closed exactly once. */
  ghost predicate AllClosedOnce(t: Tables) {
    forall c: nat :: c < t.issued ==> t.closed[c] == 1
  }

  lemma LiveAfterAdding(quitChans: map<string, nat>, name: string, number: nat, c: nat)
    requires name !in quitChans
    ensures Live(quitChans[name := number], c) <==> Live(quitChans, c) || c == number
  {
    var q := quitChans[name := number];
    if c == number {
      assert q[name] == c;
    } else if Live(quitChans, c) {
      var n :| n in quitChans && quitChans[n] == c;
      assert q[n] == c;
    }
  }

  lemma LiveAfterRemoving(quitChans: map<string, nat>, name: string, c: nat)
    requires name in quitChans && Distinct(quitChans)
    ensures Live(quitChans - {name}, c) <==> Live(quitChans, c) && c != quitChans[name]
  {
    var q := quitChans - {name};
    if Live(quitChans, c) && c != quitChans[name] {
      var n :| n in quitChans && quitChans[n] == c;
      assert n in q && q[n] == c;
    }
  }

  lemma LivesAfterRemoving(quitChans: map<string, nat>, name: string)
    requires name in quitChans && Distinct(quitChans)
    ensures forall c: nat :: Live(quitChans - {name}, c) <==> Live(quitChans, c) && c != quitChans[name]
    ensures Distinct(quitChans - {name})
  {
    forall c: nat ensures Live(quitChans - {name}, c) <==> Live(quitChans, c) && c != quitChans[name] {
      LiveAfterRemoving(quitChans, name, c);
    }
  }

  /** Closing a channel of the table and taking it out leaves every other channel as it was. */
  lemma CloseOne(closed: multiset<nat>, issued: nat, quitChans: map<string, nat>, name: string)
    requires ClosedOnceExcept(closed, issued, quitChans) && Distinct(quitChans)
    requires name in quitChans && quitChans[name] < issued
    ensures closed[quitChans[name]] == 0
    ensures ClosedOnceExcept(closed + multiset{quitChans[name]}, issued, quitChans - {name})
  {
    assert Live(quitChans, quitChans[name]);
    LivesAfterRemoving(quitChans, name);
  }

  lemma RegisterKeepsInv(t: Tables, name: string)
    requires Inv(t) && name !in t.incoming
    ensures Inv(Registered(t, name))
  {
    forall c: nat ensures Live(Registered(t, name).quitChans, c) <==> Live(t.quitChans, c) || c == t.issued {
      LiveAfterAdding(t.quitChans, name, t.issued, c);
    }
    assert !Live(t.quitChans, t.issued);
  }

  function Deregistered(t: Tables, name: string): Tables
    requires name in t.quitChans
  {
    Tables(t.incoming - {name}, t.quitChans - {name}, t.wgs - {name}, t.issued, t.closed + multiset{t.quitChans[name]})
  }

  lemma DeregisterKeepsInv(t: Tables, name: string)
    requires Inv(t) && name in t.quitChans
    ensures Inv(Deregistered(t, name)) && t.closed[t.quitChans[name]] == 0
  {
    assert Live(t.quitChans, t.quitChans[name]);
    LivesAfterRemoving(t.quitChans, name);
  }

  lemma ExceptMeansAtMostOnce(closed: multiset<nat>, issued: nat, quitChans: map<string, nat>)
    requires ClosedOnceExcept(closed, issued, quitChans)
    ensures forall c: nat :: closed[c] <= 1
  {
  }

  lemma NoneLeft(closed: multiset<nat>, issued: nat, quitChans: map<string, nat>)
    requires ClosedOnceExcept(closed, issued, quitChans) && quitChans.Keys == {}
    ensures forall c: nat :: closed[c] <= 1 && (c < issued ==> closed[c] == 1)
  {
  }

  class QueueManager {
    var incoming: map<string, nat>
    var quitChans: map<string, nat>
    var wgs: map<string, nat>
    var issued: nat
    var closed: multiset<nat>

    ghost function Contents(): Tables
      reads this
    {
      Tables(incoming, quitChans, wgs, issued, closed)
    }

    ghost predicate Valid()
      reads this
    {
      Inv(Contents())
    }

    constructor ()
      ensures Valid() && Contents() == NoTables()
    {
      incoming, quitChans, wgs, issued, closed := map[], map[], map[], 0, multiset{};
    }

    method RegisterSource(name: string) returns (r: Result<nat, Error>)
      requires Valid()
      modifies this
      ensures Valid()
      ensures r.Err? <==> name in old(incoming)
      ensures r.Err? ==> r.error == SourceAlreadyRegistered
      ensures Contents() == if r.Err? then old(Contents()) else Registered(old(Contents()), name)
      ensures r.Ok? ==> r.value == old(issued)
    {
      if name in incoming {
        return Err(SourceAlreadyRegistered);
      }
      RegisterKeepsInv(Contents(), name);
      r := Ok(issued);
      incoming := incoming[name := issued];
      quitChans := quitChans[name := issued];
      wgs := wgs[name := issued];
      issued := issued + 1;
    }

    /**
     The closure `RegisterSource` returned: it looks its channel up by name again, closes it and waits for the pump.
     `stuck` names the sources whose pump never returns; the call then hangs with its channel closed and its entries
     still there.
     */
    method Deregister(name: string, stuck: set<string>) returns (outcome: Outcome)
      requires Valid()
      modifies this
      ensures outcome == Panicked <==> name !in old(quitChans)
      ensures outcome == Hung <==> name in old(quitChans) && name in stuck
      ensures outcome == Panicked ==> Contents() == old(Contents())
      ensures outcome == Done ==> Contents() == Deregistered(old(Contents()), name)
      ensures outcome != Panicked ==> ClosedAtMostOnce()
      ensures outcome == Hung ==>
                Contents() == old(Contents()).(closed := old(closed) + multiset{old(quitChans)[name]})
      ensures outcome != Hung ==> Valid()
    {
      if name !in quitChans {
        return Panicked; // close of a nil channel
      }
      DeregisterKeepsInv(Contents(), name);
      assert closed[quitChans[name]] == 0; // it is still open
      closed := closed + multiset{quitChans[name]};
      if name in stuck {
        return Hung;
      }
      wgs := wgs - {name};
      quitChans := quitChans - {name};
      incoming := incoming - {name};
      outcome := Done;
    }

    ghost predicate ClosedAtMostOnce()
      reads this
    {
      forall c: nat :: closed[c] <= 1
    }

    /**
     Closes what the tables still hold, each channel open until then, and leaves the tables as they are. After each
     close it waits for that pump, so it hangs exactly if one of them is stuck.
     */
    method Shutdown(stuck: set<string>) returns (outcome: Outcome)
      requires Valid()
      modifies this`closed
      ensures outcome == Hung <==> !(stuck !! quitChans.Keys)
      ensures outcome != Hung ==> outcome == Done && AllClosedOnce(Contents())
      ensures ClosedAtMostOnce()
    {
      var left := quitChans;
      while left.Keys != {}
        invariant left.Keys <= quitChans.Keys && forall n :: n in left ==> left[n] == quitChans[n]
        invariant stuck !! quitChans.Keys - left.Keys
        invariant Distinct(left)
        invariant ClosedOnceExcept(closed, issued, left)
        decreases left.Keys
      {
        var name :| name in left;
        hide ClosedOnceExcept;
        CloseOne(closed, issued, left, name);
        assert closed[left[name]] == 0; // it is still open
        closed := closed + multiset{left[name]};
        left := left - {name};
        if name in stuck {
          ExceptMeansAtMostOnce(closed, issued, left);
          return Hung;
        }
      }
      NoneLeft(closed, issued, left);
      outcome := Done;
    }
  }

  /**
   How the creation of a plugin goes. Only `AddPlugin` checks the name, the executable and the type first; the loop in
   `Start` meets an unknown type later.
   */
  datatype Creation = BadConfig | BadType | VersionCallsFail | Works

  datatype Manager = Manager(tables: Tables, registry: set<string>)

  /** The effect of `AddPlugin`. */
  function Added(m: Manager, name: string, creation: Creation): Manager {
    if creation == BadConfig || name in m.tables.incoming || creation == BadType then m
    else Manager(Registered(m.tables, name), if creation == Works then m.registry + {name} else m.registry)
  }

  class PluginManager {
    const queueManager: QueueManager
    var registry: set<string>
    var stopped: bool // its own quit channel is closed

    ghost function Contents(): Manager
      reads this, queueManager
    {
      Manager(queueManager.Contents(), registry)
    }

    ghost predicate Running()
      reads this, queueManager
    {
      !stopped && queueManager.Valid() && registry <= queueManager.quitChans.Keys
    }

    /** After `Stop`: no registered plugin has a source left. */
    ghost predicate Over()
      reads this, queueManager
    {
      stopped && registry !! queueManager.quitChans.Keys
    }

    constructor (queueManager: QueueManager)
      requires queueManager.Valid()
      ensures Running() && this.queueManager == queueManager && registry == {}
    {
      this.queueManager, registry, stopped := queueManager, {}, false;
    }

    /** `AddPlugin`, or one turn of the loop in `Start`. */
    method AddPlugin(name: string, creation: Creation) returns (err: Option<Error>)
      requires Running()
      modifies this`registry, queueManager
      ensures Running()
      ensures err.None? <==> name !in old(queueManager.incoming) && creation == Works
      ensures err == Some(InvalidPluginConfig) <==> creation == BadConfig
      ensures Contents() == Added(old(Contents()), name, creation)
    {
      if creation == BadConfig {
        return Some(InvalidPluginConfig);
      }
      if name in registry {
        return Some(DuplicatePluginName);
      }
      if creation == BadType {
        return Some(InvalidPluginType);
      }
      var r := queueManager.RegisterSource(name);
      if r.Err? {
        return Some(r.error);
      }
      if creation == VersionCallsFail {
        return Some(PluginFailed);
      }
      registry := registry + {name};
      err := None;
    }

    /**
     The cleanup of one plugin: stop the instance, then remove its source. `hanging` names the instances whose stop
     never returns, because a setter holds their lock for good; `stuck` names the sources whose pump does not.
     */
    method CleanUp(name: string, hanging: set<string>, stuck: set<string>) returns (outcome: Outcome)
      requires stopped <==> name !in queueManager.quitChans
      requires !stopped ==> queueManager.Valid()
      modifies queueManager
      ensures outcome == Hung <==> name in hanging || (!stopped && name in stuck)
      ensures outcome == Panicked <==> name !in hanging && stopped
      ensures outcome == Done ==>
                && queueManager.Valid() && queueManager.issued == old(queueManager.issued)
                && queueManager.quitChans.Keys == old(queueManager.quitChans).Keys - {name}
      ensures !stopped ==> queueManager.ClosedAtMostOnce()
      ensures stopped ==> queueManager.Contents() == old(queueManager.Contents())
    {
      if !stopped { ValidClosesOnce(); }
      hide Inv;
      if name in hanging {
        return Hung;
      }
      if name !in queueManager.quitChans {
        return Panicked; // close of a nil channel
      }
      outcome := queueManager.Deregister(name, stuck);
    }

    /** All cleanups. After a stop the first one that gets past its instance closes a nil channel. */
    method CleanUpAll(hanging: set<string>, stuck: set<string>) returns (outcome: Outcome)
      requires Running() || Over()
      modifies queueManager
      ensures !stopped ==> (outcome == Hung <==> !(hanging !! registry && stuck !! registry)) && outcome != Panicked
      ensures stopped && hanging !! registry ==> outcome == if registry == {} then Done else Panicked
      ensures stopped && registry != {} && registry <= hanging ==> outcome == Hung
      ensures stopped && registry != {} ==> outcome != Done
      ensures stopped ==> queueManager.Contents() == old(queueManager.Contents())
      ensures outcome == Done && !stopped ==>
                && queueManager.Valid() && queueManager.issued == old(queueManager.issued)
                && queueManager.quitChans.Keys == old(queueManager.quitChans).Keys - registry
      ensures !stopped ==> queueManager.ClosedAtMostOnce()
    {
      hide Inv, AllClosedOnce;
      ghost var sources := queueManager.quitChans.Keys;
      var left := registry;
      while left != {}
        invariant left <= registry
        invariant stopped ==> left == registry && queueManager.Contents() == old(queueManager.Contents())
        invariant !stopped ==> queueManager.Valid() && queueManager.issued == old(queueManager.issued)
        invariant !stopped ==> queueManager.quitChans.Keys == sources - (registry - left)
        invariant !stopped ==> hanging !! registry - left && stuck !! registry - left
        decreases left
      {
        var name :| name in left;
        outcome := CleanUp(name, hanging, stuck);
        if outcome != Done {
          return;
        }
        assert registry - (left - {name}) == registry - left + {name};
        left := left - {name};
      }
      assert registry - left == registry;
      outcome := Done;
      if !stopped { ValidClosesOnce(); }
    }

    lemma ValidClosesOnce()
      requires queueManager.Valid()
      ensures queueManager.ClosedAtMostOnce()
    {
    }

    /**
     The first stop closes every quit channel exactly once: those of registered plugins through their cleanup,
     those that failed creations left behind through the queue manager's shutdown. It waits for every registered
     instance to stop, for every pump and for the monitor on the way, so it hangs exactly if one of them does not
     return; even then no channel is closed twice. A second stop never returns in order: it panics, unless the stop of
     an instance that was started again in between hangs first.
     */
    method Stop(hanging: set<string>, stuck: set<string>, monitorReturns: bool) returns (outcome: Outcome)
      requires Running() || Over()
      modifies this`stopped, queueManager
      ensures !old(stopped) ==>
                (outcome == Hung <==>
                   !(monitorReturns && hanging !! registry && stuck !! old(queueManager.quitChans).Keys))
      ensures !old(stopped) ==> outcome != Panicked
      ensures old(stopped) ==> outcome != Done
      ensures old(stopped) && hanging !! registry ==> outcome == Panicked
      ensures outcome == Done ==> Over() && AllClosedOnce(queueManager.Contents())
      ensures outcome == Done ==> queueManager.issued == old(queueManager.issued)
      ensures !old(stopped) ==> queueManager.ClosedAtMostOnce()
    {
      hide Inv;
      outcome := CleanUpAll(hanging, stuck);
      if outcome != Done {
        return;
      }
      if stopped {
        return Panicked; // close of a closed channel
      }
      stopped := true;
      if !monitorReturns {
        return Hung;
      }
      outcome := queueManager.Shutdown(stuck);
    }
  }

  // Whole runs

  function AddedAll(m: Manager, plugins: seq<(string, Creation)>): Manager
    decreases plugins
  {
    if plugins == [] then m else AddedAll(Added(m, plugins[0].0, plugins[0].1), plugins[1..])
  }

  ghost predicate Good(m: Manager) {
    Inv(m.tables) && m.registry <= m.tables.incoming.Keys
  }

  /** Through any creations, good and failed, the tables keep equal keys and no channel is lost or closed. */
  lemma {:induction false} CreationsKeepTables(m: Manager, plugins: seq<(string, Creation)>)
    requires Good(m)
    ensures Good(AddedAll(m, plugins))
    ensures AddedAll(m, plugins).tables.closed == m.tables.closed
    decreases plugins
  {
    if plugins != [] {
      var (name, creation) := plugins[0];
      if name !in m.tables.incoming {
        RegisterKeepsInv(m.tables, name);
      }
      CreationsKeepTables(Added(m, name, creation), plugins[1..]);
    }
  }

  /** A name is taken for good by its first creation of a known type, even one that failed. */
  lemma {:induction false} FailedNameStaysTaken(m: Manager, name: string, plugins: seq<(string, Creation)>)
    requires name in m.tables.incoming && name !in m.registry
    ensures name in AddedAll(m, plugins).tables.incoming && name !in AddedAll(m, plugins).registry
    decreases plugins
  {
    if plugins != [] {
      FailedNameStaysTaken(Added(m, plugins[0].0, plugins[0].1), name, plugins[1..]);
    }
  }

  /** A creation that fails for the plugin's sake takes the name, which no later creation can then use. */
  lemma FailedCreationTakesName(m: Manager, name: string, plugins: seq<(string, Creation)>)
    requires name !in m.tables.incoming && name !in m.registry
    ensures var end := AddedAll(Added(m, name, VersionCallsFail), plugins);
            name in end.tables.incoming && name !in end.registry
  {
    FailedNameStaysTaken(Added(m, name, VersionCallsFail), name, plugins);
  }

  /** What a creation leaves: its name registered unless refused, and in the registry if it worked. */
  lemma CreationOutcome(m: Manager, name: string, creation: Creation)
    requires Good(m)
    ensures var m' := Added(m, name, creation);
            && (name in m.tables.incoming || creation == BadConfig || creation == BadType ==> m' == m)
            && (name !in m.tables.incoming && (creation == Works || creation == VersionCallsFail) ==>
                  && m'.tables.incoming.Keys == m.tables.incoming.Keys + {name}
                  && m'.tables.issued == m.tables.issued + 1
                  && m'.registry == if creation == Works then m.registry + {name} else m.registry)
  {
  }
}
