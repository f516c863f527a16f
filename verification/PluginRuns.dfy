/**
 Whole runs of one plugin instance: client calls, monitor ticks and the ends of recorders and command streams,
 in any order and with any answers.
 */
module PluginRuns {
  import opened Wrappers
  import opened Steps = PluginSteps

  datatype Event =
    | StartRecordCall(answer: Answer)
    | StopRecordCall(answer: Answer)
    | CommandCall(answer: Answer)
    | StartPluginCall
    | StopPluginCall(env: StopEnv)
    | MonitorTick(env: StopEnv)
    | RecorderEnds(timedOut: bool)
    | StreamEnds(timedOut: bool)
    | StartAnswersLate(succeeds: bool)
    | StopAnswersLate(succeeds: bool)
    | CommandAnswersLate(succeeds: bool)

  predicate Enabled(p: Plugin, e: Event) {
    && (e.RecorderEnds? ==> p.recorders > 0)
    && (e.StreamEnds? ==> p.streams > 0)
    && (e.StartAnswersLate? ==> p.lateStarts > 0)
    && (e.StopAnswersLate? ==> p.lateStops > 0)
    && (e.CommandAnswersLate? ==> p.lateCommands > 0)
  }

  function Apply(p: Plugin, e: Event): Plugin
    requires Enabled(p, e)
  {
    match e
    case StartRecordCall(a) => StartRecord(p, a).0
    case StopRecordCall(a) => StopRecord(p, a).0
    case CommandCall(a) => Command(p, a).0
    case StartPluginCall => StartPlugin(p).0
    case StopPluginCall(env) => Stop(p, env).0
    case MonitorTick(env) => Tick(p, env)
    case RecorderEnds(timedOut) => RecorderEnd(p, timedOut)
    case StreamEnds(timedOut) => StreamEnd(p, timedOut)
    case StartAnswersLate(succeeds) => LateStart(p, succeeds)
    case StopAnswersLate(succeeds) => LateStop(p, succeeds)
    case CommandAnswersLate(succeeds) => LateCommand(p, succeeds)
  }

  predicate IsRun(p: Plugin, events: seq<Event>)
    decreases events
  {
    events == [] || (Enabled(p, events[0]) && IsRun(Apply(p, events[0]), events[1..]))
  }

  function Run(p: Plugin, events: seq<Event>): Plugin
    requires IsRun(p, events)
    decreases events
  {
    if events == [] then p else Run(Apply(p, events[0]), events[1..])
  }

  // Single calls

  /** A call succeeds exactly under the conditions it checks, and with the plugin of the right kind. */
  lemma CallsSucceedIff(p: Plugin, a: Answer)
    ensures StartRecord(p, a).1.None? <==>
              p.state in {READY, UNKNOWN} && !p.recording && p.client.Some? && p.kind == Datasource && a.Succeeds?
    ensures StopRecord(p, a).1.None? <==>
              p.state in {READY, UNKNOWN} && p.recording && p.client.Some? && p.kind == Datasource && a.Succeeds?
    ensures Command(p, a).1.None? <==>
              p.state in {READY, UNKNOWN} && p.client.Some? && p.kind == Controller && a.Succeeds?
  {
  }

  /** A failed call keeps client, recording and count, and is either refused outright or seen in the state. */
  ghost predicate FailsCleanly(p: Plugin, q: Plugin, err: Option<Error>) {
    err.Some? ==>
      && q.client == p.client && q.recording == p.recording && q.timeoutCnt == p.timeoutCnt
      && (q == p || q.state == if err == Some(DeadlineExceeded) then UNRESPONSIVE else UNKNOWN)
      && (q == p <==> err.value in {PluginNotReady, AlreadyRecording, AlreadyStoppedRecording, PluginNotStarted})
  }

  lemma CallsFailCleanly(p: Plugin, a: Answer)
    ensures FailsCleanly(p, StartRecord(p, a).0, StartRecord(p, a).1)
    ensures FailsCleanly(p, StopRecord(p, a).0, StopRecord(p, a).1)
    ensures FailsCleanly(p, Command(p, a).0, Command(p, a).1)
  {
    hide FailsCleanly, StartRecord, StopRecord, Command;
    StartRecordFailsCleanly(p, a);
    StopRecordFailsCleanly(p, a);
    CommandFailsCleanly(p, a);
  }

  lemma StartRecordFailsCleanly(p: Plugin, a: Answer)
    ensures FailsCleanly(p, StartRecord(p, a).0, StartRecord(p, a).1)
  {
    assert |p.trace + [BUSY] + [UNKNOWN]| > |p.trace| && |p.trace + [BUSY] + [UNRESPONSIVE]| > |p.trace|;
  }

  lemma StopRecordFailsCleanly(p: Plugin, a: Answer)
    ensures FailsCleanly(p, StopRecord(p, a).0, StopRecord(p, a).1)
  {
    assert |p.trace + [BUSY] + [UNKNOWN]| > |p.trace| && |p.trace + [BUSY] + [UNRESPONSIVE]| > |p.trace|;
  }

  lemma CommandFailsCleanly(p: Plugin, a: Answer)
    ensures FailsCleanly(p, Command(p, a).0, Command(p, a).1)
  {
    assert |p.trace + [BUSY] + [UNKNOWN]| > |p.trace| && |p.trace + [BUSY] + [UNRESPONSIVE]| > |p.trace|;
  }

  /** Which error a call returns: the first check that fails, or else what came of the plugin. */
  lemma CallErrors(p: Plugin, a: Answer)
    ensures var err := StartRecord(p, a).1;
            && (err == Some(PluginNotReady) <==> p.state !in {READY, UNKNOWN})
            && (err == Some(AlreadyRecording) <==> p.state in {READY, UNKNOWN} && p.recording)
            && (err == Some(PluginNotStarted) <==> p.state in {READY, UNKNOWN} && !p.recording && p.client.None?)
    ensures var err := StopRecord(p, a).1;
            && (err == Some(PluginNotReady) <==> p.state !in {READY, UNKNOWN})
            && (err == Some(AlreadyStoppedRecording) <==> p.state in {READY, UNKNOWN} && !p.recording)
            && (err == Some(PluginNotStarted) <==> p.state in {READY, UNKNOWN} && p.recording && p.client.None?)
    ensures var err := Command(p, a).1;
            && (err == Some(PluginNotReady) <==> p.state !in {READY, UNKNOWN})
            && (err == Some(PluginNotStarted) <==> p.state in {READY, UNKNOWN} && p.client.None?)
  {
  }

  /** A call that got past its checks is given up on exactly if the plugin, being of the right kind, does not answer. */
  lemma GivenUpIff(p: Plugin, a: Answer)
    requires CallReady(p) && p.client.Some?
    ensures !p.recording ==> (StartRecord(p, a).1 == Some(DeadlineExceeded) <==> p.kind == Datasource && a.TimesOut?)
    ensures p.recording ==> (StopRecord(p, a).1 == Some(DeadlineExceeded) <==> p.kind == Datasource && a.TimesOut?)
    ensures Command(p, a).1 == Some(DeadlineExceeded) <==> p.kind == Controller && a.TimesOut?
  {
  }

  /**
   What the listeners hear of a call that gets past its checks: BUSY, then the state it ends in. That comes twice when
   the plugin itself fails a start or a command, from the goroutine and from the caller.
   */
  predicate Heard(p: Plugin, q: Plugin, twice: bool) {
    q == p || q.trace == p.trace + (if twice then [BUSY, q.state, q.state] else [BUSY, q.state])
  }

  lemma CallsAreHeard(p: Plugin, a: Answer)
    ensures Heard(p, StartRecord(p, a).0, a.Fails? && p.kind == Datasource)
    ensures Heard(p, StopRecord(p, a).0, false)
    ensures Heard(p, Command(p, a).0, a.Fails? && p.kind == Controller)
  {
    StartRecordIsHeard(p, a);
    CommandIsHeard(p, a);
    var s := StopRecord(p, a).0.state;
    assert p.trace + [BUSY] + [s] == p.trace + [BUSY, s];
  }

  lemma StartRecordIsHeard(p: Plugin, a: Answer)
    ensures Heard(p, StartRecord(p, a).0, a.Fails? && p.kind == Datasource)
  {
    var s := StartRecord(p, a).0.state;
    assert p.trace + [BUSY] + [s] == p.trace + [BUSY, s] && p.trace + [BUSY] + [s] + [s] == p.trace + [BUSY, s, s];
  }

  lemma CommandIsHeard(p: Plugin, a: Answer)
    ensures Heard(p, Command(p, a).0, a.Fails? && p.kind == Controller)
  {
    var s := Command(p, a).0.state;
    assert p.trace + [BUSY] + [s] == p.trace + [BUSY, s] && p.trace + [BUSY] + [s] + [s] == p.trace + [BUSY, s, s];
  }

  /** A version call succeeds, fails and is heard like any other, and changes nothing but the state. */
  lemma HandshakeOutcome(p: Plugin, a: Answer)
    ensures var (q, err) := Handshake(p, a);
            && (err.None? <==> p.state in {READY, UNKNOWN} && p.client.Some? && a.Succeeds?)
            && (err == Some(PluginNotReady) <==> p.state !in {READY, UNKNOWN})
            && (err == Some(PluginNotStarted) <==> p.state in {READY, UNKNOWN} && p.client.None?)
            && (err == Some(DeadlineExceeded) <==> p.state in {READY, UNKNOWN} && p.client.Some? && a.TimesOut?)
            && (err.None? ==> q.state == READY) && FailsCleanly(p, q, err)
            && Heard(p, q, false) && SameButState(p, q)
  {
    var s := Handshake(p, a).0.state;
    assert p.trace + [BUSY] + [s] == p.trace + [BUSY, s];
    assert |p.trace + [BUSY, s]| > |p.trace|;
  }

  /** Starting a recording and stopping it again undo each other, except for the goroutine that reads its frames. */
  lemma StopUndoesStart(p: Plugin)
    requires p.kind == Datasource && CallReady(p) && !p.recording && p.client.Some?
    ensures var (q, started) := StartRecord(p, Succeeds);
            var (r, stopped) := StopRecord(q, Succeeds);
            && started.None? && q.state == READY && q.recording && stopped.None?
            && r == p.(state := READY, recorders := p.recorders + 1, trace := p.trace + [BUSY, READY, BUSY, READY])
            && RecorderEnd(r, true) == r.(recorders := p.recorders)
  {
    assert p.trace + [BUSY] + [READY] + [BUSY] + [READY] == p.trace + [BUSY, READY, BUSY, READY];
  }

  /** Two instances that differ in their states and broadcasts at most. */
  predicate SameButState(p: Plugin, q: Plugin) {
    p.(state := READY, trace := []) == q.(state := READY, trace := [])
  }

  /** Giving up on a call does not take it back: a late success has every effect of one in time but the state. */
  lemma LateSuccessIsSuccess(p: Plugin)
    requires CallReady(p) && p.client.Some?
    ensures p.kind == Datasource && !p.recording ==>
              var q := StartRecord(p, TimesOut).0;
              q.lateStarts > 0 && LateStart(q, true).state == UNRESPONSIVE
              && SameButState(LateStart(q, true), StartRecord(p, Succeeds).0)
    ensures p.kind == Datasource && p.recording ==>
              var q := StopRecord(p, TimesOut).0;
              q.lateStops > 0 && LateStop(q, true).state == UNRESPONSIVE
              && SameButState(LateStop(q, true), StopRecord(p, Succeeds).0)
    ensures p.kind == Controller ==>
              var q := Command(p, TimesOut).0;
              q.lateCommands > 0 && LateCommand(q, true).state == UNRESPONSIVE
              && SameButState(LateCommand(q, true), Command(p, Succeeds).0)
  {
  }

  /** A late failure changes nothing but the state, which it makes UNKNOWN: a plugin found unresponsive no longer is. */
  lemma LateFailureHidesTimeout(p: Plugin)
    requires CallReady(p) && p.client.Some?
    ensures p.kind == Datasource && !p.recording ==>
              var q := StartRecord(p, TimesOut).0;
              q.lateStarts > 0 && LateStart(q, false).state == UNKNOWN && SameButState(LateStart(q, false), p)
    ensures p.kind == Datasource && p.recording ==>
              var q := StopRecord(p, TimesOut).0;
              q.lateStops > 0 && LateStop(q, false).state == UNKNOWN && SameButState(LateStop(q, false), p)
    ensures p.kind == Controller ==>
              var q := Command(p, TimesOut).0;
              q.lateCommands > 0 && LateCommand(q, false).state == UNKNOWN && SameButState(LateCommand(q, false), p)
  {
  }

  /**
   A datasource that stops sending while its recording is wanted is restarted by the next tick, or killed once the
   budget is spent; so is a controller in the middle of a command. Without a wanted recording, and at the end of a
   stream, the state stays as it was and so does the plugin.
   */
  lemma SilenceIsNoticed(p: Plugin, env: StopEnv)
    ensures p.recorders > 0 && p.recording ==> Restarted(p, Tick(RecorderEnd(p, true), env))
    ensures p.streams > 0 ==> Restarted(p, Tick(StreamEnd(p, true), env))
    ensures p.recorders > 0 && !p.recording ==> RecorderEnd(p, true) == p.(recorders := p.recorders - 1)
    ensures p.recorders > 0 ==> RecorderEnd(p, false) == p.(recorders := p.recorders - 1, recording := false)
    ensures p.streams > 0 ==> StreamEnd(p, false) == p.(streams := p.streams - 1)
  {
    if p.recorders > 0 && p.recording { TickOutcome(RecorderEnd(p, true), env); }
    if p.streams > 0 { TickOutcome(StreamEnd(p, true), env); }
  }

  /** The monitor has found `p` silent and restarted it, or killed it. */
  predicate Restarted(p: Plugin, q: Plugin) {
    if BudgetSpent(p) then q.state == KILLED && q.client.None? && q.timeoutCnt == p.timeoutCnt
    else q.state == READY && q.client == Some(p.clients) && q.timeoutCnt == p.timeoutCnt + 1
  }

  // Broadcasts

  /** The last state broadcast, READY before the first, is the state. */
  predicate Told(p: Plugin) {
    p.state == if p.trace == [] then READY else p.trace[|p.trace| - 1]
  }

  lemma TickTells(p: Plugin, env: StopEnv)
    requires Told(p)
    ensures Told(Tick(p, env)) && p.trace <= Tick(p, env).trace
  {
    if p.state == UNRESPONSIVE {
      var q := if BudgetSpent(p) then p else p.(timeoutCnt := p.timeoutCnt + 1);
      StopTells(q, env);
    }
  }

  lemma StopTells(p: Plugin, env: StopEnv)
    requires Told(p)
    ensures Told(Stop(p, env).0) && p.trace <= Stop(p, env).0.trace
  {
    if Stoppable(p) {
      StopAlwaysStops(p, env);
    }
  }

  lemma StartRecordTells(p: Plugin, a: Answer)
    requires Told(p)
    ensures Told(StartRecord(p, a).0) && p.trace <= StartRecord(p, a).0.trace
  {
    var s := StartRecord(p, a).0.state;
    assert p.trace + [BUSY] + [s] == p.trace + [BUSY, s];
    assert p.trace + [BUSY] + [s] + [s] == p.trace + [BUSY, s, s];
  }

  lemma StopRecordTells(p: Plugin, a: Answer)
    requires Told(p)
    ensures Told(StopRecord(p, a).0) && p.trace <= StopRecord(p, a).0.trace
  {
    var s := StopRecord(p, a).0.state;
    assert p.trace + [BUSY] + [s] == p.trace + [BUSY, s];
  }

  lemma CommandTells(p: Plugin, a: Answer)
    requires Told(p)
    ensures Told(Command(p, a).0) && p.trace <= Command(p, a).0.trace
  {
    var s := Command(p, a).0.state;
    assert p.trace + [BUSY] + [s] == p.trace + [BUSY, s];
    assert p.trace + [BUSY] + [s] + [s] == p.trace + [BUSY, s, s];
  }

  lemma StepTells(p: Plugin, e: Event)
    requires Told(p) && Enabled(p, e)
    ensures Told(Apply(p, e)) && p.trace <= Apply(p, e).trace
  {
    match e {
      case StartRecordCall(a) => StartRecordTells(p, a);
      case StopRecordCall(a) => StopRecordTells(p, a);
      case CommandCall(a) => CommandTells(p, a);
      case StopPluginCall(env) => StopTells(p, env);
      case MonitorTick(env) => TickTells(p, env);
      case _ =>
    }
  }

  /** Over any run, stale goroutines included, nothing changes the state without telling the listeners. */
  lemma {:induction false} RunTells(p: Plugin, events: seq<Event>)
    requires Told(p) && IsRun(p, events)
    ensures Told(Run(p, events)) && p.trace <= Run(p, events).trace
    decreases events
  {
    if events != [] {
      StepTells(p, events[0]);
      RunTells(Apply(p, events[0]), events[1..]);
    }
  }

  // State and client

  /** The handle is missing exactly in the two final states, and no call leaves the instance in between. */
  predicate ClientMatchesState(p: Plugin) {
    && (p.client.None? <==> p.state == STOPPED || p.state == KILLED)
    && (p.client.None? ==> !p.recording)
    && (p.client.Some? ==> p.client.value < p.clients)
    && p.state != BUSY && p.state != STOPPING
  }

  lemma CreatedMatches(kind: Kind, maxTimeouts: int, push: Answer, get: Answer)
    ensures var p := NewInstance(kind, maxTimeouts);
            p.client.Some? && p.state == READY && p.trace == [] && p.timeoutCnt == 0
    ensures Created(kind, maxTimeouts, push, get).Ok? <==> push.Succeeds? && get.Succeeds?
    ensures push.Succeeds? && get.Succeeds? ==>
              var p := Created(kind, maxTimeouts, push, get).value;
              && ClientMatchesState(p) && p.state == READY && p.timeoutCnt == 0 && p.streams == 0
              && p.kind == kind && p.maxTimeouts == maxTimeouts
              && !p.recording && p.recorders == 0 && p.lateStarts == 0 && p.lateStops == 0 && p.lateCommands == 0
  {
  }

  /** A goroutine that outlived its plugin's client still sets the state, or the recording flag. */
  predicate Stale(p: Plugin, e: Event) {
    p.client.None? &&
    match e
    case StreamEnds(timedOut) => timedOut
    case StartAnswersLate(_) => true
    case StopAnswersLate(succeeds) => !succeeds
    case CommandAnswersLate(succeeds) => !succeeds
    case _ => false
  }

  lemma CallsKeepMatch(p: Plugin, a: Answer)
    requires ClientMatchesState(p)
    ensures ClientMatchesState(StartRecord(p, a).0) && ClientMatchesState(StopRecord(p, a).0)
    ensures ClientMatchesState(Command(p, a).0)
  {
  }

  lemma StopKeepsMatch(p: Plugin, env: StopEnv)
    requires ClientMatchesState(p)
    ensures ClientMatchesState(Stop(p, env).0)
  {
  }

  lemma TickKeepsMatch(p: Plugin, env: StopEnv)
    requires ClientMatchesState(p)
    ensures ClientMatchesState(Tick(p, env))
  {
    TickOutcome(p, env);
    hide Tick;
  }

  lemma StepKeepsMatchIff(p: Plugin, e: Event)
    requires ClientMatchesState(p) && Enabled(p, e)
    ensures ClientMatchesState(Apply(p, e)) <==> !Stale(p, e)
  {
    hide StartRecord, StopRecord, Command, Stop, Tick;
    match e {
      case StartRecordCall(a) => CallsKeepMatch(p, a);
      case StopRecordCall(a) => CallsKeepMatch(p, a);
      case CommandCall(a) => CallsKeepMatch(p, a);
      case StopPluginCall(env) => StopKeepsMatch(p, env);
      case MonitorTick(env) => TickKeepsMatch(p, env);
      case _ =>
    }
  }

  /** Some goroutine of the run reports while the plugin it belonged to has no client. */
  predicate HasStale(p: Plugin, events: seq<Event>)
    requires IsRun(p, events)
    decreases events
  {
    events != [] && (Stale(p, events[0]) || HasStale(Apply(p, events[0]), events[1..]))
  }

  ghost predicate AlwaysMatches(p: Plugin, events: seq<Event>)
    requires IsRun(p, events)
    decreases events
  {
    ClientMatchesState(p) && (events == [] || AlwaysMatches(Apply(p, events[0]), events[1..]))
  }

  /** Client and state stay in step through a run exactly if no goroutine reports after its plugin has gone. */
  lemma {:induction false} AlwaysMatchesIff(p: Plugin, events: seq<Event>)
    requires ClientMatchesState(p) && IsRun(p, events)
    ensures AlwaysMatches(p, events) <==> !HasStale(p, events)
    decreases events
  {
    if events != [] {
      StepKeepsMatchIff(p, events[0]);
      if ClientMatchesState(Apply(p, events[0])) {
        AlwaysMatchesIff(Apply(p, events[0]), events[1..]);
      }
    }
  }

  /** No call that was given up on answers. */
  predicate NoLateAnswers(events: seq<Event>) {
    forall i :: 0 <= i < |events| ==>
      !events[i].StartAnswersLate? && !events[i].StopAnswersLate? && !events[i].CommandAnswersLate?
  }

  /**
   A datasource whose timed-out calls stay silent keeps client and state in step over every run: in particular a
   recorder that times out late cannot bring a stopped plugin back.
   */
  lemma {:induction false} DatasourceAlwaysMatches(p: Plugin, events: seq<Event>)
    requires p.kind == Datasource && p.streams == 0 && ClientMatchesState(p)
    requires IsRun(p, events) && NoLateAnswers(events)
    ensures ClientMatchesState(Run(p, events))
    decreases events
  {
    if events != [] {
      StepKeepsMatchIff(p, events[0]);
      assert forall i :: 0 <= i < |events[1..]| ==> events[1..][i] == events[i + 1];
      DatasourceAlwaysMatches(Apply(p, events[0]), events[1..]);
    }
  }

  /** Otherwise a killed datasource can leave KILLED: the call that made it time out fails once it is killed. */
  lemma KilledDatasourceRevived(p: Plugin, env: StopEnv)
    requires p.kind == Datasource && p.state == READY && !p.recording && ClientMatchesState(p) && BudgetSpent(p)
    ensures var events := [StartRecordCall(TimesOut), MonitorTick(env), StartAnswersLate(false)];
            IsRun(p, events) && Run(p, events).state == UNKNOWN && Run(p, events).client.None?
  {
    var p1 := Apply(p, StartRecordCall(TimesOut));
    var p2 := Apply(p1, MonitorTick(env));
    assert p2.state == KILLED && p2.client.None? && p2.lateStarts > 0;
    RunCons(p2, StartAnswersLate(false), []);
    RunCons(p1, MonitorTick(env), [StartAnswersLate(false)]);
    RunCons(p, StartRecordCall(TimesOut), [MonitorTick(env), StartAnswersLate(false)]);
    assert [StartRecordCall(TimesOut)] + [MonitorTick(env), StartAnswersLate(false)]
        == [StartRecordCall(TimesOut), MonitorTick(env), StartAnswersLate(false)];
    assert [MonitorTick(env)] + [StartAnswersLate(false)] == [MonitorTick(env), StartAnswersLate(false)];
    assert [StartAnswersLate(false)] + [] == [StartAnswersLate(false)];
  }

  /** And the monitor restarts a stopped plugin whose command stream times out. */
  lemma StaleStreamRevives(p: Plugin, env: StopEnv)
    requires p.state == STOPPED && p.client.None? && p.streams > 0 && !BudgetSpent(p)
    ensures var events := [StreamEnds(true), MonitorTick(env)];
            IsRun(p, events) && Run(p, events).state == READY && Run(p, events).client == Some(p.clients)
  {
    var p1 := Apply(p, StreamEnds(true));
    RunCons(p1, MonitorTick(env), []);
    RunCons(p, StreamEnds(true), [MonitorTick(env)]);
    assert [StreamEnds(true)] + [MonitorTick(env)] == [StreamEnds(true), MonitorTick(env)];
    assert [MonitorTick(env)] + [] == [MonitorTick(env)];
  }

  /** So a controller that was stopped on purpose, in the middle of a command, comes back. */
  lemma StoppedControllerRevived(p: Plugin, env: StopEnv, env': StopEnv)
    requires p.kind == Controller && p.state == READY && p.client.Some? && !BudgetSpent(p)
    ensures var events := [CommandCall(Succeeds)] + ([StopPluginCall(env)] + [StreamEnds(true), MonitorTick(env')]);
            IsRun(p, events) && Run(p, events).state == READY && Run(p, events).client == Some(p.clients)
  {
    var p1 := Apply(p, CommandCall(Succeeds));
    var p2 := Apply(p1, StopPluginCall(env));
    StaleStreamRevives(p2, env');
    RunCons(p1, StopPluginCall(env), [StreamEnds(true), MonitorTick(env')]);
    RunCons(p, CommandCall(Succeeds), [StopPluginCall(env)] + [StreamEnds(true), MonitorTick(env')]);
  }

  lemma RunCons(p: Plugin, e: Event, rest: seq<Event>)
    requires Enabled(p, e) && IsRun(Apply(p, e), rest)
    ensures IsRun(p, [e] + rest) && Run(p, [e] + rest) == Run(Apply(p, e), rest)
  {
    assert ([e] + rest)[1..] == rest;
  }

  // The restart budget

  predicate IsRestart(p: Plugin, e: Event) {
    e.MonitorTick? && p.state == UNRESPONSIVE && !BudgetSpent(p)
  }

  function Restarts(p: Plugin, events: seq<Event>): nat
    requires IsRun(p, events)
    decreases events
  {
    if events == [] then 0
    else (if IsRestart(p, events[0]) then 1 else 0) + Restarts(Apply(p, events[0]), events[1..])
  }

  function Budget(p: Plugin): nat {
    if p.maxTimeouts < 0 then 0 else p.maxTimeouts
  }

  lemma StepCounts(p: Plugin, e: Event)
    requires Enabled(p, e)
    ensures Apply(p, e).timeoutCnt == p.timeoutCnt + if IsRestart(p, e) then 1 else 0
    ensures Apply(p, e).maxTimeouts == p.maxTimeouts
  {
  }

  /**
   Over any run of any plugin, whatever client calls interleave, the timeout count counts the monitor's restarts,
   one for one, and never exceeds the budget.
   */
  lemma {:induction false} CountIsRestarts(p: Plugin, events: seq<Event>)
    requires IsRun(p, events) && p.timeoutCnt <= Budget(p)
    ensures Run(p, events).timeoutCnt == p.timeoutCnt + Restarts(p, events)
    ensures Run(p, events).timeoutCnt <= Budget(p)
    ensures Run(p, events).maxTimeouts == p.maxTimeouts
    decreases events
  {
    if events != [] {
      StepCounts(p, events[0]);
      CountIsRestarts(Apply(p, events[0]), events[1..]);
    }
  }

  /**
   A tick on an unresponsive plugin, with or without a client, ends READY with a client never used before and one
   restart more, or, once the budget is spent, KILLED without a client; any other plugin it leaves alone. A recording
   mark is cleared with the client only: one set by a late answer after the client had gone survives the tick.
   */
  lemma TickOutcome(p: Plugin, env: StopEnv)
    ensures var q := Tick(p, env);
            && (p.state != UNRESPONSIVE ==> q == p)
            && (p.state == UNRESPONSIVE ==> (q.recording <==> p.client.None? && p.recording))
            && (p.state == UNRESPONSIVE && !BudgetSpent(p) ==>
                  && q.state == READY && q.client == Some(p.clients) && q.clients == p.clients + 1
                  && q.timeoutCnt == p.timeoutCnt + 1)
            && (p.state == UNRESPONSIVE && BudgetSpent(p) ==>
                  q.state == KILLED && q.client.None? && q.timeoutCnt == p.timeoutCnt)
  {
  }

  /** At most as many restarts fit in a run as the budget has left. */
  lemma {:induction false} RestartsFitBudget(p: Plugin, events: seq<Event>)
    requires IsRun(p, events) && p.timeoutCnt <= Budget(p)
    ensures Restarts(p, events) <= Budget(p) - p.timeoutCnt
  {
    CountIsRestarts(p, events);
  }

  // Stopping

  /**
   Stopping a plugin that has a client and is not already stopping always ends in STOPPED, without client or
   recording; the first broadcast is STOPPING, the last one STOPPED, and BUSY is never among them, so no
   graceful end of a recording was ever begun.
   */
  lemma StopAlwaysStops(p: Plugin, env: StopEnv)
    requires Stoppable(p)
    ensures var q := Stop(p, env).0;
            && q.state == STOPPED && q.client.None? && !q.recording
            && |q.trace| >= |p.trace| + 2 && q.trace[..|p.trace|] == p.trace
            && q.trace[|p.trace|] == STOPPING && q.trace[|q.trace| - 1] == STOPPED
            && BUSY !in q.trace[|p.trace|..]
  {
    var refused := if !p.recording then [] else if env.expired then [UNRESPONSIVE] else [UNKNOWN];
    var failed := if env.answer.NoClient? || env.answer.NoPlugin? then [UNKNOWN] else [];
    Framed(p.trace, refused, failed);
  }

  lemma Framed(trace: seq<PluginState>, refused: seq<PluginState>, failed: seq<PluginState>)
    requires BUSY !in refused && BUSY !in failed
    ensures var t := trace + [STOPPING] + refused + failed + [STOPPED];
            && t[..|trace|] == trace && t[|trace|] == STOPPING && t[|t| - 1] == STOPPED && BUSY !in t[|trace|..]
            && t[|trace|..] == [STOPPING] + refused + failed + [STOPPED]
  {
    var t := trace + [STOPPING] + refused + failed + [STOPPED];
    assert t == trace + ([STOPPING] + refused + failed + [STOPPED]);
    assert t[|trace|..] == [STOPPING] + refused + failed + [STOPPED];
  }

  /** When a stop is refused, changing nothing, and what it returns otherwise. */
  lemma StopAnswers(p: Plugin, env: StopEnv)
    ensures var (q, err) := Stop(p, env);
            && (err == Some(AlreadyStopped) <==> p.state in {STOPPING, STOPPED, KILLED})
            && (err == Some(PluginNotStarted) <==> p.state !in {STOPPING, STOPPED, KILLED} && p.client.None?)
            && (!Stoppable(p) ==> q == p)
            && (err.None? <==> Stoppable(p) && env.answer.Succeeds?)
            && (err == Some(DeadlineExceeded) <==> Stoppable(p) && env.answer.TimesOut?)
  {
  }

  /** Which states a stop passes through on its way, besides STOPPING and STOPPED. */
  lemma StopPassesThrough(p: Plugin, env: StopEnv)
    requires Stoppable(p)
    ensures var told := Stop(p, env).0.trace[|p.trace|..];
            && (UNRESPONSIVE in told <==> p.recording && env.expired)
            && (UNKNOWN in told <==> (p.recording && !env.expired) || env.answer.NoClient? || env.answer.NoPlugin?)
  {
    var refused := if !p.recording then [] else if env.expired then [UNRESPONSIVE] else [UNKNOWN];
    var failed := if env.answer.NoClient? || env.answer.NoPlugin? then [UNKNOWN] else [];
    Framed(p.trace, refused, failed);
    InParts(UNRESPONSIVE, refused, failed);
    InParts(UNKNOWN, refused, failed);
  }

  lemma InParts(s: PluginState, refused: seq<PluginState>, failed: seq<PluginState>)
    ensures s in [STOPPING] + refused + failed + [STOPPED] <==>
            s == STOPPING || s == STOPPED || s in refused || s in failed
  {
    var front := [STOPPING] + refused;
    assert s in front + failed <==> s in front || s in failed;
  }

  /** Starting is for stopped and killed plugins only; it brings a fresh client, and keeps the count. */
  lemma StartPluginOutcome(p: Plugin)
    ensures var (q, err) := StartPlugin(p);
            && (err.None? <==> p.state in {STOPPED, KILLED})
            && (err.Some? ==> q == p && err == Some(AlreadyStarted))
            && (err.None? ==> q.state == READY && q.client == Some(p.clients) && q.clients == p.clients + 1
                              && q.timeoutCnt == p.timeoutCnt && q.recording == p.recording)
  {
  }

  /** Killing drops the client and the recording that went with it, and nobody hears of it. */
  lemma KillOutcome(p: Plugin)
    ensures p.client.Some? ==> Kill(p).client.None? && !Kill(p).recording
    ensures SameButState(Kill(p), p.(client := None, recording := p.client.None? && p.recording))
    ensures Kill(p).state == p.state && Kill(p).trace == p.trace
  {
  }

  /** `cleanUp` leaves nothing running, whatever the state and the answers. */
  lemma CleanUpLeavesNoClient(p: Plugin, env: StopEnv)
    ensures CleanUp(p, env).client.None?
    ensures ClientMatchesState(p) ==> ClientMatchesState(CleanUp(p, env)) && CleanUp(p, env).state in {STOPPED, KILLED}
  {
  }
}
