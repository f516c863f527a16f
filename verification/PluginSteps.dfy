/**
 A plugin instance and the calls that drive it through its seven states.

 The plugin process is reduced to an arbitrary answer per call, and one call is one step. The goroutine of a call
 that timed out lives on; its late answer is a step of its own. Every assignment of a state is also broadcast to
 the state listeners; `trace` is the sequence of those broadcasts.
 */
module PluginSteps {
  import opened Wrappers

  datatype PluginState = READY | BUSY | STOPPING | STOPPED | UNKNOWN | UNRESPONSIVE | KILLED

  /** The configured type; instances of any other type are never created. */
  datatype Kind = Datasource | Controller

  datatype Error =
    | PluginNotReady | PluginNotStarted | AlreadyRecording | AlreadyStoppedRecording
    | AlreadyStopped | AlreadyStarted | InvalidPluginType | PluginError | DeadlineExceeded

  /** How a call to the plugin process goes. */
  datatype Answer =
    | NoClient   // no gRPC client
    | NoPlugin   // the plugin could not be dispensed
    | WrongType  // it was dispensed, but does not implement the interface
    | Fails      // it returned an error
    | Succeeds
    | TimesOut

  datatype Plugin = Plugin(
    kind: Kind,
    maxTimeouts: int,
    state: PluginState,
    recording: bool,
    client: Option<nat>,
    timeoutCnt: nat,
    clients: nat,         // clients made so far; the next one gets this number
    recorders: nat,       // goroutines that still read a datasource's frames
    streams: nat,         // goroutines that still read a controller's frames
    lateStarts: nat,      // goroutines whose StartRecord call was given up on, and has not answered yet
    lateStops: nat,       // ... whose StopRecord call was
    lateCommands: nat,    // ... whose Command call was
    trace: seq<PluginState>)

  function Set(p: Plugin, s: PluginState): Plugin {
    p.(state := s, trace := p.trace + [s])
  }

  /** A plugin never implements the interface of the other kind. */
  function AnswerAs(p: Plugin, wanted: Kind, a: Answer): Answer {
    if a.NoClient? || a.NoPlugin? || p.kind == wanted then a else WrongType
  }

  predicate CallReady(p: Plugin) {
    p.state == READY || p.state == UNKNOWN
  }

  /** The states a call goes through after BUSY, for the answers every call treats alike. */
  function Refusal(a: Answer): Error {
    match a
    case WrongType => InvalidPluginType
    case TimesOut => DeadlineExceeded
    case _ => PluginError
  }

  // The calls on one instance

  function StartRecord(p: Plugin, answer: Answer): (Plugin, Option<Error>) {
    var a := AnswerAs(p, Datasource, answer);
    if !CallReady(p) then (p, Some(PluginNotReady))
    else if p.recording then (p, Some(AlreadyRecording))
    else if p.client.None? then (p, Some(PluginNotStarted))
    else match a
      case Succeeds =>
        (p.(state := READY, trace := p.trace + [BUSY] + [READY], recording := true, recorders := p.recorders + 1), None)
      case TimesOut =>
        (p.(state := UNRESPONSIVE, trace := p.trace + [BUSY] + [UNRESPONSIVE], lateStarts := p.lateStarts + 1),
         Some(Refusal(a)))
      case Fails => (p.(state := UNKNOWN, trace := p.trace + [BUSY] + [UNKNOWN] + [UNKNOWN]), Some(Refusal(a)))
      case _ => (p.(state := UNKNOWN, trace := p.trace + [BUSY] + [UNKNOWN]), Some(Refusal(a)))
  }

  function StopRecord(p: Plugin, answer: Answer): (Plugin, Option<Error>) {
    var a := AnswerAs(p, Datasource, answer);
    if !CallReady(p) then (p, Some(PluginNotReady))
    else if !p.recording then (p, Some(AlreadyStoppedRecording))
    else if p.client.None? then (p, Some(PluginNotStarted))
    else match a
      case Succeeds => (p.(state := READY, trace := p.trace + [BUSY] + [READY], recording := false), None)
      case TimesOut =>
        (p.(state := UNRESPONSIVE, trace := p.trace + [BUSY] + [UNRESPONSIVE], lateStops := p.lateStops + 1),
         Some(Refusal(a)))
      case _ => (p.(state := UNKNOWN, trace := p.trace + [BUSY] + [UNKNOWN]), Some(Refusal(a)))
  }

  function Command(p: Plugin, answer: Answer): (Plugin, Option<Error>) {
    var a := AnswerAs(p, Controller, answer);
    if !CallReady(p) then (p, Some(PluginNotReady))
    else if p.client.None? then (p, Some(PluginNotStarted))
    else match a
      case Succeeds => (p.(state := READY, trace := p.trace + [BUSY] + [READY], streams := p.streams + 1), None)
      case TimesOut =>
        (p.(state := UNRESPONSIVE, trace := p.trace + [BUSY] + [UNRESPONSIVE], lateCommands := p.lateCommands + 1),
         Some(Refusal(a)))
      case Fails => (p.(state := UNKNOWN, trace := p.trace + [BUSY] + [UNKNOWN] + [UNKNOWN]), Some(Refusal(a)))
      case _ => (p.(state := UNKNOWN, trace := p.trace + [BUSY] + [UNKNOWN]), Some(Refusal(a)))
  }

  /** The two version calls made when an instance is created; both plugin types answer them. */
  function Handshake(p: Plugin, a: Answer): (Plugin, Option<Error>) {
    if !CallReady(p) then (p, Some(PluginNotReady))
    else if p.client.None? then (p, Some(PluginNotStarted))
    else match a
      case Succeeds => (p.(state := READY, trace := p.trace + [BUSY] + [READY]), None)
      case TimesOut => (p.(state := UNRESPONSIVE, trace := p.trace + [BUSY] + [UNRESPONSIVE]), Some(Refusal(a)))
      case _ => (p.(state := UNKNOWN, trace := p.trace + [BUSY] + [UNKNOWN]), Some(Refusal(a)))
  }

  function Kill(p: Plugin): Plugin {
    if p.client.None? then p else p.(client := None, recording := false)
  }

  /** The caller's own deadline may already have passed when `stop` looks at it. */
  datatype StopEnv = StopEnv(answer: Answer, expired: bool)

  predicate Stoppable(p: Plugin) {
    p.state !in {STOPPING, STOPPED, KILLED} && p.client.Some?
  }

  /**
   Stopping ends, whatever the plugin answers, in STOPPED with no client and nothing recorded. A recording is
   never stopped gracefully: the nested request is refused because the state is already STOPPING.
   */
  function Stop(p: Plugin, env: StopEnv): (Plugin, Option<Error>) {
    if p.state in {STOPPING, STOPPED, KILLED} then (p, Some(AlreadyStopped))
    else if p.client.None? then (p, Some(PluginNotStarted))
    else
      var refused := if !p.recording then [] else if env.expired then [UNRESPONSIVE] else [UNKNOWN];
      var failed := if env.answer.NoClient? || env.answer.NoPlugin? then [UNKNOWN] else [];
      (p.(state := STOPPED, client := None, recording := false,
          trace := p.trace + [STOPPING] + refused + failed + [STOPPED]),
       if env.answer.Succeeds? then None else Some(Refusal(env.answer)))
  }

  /** A recorder goroutine ends: at end of stream, or because no frame came in time. */
  function RecorderEnd(p: Plugin, timedOut: bool): Plugin
    requires p.recorders > 0
  {
    (if timedOut && p.recording then Set(p, UNRESPONSIVE) else p).(recording := false, recorders := p.recorders - 1)
  }

  /** A command goroutine ends; unlike a recorder it does not look whether it was still wanted. */
  function StreamEnd(p: Plugin, timedOut: bool): Plugin
    requires p.streams > 0
  {
    (if timedOut then Set(p, UNRESPONSIVE) else p).(streams := p.streams - 1)
  }

  /** A StartRecord call answers after it was given up on: the goroutine goes on as if nothing had happened. */
  function LateStart(p: Plugin, succeeds: bool): Plugin
    requires p.lateStarts > 0
  {
    (if succeeds then p.(recording := true, recorders := p.recorders + 1)
     else Set(p, UNKNOWN)).(lateStarts := p.lateStarts - 1)
  }

  function LateStop(p: Plugin, succeeds: bool): Plugin
    requires p.lateStops > 0
  {
    (if succeeds then p.(recording := false) else Set(p, UNKNOWN)).(lateStops := p.lateStops - 1)
  }

  function LateCommand(p: Plugin, succeeds: bool): Plugin
    requires p.lateCommands > 0
  {
    (if succeeds then p.(streams := p.streams + 1) else Set(p, UNKNOWN)).(lateCommands := p.lateCommands - 1)
  }

  // The calls of the plugin manager

  function StartPlugin(p: Plugin): (Plugin, Option<Error>) {
    if p.state != STOPPED && p.state != KILLED then (p, Some(AlreadyStarted))
    else (Set(p.(client := Some(p.clients), clients := p.clients + 1), READY), None)
  }

  function CleanUp(p: Plugin, env: StopEnv): Plugin {
    if p.client.None? then p
    else var (q, err) := Stop(p, env); if err.Some? then Kill(q) else q
  }

  predicate BudgetSpent(p: Plugin) {
    p.timeoutCnt >= p.maxTimeouts
  }

  /** What one monitor tick does to an instance. */
  function Tick(p: Plugin, env: StopEnv): Plugin {
    if p.state != UNRESPONSIVE then p
    else
      var q := if BudgetSpent(p) then p else p.(timeoutCnt := p.timeoutCnt + 1);
      var (stopped, err) := Stop(q, env);
      if BudgetSpent(p) then Set(if err.Some? then Kill(stopped) else stopped, KILLED)
      else
        var (started, err') := StartPlugin(if err.Some? then Set(Kill(stopped), STOPPED) else stopped);
        if err'.Some? then Set(started, UNRESPONSIVE) else started
  }

  /** A new instance, before and after the version calls. */
  function NewInstance(kind: Kind, maxTimeouts: int): Plugin {
    Plugin(kind, maxTimeouts, READY, false, Some(0), 0, 1, 0, 0, 0, 0, 0, [])
  }

  function Created(kind: Kind, maxTimeouts: int, push: Answer, get: Answer): Result<Plugin, Error> {
    var (p, err) := Handshake(NewInstance(kind, maxTimeouts), push);
    if err.Some? then Err(err.value)
    else
      var (q, err') := Handshake(p, get);
      if err'.Some? then Err(err'.value) else Ok(q)
  }
}
