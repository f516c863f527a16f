/**
 `plugins.PluginInstance`: the calls of `PluginSteps`, carried out setter by setter and early return by early
 return. Each method takes the plugin's answer as a parameter and is proved to make exactly the step of its name.
 */
module PluginInstances {
  import opened Wrappers
  import opened Steps = PluginSteps

  class PluginInstance {
    const kind: Kind
    const maxTimeouts: int
    var state: PluginState
    var recording: bool
    var client: Option<nat>
    var timeoutCnt: nat
    var clients: nat
    var recorders: nat
    var streams: nat
    var lateStarts: nat
    var lateStops: nat
    var lateCommands: nat
    ghost var trace: seq<PluginState>

    ghost function Contents(): Plugin
      reads this
    {
      Plugin(kind, maxTimeouts, state, recording, client, timeoutCnt, clients, recorders, streams,
             lateStarts, lateStops, lateCommands, trace)
    }

    constructor (kind: Kind, maxTimeouts: int)
      ensures Contents() == NewInstance(kind, maxTimeouts)
    {
      this.kind, this.maxTimeouts := kind, maxTimeouts;
      state, recording, client, timeoutCnt := READY, false, Some(0), 0;
      clients, recorders, streams, trace := 1, 0, 0, [];
      lateStarts, lateStops, lateCommands := 0, 0, 0;
    }

    /** Every setter: assign under the lock, then update the listeners. */
    method SetState(s: PluginState)
      modifies this`state, this`trace
      ensures Contents() == Set(old(Contents()), s)
    {
      state := s;
      trace := trace + [s];
    }

    method StartRecord(answer: Answer) returns (err: Option<Error>)
      modifies this
      ensures (Contents(), err) == Steps.StartRecord(old(Contents()), answer)
    {
      if state != READY && state != UNKNOWN {
        return Some(PluginNotReady);
      }
      if recording {
        return Some(AlreadyRecording);
      }
      if client == None {
        return Some(PluginNotStarted);
      }
      SetState(BUSY);
      if answer.NoClient? || answer.NoPlugin? {
        SetState(UNKNOWN);
        return Some(PluginError);
      }
      if answer.WrongType? || kind != Datasource {
        SetState(UNKNOWN);
        return Some(InvalidPluginType);
      }
      if answer.Fails? {
        SetState(UNKNOWN); // the goroutine
        SetState(UNKNOWN); // the caller
        err := Some(PluginError);
      } else if answer.Succeeds? {
        recording := true;
        recorders := recorders + 1;
        SetState(READY);
        err := None;
      } else {
        lateStarts := lateStarts + 1;
        SetState(UNRESPONSIVE);
        err := Some(DeadlineExceeded);
      }
    }

    method StopRecord(answer: Answer) returns (err: Option<Error>)
      modifies this
      ensures (Contents(), err) == Steps.StopRecord(old(Contents()), answer)
    {
      if state != READY && state != UNKNOWN {
        return Some(PluginNotReady);
      }
      if !recording {
        return Some(AlreadyStoppedRecording);
      }
      if client == None {
        return Some(PluginNotStarted);
      }
      SetState(BUSY);
      if answer.NoClient? || answer.NoPlugin? {
        SetState(UNKNOWN);
        return Some(PluginError);
      }
      if answer.WrongType? || kind != Datasource {
        SetState(UNKNOWN);
        return Some(InvalidPluginType);
      }
      if answer.Fails? {
        SetState(UNKNOWN);
        err := Some(PluginError);
      } else if answer.Succeeds? {
        recording := false;
        SetState(READY);
        err := None;
      } else {
        lateStops := lateStops + 1;
        SetState(UNRESPONSIVE);
        err := Some(DeadlineExceeded);
      }
    }

    method Command(answer: Answer) returns (err: Option<Error>)
      modifies this
      ensures (Contents(), err) == Steps.Command(old(Contents()), answer)
    {
      if state != READY && state != UNKNOWN {
        return Some(PluginNotReady);
      }
      if client == None {
        return Some(PluginNotStarted);
      }
      SetState(BUSY);
      if answer.NoClient? || answer.NoPlugin? {
        SetState(UNKNOWN);
        return Some(PluginError);
      }
      if answer.WrongType? || kind != Controller {
        SetState(UNKNOWN);
        return Some(InvalidPluginType);
      }
      if answer.Fails? {
        SetState(UNKNOWN);
        SetState(UNKNOWN);
        err := Some(PluginError);
      } else if answer.Succeeds? {
        streams := streams + 1;
        SetState(READY);
        err := None;
      } else {
        lateCommands := lateCommands + 1;
        SetState(UNRESPONSIVE);
        err := Some(DeadlineExceeded);
      }
    }

    method Kill()
      modifies this
      ensures Contents() == Steps.Kill(old(Contents()))
    {
      if client == None {
        return;
      }
      client := None;
      recording := false;
    }

    /** The deferred calls of `stop`, last deferred first. */
    method RunDeferred()
      modifies this
      ensures Contents() == Set(Steps.Kill(old(Contents())), STOPPED)
    {
      Kill();
      SetState(STOPPED);
    }

    /** The graceful attempt of `stop`; it comes too late, so the answer a plugin would give plays no part. */
    method TryStopRecording(expired: bool, recordAnswer: Answer)
      requires state == STOPPING
      modifies this
      ensures Contents() ==
              if !old(recording) then old(Contents())
              else Set(old(Contents()), if expired then UNRESPONSIVE else UNKNOWN)
    {
      if recording {
        var err := StopRecord(recordAnswer);
        if expired {
          SetState(UNRESPONSIVE);
        } else if err != None {
          SetState(UNKNOWN);
        }
      }
    }

    /** The plugin's own stop, and after it, on every path, the deferred calls. */
    method StopPlugin(answer: Answer) returns (err: Option<Error>)
      requires client.Some?
      modifies this
      ensures Contents() ==
              old(Contents()).(state := STOPPED, client := None, recording := false,
                               trace := old(trace) + (if answer.NoClient? || answer.NoPlugin? then [UNKNOWN] else [])
                                        + [STOPPED])
      ensures err == if answer.Succeeds? then None else Some(Refusal(answer))
    {
      match answer {
        case NoClient =>
          SetState(UNKNOWN);
          err := Some(PluginError);
        case NoPlugin =>
          SetState(UNKNOWN);
          err := Some(PluginError);
        case WrongType =>
          err := Some(InvalidPluginType);
        case TimesOut =>
          err := Some(DeadlineExceeded);
        case Fails =>
          err := Some(PluginError);
        case Succeeds =>
          err := None;
      }
      RunDeferred();
    }

    method Stop(env: StopEnv, recordAnswer: Answer) returns (err: Option<Error>)
      modifies this
      ensures (Contents(), err) == Steps.Stop(old(Contents()), env)
    {
      if state == STOPPING || state == STOPPED || state == KILLED {
        return Some(AlreadyStopped);
      }
      if client == None {
        return Some(PluginNotStarted);
      }
      SetState(STOPPING);
      TryStopRecording(env.expired, recordAnswer);
      ghost var refused := if !old(recording) then [] else if env.expired then [UNRESPONSIVE] else [UNKNOWN];
      assert trace == old(trace) + [STOPPING] + refused;
      err := StopPlugin(env.answer);
    }

    method EndRecorder(timedOut: bool)
      requires recorders > 0
      modifies this
      ensures Contents() == RecorderEnd(old(Contents()), timedOut)
    {
      recorders := recorders - 1;
      if timedOut && recording {
        SetState(UNRESPONSIVE);
      }
      recording := false;
    }

    method EndStream(timedOut: bool)
      requires streams > 0
      modifies this
      ensures Contents() == StreamEnd(old(Contents()), timedOut)
    {
      streams := streams - 1;
      if timedOut {
        SetState(UNRESPONSIVE);
      }
    }

    method AnswerStartLate(succeeds: bool)
      requires lateStarts > 0
      modifies this
      ensures Contents() == LateStart(old(Contents()), succeeds)
    {
      lateStarts := lateStarts - 1;
      if !succeeds {
        SetState(UNKNOWN);
        return;
      }
      recording := true;
      recorders := recorders + 1;
    }

    method AnswerStopLate(succeeds: bool)
      requires lateStops > 0
      modifies this
      ensures Contents() == LateStop(old(Contents()), succeeds)
    {
      lateStops := lateStops - 1;
      if !succeeds {
        SetState(UNKNOWN);
      } else {
        recording := false;
      }
    }

    method AnswerCommandLate(succeeds: bool)
      requires lateCommands > 0
      modifies this
      ensures Contents() == LateCommand(old(Contents()), succeeds)
    {
      lateCommands := lateCommands - 1;
      if !succeeds {
        SetState(UNKNOWN);
        return;
      }
      streams := streams + 1;
    }

    method StartPlugin() returns (err: Option<Error>)
      modifies this
      ensures (Contents(), err) == Steps.StartPlugin(old(Contents()))
    {
      if state != STOPPED && state != KILLED {
        return Some(AlreadyStarted);
      }
      client := Some(clients);
      clients := clients + 1;
      SetState(READY);
      err := None;
    }

    /** The monitor stops the plugin, or failing that kills it. */
    method StopOrKill(env: StopEnv, recordAnswer: Answer) returns (err: Option<Error>)
      modifies this
      ensures var (q, e) := Steps.Stop(old(Contents()), env);
              err == e && Contents() == if e.Some? then Steps.Kill(q) else q
    {
      err := Stop(env, recordAnswer);
      if err != None {
        Kill();
      }
    }

    /** The monitor's loop body for this instance. */
    method Monitor(env: StopEnv, recordAnswer: Answer)
      modifies this
      ensures Contents() == Tick(old(Contents()), env)
    {
      hide Steps.Stop, Steps.Kill, Steps.StartPlugin, Set;
      if state == UNRESPONSIVE {
        if timeoutCnt >= maxTimeouts {
          var _ := StopOrKill(env, recordAnswer);
          SetState(KILLED);
          return;
        }
        timeoutCnt := timeoutCnt + 1;
        var err := StopOrKill(env, recordAnswer);
        if err != None {
          SetState(STOPPED);
        }
        err := StartPlugin();
        if err != None {
          SetState(UNRESPONSIVE);
        }
      }
    }
  }
}
