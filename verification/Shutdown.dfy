/**
 The interrupt handler's shutdown protocol: signals, shutdown requests, and two channels that must not be closed
 twice. The handler's select picks any arm that is ready; a shutdown request is a rendezvous with it, or returns
 once `quit` is closed.
 */
module Shutdown {

  datatype State = State(
    isShutdown: bool,
    quitCloses: nat,     // times `quit` has been closed
    shutdownCloses: nat, // times `shutdownChannel` has been closed
    done: bool,          // the handler has returned
    signals: nat,        // in the interrupt channel, capacity one
    requests: nat,       // calls of RequestShutdown that have not returned
    handled: nat)        // signals and requests the handler has taken

  datatype Step =
    | SignalArrives
    | RequestBegins
    | TakeSignal
    | TakeRequest
    | TakeQuit
    | RequestSeesQuit

  const START := State(false, 0, 0, false, 0, 0, 0)

  predicate Enabled(s: State, step: Step) {
    match step
    case SignalArrives => true
    case RequestBegins => true
    case TakeSignal => !s.done && s.signals > 0
    case TakeRequest => !s.done && s.requests > 0
    case TakeQuit => !s.done && s.quitCloses > 0
    case RequestSeesQuit => s.requests > 0 && s.quitCloses > 0
  }

  /** The handler's `shutdown` closure. */
  function Shut(s: State): State {
    if s.isShutdown then s else s.(isShutdown := true, quitCloses := s.quitCloses + 1)
  }

  function Apply(s: State, step: Step): State
    requires Enabled(s, step)
  {
    match step
    case SignalArrives => if s.done || s.signals == 1 then s else s.(signals := s.signals + 1) // dropped when full
    case RequestBegins => s.(requests := s.requests + 1)
    case TakeSignal => Shut(s.(signals := s.signals - 1, handled := s.handled + 1))
    case TakeRequest => Shut(s.(requests := s.requests - 1, handled := s.handled + 1))
    case TakeQuit => s.(shutdownCloses := s.shutdownCloses + 1, done := true)
    case RequestSeesQuit => s.(requests := s.requests - 1)
  }

  predicate IsRun(s: State, steps: seq<Step>)
    decreases steps
  {
    steps == [] || (Enabled(s, steps[0]) && IsRun(Apply(s, steps[0]), steps[1..]))
  }

  function Run(s: State, steps: seq<Step>): State
    requires IsRun(s, steps)
    decreases steps
  {
    if steps == [] then s else Run(Apply(s, steps[0]), steps[1..])
  }

  predicate Inv(s: State) {
    && (s.isShutdown <==> s.handled > 0)
    && s.quitCloses == (if s.isShutdown then 1 else 0)
    && s.shutdownCloses == (if s.done then 1 else 0)
    && (s.done ==> s.isShutdown)
    && s.signals <= 1
  }

  lemma {:induction false} RunKeepsInv(s: State, steps: seq<Step>)
    requires Inv(s) && IsRun(s, steps)
    ensures Inv(Run(s, steps))
    decreases steps
  {
    if steps != [] {
      RunKeepsInv(Apply(s, steps[0]), steps[1..]);
    }
  }

  /**
   In every interleaving each channel is closed at most once: `quit` exactly when a first signal or request has been
   taken, `shutdownChannel` only after `quit`; and every pending request can return at once.
   */
  lemma ChannelsClosedOnce(steps: seq<Step>)
    requires IsRun(START, steps)
    ensures var s := Run(START, steps);
            && s.quitCloses == (if s.handled > 0 then 1 else 0)
            && s.shutdownCloses <= s.quitCloses
            && (s.shutdownCloses == 1 <==> s.done)
            && (s.requests > 0 ==> Enabled(s, TakeRequest) || Enabled(s, RequestSeesQuit))
            && s.signals <= 1
  {
    RunKeepsInv(START, steps);
  }

  // No request or signal is forgotten

  function Count(steps: seq<Step>, step: Step): nat {
    if steps == [] then 0 else (if steps[0] == step then 1 else 0) + Count(steps[1..], step)
  }

  /**
   A request that has begun either waits, or was taken by the handler, or returned because it saw `quit`; and the
   handler has taken what it took.
   */
  lemma {:induction false} RequestsAddUp(s: State, steps: seq<Step>)
    requires IsRun(s, steps)
    ensures s.requests + Count(steps, RequestBegins) ==
              Run(s, steps).requests + Count(steps, TakeRequest) + Count(steps, RequestSeesQuit)
    ensures Run(s, steps).handled == s.handled + Count(steps, TakeSignal) + Count(steps, TakeRequest)
    decreases steps
  {
    if steps != [] {
      RequestsAddUp(Apply(s, steps[0]), steps[1..]);
    }
  }

  /** A signal waits unless one waits already or the handler has returned; then it changes nothing. */
  lemma SignalsWait(s: State)
    ensures Enabled(s, SignalArrives) && Enabled(s, RequestBegins)
    ensures !s.done && s.signals == 0 ==>
              Enabled(Apply(s, SignalArrives), TakeSignal) && Apply(s, SignalArrives).signals == 1
    ensures s.done || s.signals == 1 ==> Apply(s, SignalArrives) == s
  {
  }

  /** A request returns by itself only once `quit` is closed; before, the handler has to take it. */
  lemma RequestsReturnIff(s: State)
    ensures Enabled(s, RequestSeesQuit) <==> s.requests > 0 && s.quitCloses >= 1
    ensures Enabled(s, TakeRequest) <==> s.requests > 0 && !s.done
  {
  }

  predicate IsHandlers(step: Step) {
    step.TakeSignal? || step.TakeRequest? || step.TakeQuit?
  }

  function HandlerSteps(steps: seq<Step>): nat {
    if steps == [] then 0 else (if IsHandlers(steps[0]) then 1 else 0) + HandlerSteps(steps[1..])
  }

  function Arrivals(steps: seq<Step>): nat {
    if steps == [] then 0
    else (if steps[0].SignalArrives? || steps[0].RequestBegins? then 1 else 0) + Arrivals(steps[1..])
  }

  /** Turns of its loop the handler can still make with what is waiting for it. */
  function Turns(s: State): nat {
    if s.done then 0 else s.signals + s.requests + 1
  }

  /**
   Once `quit` is closed the handler is never without a ready arm until it has returned, and it makes at most one turn
   for each signal and request waiting or still arriving, plus the last: so with finitely many of them it returns,
   having closed `shutdownChannel`.
   */
  lemma {:induction false} HandlerTerminates(s: State, steps: seq<Step>)
    requires Inv(s) && s.isShutdown && IsRun(s, steps)
    ensures HandlerSteps(steps) + Turns(Run(s, steps)) <= Turns(s) + Arrivals(steps)
    ensures Run(s, steps).done || Enabled(Run(s, steps), TakeQuit)
    ensures HandlerSteps(steps) == Turns(s) + Arrivals(steps) ==> Run(s, steps).shutdownCloses == 1
    decreases steps
  {
    RunKeepsInv(s, steps);
    if steps != [] {
      HandlerTerminates(Apply(s, steps[0]), steps[1..]);
    }
  }

  datatype Arrival = Signal | Request

  function StepOf(arrival: Arrival): Step {
    if arrival == Signal then SignalArrives else RequestBegins
  }

  lemma {:induction false} RunSnoc(s: State, steps: seq<Step>, step: Step)
    requires IsRun(s, steps) && Enabled(Run(s, steps), step)
    ensures IsRun(s, steps + [step]) && Run(s, steps + [step]) == Apply(Run(s, steps), step)
    decreases steps
  {
    if steps == [] {
      assert [step][1..] == [];
    } else {
      RunSnoc(Apply(s, steps[0]), steps[1..], step);
      assert (steps + [step])[1..] == steps[1..] + [step];
    }
  }

  /** The handler itself, with the channels it selects on. */
  class Interceptor {
    var isShutdown: bool
    var quitCloses: nat
    var shutdownCloses: nat
    var done: bool
    var signals: nat
    var requests: nat
    ghost var handled: nat

    ghost function Contents(): State
      reads this
    {
      State(isShutdown, quitCloses, shutdownCloses, done, signals, requests, handled)
    }

    constructor ()
      ensures Contents() == START
    {
      isShutdown, quitCloses, shutdownCloses, done, signals, requests, handled := false, 0, 0, false, 0, 0, 0;
    }

    method CloseQuitOnce()
      modifies this`isShutdown, this`quitCloses
      ensures Contents() == Shut(old(Contents()))
    {
      if isShutdown {
        return;
      }
      isShutdown := true;
      quitCloses := quitCloses + 1;
    }

    /** A signal is delivered, or dropped because one is waiting; a request waits for the handler or for `quit`. */
    method Arrive(arrival: Arrival)
      requires !done
      modifies this`signals, this`requests
      ensures Contents() == Apply(old(Contents()), StepOf(arrival))
    {
      if arrival == Request {
        requests := requests + 1;
      } else if signals != 1 {
        signals := signals + 1;
      }
    }

    /** One turn of the handler's loop: the select takes any arm that is ready. */
    method SelectArm() returns (ghost arm: Step)
      requires !done && (signals > 0 || requests > 0 || quitCloses > 0)
      modifies this
      ensures IsHandlers(arm) && Enabled(old(Contents()), arm) && Contents() == Apply(old(Contents()), arm)
    {
      if {
        case signals > 0 =>
          arm := TakeSignal;
          signals := signals - 1;
          handled := handled + 1;
          CloseQuitOnce();
        case requests > 0 =>
          arm := TakeRequest;
          requests := requests - 1;
          handled := handled + 1;
          CloseQuitOnce();
        case quitCloses > 0 =>
          arm := TakeQuit;
          shutdownCloses := shutdownCloses + 1;
          done := true;
      }
    }

    /**
     The handler's loop. Signals and requests arrive, and waiting requests see `quit`, at any moment between its
     turns. It returns, with each channel closed once, if anything arrives at all, and otherwise waits.
     */
    method MainInterruptHandler(arrivals: seq<Arrival>) returns (ghost steps: seq<Step>)
      requires Contents() == START
      modifies this
      ensures IsRun(START, steps) && Contents() == Run(START, steps)
      ensures done <==> arrivals != []
      ensures quitCloses == shutdownCloses == if done then 1 else 0
    {
      var next := 0;
      steps := [];
      while !done
        invariant 0 <= next <= |arrivals|
        invariant IsRun(START, steps) && Contents() == Run(START, steps) && Inv(Contents())
        invariant next > 0 <==> signals > 0 || requests > 0 || isShutdown
        decreases |arrivals| - next, !done, signals + requests
      {
        var idle := signals == 0 && requests == 0 && quitCloses == 0;
        var arrives, sees: bool := *, *; // what the rest of the program does first
        ghost var step;
        if next < |arrivals| && (idle || arrives) {
          Arrive(arrivals[next]);
          step := StepOf(arrivals[next]);
          next := next + 1;
        } else if idle {
          return;
        } else if sees && requests > 0 && quitCloses > 0 {
          requests := requests - 1;
          step := RequestSeesQuit;
        } else {
          step := SelectArm();
        }
        RunSnoc(START, steps, step);
        steps := steps + [step];
      }
    }
  }
}
