/** The component's one-shot trigger. A mounted component schedules one
    deferred call of `collectAndNotify` unless it is disabled or has already
    notified; unmounting cancels a timer that has not fired; and the routine
    itself checks and sets its guard before its first suspension, so however
    often it is entered its body runs at most once per component instance.
    The body's remote calls are modelled as one resumption, `Resume`, whose
    outside world is a parameter. */
module Dispatch {
  import opened JsValues
  import opened Visitor
  import opened Pipeline
  import Formatter

  class Notigram {
    /** The props of the render whose effect scheduled the timer. */
    const props: Props
    /** `hasNotified.current`. */
    var hasNotified: bool
    /** The effect has run and its cleanup has not. */
    var mounted: bool
    /** A timer is scheduled and has neither fired nor been cleared. */
    var timerPending: bool
    /** The routine's body has passed the guard and not yet resumed. */
    var inFlight: bool
    /** How many times the routine's body has passed the guard. */
    ghost var runs: nat
    /** The world the body met when it resumed, once it has. */
    ghost var world: Option<Environment>
    /** The requests and callbacks of the body so far. */
    ghost var trace: seq<Effect>

    ghost predicate Valid()
      reads this
    {
      && (timerPending ==> mounted)
      && (Disabled(props) ==> !timerPending)
      && runs == (if hasNotified then 1 else 0)
      && (!hasNotified ==> !inFlight && world.None? && trace == [])
      && (inFlight ==> world.None? && trace == [])
      && (hasNotified && !inFlight ==> world.Some? && trace == Effects(props, world.value))
    }

    constructor(p: Props)
      ensures Valid()
      ensures props == p && !hasNotified && !mounted && !timerPending && !inFlight
      ensures runs == 0 && trace == []
    {
      props := p;
      hasNotified := false;
      mounted := false;
      timerPending := false;
      inFlight := false;
      runs := 0;
      world := None;
      trace := [];
    }

    /** The effect: schedule the deferred call unless disabled or already
        notified. React runs it again only after its cleanup. */
    method Mount()
      requires Valid() && !mounted
      modifies this
      ensures Valid() && mounted
      ensures timerPending <==> !Disabled(props) && !hasNotified
      ensures hasNotified == old(hasNotified) && inFlight == old(inFlight)
      ensures runs == old(runs) && world == old(world) && trace == old(trace)
    {
      mounted := true;
      if Disabled(props) || hasNotified {
        return;
      }
      timerPending := true;
    }

    /** The effect's cleanup: clear the timer. A body already in flight is
        not cancelled. */
    method Cleanup()
      requires Valid() && mounted
      modifies this
      ensures Valid() && !mounted && !timerPending
      ensures hasNotified == old(hasNotified) && inFlight == old(inFlight)
      ensures runs == old(runs) && world == old(world) && trace == old(trace)
    {
      mounted := false;
      timerPending := false;
    }

    /** The routine up to its first suspension: return if the guard is set,
        otherwise set it. */
    method CollectAndNotify() returns (entered: bool)
      requires Valid()
      modifies this
      ensures Valid() && hasNotified
      ensures entered <==> !old(hasNotified)
      ensures entered ==> inFlight && runs == 1 && trace == []
      ensures !entered ==> inFlight == old(inFlight) && runs == old(runs)
                           && world == old(world) && trace == old(trace)
      ensures mounted == old(mounted) && timerPending == old(timerPending)
    {
      if hasNotified {
        return false;
      }
      hasNotified := true;
      runs := runs + 1;
      inFlight := true;
      return true;
    }

    /** The timer fires: it is no longer pending, and it calls the routine. */
    method FireTimer() returns (entered: bool)
      requires Valid() && timerPending
      modifies this
      ensures Valid() && hasNotified && !timerPending && mounted == old(mounted)
      ensures entered <==> !old(hasNotified)
      ensures entered ==> inFlight && runs == 1 && trace == []
      ensures !entered ==> inFlight == old(inFlight) && runs == old(runs)
                           && world == old(world) && trace == old(trace)
    {
      timerPending := false;
      entered := CollectAndNotify();
    }

    /** The `try` block from its first `await` on, against the world `env`:
        each request is made in turn and a throw skips the remaining steps. */
    method TryBlock(env: Environment) returns (requests: seq<Request>, outcome: Outcome)
      ensures Attempt(requests, outcome) == Run(props, env)
    {
      requests := [GetIp(IpLookupUrl)];
      match env.ipReply {
        case Failure(e) =>
          outcome := Aborted(e);
        case Success(ip) =>
          requests := requests + [GetGeo(GeoLookupUrl(ip))];
          match env.geoReply {
            case Failure(e) =>
              outcome := Aborted(e);
            case Success(geo) =>
              var record := Merge(geo, env.agent, env.page);
              var message: Result<string, Error>;
              if props.customMessage.Some? {
                message := props.customMessage.value(record);
              } else {
                var text := Formatter.BuildDefaultMessage(record, EffectiveFields(props));
                message := Success(text);
              }
              match message {
                case Failure(e) =>
                  outcome := Aborted(e);
                case Success(text) =>
                  requests := requests + [PostMessage(SendUrl(props.botToken), props.chatId, text, HtmlParseMode)];
                  outcome := if env.sendFailure.Some? then Aborted(env.sendFailure.value) else Delivered(record);
              }
          }
      }
    }

    /** The end of the body: onSuccess after a completed `try` block, then
        the `catch` block's onError for a throw from any step or from
        onSuccess. */
    method Report(outcome: Outcome, successThrows: Option<Error>) returns (callbacks: seq<Effect>)
      ensures callbacks == Callbacks(props, outcome, successThrows)
    {
      callbacks := [];
      var failure: Option<Error> := if outcome.Aborted? then Some(outcome.error) else None;
      if outcome.Delivered? && props.hasOnSuccess {
        callbacks := [SuccessCalled(outcome.record)];
        failure := successThrows;
      }
      if failure.Some? && props.hasOnError {
        callbacks := callbacks + [ErrorCalled(failure.value)];
      }
    }

    /** The rest of the body, from its first `await` on: the requests made
        and the callbacks invoked, in order. */
    method Resume(env: Environment) returns (effects: seq<Effect>)
      requires Valid() && inFlight
      modifies this
      ensures Valid() && hasNotified && !inFlight
      ensures effects == Effects(props, env) && trace == old(trace) + effects
      ensures runs == old(runs) && mounted == old(mounted) && timerPending == old(timerPending)
    {
      var requests, outcome := TryBlock(env);
      var callbacks := Report(outcome, env.successThrows);
      effects := SentAll(requests) + callbacks;
      inFlight := false;
      world := Some(env);
      trace := trace + effects;
    }
  }

  // ----- event sequences -----

  /** A disabled component schedules nothing, so the routine never starts. */
  method DisabledMount(p: Props) returns (n: Notigram)
    requires Disabled(p)
    ensures n.Valid() && n.mounted && !n.timerPending && !n.hasNotified
    ensures n.runs == 0 && n.trace == []
  {
    n := new Notigram(p);
    n.Mount();
  }

  /** Unmounting before the timer fires leaves the body unrun and nothing
      sent or called back. */
  method UnmountBeforeFire(p: Props) returns (n: Notigram)
    ensures n.Valid() && !n.mounted && !n.timerPending && !n.hasNotified
    ensures n.runs == 0 && n.trace == []
  {
    n := new Notigram(p);
    n.Mount();
    n.Cleanup();
  }

  /** The timer fires, the routine is entered again while the first body is
      suspended, and the component is remounted: the body runs once, the
      second entry returns at the guard, the remount schedules nothing, and
      the effects are exactly those of one run. */
  method FireRaceRemount(p: Props, env: Environment) returns (n: Notigram, first: bool, second: bool)
    requires !Disabled(p)
    ensures n.Valid() && first && !second && !n.timerPending
    ensures n.runs == 1 && n.trace == Effects(p, env)
  {
    n := new Notigram(p);
    n.Mount();
    first := n.FireTimer();
    second := n.CollectAndNotify();
    var effects := n.Resume(env);
    n.Cleanup();
    n.Mount();
  }

  /** A mount, cleanup and mount again (as React's development mode does)
      schedules one live timer; once it fires, the body runs once. */
  method RemountThenFire(p: Props, env: Environment) returns (n: Notigram)
    requires !Disabled(p)
    ensures n.Valid() && n.runs == 1 && n.trace == Effects(p, env)
  {
    n := new Notigram(p);
    n.Mount();
    n.Cleanup();
    n.Mount();
    var entered := n.FireTimer();
    var effects := n.Resume(env);
  }

  /** Unmounting after the timer fired does not stop the body in flight. */
  method UnmountWhileInFlight(p: Props, env: Environment) returns (n: Notigram)
    requires !Disabled(p)
    ensures n.Valid() && !n.mounted && n.runs == 1 && n.trace == Effects(p, env)
  {
    n := new Notigram(p);
    n.Mount();
    var entered := n.FireTimer();
    n.Cleanup();
    var effects := n.Resume(env);
  }

  /** A run that fails is not retried: the guard stays set, so a remount
      schedules nothing and a later entry returns at once. */
  method NoRetryAfterFailure(p: Props, env: Environment) returns (n: Notigram, retried: bool)
    requires !Disabled(p) && env.ipReply.Failure?
    ensures n.Valid() && !retried && !n.timerPending
    ensures n.runs == 1 && n.trace == Effects(p, env)
    ensures p.hasOnError ==> n.trace == [Sent(GetIp(IpLookupUrl)), ErrorCalled(env.ipReply.error)]
  {
    n := new Notigram(p);
    n.Mount();
    var entered := n.FireTimer();
    var effects := n.Resume(env);
    n.Cleanup();
    n.Mount();
    retried := n.CollectAndNotify();
  }

  /** In any reachable state the body has run at most once, at most one
      request of each kind has been made, and each callback has been invoked
      at most once. */
  lemma AtMostOnce(n: Notigram)
    requires n.Valid()
    ensures n.runs <= 1
    ensures SuccessCount(n.trace) <= 1 && ErrorCount(n.trace) <= 1
    ensures n.trace != [] ==> n.hasNotified && !n.inFlight
  {
    if n.hasNotified && !n.inFlight {
      CallbacksOfRun(n.props, n.world.value);
    }
  }
}
