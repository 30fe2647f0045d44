/**
  The presence hook of components/hooks/use-presence.ts as an object: the refs
  and the closure variable `lastEventTime` are fields that the handlers update
  in place. Each handler is proved to move the fields exactly as the matching
  function of `PresenceSpec` says, and to keep `PresenceSpec.Inv`.
*/
module PresenceHook {
  import opened Wrappers
  import opened PresenceSpec

  class PresenceHook {
    var status: Status              // statusRef
    var lastActivity: int           // lastActivityRef
    var lastApiCall: int            // lastApiCallRef
    var idleTimeout: Option<int>    // idleTimeoutRef, as the pending deadline
    var debounce: Option<int>       // debounceRef, as the pending deadline
    var heartbeat: Option<int>      // the interval's next tick
    var lastEventTime: int          // the throttle's closure variable
    var listening: bool             // listeners registered by the effect
    ghost var attempts: seq<Attempt>
    ghost var beacons: seq<int>

    /** The fields as one value of the reference model. */
    ghost function State(): Record
      reads this
    {
      Record(status, lastActivity, lastApiCall, idleTimeout, debounce, heartbeat,
             lastEventTime, listening, attempts, beacons)
    }

    ghost predicate Valid()
      reads this
    {
      Inv(State())
    }

    /** The first render: the refs' initial values. */
    constructor (now: int)
      ensures Valid() && State() == Initial(now)
    {
      status := Offline;
      lastActivity := now;
      lastApiCall := 0;
      idleTimeout := None;
      debounce := None;
      heartbeat := None;
      lastEventTime := 0;
      listening := false;
      attempts := [];
      beacons := [];
    }

    /** The synchronous half of updateStatus: the no-op and cooldown guards,
        then lastApiCallRef and the request. */
    method BeginUpdate(target: Status, now: int, delivered: bool) returns (sent: bool)
      modifies this
      ensures sent == MayAttempt(old(State()), target, now)
      ensures State() == Begin(old(State()), target, now, delivered)
    {
      sent := false;
      if status == target {
        return;
      }
      if now - lastApiCall < CooldownMs {
        return;
      }
      lastApiCall := now;
      attempts := attempts + [Attempt(now, target, delivered)];
      sent := true;
    }

    method UpdateStatus(target: Status, now: int, delivered: bool)
      requires Valid()
      modifies this
      ensures Valid()
      ensures State() == PresenceSpec.UpdateStatus(old(State()), target, now, delivered)
    {
      ghost var r := State();
      var sent := BeginUpdate(target, now, delivered);
      if sent && delivered {
        status := target;
      }
      StepKeepsInv(r, Input(SetStatus(target), now, delivered));
    }

    method ResetIdleTimer(now: int)
      modifies this
      ensures State() == PresenceSpec.ResetIdleTimer(old(State()), now)
    {
      lastActivity := now;
      idleTimeout := Some(now + IdleMs);
      if status == Idle {
        debounce := Some(now + DebounceMs);
      }
    }

    method HandleActivity(now: int)
      requires Valid()
      modifies this
      ensures Valid()
      ensures State() == PresenceSpec.HandleActivity(old(State()), now)
    {
      ghost var r := State();
      if !listening || now - lastEventTime < ThrottleMs {
        return;
      }
      lastEventTime := now;
      ResetIdleTimer(now);
      StepKeepsInv(r, Input(Activity, now, false));
    }

    method HandleVisibilityChange(hidden: bool, now: int, delivered: bool)
      requires Valid()
      modifies this
      ensures Valid()
      ensures State() == PresenceSpec.HandleVisibilityChange(old(State()), hidden, now, delivered)
    {
      ghost var r := State();
      if !listening {
        return;
      }
      if hidden {
        UpdateStatus(Idle, now, delivered);
      } else {
        var sent := BeginUpdate(Online, now, delivered);
        ResetIdleTimer(now);
        if sent && delivered {
          status := Online;
        }
        StepKeepsInv(r, Input(VisibilityChange(hidden), now, delivered));
      }
    }

    method IdleTimerFires(now: int, delivered: bool)
      requires Valid()
      modifies this
      ensures Valid()
      ensures State() == PresenceSpec.IdleTimerFires(old(State()), now, delivered)
    {
      if !Due(idleTimeout, now) {
        return;
      }
      idleTimeout := None;
      if status == Online {
        UpdateStatus(Idle, now, delivered);
      }
    }

    method DebounceFires(now: int, delivered: bool)
      requires Valid()
      modifies this
      ensures Valid()
      ensures State() == PresenceSpec.DebounceFires(old(State()), now, delivered)
    {
      if !Due(debounce, now) {
        return;
      }
      debounce := None;
      UpdateStatus(Online, now, delivered);
    }

    method HeartbeatTicks(now: int, delivered: bool)
      requires Valid()
      modifies this
      ensures Valid()
      ensures State() == PresenceSpec.HeartbeatTicks(old(State()), now, delivered)
    {
      if !Due(heartbeat, now) {
        return;
      }
      heartbeat := Some(now + HeartbeatMs);
      if status != Offline && status != Dnd {
        var timeSinceActivity := now - lastActivity;
        if timeSinceActivity > IdleMs {
          UpdateStatus(Idle, now, delivered);
        }
      }
    }

    method HandleBeforeUnload(now: int)
      requires Valid()
      modifies this
      ensures Valid()
      ensures State() == PresenceSpec.HandleBeforeUnload(old(State()), now)
    {
      if listening {
        beacons := beacons + [now];
      }
    }

    method Mount(now: int, delivered: bool)
      requires Valid() && !listening
      modifies this
      ensures Valid()
      ensures State() == PresenceSpec.Mount(old(State()), now, delivered)
    {
      ghost var r := State();
      var sent := BeginUpdate(Online, now, delivered);
      lastEventTime := 0;
      listening := true;
      ghost var a := State();
      assert a == Begin(r, Online, now, delivered).(lastEventTime := 0, listening := true);
      ResetIdleTimer(now);
      heartbeat := Some(now + HeartbeatMs);
      assert State() == PresenceSpec.ResetIdleTimer(a, now).(heartbeatAt := Some(now + HeartbeatMs));
      if sent && delivered {
        status := Online;
      }
      assert State() == PresenceSpec.Mount(r, now, delivered);
      StepKeepsInv(r, Input(MountEffect, now, delivered));
    }

    method Cleanup(now: int, delivered: bool)
      requires Valid() && listening
      modifies this
      ensures Valid()
      ensures State() == PresenceSpec.Cleanup(old(State()), now, delivered)
    {
      listening := false;
      idleTimeout := None;
      debounce := None;
      heartbeat := None;
      UpdateStatus(Offline, now, delivered);
    }
  }
}
