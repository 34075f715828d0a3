/** The power monitor (src/system/power_monitor.py): the dispatch of
    Windows power and session messages to the `on_sleep`, `on_wake`,
    `on_lock` and `on_unlock` callbacks. The hidden window and its message
    loop are not modelled; a delivered message is a call to `WindowProc`.
    Callbacks are named by opaque numbers, and the monitor records which
    ones it has invoked. */
module Power {
  import opened Wrappers
  import Config

  const WmPowerBroadcast: int := 0x0218
  const PbtApmSuspend: int := 0x0004
  const PbtApmResumeSuspend: int := 0x0007
  const PbtApmResumeAutomatic: int := 0x0012
  const WmWtsSessionChange: int := 0x02B1
  const WtsSessionLock: int := 0x7
  const WtsSessionUnlock: int := 0x8

  const PauseOnLockKey: seq<string> := ["privacy", "pause_on_lock"]

  /** The event `_window_proc` triggers for a message, if any. */
  function Dispatch(msg: int, wparam: int, pauseOnLock: bool): Option<string> {
    if msg == WmPowerBroadcast then
      if wparam == PbtApmSuspend then Some("on_sleep")
      else if wparam == PbtApmResumeSuspend || wparam == PbtApmResumeAutomatic then Some("on_wake")
      else None
    else if msg == WmWtsSessionChange then
      if wparam == WtsSessionLock then (if pauseOnLock then Some("on_lock") else None)
      else if wparam == WtsSessionUnlock then (if pauseOnLock then Some("on_unlock") else None)
      else None
    else None
  }

  /** Each event has exactly its own messages: suspend for sleep, either
      resume for wake, and lock or unlock only when `pause_on_lock` is
      set. Every other message triggers nothing. */
  lemma DispatchIff(msg: int, wparam: int, pauseOnLock: bool)
    ensures Dispatch(msg, wparam, pauseOnLock) == Some("on_sleep") <==> msg == WmPowerBroadcast && wparam == PbtApmSuspend
    ensures Dispatch(msg, wparam, pauseOnLock) == Some("on_wake") <==>
      msg == WmPowerBroadcast && (wparam == PbtApmResumeSuspend || wparam == PbtApmResumeAutomatic)
    ensures Dispatch(msg, wparam, pauseOnLock) == Some("on_lock") <==> msg == WmWtsSessionChange && wparam == WtsSessionLock && pauseOnLock
    ensures Dispatch(msg, wparam, pauseOnLock) == Some("on_unlock") <==> msg == WmWtsSessionChange && wparam == WtsSessionUnlock && pauseOnLock
    ensures Dispatch(msg, wparam, pauseOnLock).Some? ==> Dispatch(msg, wparam, pauseOnLock).value in {"on_sleep", "on_wake", "on_lock", "on_unlock"}
  {
  }

  /** The callbacks `_trigger` invokes for an optional event: the one
      registered for it, or none. */
  function Fired(callbacks: map<string, nat>, event: Option<string>): (r: seq<nat>)
    ensures |r| <= 1
    ensures r != [] <==> event.Some? && event.value in callbacks
    ensures r != [] ==> r[0] == callbacks[event.value]
  {
    if event.Some? && event.value in callbacks then [callbacks[event.value]] else []
  }

  class PowerMonitor {
    const pauseOnLock: Config.Value
    var callbacks: map<string, nat>
    var running: bool
    /** The number of message-loop threads `start` has launched. */
    var threadsStarted: nat
    /** Every callback invoked, in order. */
    var calls: seq<nat>

    /** `__init__`: `privacy.pause_on_lock`, true by default. */
    constructor (config: Config.Value)
      ensures pauseOnLock == Config.Setting(config, PauseOnLockKey, Config.Bool(true))
      ensures callbacks == map[] && !running && threadsStarted == 0 && calls == []
    {
      pauseOnLock := Config.Setting(config, PauseOnLockKey, Config.Bool(true));
      callbacks := map[];
      running := false;
      threadsStarted := 0;
      calls := [];
    }

    /** `register_callback`: replaces any earlier callback of the event. */
    method RegisterCallback(event: string, callback: nat)
      modifies this
      ensures callbacks == old(callbacks)[event := callback]
      ensures running == old(running) && threadsStarted == old(threadsStarted) && calls == old(calls)
    {
      callbacks := callbacks[event := callback];
    }

    /** `_trigger`: invokes the registered callback, if any; its exception
        is swallowed. */
    method Trigger(event: string)
      modifies this
      ensures calls == old(calls) + Fired(callbacks, Some(event))
      ensures callbacks == old(callbacks) && running == old(running) && threadsStarted == old(threadsStarted)
    {
      if event in callbacks {
        calls := calls + [callbacks[event]];
      }
    }

    /** `_window_proc`: at most one callback per message. */
    method WindowProc(msg: int, wparam: int)
      modifies this
      ensures calls == old(calls) + Fired(callbacks, Dispatch(msg, wparam, Config.Truthy(pauseOnLock)))
      ensures callbacks == old(callbacks) && running == old(running) && threadsStarted == old(threadsStarted)
    {
      var event := Dispatch(msg, wparam, Config.Truthy(pauseOnLock));
      if event.Some? {
        Trigger(event.value);
      }
    }

    /** `start`: a no-op when running. */
    method Start()
      modifies this
      ensures running
      ensures threadsStarted == if old(running) then old(threadsStarted) else old(threadsStarted) + 1
      ensures callbacks == old(callbacks) && calls == old(calls)
    {
      if running {
        return;
      }
      running := true;
      threadsStarted := threadsStarted + 1;
    }

    /** `stop` */
    method Stop()
      modifies this
      ensures !running
      ensures callbacks == old(callbacks) && calls == old(calls) && threadsStarted == old(threadsStarted)
    {
      running := false;
    }
  }
}
