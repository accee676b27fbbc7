/** The background idle monitor (`IdleBackground`): it watches the host's idle state,
    natively or by polling, to connect and disconnect notifications, and locks or logs out
    of the vault when the screen locks and the vault timeout is "on system lock".
    The host's idle API, timers, storage and services are inputs; every call the monitor
    makes to them is recorded, in order, in an effect log. */
module Idle {
  import opened Wrappers

  /** Seconds of inactivity after which the host reports `idle` (5 minutes). */
  const IDLE_INTERVAL: int := 60 * 5
  /** Milliseconds between two polls. */
  const POLL_DELAY_MS: int := 5000
  /** The vault timeout value meaning "on system lock". */
  const ON_SYSTEM_LOCK: int := -2

  const ACTIVE := "active"
  const LOCKED := "locked"
  const LOCK_ACTION := "lock"

  /** Which members the host's `idle` object has. */
  datatype IdleApi = IdleApi(hasOnStateChanged: bool, hasSetDetectionInterval: bool, hasQueryState: bool)

  /** The two closures `init` may register on `onStateChanged`. */
  datatype Listener = ActivityListener | LockListener

  /** `ConstantsService.vaultTimeoutKey` and `ConstantsService.vaultTimeoutActionKey`. */
  datatype StorageKey = VaultTimeoutKey | VaultTimeoutActionKey

  /** A call the monitor makes on its collaborators. */
  datatype Effect =
    | SetDetectionInterval(seconds: int)
    | AddListener(listener: Listener)
    | QueryState(seconds: int)
    | ClearTimeout(handle: nat)
    | SetTimeout(delayMs: int)
    | ReconnectFromActivity
    | DisconnectFromInactivity
    | ReadStorage(key: StorageKey)
    | Lock(allowSoftLock: bool)
    | LogOut

  /** Native events are used exactly when both `onStateChanged` and `setDetectionInterval` exist. */
  predicate NativeEvents(api: IdleApi)
  {
    api.hasOnStateChanged && api.hasSetDetectionInterval
  }

  /** The notification call `idleHandler` makes for a new state. */
  function ActivityEffect(newState: string): (e: Effect)
    ensures e == ReconnectFromActivity <==> newState == ACTIVE
    ensures e == DisconnectFromInactivity <==> newState != ACTIVE
  {
    if newState == ACTIVE then ReconnectFromActivity else DisconnectFromInactivity
  }

  /** The service call the screen-lock listener makes, given the new state and the two
      stored options (`None` when storage holds no value): at most one call. */
  function LockDecision(newState: string, timeout: Option<int>, action: Option<string>): (r: seq<Effect>)
    ensures |r| <= 1
    ensures r != [] <==> newState == LOCKED && timeout == Some(ON_SYSTEM_LOCK)
    ensures r == [Lock(true)] <==> newState == LOCKED && timeout == Some(ON_SYSTEM_LOCK) && action == Some(LOCK_ACTION)
    ensures r == [LogOut] <==> newState == LOCKED && timeout == Some(ON_SYSTEM_LOCK) && action != Some(LOCK_ACTION)
  {
    if newState == LOCKED && timeout == Some(ON_SYSTEM_LOCK) then
      if action == Some(LOCK_ACTION) then [Lock(true)] else [LogOut]
    else []
  }

  /** The `clearTimeout` a poll makes first, if a timer is pending. */
  function ClearPending(timer: Option<nat>): seq<Effect>
  {
    if timer.Some? then [ClearTimeout(timer.value)] else []
  }

  /** The registration of the screen-lock listener, made only when `onStateChanged` exists. */
  function LockRegistration(api: IdleApi): seq<Effect>
  {
    if api.hasOnStateChanged then [AddListener(LockListener)] else []
  }

  /** The handler's call made by a poll callback reading `reading` when `stored` is stored. */
  function Fired(stored: string, reading: string): seq<Effect>
  {
    if reading != stored then [ActivityEffect(reading)] else []
  }

  /** The log `log` extended by the calls of one poll round: the optional `clearTimeout`,
      the query, the handler's call, the new timer. */
  function PollRound(log: seq<Effect>, timer: Option<nat>, stored: string, reading: string): seq<Effect>
  {
    log + ClearPending(timer) + [QueryState(IDLE_INTERVAL)] + Fired(stored, reading) + [SetTimeout(POLL_DELAY_MS)]
  }

  /** The states handed to the handler by successive poll callbacks that read `readings`,
      starting from the stored state `stored`. */
  function HandlerArgs(stored: string, readings: seq<string>): (h: seq<string>)
    ensures |h| <= |readings|
    decreases |readings|
  {
    if readings == [] then []
    else (if readings[0] != stored then [readings[0]] else []) + HandlerArgs(readings[0], readings[1..])
  }

  /** The stored `idleState` after the poll callbacks that read `readings`. */
  function LastState(stored: string, readings: seq<string>): string
  {
    if readings == [] then stored else readings[|readings| - 1]
  }

  /** One more poll callback fires the handler exactly when its reading differs from the
      state stored by the callbacks before it. */
  lemma {:induction false} HandlerArgsSnoc(stored: string, readings: seq<string>, reading: string)
    ensures HandlerArgs(stored, readings + [reading]) ==
      HandlerArgs(stored, readings) + (if reading != LastState(stored, readings) then [reading] else [])
    decreases |readings|
  {
    if readings != [] {
      assert (readings + [reading])[1..] == readings[1..] + [reading];
      HandlerArgsSnoc(readings[0], readings[1..], reading);
    }
  }

  /** Polling is edge-triggered: the first state handed over differs from the initially
      stored one, no state is handed over twice in a row, the last one handed over is the
      state stored at the end (which is the initial one when nothing was handed over), and
      only states that were read are handed over. */
  lemma {:induction false} HandlerArgsEdgeTriggered(stored: string, readings: seq<string>)
    ensures var h := HandlerArgs(stored, readings);
      && (h == [] ==> LastState(stored, readings) == stored)
      && (h != [] ==> h[0] != stored && h[|h| - 1] == LastState(stored, readings))
      && (forall i :: 0 <= i < |h| - 1 ==> h[i] != h[i + 1])
      && (forall x :: x in h ==> x in readings)
    decreases |readings|
  {
    if readings != [] {
      HandlerArgsEdgeTriggered(readings[0], readings[1..]);
      var tail := HandlerArgs(readings[0], readings[1..]);
      var head := if readings[0] != stored then [readings[0]] else [];
      assert HandlerArgs(stored, readings) == head + tail;
      forall x | x in tail ensures x in readings {
        assert x in readings[1..];
      }
      assert LastState(stored, readings) == LastState(readings[0], readings[1..]);
      if readings[0] != stored && tail != [] {
        assert tail[0] != readings[0];
      }
    }
  }

  /** Readings that all equal the stored state fire nothing; since the stored state starts
      as `active`, polls that keep reading `active` never call the handler. */
  lemma {:induction false} HandlerArgsQuiet(stored: string, readings: seq<string>)
    requires forall i :: 0 <= i < |readings| ==> readings[i] == stored
    ensures HandlerArgs(stored, readings) == []
    decreases |readings|
  {
    if readings != [] {
      HandlerArgsQuiet(stored, readings[1..]);
    }
  }

  /** Reading the same state twice in a row fires the handler at most once. */
  lemma RepeatedReadingFiresOnce(stored: string, readings: seq<string>, reading: string)
    ensures HandlerArgs(stored, readings + [reading, reading]) ==
      HandlerArgs(stored, readings + [reading])
  {
    HandlerArgsSnoc(stored, readings + [reading], reading);
    assert readings + [reading, reading] == readings + [reading] + [reading];
  }

  /** The notification calls in a log, in order: every call other than
      `reconnectFromActivity` and `disconnectFromInactivity` is dropped. */
  function Notifications(log: seq<Effect>): seq<Effect>
    decreases |log|
  {
    if log == [] then []
    else
      var last := log[|log| - 1];
      Notifications(log[..|log| - 1])
      + (if last == ReconnectFromActivity || last == DisconnectFromInactivity then [last] else [])
  }

  /** The notification calls the handler makes for the states it is handed, in order. */
  function ActivityEffects(states: seq<string>): seq<Effect>
    decreases |states|
  {
    if states == [] then []
    else ActivityEffects(states[..|states| - 1]) + [ActivityEffect(states[|states| - 1])]
  }

  /** Appending a call that is not a notification adds no notification. */
  lemma NotificationsQuiet(log: seq<Effect>, e: Effect)
    requires e != ReconnectFromActivity && e != DisconnectFromInactivity
    ensures Notifications(log + [e]) == Notifications(log)
  {
    assert (log + [e])[..|log|] == log;
  }

  /** Appending a notification adds exactly that notification. */
  lemma NotificationsLoud(log: seq<Effect>, e: Effect)
    requires e == ReconnectFromActivity || e == DisconnectFromInactivity
    ensures Notifications(log + [e]) == Notifications(log) + [e]
  {
    assert (log + [e])[..|log|] == log;
  }

  /** Clearing a pending timer adds no notification. */
  lemma ClearPendingQuiet(log: seq<Effect>, timer: Option<nat>)
    ensures Notifications(log + ClearPending(timer)) == Notifications(log)
  {
    if timer.Some? {
      NotificationsQuiet(log, ClearTimeout(timer.value));
    } else {
      assert log + ClearPending(timer) == log;
    }
  }

  /** The handler's call of a poll callback is a notification, when it is made. */
  lemma FiredLoud(log: seq<Effect>, stored: string, reading: string)
    ensures Notifications(log + Fired(stored, reading)) == Notifications(log) + Fired(stored, reading)
  {
    if reading != stored {
      NotificationsLoud(log, ActivityEffect(reading));
    } else {
      assert log + Fired(stored, reading) == log;
    }
  }

  /** The notifications of one poll round are the handler's call alone. */
  lemma PollRoundNotifications(before: seq<Effect>, timer: Option<nat>, stored: string, reading: string)
    ensures Notifications(PollRound(before, timer, stored, reading)) == Notifications(before) + Fired(stored, reading)
  {
    var cleared := before + ClearPending(timer);
    ClearPendingQuiet(before, timer);
    var queried := cleared + [QueryState(IDLE_INTERVAL)];
    NotificationsQuiet(cleared, QueryState(IDLE_INTERVAL));
    var fired := queried + Fired(stored, reading);
    FiredLoud(queried, stored, reading);
    NotificationsQuiet(fired, SetTimeout(POLL_DELAY_MS));
  }

  /** One more reading adds the handler's call exactly when it changes the stored state. */
  lemma ActivityEffectsSnoc(stored: string, readings: seq<string>, reading: string)
    ensures ActivityEffects(HandlerArgs(stored, readings + [reading])) ==
      ActivityEffects(HandlerArgs(stored, readings)) + Fired(LastState(stored, readings), reading)
  {
    HandlerArgsSnoc(stored, readings, reading);
    var h := HandlerArgs(stored, readings);
    if reading != LastState(stored, readings) {
      assert (h + [reading])[..|h|] == h;
      assert (h + [reading])[|h|] == reading;
    } else {
      assert h + [] == h;
    }
  }

  /** One more poll round extends a run's notifications by the handler's call exactly
      when the reading changes the state stored by the rounds before it. */
  lemma RunStep(stored: string, readings: seq<string>, reading: string,
                start: seq<Effect>, before: seq<Effect>, after: seq<Effect>)
    requires Notifications(before) == Notifications(start) + ActivityEffects(HandlerArgs(stored, readings))
    requires Notifications(after) == Notifications(before) + Fired(LastState(stored, readings), reading)
    ensures Notifications(after) == Notifications(start) + ActivityEffects(HandlerArgs(stored, readings + [reading]))
    ensures LastState(stored, readings + [reading]) == reading
  {
    ActivityEffectsSnoc(stored, readings, reading);
    var prior := ActivityEffects(HandlerArgs(stored, readings));
    if reading != LastState(stored, readings) {
      assert Notifications(after) == Notifications(start) + prior + [ActivityEffect(reading)];
    } else {
      assert Notifications(after) == Notifications(start) + prior + [];
    }
  }

  /** An idle monitor: the resolved host `idle` object, the stored state, the pending
      poll timer, and the log of calls made so far. */
  class IdleBackground {
    const idle: Option<IdleApi>
    var idleTimer: Option<nat>
    var idleState: string
    var effects: seq<Effect>

    /** `idle` is `chrome.idle`, else `browser.idle`, else absent. */
    constructor (idle: Option<IdleApi>)
      ensures this.idle == idle
      ensures idleTimer == None && idleState == ACTIVE && effects == []
    {
      this.idle := idle;
      idleTimer := None;
      idleState := ACTIVE;
      effects := [];
    }

    /** `init`: chooses native events or polling and registers the screen-lock listener.
        `rejected` is true when the poll path finds no `queryState`: the call then throws
        inside the async `init`, whose promise rejects before the lock listener is added. */
    method Init() returns (rejected: bool)
      modifies this`idleTimer, this`effects
      ensures idle.None? ==> !rejected && idleTimer == old(idleTimer) && effects == old(effects)
      ensures idle.Some? && NativeEvents(idle.value) ==>
        && !rejected
        && idleTimer == old(idleTimer)
        && effects == old(effects) + [SetDetectionInterval(IDLE_INTERVAL), AddListener(ActivityListener)]
                      + LockRegistration(idle.value)
      ensures idle.Some? && !NativeEvents(idle.value) ==>
        && idleTimer == None
        && rejected == !idle.value.hasQueryState
        && effects == old(effects) + ClearPending(old(idleTimer))
                      + (if rejected then [] else [QueryState(IDLE_INTERVAL)] + LockRegistration(idle.value))
    {
      rejected := false;
      if idle.None? {
        return;
      }
      var api := idle.value;
      if api.hasOnStateChanged && api.hasSetDetectionInterval {
        effects := effects + [SetDetectionInterval(IDLE_INTERVAL)];
        effects := effects + [AddListener(ActivityListener)];
      } else {
        rejected := PollIdle();
        if rejected {
          return;
        }
      }
      if api.hasOnStateChanged {
        effects := effects + [AddListener(LockListener)];
      }
    }

    /** `idleHandler`, the closure shared by native events and polling. */
    method IdleHandler(newState: string)
      modifies this`effects
      ensures effects == old(effects) + [ActivityEffect(newState)]
    {
      if newState == ACTIVE {
        effects := effects + [ReconnectFromActivity];
      } else {
        effects := effects + [DisconnectFromInactivity];
      }
    }

    /** `pollIdle` up to the query: drops the pending timer, then asks for the state.
        `rejected` is true when the host has no `queryState` (the call throws). */
    method PollIdle() returns (rejected: bool)
      requires idle.Some?
      modifies this`idleTimer, this`effects
      ensures idleTimer == None
      ensures rejected == !idle.value.hasQueryState
      ensures effects == old(effects) + ClearPending(old(idleTimer)) + (if rejected then [] else [QueryState(IDLE_INTERVAL)])
    {
      if idleTimer.Some? {
        effects := effects + [ClearTimeout(idleTimer.value)];
        idleTimer := None;
      }
      rejected := !idle.value.hasQueryState;
      if !rejected {
        effects := effects + [QueryState(IDLE_INTERVAL)];
      }
    }

    /** The `queryState` callback: `state` is the reading, `handle` what `setTimeout` returns
        for the next poll. */
    method OnQueryState(state: string, handle: nat)
      modifies this`idleState, this`idleTimer, this`effects
      ensures idleState == state
      ensures idleTimer == Some(handle)
      ensures effects == old(effects) + Fired(old(idleState), state) + [SetTimeout(POLL_DELAY_MS)]
    {
      if state != idleState {
        idleState := state;
        IdleHandler(state);
      }
      effects := effects + [SetTimeout(POLL_DELAY_MS)];
      idleTimer := Some(handle);
    }

    /** One poll: the timer fires (`pollIdle`) and the host answers the query with
        `reading`; `handle` is what `setTimeout` returns for the next poll. Of the calls
        made, only the handler's call on a change of state is a notification. */
    method PollOnce(reading: string, handle: nat)
      requires idle.Some? && idle.value.hasQueryState
      modifies this`idleState, this`idleTimer, this`effects
      ensures idleState == reading && idleTimer == Some(handle)
      ensures effects == PollRound(old(effects), old(idleTimer), old(idleState), reading)
      ensures Notifications(effects) == Notifications(old(effects)) + Fired(old(idleState), reading)
    {
      var rejected := PollIdle();
      OnQueryState(reading, handle);
      assert effects == PollRound(old(effects), old(idleTimer), old(idleState), reading);
      PollRoundNotifications(old(effects), old(idleTimer), old(idleState), reading);
    }

    /** Polling as it runs over time on a host with `queryState`: for each reading, one
        `PollOnce`, the timer handle of that round being the matching one of `handles`. The notifications made are exactly those
        for `HandlerArgs` of the stored state and the readings, and the stored state ends
        as `LastState` of them. */
    method PollRun(readings: seq<string>, handles: seq<nat>)
      requires idle.Some? && idle.value.hasQueryState
      requires |handles| == |readings|
      modifies this`idleState, this`idleTimer, this`effects
      ensures idleState == LastState(old(idleState), readings)
      ensures Notifications(effects) ==
        Notifications(old(effects)) + ActivityEffects(HandlerArgs(old(idleState), readings))
      ensures readings != [] ==> idleTimer == Some(handles[|handles| - 1])
      ensures readings == [] ==> idleTimer == old(idleTimer) && effects == old(effects)
    {
      if readings == [] {
        return;
      }
      ghost var stored0 := idleState;
      ghost var log0 := effects;
      var i := 0;
      while i < |readings|
        invariant 0 <= i <= |readings|
        invariant idleState == LastState(stored0, readings[..i])
        invariant Notifications(effects) == Notifications(log0) + ActivityEffects(HandlerArgs(stored0, readings[..i]))
        invariant i > 0 ==> idleTimer == Some(handles[i - 1])
      {
        ghost var before := effects;
        PollOnce(readings[i], handles[i]);
        RunStep(stored0, readings[..i], readings[i], log0, before, effects);
        assert readings[..i + 1] == readings[..i] + [readings[i]];
        i := i + 1;
      }
      assert readings[..|readings|] == readings;
    }

    /** `getVaultTimeoutOptions`: reads the timeout, then the action; `timeout` and `action`
        are what storage holds. */
    method GetVaultTimeoutOptions(timeout: Option<int>, action: Option<string>) returns (options: (Option<int>, Option<string>))
      modifies this`effects
      ensures options == (timeout, action)
      ensures effects == old(effects) + [ReadStorage(VaultTimeoutKey), ReadStorage(VaultTimeoutActionKey)]
    {
      effects := effects + [ReadStorage(VaultTimeoutKey)];
      var t := timeout;
      effects := effects + [ReadStorage(VaultTimeoutActionKey)];
      var a := action;
      options := (t, a);
    }

    /** The screen-lock listener: on `locked` it reads the options and locks or logs out
        when the timeout is "on system lock". */
    method LockedListener(newState: string, timeout: Option<int>, action: Option<string>)
      modifies this`effects
      ensures effects == old(effects)
        + (if newState == LOCKED then [ReadStorage(VaultTimeoutKey), ReadStorage(VaultTimeoutActionKey)] else [])
        + LockDecision(newState, timeout, action)
    {
      if newState == LOCKED {
        var options := GetVaultTimeoutOptions(timeout, action);
        if options.0 == Some(ON_SYSTEM_LOCK) {
          if options.1 == Some(LOCK_ACTION) {
            effects := effects + [Lock(true)];
          } else {
            effects := effects + [LogOut];
          }
        }
      }
    }
  }

  /** A fresh monitor on a host that can only be polled: init, a callback reading `reading`,
      the timer firing, and a second callback reading the same state. The handler runs at
      most once (never for `active`), each poll clears the pending timer before querying,
      and each callback schedules exactly one new timer. */
  method PollSameStateTwice(api: IdleApi, reading: string, first: nat, second: nat) returns (log: seq<Effect>)
    requires !NativeEvents(api) && api.hasQueryState
    ensures log == [QueryState(IDLE_INTERVAL)] + LockRegistration(api) + Fired(ACTIVE, reading)
                   + [SetTimeout(POLL_DELAY_MS)] + [ClearTimeout(first), QueryState(IDLE_INTERVAL)]
                   + [SetTimeout(POLL_DELAY_MS)]
    ensures |Fired(ACTIVE, reading)| <= 1 && (reading == ACTIVE ==> Fired(ACTIVE, reading) == [])
  {
    var monitor := new IdleBackground(Some(api));
    var rejected := monitor.Init();
    ghost var started := [QueryState(IDLE_INTERVAL)] + LockRegistration(api);
    assert monitor.effects == started && monitor.idleTimer == None;
    monitor.OnQueryState(reading, first);
    ghost var firstRound := started + Fired(ACTIVE, reading) + [SetTimeout(POLL_DELAY_MS)];
    assert monitor.effects == firstRound && monitor.idleState == reading;
    rejected := monitor.PollIdle();
    ghost var polled := firstRound + [ClearTimeout(first), QueryState(IDLE_INTERVAL)];
    assert monitor.effects == polled;
    monitor.OnQueryState(reading, second);
    assert Fired(reading, reading) == [];
    assert monitor.effects == polled + [SetTimeout(POLL_DELAY_MS)];
    log := monitor.effects;
  }
}
