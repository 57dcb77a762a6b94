/** What the key-event handler, the long-press callback and the service
    lifecycle guarantee, stated over their step functions. */
module KeyPressProperties {
  import opened Wrappers
  import opened Names
  import opened GlobalActions
  import opened Preferences
  import opened KotlinInt
  import opened DeviceSettings
  import opened HardwareKeyMapperService
  import DefaultDeviceSettings
  import IntercomDeviceSettings
  import ConfigKeys

  /** Handler identities are ones already handed out: the current Handler's
      and those of every pending callback. */
  predicate WellFormed(s: State) {
    && (s.handler.Some? ==> s.handler.value < s.handlersCreated)
    && forall c :: c in s.pending ==> c.handler < s.handlersCreated
  }

  /** The service at rest: connected, no callback pending, flag clear. */
  predicate Idle(s: State) {
    s.handler.Some? && s.pending == [] && !s.longPressed
  }

  /** A press and the matching release of one physical key. */
  predicate PressAndRelease(env: Env, down: KeyEvent, up: KeyEvent) {
    && env.Valid()
    && down.action == ACTION_DOWN && up.action == ACTION_UP
    && !down.canceled && !up.canceled && !down.longPress
    && down.keyCode == up.keyCode && down.scanCode == up.scanCode
  }

  /** Whether the overlay of a mapping takes the key in state s. */
  predicate OverlayTakes(s: State, env: Env, o: Orientation, k: Key)
    requires env.Valid()
  {
    var ds := SettingsOf(env);
    var app := GetOrientationKeyActionValue(ds, o, k, OverlayApp);
    OverlayActive(app, GetOrientationKeyActionValue(ds, o, k, OverlayIntentDown),
                  GetOrientationKeyActionValue(ds, o, k, OverlayIntentUp)) &&
    s.foregroundApp == Some(app)
  }

  lemma InitialWellFormed()
    ensures WellFormed(InitialState) && !InitialState.longPressed && InitialState.pending == []
  {
  }

  /** Removing callbacks only ever drops some. */
  lemma RemoveCallbacksShrinks(s: State)
    ensures RemoveCallbacks(s) == s.(pending := RemoveCallbacks(s).pending)
    ensures forall c :: c in RemoveCallbacks(s).pending ==> c in s.pending
    ensures s.handler.Some? ==> forall c :: c in RemoveCallbacks(s).pending ==> c.handler != s.handler.value
  {
  }

  /** A release, once admitted, never changes the state: it posts
      nothing. */
  lemma ReleaseKeepsState(s: State, env: Env, e: KeyEvent)
    requires env.Valid() && e.action == ACTION_UP
    ensures RecognizedStep(s, env, e).state == s
  {
    match RouteEvent(env, e)
    case Mapped(o, k) =>
      var ds := SettingsOf(env);
      var d := ActionDispatch(GetOrientationKeyActionGlobal(ds, o, k, ShortPress),
                              GetOrientationKeyActionGlobal(ds, o, k, LongPress), e.action);
      assert !d.PostLongPress?;
    case _ =>
  }

  /** Cancelled events and edges other than press and release pass through
      untouched; so does a press the platform flags as a long press, except
      that it is consumed. */
  lemma EdgeFilter(s: State, env: Env, e: KeyEvent)
    requires env.Valid()
    ensures e.canceled ==> OnKeyEventSpec(s, env, e) == Step(s, [], NotConsumed)
    ensures e.action != ACTION_UP && e.action != ACTION_DOWN ==> OnKeyEventSpec(s, env, e) == Step(s, [], NotConsumed)
    ensures !e.canceled && e.action == ACTION_DOWN && e.longPress ==> OnKeyEventSpec(s, env, e) == Step(s, [], Consumed)
  {
  }

  /** An unsupported key code or rotation, a key whose mapping is off, or
      an unknown key whose configured scan code differs from the event's,
      is not handled: a press changes nothing, a release only drops the
      pending callbacks (and is swallowed if the long press fired). */
  lemma UnmappedPassesThrough(s: State, env: Env, e: KeyEvent)
    requires env.Valid() && !e.canceled && (e.action == ACTION_UP || e.action == ACTION_DOWN)
    requires RouteEvent(env, e).Unsupported? || RouteEvent(env, e).Inactive?
    ensures e.action == ACTION_DOWN && !e.longPress ==> OnKeyEventSpec(s, env, e) == Step(s, [], NotConsumed)
    ensures e.action == ACTION_UP ==>
              OnKeyEventSpec(s, env, e) ==
                if s.longPressed then Step(RemoveCallbacks(s).(longPressed := false), [], Consumed)
                else Step(RemoveCallbacks(s), [], NotConsumed)
  {
  }

  /** The mapping gate in the source's terms: an unsupported key code or
      rotation routes nowhere; the unknown key is mapped when its configured
      scan code equals the event's, any other key when its switch is on;
      and the orientation must be enabled. */
  lemma RouteGate(env: Env, e: KeyEvent, o: Orientation, k: Key)
    requires KeyOf(e.keyCode) == Some(k) && OrientationOf(env.rotation) == Some(o)
    ensures RouteEvent(env, e) == Mapped(o, k) <==>
              IsOrientationActive(SettingsOf(env), o) &&
              if k == Unknown then GetKeyScanCode(SettingsOf(env), Unknown) == Some(e.scanCode)
              else IsKeyActive(SettingsOf(env), k) == Some(true)
    ensures RouteEvent(env, e).ScanCodeUnreadable? <==> k == Unknown && GetKeyScanCode(SettingsOf(env), Unknown).None?
  {
  }

  /** Every admitted release drops the callbacks of the current Handler
      before the key is even recognised, and leaves the flag clear;
      nothing else in the state changes. When the long press had fired, the
      release is swallowed with no action. */
  lemma ReleaseCancelsLongPress(s: State, env: Env, e: KeyEvent)
    requires env.Valid() && !e.canceled && e.action == ACTION_UP
    ensures OnKeyEventSpec(s, env, e).state == RemoveCallbacks(s).(longPressed := false)
    ensures s.handler.Some? ==>
              forall c :: c in OnKeyEventSpec(s, env, e).state.pending ==> c.handler != s.handler.value
    ensures s.longPressed ==> OnKeyEventSpec(s, env, e) == Step(RemoveCallbacks(s).(longPressed := false), [], Consumed)
  {
    if !s.longPressed {
      ReleaseKeepsState(RemoveCallbacks(s), env, e);
    }
  }

  /** A mapped release whose overlay does not take it runs the configured
      short-press action once, or passes through when there is none. */
  lemma ReleaseRunsShortPress(s: State, env: Env, e: KeyEvent, o: Orientation, k: Key)
    requires env.Valid() && !e.canceled && e.action == ACTION_UP && !s.longPressed
    requires RouteEvent(env, e) == Mapped(o, k) && !OverlayTakes(s, env, o, k)
    ensures var short := GetOrientationKeyActionGlobal(SettingsOf(env), o, k, ShortPress);
            OnKeyEventSpec(s, env, e) ==
              if short > 0 then Step(RemoveCallbacks(s), LocalActionEffects(short, s.flashLight), Consumed)
              else Step(RemoveCallbacks(s), [], NotConsumed)
  {
  }

  /** A press never runs an action and never touches the flag. It posts at
      most one callback, on the current Handler, carrying the configured
      long-press action; or it broadcasts at most one intent. */
  lemma PressNeverRunsAction(s: State, env: Env, e: KeyEvent)
    requires env.Valid() && !e.canceled && e.action == ACTION_DOWN
    ensures var st := OnKeyEventSpec(s, env, e);
            && st.state == s.(pending := st.state.pending)
            && |st.effects| <= 1
            && (forall ef :: ef in st.effects ==> ef.BroadcastSent?)
            && (st.state.pending == s.pending ||
                (&& s.handler.Some?
                 && st.verdict == Consumed && st.effects == []
                 && st.state.pending[..|s.pending|] == s.pending
                 && |st.state.pending| == |s.pending| + 1
                 && st.state.pending[|s.pending|].handler == s.handler.value
                 && st.state.pending[|s.pending|].longAction > 0
                 && RouteEvent(env, e).Mapped?
                 && st.state.pending[|s.pending|].longAction ==
                      GetOrientationKeyActionGlobal(SettingsOf(env), RouteEvent(env, e).orientation,
                                                    RouteEvent(env, e).key, LongPress)))
  {
    match RouteEvent(env, e)
    case Mapped(o, k) =>
      if !e.longPress {
        assert OnKeyEventSpec(s, env, e) == MappedStep(s, env, e, o, k);
      }
    case _ =>
  }

  /** A mapped press whose overlay does not take it posts the long-press
      callback exactly when a long-press action is configured. */
  lemma PressPostsLongPress(s: State, env: Env, e: KeyEvent, o: Orientation, k: Key)
    requires env.Valid() && !e.canceled && e.action == ACTION_DOWN && !e.longPress
    requires RouteEvent(env, e) == Mapped(o, k) && !OverlayTakes(s, env, o, k)
    ensures var long := GetOrientationKeyActionGlobal(SettingsOf(env), o, k, LongPress);
            OnKeyEventSpec(s, env, e) ==
              if long > 0 then Step(PostCallback(s, long), [], Consumed) else Step(s, [], NotConsumed)
  {
  }

  /** When a mapping's overlay app is in the foreground, the overlay takes
      the key: it is consumed, no action runs, no callback is posted, and the
      edge's intent is broadcast to that app if it is set. */
  lemma OverlayTakesKey(s: State, env: Env, e: KeyEvent, o: Orientation, k: Key)
    requires env.Valid() && !e.canceled && RouteEvent(env, e) == Mapped(o, k)
    requires (e.action == ACTION_DOWN && !e.longPress) || (e.action == ACTION_UP && !s.longPressed)
    requires OverlayTakes(s, env, o, k)
    ensures var ds := SettingsOf(env);
            var app := GetOrientationKeyActionValue(ds, o, k, OverlayApp);
            var intent := if e.action == ACTION_UP then GetOrientationKeyActionValue(ds, o, k, OverlayIntentUp)
                          else GetOrientationKeyActionValue(ds, o, k, OverlayIntentDown);
            OnKeyEventSpec(s, env, e) ==
              Step(if e.action == ACTION_UP then RemoveCallbacks(s) else s,
                   if intent != "" then [BroadcastSent(intent, app)] else [],
                   Consumed)
  {
  }

  /** The overlay decision: it takes the key exactly when its app is set,
      one of its intents is set and the app is in the foreground; it sends
      at most one broadcast, scoped to the app, carrying the intent of the
      edge. */
  lemma OverlayGating(app: string, intentDown: string, intentUp: string, action: int, fg: Option<string>)
    ensures var r := OverlayOutcome(app, intentDown, intentUp, action, fg);
            && (r.handled <==> app != "" && (intentDown != "" || intentUp != "") && fg == Some(app))
            && |r.effects| <= 1
            && (r.effects != [] <==>
                  r.handled && ((action == ACTION_DOWN && intentDown != "") || (action == ACTION_UP && intentUp != "")))
            && (r.effects != [] ==>
                  r.effects[0] == BroadcastSent(if action == ACTION_UP then intentUp else intentDown, app))
  {
  }

  /** The long-press callback performs its action once. For the lock-screen
      action it first drops the current Handler's callbacks and leaves the
      flag alone; for any other it sets the flag. */
  lemma FireRunsLongPress(s: State)
    requires s.pending != []
    ensures var cb := s.pending[0];
            var t := FireSpec(s);
            && t.effects == LocalActionEffects(cb.longAction, s.flashLight)
            && (cb.longAction == GLOBAL_ACTION_LOCK_SCREEN ==>
                  && t.state.longPressed == s.longPressed
                  && t.state == s.(pending := t.state.pending)
                  && (forall c :: c in t.state.pending ==> c in s.pending[1..])
                  && (s.handler.Some? ==> forall c :: c in t.state.pending ==> c.handler != s.handler.value))
            && (cb.longAction != GLOBAL_ACTION_LOCK_SCREEN ==>
                  t.state == s.(pending := s.pending[1..], longPressed := true))
  {
  }

  /** With nothing pending, the looper has nothing to run. */
  lemma FireIdle(s: State)
    requires s.pending == []
    ensures FireSpec(s) == Transition(s, [])
  {
  }

  /** `performLocalAction`: the flashlight action toggles the flashlight
      when a provider is attached and is otherwise dropped; any id outside
      the local range is a global action. */
  lemma LocalActionRouting(id: int, flashLight: bool)
    ensures id == LOCAL_ACTION_TOGGLE_FLASH_LIGHT ==>
              (LocalActionEffects(id, flashLight) == [FlashLightToggled] <==> flashLight) &&
              (LocalActionEffects(id, flashLight) == [] <==> !flashLight)
    ensures 1 <= id <= GLOBAL_ACTION_TAKE_SCREENSHOT ==> LocalActionEffects(id, flashLight) == [GlobalAction(id)]
    ensures |LocalActionEffects(id, flashLight)| <= 1
  {
  }

  /** Connecting and unbinding both clear the long-press flag; connecting
      installs a fresh Handler, unbinding drops it but keeps the callbacks
      already queued. */
  lemma LifecycleClearsFlag(s: State)
    requires WellFormed(s)
    ensures !ConnectSpec(s).longPressed && !UnbindSpec(s).longPressed
    ensures ConnectSpec(s).handler.Some? &&
            forall c :: c in s.pending ==> c.handler != ConnectSpec(s).handler.value
    ensures UnbindSpec(s).handler.None? && UnbindSpec(s).pending == s.pending
  {
  }

  /** Appending a callback of an already handed-out Handler keeps the
      state well formed. */
  lemma AppendKeepsWellFormed(s: State, p: seq<Callback>)
    requires WellFormed(s) && |p| == |s.pending| + 1 && p[..|s.pending|] == s.pending
    requires p[|s.pending|].handler < s.handlersCreated
    ensures WellFormed(s.(pending := p))
  {
    forall c | c in p ensures c.handler < s.handlersCreated {
      var i :| 0 <= i < |p| && p[i] == c;
      if i < |s.pending| {
        assert c == p[..|s.pending|][i];
      }
    }
  }

  /** Every key event keeps the state well formed. */
  lemma KeyEventPreservesWellFormed(s: State, env: Env, e: KeyEvent)
    requires WellFormed(s) && env.Valid()
    ensures WellFormed(OnKeyEventSpec(s, env, e).state)
  {
    if !e.canceled && e.action == ACTION_DOWN {
      PressNeverRunsAction(s, env, e);
      var st := OnKeyEventSpec(s, env, e).state;
      if st.pending != s.pending {
        AppendKeepsWellFormed(s, st.pending);
      }
    } else if !e.canceled && e.action == ACTION_UP {
      ReleaseCancelsLongPress(s, env, e);
      RemoveCallbacksShrinks(s);
    }
  }

  /** The callback and the lifecycle handlers keep the state well formed. */
  lemma FireAndLifecyclePreserveWellFormed(s: State)
    requires WellFormed(s)
    ensures WellFormed(FireSpec(s).state)
    ensures WellFormed(ConnectSpec(s)) && WellFormed(UnbindSpec(s))
  {
    if s.pending != [] {
      FireRunsLongPress(s);
    }
  }

  /** A press and release of one key, released before the long-press
      timeout: the long press never runs, its callback is dropped, and the
      release acts as if the service had been idle all along. */
  lemma ReleasedBeforeTimeout(s: State, env: Env, down: KeyEvent, up: KeyEvent)
    requires Idle(s) && PressAndRelease(env, down, up)
    ensures var press := OnKeyEventSpec(s, env, down);
            var release := OnKeyEventSpec(press.state, env, up);
            && (forall ef :: ef in press.effects ==> ef.BroadcastSent?)
            && release == RecognizedStep(s, env, up)
            && release.state == s
  {
    var press := OnKeyEventSpec(s, env, down);
    PressNeverRunsAction(s, env, down);
    var h := s.handler.value;
    assert RemoveCallbacks(press.state) == s by {
      if press.state.pending != [] {
        assert press.state.pending == [press.state.pending[0]];
        assert WithoutHandler(press.state.pending, h) == WithoutHandler([], h);
      }
    }
    ReleaseKeepsState(s, env, up);
  }

  /** A press held past the timeout: the callback runs the long-press
      action once. For any action but the lock screen the release is then
      swallowed, so the short-press action does not run; for the lock
      screen the flag is never set, so the release runs exactly as after a
      short press. */
  lemma HeldPastTimeout(s: State, env: Env, down: KeyEvent, up: KeyEvent)
    requires Idle(s) && PressAndRelease(env, down, up)
    requires OnKeyEventSpec(s, env, down).state.pending != []
    ensures var press := OnKeyEventSpec(s, env, down);
            var cb := press.state.pending[0];
            var fire := FireSpec(press.state);
            var release := OnKeyEventSpec(fire.state, env, up);
            && press == Step(s.(pending := [cb]), [], Consumed)
            && cb == LongPressCallback(s.handler.value, cb.longAction) && cb.longAction > 0
            && fire.effects == LocalActionEffects(cb.longAction, s.flashLight)
            && (cb.longAction != GLOBAL_ACTION_LOCK_SCREEN ==> release == Step(s, [], Consumed))
            && (cb.longAction == GLOBAL_ACTION_LOCK_SCREEN ==> fire.state == s && release == RecognizedStep(s, env, up))
  {
    var press := OnKeyEventSpec(s, env, down);
    PressNeverRunsAction(s, env, down);
    var cb := press.state.pending[0];
    assert press.state.pending == [cb];
    var fire := FireSpec(press.state);
    if cb.longAction == GLOBAL_ACTION_LOCK_SCREEN {
      assert WithoutHandler([], s.handler.value) == [];
      assert fire.state == s;
      ReleaseKeepsState(s, env, up);
    } else {
      assert fire.state == s.(longPressed := true);
    }
  }

  /** A second press without the platform's long-press flag, before the
      release, posts a second callback: two timers are pending, and for any
      action but the lock screen both run the long-press action. The lock
      screen runs once: the first callback drops the second. */
  lemma RepeatedPressQueuesTwice(s: State, env: Env, down: KeyEvent)
    requires Idle(s) && env.Valid()
    requires down.action == ACTION_DOWN && !down.canceled && !down.longPress
    requires OnKeyEventSpec(s, env, down).state.pending != []
    ensures var first := OnKeyEventSpec(s, env, down);
            var second := OnKeyEventSpec(first.state, env, down);
            var cb := first.state.pending[0];
            && second == Step(s.(pending := [cb, cb]), [], Consumed)
            && (cb.longAction != GLOBAL_ACTION_LOCK_SCREEN ==>
                  var f1 := FireSpec(second.state);
                  var f2 := FireSpec(f1.state);
                  && f1.effects == LocalActionEffects(cb.longAction, s.flashLight)
                  && f2.effects == LocalActionEffects(cb.longAction, s.flashLight)
                  && f2.state == s.(longPressed := true))
            && (cb.longAction == GLOBAL_ACTION_LOCK_SCREEN ==>
                  var f1 := FireSpec(second.state);
                  && f1 == Transition(s, LocalActionEffects(cb.longAction, s.flashLight))
                  && FireSpec(f1.state) == Transition(s, []))
  {
    var first := OnKeyEventSpec(s, env, down);
    PressNeverRunsAction(s, env, down);
    var cb := first.state.pending[0];
    assert first.state.pending == [cb];
    assert first.state == s.(pending := [cb]);
    assert RecognizedStep(first.state, env, down) == Step(s.(pending := [cb, cb]), [], Consumed) by {
      var ds := SettingsOf(env);
      var r := RouteEvent(env, down);
      assert r.Mapped?;
      assert MappedStep(s, env, down, r.orientation, r.key) == Step(s.(pending := [cb]), [], Consumed);
    }
    assert [cb, cb][1..] == [cb];
    if cb.longAction == GLOBAL_ACTION_LOCK_SCREEN {
      assert cb.handler == s.handler.value;
      WithoutHandlerSingle(cb, s.handler.value);
    }
  }

  /** Unbinding does not cancel a pending long press: the queued callback
      still runs afterwards and performs its action. Any action but the lock
      screen sets the flag; the lock screen, with no Handler left to clear,
      leaves the flag and the rest of the queue alone. Nor does a release
      after reconnecting drop the callback, since it belongs to the old
      Handler. */
  lemma StaleCallbackOutlivesUnbind(s: State, env: Env, up: KeyEvent)
    requires WellFormed(s) && s.pending != [] && env.Valid()
    requires !up.canceled && up.action == ACTION_UP
    ensures var u := UnbindSpec(s);
            var cb := s.pending[0];
            && u.pending == s.pending
            && (cb.longAction != GLOBAL_ACTION_LOCK_SCREEN ==>
                  FireSpec(u).state.longPressed && FireSpec(u).effects == LocalActionEffects(cb.longAction, false))
            && (cb.longAction == GLOBAL_ACTION_LOCK_SCREEN ==>
                  FireSpec(u) == Transition(u.(pending := s.pending[1..]), LocalActionEffects(cb.longAction, false)))
            && (s.pending[0] in OnKeyEventSpec(ConnectSpec(u), env, up).state.pending)
  {
    var c := ConnectSpec(UnbindSpec(s));
    ReleaseCancelsLongPress(c, env, up);
    assert s.pending[0] in c.pending;
  }

  /** The unknown key is gated on scan-code equality alone: with the default
      profile and nothing stored, its configured code is 0, so the key is
      off, and yet an event whose scan code is 0 is routed to its mapping. */
  lemma UnknownKeyGateIgnoresSwitch(res: Resources, ptt: OpaqueDefaults, model: string)
    requires res.Valid() && model !in {"Atom_XL", "Atom_L", "Armor_3WT", "Armor_3W"}
    ensures var env := Env(ROTATION_0, model, EmptyStore, res, ptt);
            && IsKeyActive(SettingsOf(env), Unknown) == Some(false)
            && RouteEvent(env, KeyEvent(KEYCODE_UNKNOWN, ACTION_DOWN, false, false, 0)) == Mapped(PortraitBottom, Unknown)
  {
    var env := Env(ROTATION_0, model, EmptyStore, res, ptt);
    ToIntDecimal(0);
    assert DecimalString(0) == "0";
  }

  /** The intercom push-to-talk button: on an intercom device with nothing
      stored and the intercom app in the foreground, an unknown-key press
      with raw scan code 249 broadcasts the push-to-talk down intent to that
      app and is consumed, its release the up intent; scan code 250 is not
      handled. */
  lemma IntercomPushToTalk(res: Resources, ptt: OpaqueDefaults, s: State)
    requires res.Valid() && s.foregroundApp == Some(IntercomDeviceSettings.INTERCOM_APP) && !s.longPressed
    ensures var env := Env(ROTATION_0, "Atom_XL", EmptyStore, res, ptt);
            && OnKeyEventSpec(s, env, KeyEvent(KEYCODE_UNKNOWN, ACTION_DOWN, false, false, 249)) ==
                 Step(s, [BroadcastSent(IntercomDeviceSettings.INTERCOM_INTENT_DOWN, IntercomDeviceSettings.INTERCOM_APP)], Consumed)
            && OnKeyEventSpec(s, env, KeyEvent(KEYCODE_UNKNOWN, ACTION_UP, false, false, 249)) ==
                 Step(RemoveCallbacks(s), [BroadcastSent(IntercomDeviceSettings.INTERCOM_INTENT_UP, IntercomDeviceSettings.INTERCOM_APP)], Consumed)
            && OnKeyEventSpec(s, env, KeyEvent(KEYCODE_UNKNOWN, ACTION_DOWN, false, false, 250)) == Step(s, [], NotConsumed)
  {
    var env := Env(ROTATION_0, "Atom_XL", EmptyStore, res, ptt);
    IntercomUnknownKeySettings(res, ptt);
    var ds := SettingsOf(env);
    assert RouteEvent(env, KeyEvent(KEYCODE_UNKNOWN, ACTION_DOWN, false, false, 249)) == Mapped(PortraitBottom, Unknown);
    assert RouteEvent(env, KeyEvent(KEYCODE_UNKNOWN, ACTION_UP, false, false, 249)) == Mapped(PortraitBottom, Unknown);
    assert RouteEvent(env, KeyEvent(KEYCODE_UNKNOWN, ACTION_DOWN, false, false, 250)) == Inactive;
  }

  /** What the push-to-talk scenario reads from an intercom device's
      defaults. */
  lemma IntercomUnknownKeySettings(res: Resources, ptt: OpaqueDefaults)
    requires res.Valid()
    ensures var ds := SettingsOf(Env(ROTATION_0, "Atom_XL", EmptyStore, res, ptt));
            && GetKeyScanCode(ds, Unknown) == Some(249)
            && IsOrientationActive(ds, PortraitBottom)
            && GetOrientationKeyActionValue(ds, PortraitBottom, Unknown, OverlayApp) == IntercomDeviceSettings.INTERCOM_APP
            && GetOrientationKeyActionValue(ds, PortraitBottom, Unknown, OverlayIntentDown) == IntercomDeviceSettings.INTERCOM_INTENT_DOWN
            && GetOrientationKeyActionValue(ds, PortraitBottom, Unknown, OverlayIntentUp) == IntercomDeviceSettings.INTERCOM_INTENT_UP
  {
    ToIntDecimal(249);
    assert DecimalString(249) == "249";
  }

  /** A lock-screen long press does not suppress the short press: with the
      home key mapped to "back" on a short press and to the lock screen on
      a long press, holding it past the timeout locks the screen, and the
      release still goes back. */
  lemma LockScreenLongPressAlsoRunsShortPress(res: Resources, ptt: OpaqueDefaults, h: nat)
    requires res.Valid() && res.DistinctValues()
    ensures var prefs := Store(map[], map[ConfigKeys.OrientationKeyActionString(PortraitBottom, Home, ShortPress) := res.actionValues[1],
                                          ConfigKeys.OrientationKeyActionString(PortraitBottom, Home, LongPress) := res.actionValues[5]]);
            var env := Env(ROTATION_0, "generic", prefs, res, ptt);
            var s := State(Some(h), h + 1, [], false, Some(""), true);
            var press := OnKeyEventSpec(s, env, KeyEvent(KEYCODE_HOME, ACTION_DOWN, false, false, 0));
            var fire := FireSpec(press.state);
            var release := OnKeyEventSpec(fire.state, env, KeyEvent(KEYCODE_HOME, ACTION_UP, false, false, 0));
            && press.verdict == Consumed
            && fire.effects == [GlobalAction(GLOBAL_ACTION_LOCK_SCREEN)]
            && release == Step(s, [GlobalAction(GLOBAL_ACTION_BACK)], Consumed)
  {
    var shortKey := ConfigKeys.OrientationKeyActionString(PortraitBottom, Home, ShortPress);
    var longKey := ConfigKeys.OrientationKeyActionString(PortraitBottom, Home, LongPress);
    var prefs := Store(map[], map[shortKey := res.actionValues[1], longKey := res.actionValues[5]]);
    var env := Env(ROTATION_0, "generic", prefs, res, ptt);
    var ds := SettingsOf(env);
    forall s: Slot | s != ShortPress
      ensures ConfigKeys.OrientationKeyActionString(PortraitBottom, Home, s) != shortKey
    {
      if ConfigKeys.OrientationKeyActionString(PortraitBottom, Home, s) == shortKey {
        ConfigKeys.OrientationKeyActionStringInjective(PortraitBottom, Home, s, PortraitBottom, Home, ShortPress);
      }
    }
    forall s: Slot | s != LongPress
      ensures ConfigKeys.OrientationKeyActionString(PortraitBottom, Home, s) != longKey
    {
      if ConfigKeys.OrientationKeyActionString(PortraitBottom, Home, s) == longKey {
        ConfigKeys.OrientationKeyActionStringInjective(PortraitBottom, Home, s, PortraitBottom, Home, LongPress);
      }
    }
    GlobalForToken(res.actionValues, 1);
    GlobalForToken(res.actionValues, 5);
    assert GetOrientationKeyActionGlobal(ds, PortraitBottom, Home, ShortPress) == GLOBAL_ACTION_BACK;
    assert GetOrientationKeyActionGlobal(ds, PortraitBottom, Home, LongPress) == GLOBAL_ACTION_LOCK_SCREEN;
    assert GetOrientationKeyActionValue(ds, PortraitBottom, Home, OverlayApp) == "";
  }
}
