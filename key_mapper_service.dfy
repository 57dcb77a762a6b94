/** The accessibility service that intercepts hardware key events. Its
    state is the long-press flag, the foreground app, the Handler the
    long-press callbacks are posted on, the queue of callbacks still pending
    on the main looper, and whether a flashlight provider is attached.

    Each handler but the accessibility-event one is specified by a
    function of the old state: `OnKeyEventSpec` gives a `Step` (new state,
    side effects, whether the key is consumed), `FireSpec` a `Transition`
    (new state, side effects), `ConnectSpec` and `UnbindSpec` the new
    `State`. `OnAccessibilityEvent`, which only records the foreground app,
    is specified by its method's postconditions. The `KeyMapperService`
    class implements the handlers in the source's own order. The side
    effects (global actions, flashlight toggles, broadcasts) are
    collected in a ghost trace. Time is not modelled: a long-press timeout
    elapsing is the looper running the first pending callback
    (`FireNext`). */
module HardwareKeyMapperService {
  import opened Wrappers
  import opened Names
  import opened GlobalActions
  import opened Preferences
  import opened DeviceSettings

  // android.view.KeyEvent
  const ACTION_DOWN: int := 0
  const ACTION_UP: int := 1
  const KEYCODE_UNKNOWN: int := 0
  const KEYCODE_HOME: int := 3
  const KEYCODE_BACK: int := 4
  const KEYCODE_VOLUME_UP: int := 24
  const KEYCODE_VOLUME_DOWN: int := 25
  const KEYCODE_CAMERA: int := 27
  const KEYCODE_MENU: int := 82
  const KEYCODE_SEARCH: int := 84
  const KEYCODE_APP_SWITCH: int := 187

  // android.view.Surface
  const ROTATION_0: int := 0
  const ROTATION_90: int := 1
  const ROTATION_180: int := 2
  const ROTATION_270: int := 3

  // android.view.accessibility.AccessibilityEvent
  const TYPE_WINDOW_STATE_CHANGED: int := 0x20
  const TYPE_WINDOWS_CHANGED: int := 0x40_0000
  const WINDOWS_CHANGE_ACTIVE: bv32 := 0x20

  function KeyCode(k: Key): int {
    match k
    case Home => KEYCODE_HOME
    case Back => KEYCODE_BACK
    case Menu => KEYCODE_MENU
    case Search => KEYCODE_SEARCH
    case AppSwitch => KEYCODE_APP_SWITCH
    case Camera => KEYCODE_CAMERA
    case VolumeUp => KEYCODE_VOLUME_UP
    case VolumeDown => KEYCODE_VOLUME_DOWN
    case Unknown => KEYCODE_UNKNOWN
  }

  /** The supported hardware keys; any other key code is not handled. */
  function KeyOf(code: int): (r: Option<Key>)
    ensures r.Some? ==> KeyCode(r.value) == code
    ensures r.None? ==> forall k :: KeyCode(k) != code
  {
    if code == KEYCODE_HOME then Some(Home)
    else if code == KEYCODE_BACK then Some(Back)
    else if code == KEYCODE_MENU then Some(Menu)
    else if code == KEYCODE_SEARCH then Some(Search)
    else if code == KEYCODE_APP_SWITCH then Some(AppSwitch)
    else if code == KEYCODE_CAMERA then Some(Camera)
    else if code == KEYCODE_VOLUME_DOWN then Some(VolumeDown)
    else if code == KEYCODE_VOLUME_UP then Some(VolumeUp)
    else if code == KEYCODE_UNKNOWN then Some(Unknown)
    else None
  }

  function Rotation(o: Orientation): int {
    match o
    case PortraitBottom => ROTATION_0
    case LandscapeRight => ROTATION_90
    case PortraitTop => ROTATION_180
    case LandscapeLeft => ROTATION_270
  }

  /** The orientation of a display rotation: a quarter turn is landscape
      right and three quarters landscape left. */
  function OrientationOf(rotation: int): (r: Option<Orientation>)
    ensures r.Some? ==> Rotation(r.value) == rotation
    ensures r.None? ==> forall o :: Rotation(o) != rotation
  {
    if rotation == ROTATION_0 then Some(PortraitBottom)
    else if rotation == ROTATION_90 then Some(LandscapeRight)
    else if rotation == ROTATION_180 then Some(PortraitTop)
    else if rotation == ROTATION_270 then Some(LandscapeLeft)
    else None
  }

  datatype KeyEvent = KeyEvent(keyCode: int, action: int, canceled: bool, longPress: bool, scanCode: int)

  /** What handling a key event reads from outside the service: the display
      rotation, the device model, the preference store, the resources and
      the tables of the push-to-talk profile. */
  datatype Env = Env(rotation: int, model: string, prefs: Store, res: Resources, ptt: OpaqueDefaults) {
    predicate Valid() {
      res.Valid()
    }
  }

  /** The DeviceSettings object the service builds for each key event. */
  function SettingsOf(env: Env): Settings {
    Settings(GetCurrentDeviceSettings(env.model, env.ptt), env.prefs, env.res)
  }

  /** A long-press callback, posted on the Handler `handler` for the long
      action `longAction`. */
  datatype Callback = LongPressCallback(handler: nat, longAction: int)

  datatype Effect =
    | GlobalAction(id: int)
    | FlashLightToggled
    | BroadcastSent(intentAction: string, pkg: string)

  /** Whether the key event is consumed; `Threw` when handling it throws. */
  datatype Verdict = Consumed | NotConsumed | Threw

  /** The service's fields. `handler` is the current Handler (an identity,
      `None` for null); `handlersCreated` counts the Handlers made so far,
      so a new one gets a fresh identity. */
  datatype State = State(
    handler: Option<nat>,
    handlersCreated: nat,
    pending: seq<Callback>,
    longPressed: bool,
    foregroundApp: Option<string>,
    flashLight: bool)

  datatype Step = Step(state: State, effects: seq<Effect>, verdict: Verdict)

  datatype Transition = Transition(state: State, effects: seq<Effect>)

  const InitialState: State := State(None, 0, [], false, Some(""), false)

  /** The callbacks left after removing those posted on Handler h, in
      order. */
  function WithoutHandler(pending: seq<Callback>, h: nat): (r: seq<Callback>)
    ensures forall c :: c in r <==> c in pending && c.handler != h
    ensures |r| <= |pending|
    ensures (forall c :: c in pending ==> c.handler != h) ==> r == pending
  {
    if |pending| == 0 then []
    else
      var rest := WithoutHandler(pending[1..], h);
      if pending[0].handler == h then rest else [pending[0]] + rest
  }

  /** Removal works callback by callback, so it keeps the queue's order:
      removing from a concatenation is removing from each part. */
  lemma {:induction false} WithoutHandlerConcat(p: seq<Callback>, q: seq<Callback>, h: nat)
    ensures WithoutHandler(p + q, h) == WithoutHandler(p, h) + WithoutHandler(q, h)
  {
    if |p| == 0 {
      assert p + q == q;
    } else {
      var pq := p + q;
      assert pq[0] == p[0] && pq[1..] == p[1..] + q;
      WithoutHandlerConcat(p[1..], q, h);
      var rest := WithoutHandler(p[1..], h);
      if p[0].handler != h {
        assert WithoutHandler(pq, h) == [p[0]] + (rest + WithoutHandler(q, h));
        assert WithoutHandler(p, h) == [p[0]] + rest;
      }
    }
  }

  /** A single callback is dropped exactly when it is the Handler's. */
  lemma WithoutHandlerSingle(c: Callback, h: nat)
    ensures WithoutHandler([c], h) == if c.handler == h then [] else [c]
  {
    assert [c][1..] == [];
  }

  /** Removal keeps every other callback as often as it was queued and
      drops every copy of the Handler's. */
  lemma {:induction false} WithoutHandlerCounts(pending: seq<Callback>, h: nat)
    ensures forall c :: multiset(WithoutHandler(pending, h))[c] ==
                          if c.handler == h then 0 else multiset(pending)[c]
  {
    if |pending| > 0 {
      WithoutHandlerCounts(pending[1..], h);
      assert pending == [pending[0]] + pending[1..];
    }
  }

  /** `longPressHandler?.removeCallbacksAndMessages(null)`: drops the
      callbacks of the current Handler; nothing when there is none. */
  function RemoveCallbacks(s: State): State {
    match s.handler
    case None => s
    case Some(h) => s.(pending := WithoutHandler(s.pending, h))
  }

  /** `longPressHandler?.postDelayed(...)`: queues a callback on the current
      Handler; nothing when there is none. */
  function PostCallback(s: State, longAction: int): State {
    match s.handler
    case None => s
    case Some(h) => s.(pending := s.pending + [LongPressCallback(h, longAction)])
  }

  /** `performLocalAction`: the flashlight action toggles the flashlight (if
      a provider is attached), any other action is a global action. */
  function LocalActionEffects(id: int, flashLight: bool): (effects: seq<Effect>)
    ensures id == LOCAL_ACTION_TOGGLE_FLASH_LIGHT ==> effects == (if flashLight then [FlashLightToggled] else [])
    ensures id != LOCAL_ACTION_TOGGLE_FLASH_LIGHT ==> effects == [GlobalAction(id)]
  {
    if LOCAL_ACTION_MIN <= id <= LOCAL_ACTION_MAX then
      (if id == LOCAL_ACTION_TOGGLE_FLASH_LIGHT && flashLight then [FlashLightToggled] else [])
    else [GlobalAction(id)]
  }

  /** The intent for a key edge: intent-down on a press, intent-up on a
      release. */
  function EdgeIntent(action: int, intentDown: string, intentUp: string): string {
    if action == ACTION_UP then intentUp else if action == ACTION_DOWN then intentDown else ""
  }

  datatype OverlayResult = OverlayResult(handled: bool, effects: seq<Effect>)

  /** The overlay decision, stated with the summary's predicate: a
      configured overlay whose app is in the foreground takes the key, and
      the edge's intent, if set, is broadcast to that app. */
  function OverlayOutcome(app: string, intentDown: string, intentUp: string, action: int,
                          foregroundApp: Option<string>): OverlayResult
  {
    if OverlayActive(app, intentDown, intentUp) && foregroundApp == Some(app) then
      var intent := EdgeIntent(action, intentDown, intentUp);
      OverlayResult(true, if intent != "" then [BroadcastSent(intent, app)] else [])
    else
      OverlayResult(false, [])
  }

  datatype Dispatch = PassOn | PerformNow(id: int) | PostLongPress(id: int)

  /** A release runs a configured short-press action at once; a press with
      a configured long-press action schedules it. */
  function ActionDispatch(actionShortPress: int, actionLongPress: int, action: int): (d: Dispatch)
    ensures d.PerformNow? <==> action == ACTION_UP && actionShortPress > 0
    ensures d.PerformNow? ==> d.id == actionShortPress
    ensures d.PostLongPress? <==> action == ACTION_DOWN && actionLongPress > 0
    ensures d.PostLongPress? ==> d.id == actionLongPress
  {
    if action == ACTION_UP then
      (if actionShortPress > 0 then PerformNow(actionShortPress) else PassOn)
    else if action == ACTION_DOWN then
      (if actionLongPress > 0 then PostLongPress(actionLongPress) else PassOn)
    else PassOn
  }

  /** Whether a recognised key in an orientation is mapped: the unknown key
      needs its configured scan code to equal the event's (reading it
      throws, `None`, on a code that is not a number), any other key needs
      its switch on; then the orientation must be enabled. */
  function MappingGate(ds: Settings, o: Orientation, k: Key, scanCode: int): (r: Option<bool>)
    ensures r.None? <==> k == Unknown && GetKeyScanCode(ds, k).None?
    ensures r == Some(true) <==>
              IsOrientationActive(ds, o) &&
              (if k == Unknown then GetKeyScanCode(ds, k) == Some(scanCode) else IsKeyActive(ds, k) == Some(true))
  {
    var keyPasses :=
      if k == Unknown then
        (match GetKeyScanCode(ds, k) case None => None case Some(code) => Some(code == scanCode))
      else Some(IsKeyActive(ds, k) == Some(true));
    match keyPasses
    case None => None
    case Some(passes) => Some(passes && IsOrientationActive(ds, o))
  }

  datatype Route = Unsupported | Inactive | ScanCodeUnreadable | Mapped(orientation: Orientation, key: Key)

  /** Where a key event goes once its edge has been admitted. */
  function RouteEvent(env: Env, e: KeyEvent): (r: Route)
    ensures r.Unsupported? <==> KeyOf(e.keyCode).None? || OrientationOf(env.rotation).None?
    ensures r.Mapped? ==>
              KeyOf(e.keyCode) == Some(r.key) && OrientationOf(env.rotation) == Some(r.orientation) &&
              MappingGate(SettingsOf(env), r.orientation, r.key, e.scanCode) == Some(true)
    ensures r.ScanCodeUnreadable? <==>
              KeyOf(e.keyCode) == Some(Unknown) && OrientationOf(env.rotation).Some? &&
              GetKeyScanCode(SettingsOf(env), Unknown).None?
  {
    match (KeyOf(e.keyCode), OrientationOf(env.rotation))
    case (Some(k), Some(o)) =>
      (match MappingGate(SettingsOf(env), o, k, e.scanCode)
       case None => ScanCodeUnreadable
       case Some(false) => Inactive
       case Some(true) => Mapped(o, k))
    case _ => Unsupported
  }

  /** A mapped key: the overlay first, then the actions. */
  function MappedStep(s: State, env: Env, e: KeyEvent, o: Orientation, k: Key): Step
    requires env.Valid()
  {
    var ds := SettingsOf(env);
    var overlay := OverlayOutcome(GetOrientationKeyActionValue(ds, o, k, OverlayApp),
                                  GetOrientationKeyActionValue(ds, o, k, OverlayIntentDown),
                                  GetOrientationKeyActionValue(ds, o, k, OverlayIntentUp),
                                  e.action, s.foregroundApp);
    if overlay.handled then Step(s, overlay.effects, Consumed)
    else
      match ActionDispatch(GetOrientationKeyActionGlobal(ds, o, k, ShortPress),
                           GetOrientationKeyActionGlobal(ds, o, k, LongPress), e.action)
      case PerformNow(id) => Step(s, LocalActionEffects(id, s.flashLight), Consumed)
      case PostLongPress(id) => Step(PostCallback(s, id), [], Consumed)
      case PassOn => Step(s, [], NotConsumed)
  }

  function RecognizedStep(s: State, env: Env, e: KeyEvent): Step
    requires env.Valid()
  {
    match RouteEvent(env, e)
    case Mapped(o, k) => MappedStep(s, env, e, o, k)
    case ScanCodeUnreadable => Step(s, [], Threw)
    case _ => Step(s, [], NotConsumed)
  }

  /** `onKeyEvent`. A release first drops the pending long-press callbacks
      and swallows itself if the long press already fired; a press the
      platform flags as a long press is swallowed; any other edge passes. */
  function OnKeyEventSpec(s: State, env: Env, e: KeyEvent): Step
    requires env.Valid()
  {
    if e.canceled then Step(s, [], NotConsumed)
    else if e.action == ACTION_UP then
      var cleared := RemoveCallbacks(s);
      if cleared.longPressed then Step(cleared.(longPressed := false), [], Consumed)
      else RecognizedStep(cleared, env, e)
    else if e.action == ACTION_DOWN then
      if e.longPress then Step(s, [], Consumed) else RecognizedStep(s, env, e)
    else Step(s, [], NotConsumed)
  }

  /** The looper runs the first pending callback: for the lock-screen
      action it drops the current Handler's callbacks, for any other it
      sets the long-press flag; then it performs the action. */
  function FireSpec(s: State): Transition {
    if s.pending == [] then Transition(s, [])
    else
      var cb := s.pending[0];
      var rest := s.(pending := s.pending[1..]);
      var after := if cb.longAction == GLOBAL_ACTION_LOCK_SCREEN then RemoveCallbacks(rest)
                   else rest.(longPressed := true);
      Transition(after, LocalActionEffects(cb.longAction, after.flashLight))
  }

  /** `onServiceConnected`: a new Handler and flashlight provider, flag
      cleared. */
  function ConnectSpec(s: State): State {
    s.(handler := Some(s.handlersCreated), handlersCreated := s.handlersCreated + 1,
       longPressed := false, flashLight := true)
  }

  /** `onUnbind`: Handler and flashlight provider dropped, flag cleared. The
      callbacks already queued stay queued. */
  function UnbindSpec(s: State): State {
    s.(handler := None, longPressed := false, flashLight := false)
  }

  class KeyMapperService {
    var longPressHandler: Option<nat>
    var handlersCreated: nat
    var pending: seq<Callback>
    var foregroundApp: Option<string>
    var globalLongPressed: bool
    var flashLight: bool
    ghost var trace: seq<Effect>

    function Snapshot(): State
      reads this
    {
      State(longPressHandler, handlersCreated, pending, globalLongPressed, foregroundApp, flashLight)
    }

    constructor ()
      ensures Snapshot() == InitialState && trace == []
    {
      longPressHandler := None;
      handlersCreated := 0;
      pending := [];
      foregroundApp := Some("");
      globalLongPressed := false;
      flashLight := false;
      trace := [];
    }

    /** Tracks the foreground app from window events. */
    method OnAccessibilityEvent(eventType: int, windowChanges: bv32, windowActive: bool, packageName: Option<string>)
      modifies this`foregroundApp
      ensures eventType == TYPE_WINDOW_STATE_CHANGED ==> foregroundApp == packageName
      ensures eventType == TYPE_WINDOWS_CHANGED && windowChanges & WINDOWS_CHANGE_ACTIVE != 0 ==>
                foregroundApp == if windowActive then packageName
                                 else if old(foregroundApp) == packageName then Some("")
                                 else old(foregroundApp)
      ensures eventType == TYPE_WINDOWS_CHANGED && windowChanges & WINDOWS_CHANGE_ACTIVE == 0 ==>
                foregroundApp == old(foregroundApp)
      ensures eventType != TYPE_WINDOWS_CHANGED && eventType != TYPE_WINDOW_STATE_CHANGED ==>
                foregroundApp == old(foregroundApp)
    {
      if eventType == TYPE_WINDOWS_CHANGED {
        if windowChanges & WINDOWS_CHANGE_ACTIVE != 0 {
          if windowActive {
            foregroundApp := packageName;
          } else if foregroundApp == packageName {
            foregroundApp := Some("");
          }
        }
      } else if eventType == TYPE_WINDOW_STATE_CHANGED {
        foregroundApp := packageName;
      }
    }

    method OnUnbind() returns (r: bool)
      modifies this
      ensures !r && !globalLongPressed
      ensures Snapshot() == UnbindSpec(old(Snapshot())) && trace == old(trace)
    {
      longPressHandler := None;
      globalLongPressed := false;
      flashLight := false;
      r := false;
    }

    method OnServiceConnected()
      modifies this
      ensures !globalLongPressed && longPressHandler.Some?
      ensures Snapshot() == ConnectSpec(old(Snapshot())) && trace == old(trace)
    {
      longPressHandler := Some(handlersCreated);
      handlersCreated := handlersCreated + 1;
      globalLongPressed := false;
      flashLight := true;
    }

    method RemoveCallbacksAndMessages()
      modifies this`pending
      ensures Snapshot() == RemoveCallbacks(old(Snapshot()))
    {
      if longPressHandler.Some? {
        pending := WithoutHandler(pending, longPressHandler.value);
      }
    }

    method PerformLocalAction(id: int)
      modifies this`trace
      ensures trace == old(trace) + LocalActionEffects(id, flashLight)
    {
      if LOCAL_ACTION_MIN <= id <= LOCAL_ACTION_MAX {
        if id == LOCAL_ACTION_TOGGLE_FLASH_LIGHT && flashLight {
          trace := trace + [FlashLightToggled];
        }
      } else {
        trace := trace + [GlobalAction(id)];
      }
    }

    method ExecuteOverlay(app: string, intentDown: string, intentUp: string, action: int) returns (handled: bool)
      modifies this`trace
      ensures var r := OverlayOutcome(app, intentDown, intentUp, action, foregroundApp);
              handled == r.handled && trace == old(trace) + r.effects
    {
      if app == "" {
        return false;
      }
      if intentDown == "" && intentUp == "" {
        return false;
      }
      if foregroundApp == Some(app) {
        var actionIntent: Option<string> :=
          if action == ACTION_UP then (if intentUp != "" then Some(intentUp) else None)
          else if action == ACTION_DOWN then (if intentDown != "" then Some(intentDown) else None)
          else None;
        if actionIntent.Some? {
          trace := trace + [BroadcastSent(actionIntent.value, app)];
        }
        return true;
      }
      return false;
    }

    method ExecuteAction(actionShortPress: int, actionLongPress: int, action: int) returns (handled: bool)
      modifies this`pending, this`trace
      ensures var d := ActionDispatch(actionShortPress, actionLongPress, action);
              && handled == !d.PassOn?
              && (d.PerformNow? ==> Snapshot() == old(Snapshot()) && trace == old(trace) + LocalActionEffects(d.id, flashLight))
              && (d.PostLongPress? ==> Snapshot() == PostCallback(old(Snapshot()), d.id) && trace == old(trace))
              && (d.PassOn? ==> Snapshot() == old(Snapshot()) && trace == old(trace))
    {
      if action == ACTION_UP {
        if actionShortPress > 0 {
          PerformLocalAction(actionShortPress);
          return true;
        }
      } else if action == ACTION_DOWN {
        if actionLongPress > 0 {
          if longPressHandler.Some? {
            pending := pending + [LongPressCallback(longPressHandler.value, actionLongPress)];
          }
          return true;
        }
      }
      return false;
    }

    method OnKeyEvent(env: Env, event: KeyEvent) returns (v: Verdict)
      requires env.Valid()
      modifies this
      ensures var step := OnKeyEventSpec(old(Snapshot()), env, event);
              Snapshot() == step.state && trace == old(trace) + step.effects && v == step.verdict
    {
      if event.canceled {
        return NotConsumed;
      }
      var action := event.action;
      if action == ACTION_UP {
        RemoveCallbacksAndMessages();
        if globalLongPressed {
          globalLongPressed := false;
          return Consumed;
        }
      } else if action == ACTION_DOWN {
        if event.longPress {
          return Consumed;
        }
      } else {
        return NotConsumed;
      }
      var key := KeyOf(event.keyCode);
      if key.None? {
        return NotConsumed;
      }
      var orientation := OrientationOf(env.rotation);
      if orientation.None? {
        return NotConsumed;
      }
      var k, o := key.value, orientation.value;
      var ds := SettingsOf(env);
      if k == Unknown {
        var scanCode := GetKeyScanCode(ds, k);
        if scanCode.None? {
          return Threw;
        }
        if scanCode.value != event.scanCode {
          return NotConsumed;
        }
      } else {
        if IsKeyActive(ds, k) != Some(true) {
          return NotConsumed;
        }
      }
      if !IsOrientationActive(ds, o) {
        return NotConsumed;
      }
      v := RunMapping(env, event, o, k);
    }

    /** The last part of `onKeyEvent`, once the key is mapped: the overlay
        first, then the actions. */
    method RunMapping(env: Env, event: KeyEvent, o: Orientation, k: Key) returns (v: Verdict)
      requires env.Valid()
      modifies this`pending, this`trace
      ensures var step := MappedStep(old(Snapshot()), env, event, o, k);
              Snapshot() == step.state && trace == old(trace) + step.effects && v == step.verdict
    {
      var action := event.action;
      var ds := SettingsOf(env);
      var overlayApp := GetOrientationKeyActionValue(ds, o, k, OverlayApp);
      var overlayIntentDown := GetOrientationKeyActionValue(ds, o, k, OverlayIntentDown);
      var overlayIntentUp := GetOrientationKeyActionValue(ds, o, k, OverlayIntentUp);
      var handled := ExecuteOverlay(overlayApp, overlayIntentDown, overlayIntentUp, action);
      if handled {
        return Consumed;
      }
      var actionShortPress := GetOrientationKeyActionGlobal(ds, o, k, ShortPress);
      var actionLongPress := GetOrientationKeyActionGlobal(ds, o, k, LongPress);
      handled := ExecuteAction(actionShortPress, actionLongPress, action);
      if handled {
        return Consumed;
      }
      return NotConsumed;
    }

    /** The looper runs the first pending long-press callback, if any. */
    method FireNext() returns (fired: bool)
      modifies this
      ensures fired == (old(pending) != [])
      ensures var t := FireSpec(old(Snapshot()));
              Snapshot() == t.state && trace == old(trace) + t.effects
    {
      if pending == [] {
        return false;
      }
      var callback := pending[0];
      pending := pending[1..];
      if callback.longAction == GLOBAL_ACTION_LOCK_SCREEN {
        RemoveCallbacksAndMessages();
      } else {
        globalLongPressed := true;
      }
      PerformLocalAction(callback.longAction);
      return true;
    }
  }
}
