/** The defaults of the Atom L/XL push-to-talk profile: both the search key
    and the unknown key forward their edges to the intercom app, so the
    search key starts enabled. The source class does not define a default
    scan code; the profile value carries one as a parameter (see
    DeviceSettings.Profile). */
module AtomLXLDeviceSettings {
  import opened Names

  const INTERCOM_APP: string := "com.agold.intercom"
  const INTERCOM_INTENT_UP: string := "android.intent.action.PTT.up"
  const INTERCOM_INTENT_DOWN: string := "android.intent.action.PTT.down"

  function DefaultActive(t: Target): (r: bool) {
    match t
    case OrientationTarget(PortraitTop) => false
    case KeyTarget(Camera) => false
    case KeyTarget(Menu) => false
    case _ => true
  }

  function OrientationKeyActionDefault(values: seq<string>, o: Orientation, k: Key, s: Slot): (r: string)
    requires |values| >= 1
  {
    match s
    case ShortPress => values[0]
    case LongPress => values[0]
    case OverlayApp => (match k case Search => INTERCOM_APP case Unknown => INTERCOM_APP case _ => "")
    case OverlayIntentDown =>
      (match k case Search => INTERCOM_INTENT_DOWN case Unknown => INTERCOM_INTENT_DOWN case _ => "")
    case OverlayIntentUp =>
      (match k case Search => INTERCOM_INTENT_UP case Unknown => INTERCOM_INTENT_UP case _ => "")
  }

  /** The top portrait orientation and the camera and menu keys start
      disabled, the search key and everything else enabled; both press slots
      hold the "no action" token; exactly the search and unknown keys forward
      their edges to the intercom app; the orientation plays no part. */
  lemma Defaults(values: seq<string>, o: Orientation, o': Orientation, k: Key, s: Slot)
    requires |values| >= 1
    ensures !DefaultActive(OrientationTarget(o)) <==> o == PortraitTop
    ensures !DefaultActive(KeyTarget(k)) <==> k == Camera || k == Menu
    ensures s == ShortPress || s == LongPress ==> OrientationKeyActionDefault(values, o, k, s) == values[0]
    ensures OrientationKeyActionDefault(values, o, k, OverlayApp) ==
              (if k == Search || k == Unknown then INTERCOM_APP else "")
    ensures OrientationKeyActionDefault(values, o, k, OverlayIntentDown) ==
              (if k == Search || k == Unknown then INTERCOM_INTENT_DOWN else "")
    ensures OrientationKeyActionDefault(values, o, k, OverlayIntentUp) ==
              (if k == Search || k == Unknown then INTERCOM_INTENT_UP else "")
    ensures OrientationKeyActionDefault(values, o, k, s) == OrientationKeyActionDefault(values, o', k, s)
  {
  }
}
