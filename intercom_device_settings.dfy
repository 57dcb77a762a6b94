/** The defaults of intercom devices: the unknown key is the push-to-talk
    button (raw scan code 249) and forwards its edges to the intercom app. */
module IntercomDeviceSettings {
  import opened Names

  const INTERCOM_APP: string := "com.agold.intercom"
  const INTERCOM_INTENT_UP: string := "android.intent.action.PTT.up"
  const INTERCOM_INTENT_DOWN: string := "android.intent.action.PTT.down"

  function DefaultActive(t: Target): (r: bool) {
    match t
    case OrientationTarget(PortraitTop) => false
    case KeyTarget(Camera) => false
    case KeyTarget(Search) => false
    case KeyTarget(Menu) => false
    case _ => true
  }

  function DefaultScanCode(k: Key): (r: string) {
    match k
    case Unknown => "249"
    case _ => "0"
  }

  function OrientationKeyActionDefault(values: seq<string>, ignoredOrientation: Orientation, k: Key, s: Slot): (r: string)
    requires |values| >= 1
  {
    match s
    case ShortPress => values[0]
    case LongPress => values[0]
    case OverlayApp => (match k case Unknown => INTERCOM_APP case _ => "")
    case OverlayIntentDown => (match k case Unknown => INTERCOM_INTENT_DOWN case _ => "")
    case OverlayIntentUp => (match k case Unknown => INTERCOM_INTENT_UP case _ => "")
  }

  /** The top portrait orientation and the camera, search and menu keys
      start disabled; only the unknown key has a scan code, 249; both press
      slots hold the "no action" token; the unknown key, and no other,
      forwards its down and up edges to the intercom app; the orientation
      plays no part. */
  lemma Defaults(values: seq<string>, o: Orientation, o': Orientation, k: Key, s: Slot)
    requires |values| >= 1
    ensures !DefaultActive(OrientationTarget(o)) <==> o == PortraitTop
    ensures !DefaultActive(KeyTarget(k)) <==> k == Camera || k == Search || k == Menu
    ensures DefaultScanCode(k) == (if k == Unknown then "249" else "0")
    ensures s == ShortPress || s == LongPress ==> OrientationKeyActionDefault(values, o, k, s) == values[0]
    ensures OrientationKeyActionDefault(values, o, k, OverlayApp) == (if k == Unknown then INTERCOM_APP else "")
    ensures OrientationKeyActionDefault(values, o, k, OverlayIntentDown) == (if k == Unknown then INTERCOM_INTENT_DOWN else "")
    ensures OrientationKeyActionDefault(values, o, k, OverlayIntentUp) == (if k == Unknown then INTERCOM_INTENT_UP else "")
    ensures OrientationKeyActionDefault(values, o, k, s) == OrientationKeyActionDefault(values, o', k, s)
  {
  }
}
