/** The defaults of a device without special hardware. */
module DefaultDeviceSettings {
  import opened Names

  function DefaultActive(t: Target): (r: bool) {
    match t
    case OrientationTarget(PortraitTop) => false
    case KeyTarget(Camera) => false
    case KeyTarget(Search) => false
    case KeyTarget(Menu) => false
    case _ => true
  }

  function DefaultScanCode(k: Key): (r: string) {
    "0"
  }

  /** `values` is the resource array `action_values`. */
  function OrientationKeyActionDefault(values: seq<string>, o: Orientation, k: Key, s: Slot): (r: string)
    requires |values| >= 1
  {
    match s
    case ShortPress => values[0]
    case LongPress => values[0]
    case _ => ""
  }

  /** The whole table: the top portrait orientation and the camera, search
      and menu keys start disabled, everything else enabled; no key has a
      scan code; both press slots hold the "no action" token and no overlay
      is set, whatever the orientation. */
  lemma Defaults(values: seq<string>, o: Orientation, o': Orientation, k: Key, s: Slot)
    requires |values| >= 1
    ensures !DefaultActive(OrientationTarget(o)) <==> o == PortraitTop
    ensures !DefaultActive(KeyTarget(k)) <==> k == Camera || k == Search || k == Menu
    ensures DefaultScanCode(k) == "0"
    ensures s == ShortPress || s == LongPress ==> OrientationKeyActionDefault(values, o, k, s) == values[0]
    ensures s != ShortPress && s != LongPress ==> OrientationKeyActionDefault(values, o, k, s) == ""
    ensures OrientationKeyActionDefault(values, o, k, s) == OrientationKeyActionDefault(values, o', k, s)
  {
  }
}
