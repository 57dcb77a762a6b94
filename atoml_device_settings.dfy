/** The defaults of the Atom L profile. The source class does not define a
    default scan code; the profile value carries one as a parameter (see
    DeviceSettings.Profile). */
module AtomLDeviceSettings {
  import opened Names

  function DefaultActive(t: Target): (r: bool) {
    match t
    case OrientationTarget(PortraitTop) => false
    case KeyTarget(Camera) => false
    case KeyTarget(Search) => false
    case KeyTarget(Menu) => false
    case _ => true
  }

  function OrientationKeyActionDefault(values: seq<string>, o: Orientation, k: Key, s: Slot): (r: string)
    requires |values| >= 1
  {
    match s
    case ShortPress => values[0]
    case LongPress => values[0]
    case _ => ""
  }

  /** The top portrait orientation and the camera, search and menu keys
      start disabled, everything else enabled; both press slots hold the "no
      action" token and no overlay is set, whatever the orientation. */
  lemma Defaults(values: seq<string>, o: Orientation, o': Orientation, k: Key, s: Slot)
    requires |values| >= 1
    ensures !DefaultActive(OrientationTarget(o)) <==> o == PortraitTop
    ensures !DefaultActive(KeyTarget(k)) <==> k == Camera || k == Search || k == Menu
    ensures s == ShortPress || s == LongPress ==> OrientationKeyActionDefault(values, o, k, s) == values[0]
    ensures s != ShortPress && s != LongPress ==> OrientationKeyActionDefault(values, o, k, s) == ""
    ensures OrientationKeyActionDefault(values, o, k, s) == OrientationKeyActionDefault(values, o', k, s)
  {
  }
}
