/** The string resources the key mapper is keyed by. The resource values of
    the app are not part of this model: each orientation, key and action slot
    gets a name here that contains no `_`, which is what the derived
    preference keys need (see ConfigKeys). */
module Names {

  datatype Orientation = PortraitBottom | LandscapeLeft | PortraitTop | LandscapeRight

  datatype Key = Home | Back | Menu | Search | AppSwitch | Camera | VolumeUp | VolumeDown | Unknown

  /** The five configurable slots of an (orientation, key) mapping. */
  datatype Slot = ShortPress | LongPress | OverlayApp | OverlayIntentDown | OverlayIntentUp

  /** `getDefaultActive` takes either an orientation or a key resource. */
  datatype Target = OrientationTarget(orientation: Orientation) | KeyTarget(key: Key)

  function OrientationName(o: Orientation): string {
    match o
    case PortraitBottom => "portraitBottom"
    case LandscapeLeft => "landscapeLeft"
    case PortraitTop => "portraitTop"
    case LandscapeRight => "landscapeRight"
  }

  function KeyName(k: Key): string {
    match k
    case Home => "home"
    case Back => "back"
    case Menu => "menu"
    case Search => "search"
    case AppSwitch => "appSwitch"
    case Camera => "camera"
    case VolumeUp => "volumeUp"
    case VolumeDown => "volumeDown"
    case Unknown => "unknown"
  }

  function SlotName(s: Slot): string {
    match s
    case ShortPress => "shortPress"
    case LongPress => "longPress"
    case OverlayApp => "overlayApp"
    case OverlayIntentDown => "overlayIntentDown"
    case OverlayIntentUp => "overlayIntentUp"
  }

  /** The resource `key_title_orientation`. */
  const TitleOrientationName: string := "titleOrientation"

  /** The order of the source's `availableKeys`; `Unknown` comes last. */
  const AvailableKeys: seq<Key> :=
    [Home, Back, Menu, Search, AppSwitch, Camera, VolumeUp, VolumeDown, Unknown]

  /** The resource arrays `action_values` (the tokens stored for the short
      and long press slots; position 0 means "no action") and
      `action_entries` (their display texts), and the titles the summary
      is built from. */
  datatype Resources = Resources(
    actionValues: seq<string>,
    actionEntries: seq<string>,
    titleShortPress: string,
    titleLongPress: string,
    titleOverlay: string,
    titleOverlayActive: string)
  {
    /** The dispatch table reads `actionValues[0]` to `actionValues[10]`. */
    predicate Valid() {
      |actionValues| >= 11
    }

    /** Every token occurs once in `action_values`. */
    predicate DistinctValues() {
      forall i, j :: 0 <= i < j < |actionValues| ==> actionValues[i] != actionValues[j]
    }
  }
}
