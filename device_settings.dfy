/** The configuration resolver: which profile a device gets, and what the
    stored preferences together with the profile's defaults say about each
    orientation, key and action slot. A `Settings` value stands for one
    DeviceSettings object: its profile, the preference store it reads and
    the app's resources. */
module DeviceSettings {
  import opened Wrappers
  import opened Names
  import opened GlobalActions
  import opened Preferences
  import opened ConfigKeys
  import opened KotlinInt
  import DefaultDeviceSettings
  import IntercomDeviceSettings
  import AtomLDeviceSettings
  import AtomLXLDeviceSettings

  /** The tables of the push-to-talk profile, which is not part of this
      model: any activation, scan-code and action defaults. */
  datatype OpaqueDefaults = OpaqueDefaults(
    active: Target -> bool,
    scanCode: Key -> string,
    actionDefault: (Orientation, Key, Slot) -> string)

  /** The device profiles. Atom L and Atom L/XL define no default scan code
      in the source, so their variants carry one as a parameter. */
  datatype Profile =
    | DefaultProfile
    | IntercomProfile
    | AtomLProfile(atomLScanCode: Key -> string)
    | AtomLXLProfile(atomLXLScanCode: Key -> string)
    | PTTProfile(ptt: OpaqueDefaults)

  datatype Settings = Settings(profile: Profile, prefs: Store, res: Resources)

  /** The profile for a device model (`android.os.Build.MODEL`). */
  function GetCurrentDeviceSettings(model: string, ptt: OpaqueDefaults): (p: Profile)
    ensures p.IntercomProfile? <==> model == "Atom_XL" || model == "Armor_3WT"
    ensures p.PTTProfile? <==> model == "Atom_L" || model == "Armor_3W"
    ensures p.PTTProfile? ==> p.ptt == ptt
    ensures p.DefaultProfile? <==> model !in {"Atom_XL", "Atom_L", "Armor_3WT", "Armor_3W"}
    ensures !p.AtomLProfile? && !p.AtomLXLProfile?
  {
    if model == "Atom_XL" then IntercomProfile
    else if model == "Atom_L" then PTTProfile(ptt)
    else if model == "Armor_3WT" then IntercomProfile
    else if model == "Armor_3W" then PTTProfile(ptt)
    else DefaultProfile
  }

  function DefaultActive(p: Profile, t: Target): (r: bool) {
    match p
    case DefaultProfile => DefaultDeviceSettings.DefaultActive(t)
    case IntercomProfile => IntercomDeviceSettings.DefaultActive(t)
    case AtomLProfile(_) => AtomLDeviceSettings.DefaultActive(t)
    case AtomLXLProfile(_) => AtomLXLDeviceSettings.DefaultActive(t)
    case PTTProfile(ptt) => ptt.active(t)
  }

  function DefaultScanCode(p: Profile, k: Key): (r: string) {
    match p
    case DefaultProfile => DefaultDeviceSettings.DefaultScanCode(k)
    case IntercomProfile => IntercomDeviceSettings.DefaultScanCode(k)
    case AtomLProfile(scanCode) => scanCode(k)
    case AtomLXLProfile(scanCode) => scanCode(k)
    case PTTProfile(ptt) => ptt.scanCode(k)
  }

  function OrientationKeyActionDefault(p: Profile, values: seq<string>, o: Orientation, k: Key, s: Slot): (r: string)
    requires |values| >= 1
  {
    match p
    case DefaultProfile => DefaultDeviceSettings.OrientationKeyActionDefault(values, o, k, s)
    case IntercomProfile => IntercomDeviceSettings.OrientationKeyActionDefault(values, o, k, s)
    case AtomLProfile(_) => AtomLDeviceSettings.OrientationKeyActionDefault(values, o, k, s)
    case AtomLXLProfile(_) => AtomLXLDeviceSettings.OrientationKeyActionDefault(values, o, k, s)
    case PTTProfile(ptt) => ptt.actionDefault(o, k, s)
  }

  /** Whether mappings in an orientation are enabled: the stored switch, or
      the profile's default when there is none. */
  function IsOrientationActive(ds: Settings, o: Orientation): (r: bool)
    ensures OrientationString(o) in ds.prefs.booleans ==> r == ds.prefs.booleans[OrientationString(o)]
    ensures OrientationString(o) !in ds.prefs.booleans ==> r == DefaultActive(ds.profile, OrientationTarget(o))
  {
    GetBoolean(ds.prefs, OrientationString(o), DefaultActive(ds.profile, OrientationTarget(o)))
  }

  /** The raw scan code configured for a key, parsed from its stored text or
      the profile default; `None` when the text is not a number (the source
      throws). */
  function GetKeyScanCode(ds: Settings, k: Key): (r: Option<int>)
    ensures r == ToInt(if KeyName(k) in ds.prefs.strings then ds.prefs.strings[KeyName(k)]
                       else DefaultScanCode(ds.profile, k))
    ensures r.Some? ==> INT_MIN <= r.value <= INT_MAX
  {
    ToInt(GetString(ds.prefs, KeyName(k), DefaultScanCode(ds.profile, k)))
  }

  /** Whether a key is mapped at all. The unknown key is mapped exactly when
      its configured scan code is non-zero (and the lookup throws, `None`,
      when that code is not a number); every other key has a stored switch
      with the profile's default. */
  function IsKeyActive(ds: Settings, k: Key): (r: Option<bool>)
    ensures r.None? ==> k == Unknown
    ensures k == Unknown ==> (r.None? <==> GetKeyScanCode(ds, k).None?)
    ensures k == Unknown ==> (r == Some(true) <==> GetKeyScanCode(ds, k).Some? && GetKeyScanCode(ds, k).value != 0)
    ensures k != Unknown && KeyName(k) in ds.prefs.booleans ==> r == Some(ds.prefs.booleans[KeyName(k)])
    ensures k != Unknown && KeyName(k) !in ds.prefs.booleans ==> r == Some(DefaultActive(ds.profile, KeyTarget(k)))
  {
    match k
    case Unknown =>
      (match GetKeyScanCode(ds, k)
       case None => None
       case Some(code) => Some(code != 0))
    case _ => Some(GetBoolean(ds.prefs, KeyName(k), DefaultActive(ds.profile, KeyTarget(k))))
  }

  /** Both the orientation and the key are enabled. The key is consulted
      only for an enabled orientation, so an unparsable scan code matters
      only there. */
  function IsOrientationKeyActive(ds: Settings, o: Orientation, k: Key): (r: Option<bool>)
    ensures r == Some(true) <==> IsOrientationActive(ds, o) && IsKeyActive(ds, k) == Some(true)
    ensures r.None? <==> IsOrientationActive(ds, o) && IsKeyActive(ds, k).None?
  {
    if IsOrientationActive(ds, o) then IsKeyActive(ds, k) else Some(false)
  }

  /** The position of a key in `AvailableKeys`. */
  function KeyIndex(k: Key): (r: nat) {
    match k
    case Home => 0
    case Back => 1
    case Menu => 2
    case Search => 3
    case AppSwitch => 4
    case Camera => 5
    case VolumeUp => 6
    case VolumeDown => 7
    case Unknown => 8
  }

  lemma AvailableKeysOrder()
    ensures |AvailableKeys| == 9
    ensures forall k :: KeyIndex(k) < 9 && AvailableKeys[KeyIndex(k)] == k
    ensures forall j :: 0 <= j < 9 ==> KeyIndex(AvailableKeys[j]) == j
  {
  }

  /** Whether the orientation's group of mappings is shown: the orientation
      is enabled and some key is. The keys are tried in order and the search
      stops at the first enabled one, so an unparsable scan code of the
      unknown key (the last one tried) throws only when no other key is
      enabled. */
  method IsOrientationTitleActive(ds: Settings, o: Orientation) returns (r: Option<bool>)
    ensures r == Some(true) <==> IsOrientationActive(ds, o) && exists k :: IsKeyActive(ds, k) == Some(true)
    ensures r.None? <==>
              IsOrientationActive(ds, o) && IsKeyActive(ds, Unknown).None? &&
              forall k :: k != Unknown ==> IsKeyActive(ds, k) == Some(false)
  {
    AvailableKeysOrder();
    if IsOrientationActive(ds, o) {
      for i := 0 to |AvailableKeys|
        invariant forall j :: 0 <= j < i ==> IsKeyActive(ds, AvailableKeys[j]) == Some(false)
      {
        var active := IsKeyActive(ds, AvailableKeys[i]);
        if active.None? {
          assert KeyIndex(AvailableKeys[i]) == 8;
          forall k | k != Unknown ensures IsKeyActive(ds, k) == Some(false) {
            assert AvailableKeys[KeyIndex(k)] == k;
          }
          return None;
        }
        if active.value {
          return Some(true);
        }
      }
    }
    forall k ensures IsOrientationActive(ds, o) ==> IsKeyActive(ds, k) == Some(false) {
      assert AvailableKeys[KeyIndex(k)] == k;
    }
    return Some(false);
  }

  /** The value of an action slot: the stored text under the slot's derived
      key, or the profile's default when nothing is stored. */
  function GetOrientationKeyActionValue(ds: Settings, o: Orientation, k: Key, s: Slot): (r: string)
    requires ds.res.Valid()
    ensures OrientationKeyActionString(o, k, s) in ds.prefs.strings ==>
              r == ds.prefs.strings[OrientationKeyActionString(o, k, s)]
    ensures OrientationKeyActionString(o, k, s) !in ds.prefs.strings ==>
              r == OrientationKeyActionDefault(ds.profile, ds.res.actionValues, o, k, s)
  {
    GetString(ds.prefs, OrientationKeyActionString(o, k, s),
              OrientationKeyActionDefault(ds.profile, ds.res.actionValues, o, k, s))
  }

  /** Kotlin's `indexOf`: the first position holding `v`, or -1. */
  function IndexOf(s: seq<string>, v: string): (r: int)
    ensures r == -1 <==> v !in s
    ensures r != -1 ==> 0 <= r < |s| && s[r] == v && v !in s[..r]
  {
    if |s| == 0 then -1
    else if s[0] == v then 0
    else
      var i := IndexOf(s[1..], v);
      if i == -1 then -1 else i + 1
  }

  /** The display text of a press slot's token; `None` where the source's
      `action_entries[indexOf(value)]` throws (a value that is not a token,
      or an entries array too short). */
  function GetOrientationKeyActionEntry(ds: Settings, o: Orientation, k: Key, s: Slot): (r: Option<string>)
    requires ds.res.Valid()
    ensures r.Some? <==>
              var v := GetOrientationKeyActionValue(ds, o, k, s);
              v in ds.res.actionValues && IndexOf(ds.res.actionValues, v) < |ds.res.actionEntries|
    ensures r.Some? ==>
              exists i :: 0 <= i < |ds.res.actionEntries| && i < |ds.res.actionValues| &&
                          ds.res.actionValues[i] == GetOrientationKeyActionValue(ds, o, k, s) &&
                          r.value == ds.res.actionEntries[i]
    ensures r.Some? ==>
              var i := IndexOf(ds.res.actionValues, GetOrientationKeyActionValue(ds, o, k, s));
              && 0 <= i < |ds.res.actionEntries|
              && GetOrientationKeyActionValue(ds, o, k, s) !in ds.res.actionValues[..i]
              && r.value == ds.res.actionEntries[i]
  {
    var index := IndexOf(ds.res.actionValues, GetOrientationKeyActionValue(ds, o, k, s));
    if 0 <= index < |ds.res.actionEntries| then Some(ds.res.actionEntries[index]) else None
  }

  /** The action a token stands for, tested against the tokens in the order
      of the source's `when`: positions 1 to 9 are global actions, position
      10 the local flashlight action, anything else (position 0, "no
      action", included) is 0. */
  function GlobalForValue(values: seq<string>, v: string): (r: int)
    requires |values| >= 11
    ensures r != 0 <==> v in values[1..11]
    ensures r >= 0
  {
    if v == values[1] then GLOBAL_ACTION_BACK
    else if v == values[2] then GLOBAL_ACTION_HOME
    else if v == values[3] then GLOBAL_ACTION_RECENTS
    else if v == values[4] then GLOBAL_ACTION_TAKE_SCREENSHOT
    else if v == values[5] then GLOBAL_ACTION_LOCK_SCREEN
    else if v == values[6] then GLOBAL_ACTION_POWER_DIALOG
    else if v == values[7] then GLOBAL_ACTION_NOTIFICATIONS
    else if v == values[8] then GLOBAL_ACTION_QUICK_SETTINGS
    else if v == values[9] then GLOBAL_ACTION_TOGGLE_SPLIT_SCREEN
    else if v == values[10] then LOCAL_ACTION_TOGGLE_FLASH_LIGHT
    else 0
  }

  /** The action of each token position, as a table. */
  const TokenActions: seq<int> := [
    0,
    GLOBAL_ACTION_BACK, GLOBAL_ACTION_HOME, GLOBAL_ACTION_RECENTS, GLOBAL_ACTION_TAKE_SCREENSHOT,
    GLOBAL_ACTION_LOCK_SCREEN, GLOBAL_ACTION_POWER_DIALOG, GLOBAL_ACTION_NOTIFICATIONS,
    GLOBAL_ACTION_QUICK_SETTINGS, GLOBAL_ACTION_TOGGLE_SPLIT_SCREEN,
    LOCAL_ACTION_TOGGLE_FLASH_LIGHT]

  function TokenAction(i: nat): (r: int) {
    if i < |TokenActions| then TokenActions[i] else 0
  }

  /** With distinct tokens, the token at position i stands for the i-th
      entry of the table. */
  lemma GlobalForToken(values: seq<string>, i: nat)
    requires |values| >= 11 && i < |values|
    requires forall a, b :: 0 <= a < b < |values| ==> values[a] != values[b]
    ensures GlobalForValue(values, values[i]) == TokenAction(i)
  {
    if i >= 11 {
      assert values[i] !in values[1..11] by {
        forall j | 1 <= j < 11 ensures values[j] != values[i] {
          assert values[j] != values[i];
        }
      }
    }
  }

  /** The action configured for a slot (for the press slots the token is
      mapped; any other text gives 0). */
  function GetOrientationKeyActionGlobal(ds: Settings, o: Orientation, k: Key, s: Slot): (r: int)
    requires ds.res.Valid()
    ensures r >= 0
    ensures r != 0 <==> GetOrientationKeyActionValue(ds, o, k, s) in ds.res.actionValues[1..11]
  {
    GlobalForValue(ds.res.actionValues, GetOrientationKeyActionValue(ds, o, k, s))
  }

  /** An overlay counts as configured when its app is set and at least one
      of its two intents is. The dispatcher gates on the same predicate. */
  predicate OverlayActive(app: string, intentDown: string, intentUp: string) {
    app != "" && (intentDown != "" || intentUp != "")
  }

  function PressLines(res: Resources, shortEntry: string, longEntry: string): (r: string) {
    res.titleShortPress + ": " + shortEntry + "\n" + res.titleLongPress + ": " + longEntry
  }

  function OverlayLine(res: Resources): (r: string) {
    "\n" + res.titleOverlay + ": " + res.titleOverlayActive
  }

  /** The summary of a mapping: the short-press and long-press lines, and
      the overlay line exactly when the overlay is configured; `None` where
      the source throws on a press value that is not a token. */
  function GetOrientationKeySummary(ds: Settings, o: Orientation, k: Key): (r: Option<string>)
    requires ds.res.Valid()
    ensures r.Some? <==>
              GetOrientationKeyActionEntry(ds, o, k, ShortPress).Some? &&
              GetOrientationKeyActionEntry(ds, o, k, LongPress).Some?
    ensures r.Some? ==>
              var lines := PressLines(ds.res, GetOrientationKeyActionEntry(ds, o, k, ShortPress).value,
                                      GetOrientationKeyActionEntry(ds, o, k, LongPress).value);
              var overlay := OverlayActive(GetOrientationKeyActionValue(ds, o, k, OverlayApp),
                                           GetOrientationKeyActionValue(ds, o, k, OverlayIntentDown),
                                           GetOrientationKeyActionValue(ds, o, k, OverlayIntentUp));
              && lines <= r.value
              && (|r.value| > |lines| <==> overlay)
              && r.value == lines + (if overlay then OverlayLine(ds.res) else "")
  {
    match (GetOrientationKeyActionEntry(ds, o, k, ShortPress), GetOrientationKeyActionEntry(ds, o, k, LongPress))
    case (Some(shortEntry), Some(longEntry)) =>
      var summary := PressLines(ds.res, shortEntry, longEntry);
      var app := GetOrientationKeyActionValue(ds, o, k, OverlayApp);
      var intentDown := GetOrientationKeyActionValue(ds, o, k, OverlayIntentDown);
      var intentUp := GetOrientationKeyActionValue(ds, o, k, OverlayIntentUp);
      Some(if OverlayActive(app, intentDown, intentUp) then summary + OverlayLine(ds.res) else summary)
    case _ => None
  }

  /** Across the four profiles of the source: the top portrait orientation
      and the camera and menu keys start disabled, the search key starts
      disabled except on Atom L/XL, and everything else starts enabled. */
  lemma ActivationPolicy(p: Profile, t: Target)
    requires !p.PTTProfile?
    ensures DefaultActive(p, t) <==>
              !(t == OrientationTarget(PortraitTop) || t == KeyTarget(Camera) || t == KeyTarget(Menu) ||
                (t == KeyTarget(Search) && !p.AtomLXLProfile?))
  {
  }

  /** Without a stored scan code the unknown key is unmapped on a default
      device and mapped, to scan code 249, on an intercom device. */
  lemma UnknownKeyDefaults(ds: Settings)
    requires KeyName(Unknown) !in ds.prefs.strings
    ensures ds.profile.DefaultProfile? ==> GetKeyScanCode(ds, Unknown) == Some(0) && IsKeyActive(ds, Unknown) == Some(false)
    ensures ds.profile.IntercomProfile? ==> GetKeyScanCode(ds, Unknown) == Some(249) && IsKeyActive(ds, Unknown) == Some(true)
  {
    ToIntDecimal(0);
    ToIntDecimal(249);
    assert DecimalString(249) == "249";
    assert DecimalString(0) == "0";
  }

  /** A scan code written as decimal text is read back, and decides whether
      the unknown key is mapped. */
  lemma ScanCodeRoundTrip(ds: Settings, n: nat)
    requires n <= INT_MAX
    ensures var ds' := ds.(prefs := PutString(ds.prefs, KeyName(Unknown), DecimalString(n)));
            GetKeyScanCode(ds', Unknown) == Some(n) && IsKeyActive(ds', Unknown) == Some(n != 0)
  {
    ToIntDecimal(n);
  }

  /** Writing an action slot's value makes the resolver return it in place
      of the default, and leaves every other slot as it was. */
  lemma ActionValueRoundTrip(ds: Settings, o: Orientation, k: Key, s: Slot, v: string,
                             o': Orientation, k': Key, s': Slot)
    requires ds.res.Valid()
    ensures var ds' := ds.(prefs := PutString(ds.prefs, OrientationKeyActionString(o, k, s), v));
            && GetOrientationKeyActionValue(ds', o, k, s) == v
            && ((o', k', s') != (o, k, s) ==>
                  GetOrientationKeyActionValue(ds', o', k', s') == GetOrientationKeyActionValue(ds, o', k', s'))
  {
    if OrientationKeyActionString(o, k, s) == OrientationKeyActionString(o', k', s') {
      OrientationKeyActionStringInjective(o, k, s, o', k', s');
    }
  }

  /** A switch write leaves the strings alone, so no scan code and not the
      unknown key's activity. */
  lemma SwitchKeepsScanCodes(ds: Settings, key: string, v: bool, k: Key)
    ensures var ds' := ds.(prefs := PutBoolean(ds.prefs, key, v));
            && GetKeyScanCode(ds', k) == GetKeyScanCode(ds, k)
            && (k == Unknown ==> IsKeyActive(ds', k) == IsKeyActive(ds, k))
  {
    assert PutBoolean(ds.prefs, key, v).strings == ds.prefs.strings;
  }

  /** A switch write leaves the strings alone, so no action slot. */
  lemma SwitchKeepsActionValues(ds: Settings, key: string, v: bool, o: Orientation, k: Key, s: Slot)
    requires ds.res.Valid()
    ensures var ds' := ds.(prefs := PutBoolean(ds.prefs, key, v));
            GetOrientationKeyActionValue(ds', o, k, s) == GetOrientationKeyActionValue(ds, o, k, s)
  {
    assert PutBoolean(ds.prefs, key, v).strings == ds.prefs.strings;
  }

  /** A switch written under another key leaves an orientation's switch. */
  lemma SwitchKeepsOrientation(ds: Settings, key: string, v: bool, o: Orientation)
    requires key != OrientationString(o)
    ensures IsOrientationActive(ds.(prefs := PutBoolean(ds.prefs, key, v)), o) == IsOrientationActive(ds, o)
  {
  }

  /** A switch written under another key leaves a key's activity. */
  lemma SwitchKeepsKey(ds: Settings, key: string, v: bool, k: Key)
    requires key != KeyName(k)
    ensures IsKeyActive(ds.(prefs := PutBoolean(ds.prefs, key, v)), k) == IsKeyActive(ds, k)
  {
    SwitchKeepsScanCodes(ds, key, v, k);
  }

  /** Writing an orientation's switch makes the resolver return it for that
      orientation, and changes no other orientation, no key, no scan code
      and no action slot. */
  lemma OrientationSwitchRoundTrip(ds: Settings, o: Orientation, v: bool,
                                   o': Orientation, k': Key, s': Slot)
    requires ds.res.Valid()
    ensures var ds' := ds.(prefs := PutBoolean(ds.prefs, OrientationString(o), v));
            && IsOrientationActive(ds', o) == v
            && (o' != o ==> IsOrientationActive(ds', o') == IsOrientationActive(ds, o'))
            && IsKeyActive(ds', k') == IsKeyActive(ds, k')
            && GetKeyScanCode(ds', k') == GetKeyScanCode(ds, k')
            && GetOrientationKeyActionValue(ds', o', k', s') == GetOrientationKeyActionValue(ds, o', k', s')
  {
    var key := OrientationString(o);
    SwitchKeepsScanCodes(ds, key, v, k');
    SwitchKeepsActionValues(ds, key, v, o', k', s');
    if o' != o {
      NamesInjective(o, k', s', o', k', s');
      SwitchKeepsOrientation(ds, key, v, o');
    }
    OrientationNotKeyName(o, k');
    SwitchKeepsKey(ds, key, v, k');
  }

  /** Writing a key's switch makes the resolver return it for that key,
      except for the unknown key, which goes by its scan code and ignores
      its switch; no other key, orientation or scan code changes. */
  lemma KeySwitchRoundTrip(ds: Settings, k: Key, v: bool, o': Orientation, k': Key)
    ensures var ds' := ds.(prefs := PutBoolean(ds.prefs, KeyName(k), v));
            && (k != Unknown ==> IsKeyActive(ds', k) == Some(v))
            && (k == Unknown ==> IsKeyActive(ds', k) == IsKeyActive(ds, k))
            && (k' != k ==> IsKeyActive(ds', k') == IsKeyActive(ds, k'))
            && IsOrientationActive(ds', o') == IsOrientationActive(ds, o')
            && GetKeyScanCode(ds', k') == GetKeyScanCode(ds, k')
  {
    var key := KeyName(k);
    SwitchKeepsScanCodes(ds, key, v, k);
    SwitchKeepsScanCodes(ds, key, v, k');
    if k' != k {
      NamesInjective(o', k, ShortPress, o', k', ShortPress);
      SwitchKeepsKey(ds, key, v, k');
    }
    OrientationNotKeyName(o', k);
    SwitchKeepsOrientation(ds, key, v, o');
  }

  /** Writing an action slot's value changes no orientation switch, key
      switch or scan code. */
  lemma ActionValueKeepsActivation(ds: Settings, o: Orientation, k: Key, s: Slot, v: string,
                                   o': Orientation, k': Key)
    ensures var ds' := ds.(prefs := PutString(ds.prefs, OrientationKeyActionString(o, k, s), v));
            && IsOrientationActive(ds', o') == IsOrientationActive(ds, o')
            && GetKeyScanCode(ds', k') == GetKeyScanCode(ds, k')
            && IsKeyActive(ds', k') == IsKeyActive(ds, k')
  {
    KindsDistinct(o, k, s, o', k');
    StringWriteKeepsActivation(ds, OrientationKeyActionString(o, k, s), v, o', k');
  }

  /** A string written under a key other than a key's name changes no
      switch, and not that key's scan code or activity. */
  lemma StringWriteKeepsActivation(ds: Settings, key: string, v: string, o: Orientation, k: Key)
    requires key != KeyName(k)
    ensures var ds' := ds.(prefs := PutString(ds.prefs, key, v));
            && IsOrientationActive(ds', o) == IsOrientationActive(ds, o)
            && GetKeyScanCode(ds', k) == GetKeyScanCode(ds, k)
            && IsKeyActive(ds', k) == IsKeyActive(ds, k)
  {
    var ds' := ds.(prefs := PutString(ds.prefs, key, v));
    assert ds'.prefs.booleans == ds.prefs.booleans;
    assert GetString(ds'.prefs, KeyName(k), DefaultScanCode(ds.profile, k)) ==
           GetString(ds.prefs, KeyName(k), DefaultScanCode(ds.profile, k));
  }

  /** Out of the box (nothing stored) both press slots of the source's
      profiles resolve to no action. */
  lemma DefaultPressSlotsNoAction(ds: Settings, o: Orientation, k: Key, s: Slot)
    requires ds.res.Valid() && ds.res.DistinctValues() && !ds.profile.PTTProfile?
    requires s == ShortPress || s == LongPress
    requires OrientationKeyActionString(o, k, s) !in ds.prefs.strings
    ensures GetOrientationKeyActionGlobal(ds, o, k, s) == 0
  {
    GlobalForToken(ds.res.actionValues, 0);
  }

  /** A stored value that is not one of the tokens resolves to no action,
      while its display entry, and so the summary, cannot be found. */
  lemma UnlistedValue(ds: Settings, o: Orientation, k: Key, s: Slot)
    requires ds.res.Valid()
    requires GetOrientationKeyActionValue(ds, o, k, s) !in ds.res.actionValues
    ensures GetOrientationKeyActionGlobal(ds, o, k, s) == 0
    ensures GetOrientationKeyActionEntry(ds, o, k, s).None?
    ensures (s == ShortPress || s == LongPress) ==> GetOrientationKeySummary(ds, o, k).None?
  {
  }

  /** With distinct tokens, the entry shown for the token at position i is
      the i-th entry. */
  lemma EntryOfToken(ds: Settings, o: Orientation, k: Key, s: Slot, i: nat)
    requires ds.res.Valid() && ds.res.DistinctValues()
    requires i < |ds.res.actionValues| && i < |ds.res.actionEntries|
    requires GetOrientationKeyActionValue(ds, o, k, s) == ds.res.actionValues[i]
    ensures GetOrientationKeyActionEntry(ds, o, k, s) == Some(ds.res.actionEntries[i])
  {
    IndexOfDistinct(ds.res.actionValues, i);
  }

  /** In a list without repeats, a value's index is its position. */
  lemma {:induction false} IndexOfDistinct(values: seq<string>, i: nat)
    requires i < |values|
    requires forall a, b :: 0 <= a < b < |values| ==> values[a] != values[b]
    ensures IndexOf(values, values[i]) == i
  {
    if i > 0 {
      assert values[0] != values[i];
      assert values[1..][i - 1] == values[i];
      IndexOfDistinct(values[1..], i - 1);
    }
  }
}
