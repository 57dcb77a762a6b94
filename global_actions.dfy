/** Action identifiers: the platform's global actions (the values of the
    `GLOBAL_ACTION_*` constants of Android's AccessibilityService) and the
    service's own local action. */
module GlobalActions {
  const GLOBAL_ACTION_BACK: int := 1
  const GLOBAL_ACTION_HOME: int := 2
  const GLOBAL_ACTION_RECENTS: int := 3
  const GLOBAL_ACTION_NOTIFICATIONS: int := 4
  const GLOBAL_ACTION_QUICK_SETTINGS: int := 5
  const GLOBAL_ACTION_POWER_DIALOG: int := 6
  const GLOBAL_ACTION_TOGGLE_SPLIT_SCREEN: int := 7
  const GLOBAL_ACTION_LOCK_SCREEN: int := 8
  const GLOBAL_ACTION_TAKE_SCREENSHOT: int := 9

  const LOCAL_ACTION_MIN: int := 1000
  const LOCAL_ACTION_TOGGLE_FLASH_LIGHT: int := 1000
  const LOCAL_ACTION_MAX: int := 1000
}
