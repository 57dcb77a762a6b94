/** The shared-preferences store the settings are read from, as a value:
    booleans and strings under string keys. `getBoolean`/`getString` with a
    caller-supplied default, and the writes a settings screen performs. */
module Preferences {

  datatype Store = Store(booleans: map<string, bool>, strings: map<string, string>)

  function GetBoolean(p: Store, key: string, default: bool): bool {
    if key in p.booleans then p.booleans[key] else default
  }

  function GetString(p: Store, key: string, default: string): string {
    if key in p.strings then p.strings[key] else default
  }

  function PutBoolean(p: Store, key: string, value: bool): Store {
    p.(booleans := p.booleans[key := value])
  }

  function PutString(p: Store, key: string, value: string): Store {
    p.(strings := p.strings[key := value])
  }

  const EmptyStore: Store := Store(map[], map[])
}
