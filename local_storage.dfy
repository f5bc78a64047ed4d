/** The browser's `localStorage`, reduced to a string-to-string map, and the three keys
    the site uses. */
module LocalStorage {
  import opened Wrappers

  const SheetKey := "gta_roof_guard_sheet"
  const WebhookKey := "gta_roof_guard_webhook"
  const StrategyKey := "gta_roof_guard_strategy"

  class LocalStore {
    var items: map<string, string>

    constructor (initial: map<string, string>)
      ensures items == initial
    {
      items := initial;
    }

    /** `localStorage.getItem(key)`: `null` (here `None`) when the key was never set. */
    function GetItem(key: string): (v: Option<string>)
      reads this
      ensures v.Some? <==> key in items
      ensures v.Some? ==> v.value == items[key]
    {
      if key in items then Some(items[key]) else None
    }

    /** `localStorage.setItem(key, value)`: last write wins. */
    method SetItem(key: string, value: string)
      modifies this
      ensures items == old(items)[key := value]
    {
      items := items[key := value];
    }
  }
}
