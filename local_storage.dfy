/** The browser's `localStorage`, reduced to what the pages do with it: one
    string per key, written, read and removed. */
module LocalStorage {
  import opened Wrappers
  import opened JsText

  class Storage {
    var items: map<JsString, JsString>

    constructor(initial: map<JsString, JsString>)
      ensures items == initial
    {
      items := initial;
    }

    /** `getItem`: `null` for a missing key. */
    function GetItem(key: JsString): (r: Option<JsString>)
      reads this
      ensures r.Some? <==> key in items
      ensures r.Some? ==> r.value == items[key]
    {
      if key in items then Some(items[key]) else None
    }

    /** `setItem`: the key now holds `value`, the other keys are untouched. */
    method SetItem(key: JsString, value: JsString)
      modifies this
      ensures items == old(items)[key := value]
    {
      items := items[key := value];
    }

    /** `removeItem`. */
    method RemoveItem(key: JsString)
      modifies this
      ensures items == old(items) - {key}
    {
      items := items - {key};
    }
  }
}
