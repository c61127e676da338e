/** Values of the host platform that the components read and write: strings that may be
    `null`, JavaScript truthiness, the attribute table of an element, and listener dispatch. */
module Dom {

  /** A value that may be JavaScript `null` (or `undefined`). */
  datatype Option<+T> = None | Some(value: T)

  /** JavaScript truthiness of a string-or-null: `null` and "" are falsy, every other string is truthy. */
  predicate Truthy(v: Option<string>) {
    v.Some? && v.value != ""
  }

  /** `element.getAttribute(name)`: the stored value, or `null` when the attribute is absent. */
  function GetAttribute(attrs: map<string, string>, name: string): Option<string> {
    if name in attrs then Some(attrs[name]) else None
  }

  /** The nullish-coalescing operator `v ?? fallback`: only `null` is replaced, "" is kept. */
  function Coalesce(v: Option<string>, fallback: string): (r: string)
    ensures v.Some? ==> r == v.value
    ensures v.None? ==> r == fallback
  {
    if v.Some? then v.value else fallback
  }

  /** The events that reach an ancestor when each of `listeners` registered handlers
      dispatches its own copy of `e`. */
  function Dispatched<E>(e: E, listeners: nat): (r: seq<E>)
    ensures |r| == listeners
    ensures forall k :: 0 <= k < |r| ==> r[k] == e
  {
    seq(listeners, _ => e)
  }

  /** The `app-input` event an input widget re-emits for every raw `input` event of its inner
      field, carrying the field's value. */
  datatype InputEvent = AppInput(detail: string)
}
