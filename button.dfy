/** The `app-button` widget (src/button.js): a button that re-emits each click as one
    `click-app-button` event, and whose `inprogress` property, carried by the presence of an
    attribute, swaps its content for a loading label and disables it. */
module AppButton {
  import opened Dom

  const ObservedAttributes: set<string> := {"inprogress"}

  /** The label shown while a submission is in progress. */
  const LoadingLabel := "Loading..."

  /** The outward activation event; it carries no payload. */
  datatype ButtonEvent = ClickAppButton

  /** Everything observable about one element. `content` is the element's own inner HTML (the
      text of its default slot); `disabled` and `fading` belong to the inner <button>, which
      exists once `attached` holds. `initialValue` is the content cached at attachment,
      undefined before. */
  datatype ButtonView = ButtonView(
    attrs: map<string, string>,
    content: string,
    attached: bool,
    initialValue: Option<string>,
    disabled: bool,
    fading: bool,
    listeners: nat)

  function Created(content: string, markup: map<string, string>): ButtonView {
    ButtonView(markup, content, false, None, false, false, 0)
  }

  /** The `inprogress` getter: true iff the attribute is present and not empty. */
  predicate InProgressOf(v: ButtonView) {
    Truthy(GetAttribute(v.attrs, "inprogress"))
  }

  /** What `innerHTML = this.initialValue` stores: the cached content, or the text
      "undefined" when nothing was cached yet. */
  function Restored(v: ButtonView): string {
    if v.initialValue.Some? then v.initialValue.value else "undefined"
  }

  /** attributeChangedCallback: a truthy new value shows the loading label, disables the
      button and starts the fading animation; a falsy or missing one restores the cached
      content, re-enables it and stops the animation. Before attachment `this.button` is
      undefined: the content is still written, then the TypeError stops the rest. */
  function AttributeChanged(v: ButtonView, newValue: Option<string>): (r: ButtonView)
    ensures Truthy(newValue) ==> r.content == LoadingLabel
    ensures !Truthy(newValue) ==> r.content == Restored(v)
    ensures v.attached ==> r.disabled == Truthy(newValue) && r.fading == Truthy(newValue)
    ensures !v.attached ==> r.disabled == v.disabled && r.fading == v.fading
    ensures r.(content := v.content, disabled := v.disabled, fading := v.fading) == v
  {
    var shown := v.(content := if Truthy(newValue) then LoadingLabel else Restored(v));
    if v.attached then shown.(disabled := Truthy(newValue), fading := Truthy(newValue)) else shown
  }

  function WithAttribute(v: ButtonView, name: string, value: string): (r: ButtonView)
    ensures r.attrs == v.attrs[name := value]
    ensures name != "inprogress" ==> r == v.(attrs := v.attrs[name := value])
    ensures name == "inprogress" ==> r.content == (if value != "" then LoadingLabel else Restored(v))
    ensures name == "inprogress" && v.attached ==> r.disabled == (value != "") && r.fading == (value != "")
    ensures !v.attached ==> r.disabled == v.disabled && r.fading == v.fading
    ensures r.attached == v.attached && r.initialValue == v.initialValue && r.listeners == v.listeners
  {
    var w := v.(attrs := v.attrs[name := value]);
    if name in ObservedAttributes then AttributeChanged(w, Some(value)) else w
  }

  function WithoutAttribute(v: ButtonView, name: string): (r: ButtonView)
    ensures name !in v.attrs ==> r == v
    ensures name in v.attrs ==> r.attrs == v.attrs - {name}
    ensures name != "inprogress" ==> r == v.(attrs := v.attrs - {name})
    ensures name == "inprogress" && name in v.attrs ==> r.content == Restored(v)
    ensures name == "inprogress" && name in v.attrs && v.attached ==> !r.disabled && !r.fading
    ensures !v.attached ==> r.disabled == v.disabled && r.fading == v.fading
    ensures r.attached == v.attached && r.initialValue == v.initialValue && r.listeners == v.listeners
  {
    if name !in v.attrs then v
    else
      var w := v.(attrs := v.attrs - {name});
      if name in ObservedAttributes then AttributeChanged(w, None) else w
  }

  /** The `inprogress` setter: true stores the attribute "true", false removes it (which
      does nothing, callback included, when it is already absent). */
  function WithInProgress(v: ButtonView, progress: bool): (r: ButtonView)
    ensures progress ==> r.attrs == v.attrs["inprogress" := "true"]
    ensures !progress ==> r.attrs == v.attrs - {"inprogress"}
    ensures InProgressOf(r) == progress
    ensures progress ==> r.content == LoadingLabel
    ensures progress && v.attached ==> r.disabled && r.fading
    ensures !progress && "inprogress" in v.attrs ==> r.content == Restored(v)
    ensures !progress && "inprogress" in v.attrs && v.attached ==> !r.disabled && !r.fading
    ensures !progress && "inprogress" !in v.attrs ==> r == v
    ensures !v.attached ==> r.disabled == v.disabled && r.fading == v.fading
    ensures r.attached == v.attached && r.initialValue == v.initialValue && r.listeners == v.listeners
  {
    if progress then WithAttribute(v, "inprogress", "true") else WithoutAttribute(v, "inprogress")
  }

  /** connectedCallback: cache the current content and register one more click listener. */
  function Connected(v: ButtonView): (r: ButtonView)
    ensures r.attached && r.initialValue == Some(v.content) && r.listeners == v.listeners + 1
    ensures r.(attached := v.attached, initialValue := v.initialValue, listeners := v.listeners) == v
  {
    v.(attached := true, initialValue := Some(v.content), listeners := v.listeners + 1)
  }

  /** The rendering agrees with the `inprogress` attribute: in progress, the loading label on
      a disabled, fading button; otherwise the cached content on an enabled, still one. */
  predicate Rendered(v: ButtonView) {
    && v.attached
    && v.initialValue.Some?
    && (InProgressOf(v) ==> v.content == LoadingLabel && v.disabled && v.fading)
    && (!InProgressOf(v) ==> v.content == v.initialValue.value && !v.disabled && !v.fading)
  }

  /** A button attached without an `inprogress` attribute is rendered idle, showing the
      content of its markup. */
  lemma ConnectRenders(content: string, markup: map<string, string>)
    requires "inprogress" !in markup
    ensures Rendered(Connected(Created(content, markup)))
    ensures !InProgressOf(Connected(Created(content, markup)))
    ensures Connected(Created(content, markup)).content == content
  {
  }

  /** Setting `inprogress` twice to the same value leaves the same state as setting it once. */
  lemma InProgressIdempotent(v: ButtonView, progress: bool)
    ensures WithInProgress(WithInProgress(v, progress), progress) == WithInProgress(v, progress)
  {
  }

  datatype AttributeOp =
    | SetAttr(name: string, value: string)
    | RemoveAttr(name: string)
    | SetInProgress(progress: bool)

  function Apply(v: ButtonView, op: AttributeOp): ButtonView {
    match op
    case SetAttr(n, x) => WithAttribute(v, n, x)
    case RemoveAttr(n) => WithoutAttribute(v, n)
    case SetInProgress(p) => WithInProgress(v, p)
  }

  function ApplyAll(v: ButtonView, ops: seq<AttributeOp>): ButtonView
    decreases |ops|
  {
    if ops == [] then v else ApplyAll(Apply(v, ops[0]), ops[1..])
  }

  /** Once rendered, the button stays rendered whatever is written to its attributes: the
      callback always re-derives the content from the new attribute value. */
  lemma {:induction false} RenderedKept(v: ButtonView, ops: seq<AttributeOp>)
    requires Rendered(v)
    ensures Rendered(ApplyAll(v, ops))
    ensures ApplyAll(v, ops).initialValue == v.initialValue
    decreases |ops|
  {
    if ops != [] {
      var w := Apply(v, ops[0]);
      assert Rendered(w) && w.initialValue == v.initialValue by {
        match ops[0]
        case SetAttr(n, x) =>
        case RemoveAttr(n) =>
        case SetInProgress(p) =>
      }
      RenderedKept(w, ops[1..]);
    }
  }

  class Button {
    var attrs: map<string, string>
    var content: string
    var attached: bool
    var initialValue: Option<string>
    var disabled: bool
    var fading: bool
    var listeners: nat

    function View(): ButtonView
      reads this
    {
      ButtonView(attrs, content, attached, initialValue, disabled, fading, listeners)
    }

    constructor (slotContent: string, markup: map<string, string>)
      ensures View() == Created(slotContent, markup)
    {
      attrs, content, attached, initialValue := markup, slotContent, false, None;
      disabled, fading, listeners := false, false, 0;
    }

    method ConnectedCallback()
      modifies this
      ensures View() == Connected(old(View()))
    {
      initialValue := Some(content);
      listeners := listeners + 1;
      attached := true;
    }

    /** A click on the inner button: each registered listener dispatches one payload-free
        `click-app-button` event. A disabled button receives no click. */
    method OnClick() returns (events: seq<ButtonEvent>)
      requires attached && !disabled
      ensures events == Dispatched(ClickAppButton, listeners)
      ensures listeners == 1 ==> events == [ClickAppButton]
    {
      events := Dispatched(ClickAppButton, listeners);
    }

    method AttributeChangedCallback(newValue: Option<string>)
      modifies this
      ensures View() == AttributeChanged(old(View()), newValue)
    {
      if Truthy(newValue) {
        content := LoadingLabel;
        if attached {
          disabled := true;
          fading := true;
        }
      } else {
        content := if initialValue.Some? then initialValue.value else "undefined";
        if attached {
          disabled := false;
          fading := false;
        }
      }
    }

    method SetAttribute(name: string, value: string)
      modifies this
      ensures View() == WithAttribute(old(View()), name, value)
    {
      attrs := attrs[name := value];
      if name in ObservedAttributes {
        AttributeChangedCallback(Some(value));
      }
    }

    method RemoveAttribute(name: string)
      modifies this
      ensures View() == WithoutAttribute(old(View()), name)
    {
      if name in attrs {
        attrs := attrs - {name};
        if name in ObservedAttributes {
          AttributeChangedCallback(None);
        }
      }
    }

    method SetInProgress(progress: bool)
      modifies this
      ensures View() == WithInProgress(old(View()), progress)
    {
      if progress {
        SetAttribute("inprogress", "true");
      } else {
        RemoveAttribute("inprogress");
      }
    }

    function InProgress(): (p: bool)
      reads this
      ensures p == InProgressOf(View())
    {
      Truthy(GetAttribute(attrs, "inprogress"))
    }
  }
}
