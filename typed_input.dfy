/** The `app-input` widget of the TypeScript registration form (src/input.ts, and its compiled
    twin input.js, which behaves identically): a labelled text field whose `help` and
    `validation` properties are guarded accessors over attributes, and whose only observed
    attribute, `help`, is mirrored into the help span once the element is attached. */
module TypedInput {
  import opened Dom

  /** The attributes whose changes the platform reports to the element. */
  const ObservedAttributes: set<string> := {"help"}

  /** Everything observable about one element. `label`, `span` and `inputType` describe the
      shadow content, which only exists once `attached` holds; before that they are "". */
  datatype InputView = InputView(
    attrs: map<string, string>,  // the element's own attributes
    attached: bool,              // connectedCallback has run
    labelText: string,           // text of the <label>
    span: string,                // text of the help <span>
    inputType: string,           // `type` of the inner <input>
    value: string,               // current value of the inner <input>
    listeners: nat)              // `input` listeners registered on the inner <input>

  /** A freshly constructed element carrying the attributes written in its markup. */
  function Created(markup: map<string, string>): InputView {
    InputView(markup, false, "", "", "", "", 0)
  }

  function HelpOf(v: InputView): Option<string> {
    GetAttribute(v.attrs, "help")
  }

  function ValidationOf(v: InputView): Option<string> {
    GetAttribute(v.attrs, "validation")
  }

  /** attributeChangedCallback: a `help` change rewrites the span text, `null` becoming "".
      Before attachment `this.span` is undefined; the TypeError is reported by the host
      and nothing changes. */
  function AttributeChanged(v: InputView, name: string, newValue: Option<string>): (r: InputView)
    ensures name == "help" && v.attached ==> r.span == (if newValue.Some? then newValue.value else "")
    ensures name != "help" || !v.attached ==> r == v
    ensures r.(span := v.span) == v
  {
    if name == "help" && v.attached then v.(span := Coalesce(newValue, "")) else v
  }

  /** setAttribute: store the value, then run the callback when the name is observed. */
  function WithAttribute(v: InputView, name: string, value: string): (r: InputView)
    ensures r.attrs == v.attrs[name := value]
    ensures GetAttribute(r.attrs, name) == Some(value)
    ensures name == "help" && v.attached ==> r.span == value
    ensures name != "help" || !v.attached ==> r.span == v.span
    ensures r.(attrs := v.attrs, span := v.span) == v
  {
    var w := v.(attrs := v.attrs[name := value]);
    if name in ObservedAttributes then AttributeChanged(w, name, Some(value)) else w
  }

  /** removeAttribute: nothing happens for an absent attribute; otherwise drop it and run the
      callback with `null` when the name is observed. */
  function WithoutAttribute(v: InputView, name: string): (r: InputView)
    ensures name !in v.attrs ==> r == v
    ensures name in v.attrs ==> r.attrs == v.attrs - {name} && GetAttribute(r.attrs, name) == None
    ensures name in v.attrs && name == "help" && v.attached ==> r.span == ""
    ensures name !in v.attrs || name != "help" || !v.attached ==> r.span == v.span
    ensures r.(attrs := v.attrs, span := v.span) == v
  {
    if name !in v.attrs then v
    else
      var w := v.(attrs := v.attrs - {name});
      if name in ObservedAttributes then AttributeChanged(w, name, None) else w
  }

  /** The `help` setter: a falsy value (null or "") is ignored; any other value is stored
      exactly, which refreshes the span of an attached element. */
  function WithHelp(v: InputView, help: Option<string>): (r: InputView)
    ensures !Truthy(help) ==> r == v
    ensures Truthy(help) ==> HelpOf(r) == help && r.attrs == v.attrs["help" := help.value]
    ensures Truthy(help) && v.attached ==> r.span == help.value
    ensures !v.attached ==> r.span == v.span
    ensures ValidationOf(r) == ValidationOf(v)
    ensures r.(attrs := v.attrs, span := v.span) == v
  {
    if Truthy(help) then WithAttribute(v, "help", help.value) else v
  }

  /** The `validation` setter: a falsy value is ignored; any other value is stored exactly.
      `validation` is not observed, so the span never changes. */
  function WithValidation(v: InputView, validation: Option<string>): (r: InputView)
    ensures !Truthy(validation) ==> r == v
    ensures Truthy(validation) ==> ValidationOf(r) == validation
    ensures Truthy(validation) ==> r.attrs == v.attrs["validation" := validation.value]
    ensures HelpOf(r) == HelpOf(v)
    ensures r.span == v.span
    ensures r.(attrs := v.attrs) == v
  {
    if Truthy(validation) then WithAttribute(v, "validation", validation.value) else v
  }

  /** connectedCallback: label, help span and field type take their attribute or a default
      ("", "", "text"), and one more `input` listener is registered. */
  function Connected(v: InputView): (r: InputView)
    ensures r.attached && r.listeners == v.listeners + 1
    ensures r.labelText == (if "label" in v.attrs then v.attrs["label"] else "")
    ensures r.span == (if "help" in v.attrs then v.attrs["help"] else "")
    ensures r.inputType == (if "type" in v.attrs then v.attrs["type"] else "text")
    ensures r.attrs == v.attrs && r.value == v.value
  {
    v.(attached := true,
       labelText := Coalesce(GetAttribute(v.attrs, "label"), ""),
       span := Coalesce(GetAttribute(v.attrs, "help"), ""),
       inputType := Coalesce(GetAttribute(v.attrs, "type"), "text"),
       listeners := v.listeners + 1)
  }

  /** An attached element whose help span shows its `help` attribute (or "" without one). */
  predicate SpanShowsHelp(v: InputView) {
    v.attached && v.span == Coalesce(HelpOf(v), "")
  }

  /** A write to the element's attribute table, from the host or from a property setter. */
  datatype AttributeOp =
    | SetAttr(name: string, value: string)
    | RemoveAttr(name: string)
    | SetHelp(help: Option<string>)
    | SetValidation(validation: Option<string>)

  function Apply(v: InputView, op: AttributeOp): InputView {
    match op
    case SetAttr(n, x) => WithAttribute(v, n, x)
    case RemoveAttr(n) => WithoutAttribute(v, n)
    case SetHelp(h) => WithHelp(v, h)
    case SetValidation(x) => WithValidation(v, x)
  }

  function ApplyAll(v: InputView, ops: seq<AttributeOp>): InputView
    decreases |ops|
  {
    if ops == [] then v else ApplyAll(Apply(v, ops[0]), ops[1..])
  }

  /** Attachment makes the span show `help`. */
  lemma ConnectShowsHelp(v: InputView)
    ensures SpanShowsHelp(Connected(v))
  {
  }

  /** After attachment, whatever attributes are written or removed, the span keeps showing the
      current `help` attribute: a help change refreshes it, and nothing else touches it. */
  lemma {:induction false} SpanTracksHelp(v: InputView, ops: seq<AttributeOp>)
    requires SpanShowsHelp(v)
    ensures SpanShowsHelp(ApplyAll(v, ops))
    decreases |ops|
  {
    if ops != [] {
      var w := Apply(v, ops[0]);
      assert SpanShowsHelp(w) by {
        match ops[0]
        case SetAttr(n, x) =>
        case RemoveAttr(n) =>
        case SetHelp(h) =>
        case SetValidation(x) =>
      }
      SpanTracksHelp(w, ops[1..]);
    }
  }

  /** Applies the `help` setter to each value of `writes` in turn. */
  function HelpWrites(v: InputView, writes: seq<Option<string>>): InputView
    decreases |writes|
  {
    if writes == [] then v else WithHelp(HelpWrites(v, writes[..|writes| - 1]), writes[|writes| - 1])
  }

  /** No write after position `k` is truthy. */
  predicate EmptyAfter(writes: seq<Option<string>>, k: int) {
    forall j :: 0 <= j < |writes| && k < j ==> !Truthy(writes[j])
  }

  /** The `help` getter returns the last non-empty value written through the setter, or the
      value it had before the writes (null for an element without one) when none was. */
  lemma {:induction false} HelpIsLastNonEmptyWrite(v: InputView, writes: seq<Option<string>>)
    ensures EmptyAfter(writes, -1) ==> HelpOf(HelpWrites(v, writes)) == HelpOf(v)
    ensures forall k :: 0 <= k < |writes| && Truthy(writes[k]) && EmptyAfter(writes, k) ==>
              HelpOf(HelpWrites(v, writes)) == writes[k]
    decreases |writes|
  {
    if writes != [] {
      var n := |writes| - 1;
      var init := writes[..n];
      var before := HelpWrites(v, init);
      HelpIsLastNonEmptyWrite(v, init);
      assert HelpWrites(v, writes) == WithHelp(before, writes[n]);
      if !Truthy(writes[n]) {
        assert HelpOf(HelpWrites(v, writes)) == HelpOf(before);
        forall k | 0 <= k < |writes| && Truthy(writes[k]) && EmptyAfter(writes, k)
          ensures HelpOf(HelpWrites(v, writes)) == writes[k]
        {
          assert k < n && init[k] == writes[k];
          assert EmptyAfter(init, k);
        }
        if EmptyAfter(writes, -1) {
          assert EmptyAfter(init, -1);
        }
      } else {
        forall k | 0 <= k < |writes| && Truthy(writes[k]) && EmptyAfter(writes, k)
          ensures k == n
        {
        }
      }
    }
  }

  /** Applies the `validation` setter to each value of `writes` in turn. */
  function ValidationWrites(v: InputView, writes: seq<Option<string>>): InputView
    decreases |writes|
  {
    if writes == [] then v else WithValidation(ValidationWrites(v, writes[..|writes| - 1]), writes[|writes| - 1])
  }

  /** The `validation` getter returns the last non-empty value written through its setter, or
      the value it had before the writes when none was. */
  lemma {:induction false} ValidationIsLastNonEmptyWrite(v: InputView, writes: seq<Option<string>>)
    ensures EmptyAfter(writes, -1) ==> ValidationOf(ValidationWrites(v, writes)) == ValidationOf(v)
    ensures forall k :: 0 <= k < |writes| && Truthy(writes[k]) && EmptyAfter(writes, k) ==>
              ValidationOf(ValidationWrites(v, writes)) == writes[k]
    decreases |writes|
  {
    if writes != [] {
      var n := |writes| - 1;
      var init := writes[..n];
      var before := ValidationWrites(v, init);
      ValidationIsLastNonEmptyWrite(v, init);
      assert ValidationWrites(v, writes) == WithValidation(before, writes[n]);
      if !Truthy(writes[n]) {
        assert ValidationOf(ValidationWrites(v, writes)) == ValidationOf(before);
        forall k | 0 <= k < |writes| && Truthy(writes[k]) && EmptyAfter(writes, k)
          ensures ValidationOf(ValidationWrites(v, writes)) == writes[k]
        {
          assert k < n && init[k] == writes[k];
          assert EmptyAfter(init, k);
        }
        if EmptyAfter(writes, -1) {
          assert EmptyAfter(init, -1);
        }
      } else {
        forall k | 0 <= k < |writes| && Truthy(writes[k]) && EmptyAfter(writes, k)
          ensures k == n
        {
        }
      }
    }
  }

  /** The same shape of class as the element: `View()` is the value it stands for. */
  class Input {
    var attrs: map<string, string>
    var attached: bool
    var labelText: string
    var span: string
    var inputType: string
    var value: string
    var listeners: nat

    function View(): InputView
      reads this
    {
      InputView(attrs, attached, labelText, span, inputType, value, listeners)
    }

    constructor (markup: map<string, string>)
      ensures View() == Created(markup)
    {
      attrs, attached := markup, false;
      labelText, span, inputType, value := "", "", "", "";
      listeners := 0;
    }

    method AttributeChangedCallback(name: string, newValue: Option<string>)
      modifies this
      ensures View() == AttributeChanged(old(View()), name, newValue)
    {
      if name == "help" && attached {
        span := Coalesce(newValue, "");
      }
    }

    method SetAttribute(name: string, value: string)
      modifies this
      ensures View() == WithAttribute(old(View()), name, value)
    {
      attrs := attrs[name := value];
      if name in ObservedAttributes {
        AttributeChangedCallback(name, Some(value));
      }
    }

    method RemoveAttribute(name: string)
      modifies this
      ensures View() == WithoutAttribute(old(View()), name)
    {
      if name in attrs {
        attrs := attrs - {name};
        if name in ObservedAttributes {
          AttributeChangedCallback(name, None);
        }
      }
    }

    function Help(): (h: Option<string>)
      reads this
      ensures h == HelpOf(View())
    {
      GetAttribute(attrs, "help")
    }

    method SetHelp(help: Option<string>)
      modifies this
      ensures View() == WithHelp(old(View()), help)
    {
      if Truthy(help) {
        SetAttribute("help", help.value);
      }
    }

    function Validation(): (x: Option<string>)
      reads this
      ensures x == ValidationOf(View())
    {
      GetAttribute(attrs, "validation")
    }

    method SetValidation(validation: Option<string>)
      modifies this
      ensures View() == WithValidation(old(View()), validation)
    {
      if Truthy(validation) {
        SetAttribute("validation", validation.value);
      }
    }

    method ConnectedCallback()
      modifies this
      ensures View() == Connected(old(View()))
    {
      labelText := Coalesce(GetAttribute(attrs, "label"), "");
      span := Coalesce(GetAttribute(attrs, "help"), "");
      inputType := Coalesce(GetAttribute(attrs, "type"), "text");
      listeners := listeners + 1;
      attached := true;
    }

    /** The user changes the field to `text`: every registered listener re-emits one
        `app-input` event carrying the field's current value. */
    method OnInput(text: string) returns (events: seq<InputEvent>)
      requires attached
      modifies this
      ensures View() == old(View()).(value := text)
      ensures events == Dispatched(AppInput(text), listeners)
      ensures listeners == 1 ==> events == [AppInput(text)]
    {
      value := text;
      events := Dispatched(AppInput(value), listeners);
    }
  }
}
