/** The `app-input` widget of the older JavaScript registration form (src/input.js). Its setters
    store whatever they are given, and its change callback is spelled `attributeChagedCallback`,
    a name the platform never calls: once attached, the help span keeps the text it got at
    attachment, whatever happens to the `help` attribute afterwards. */
module LegacyInput {
  import opened Dom

  /** Everything observable about one element; the shadow content (`labelText`, `span`,
      `inputType`) exists only once `attached` holds. `inputType` is the raw value assigned to
      the inner field's `type`, `null` when the attribute is absent. */
  datatype LegacyView = LegacyView(
    attrs: map<string, string>,
    attached: bool,
    labelText: string,
    span: string,
    inputType: Option<string>,
    value: string,
    listeners: nat)

  function Created(markup: map<string, string>): LegacyView {
    LegacyView(markup, false, "", "", None, "", 0)
  }

  function HelpOf(v: LegacyView): Option<string> {
    GetAttribute(v.attrs, "help")
  }

  function ValidationOf(v: LegacyView): Option<string> {
    GetAttribute(v.attrs, "validation")
  }

  /** setAttribute: the value is stored and, no callback being registered, nothing else runs. */
  function WithAttribute(v: LegacyView, name: string, value: string): (r: LegacyView)
    ensures GetAttribute(r.attrs, name) == Some(value)
    ensures forall n :: n != name ==> GetAttribute(r.attrs, n) == GetAttribute(v.attrs, n)
    ensures r.span == v.span && r.(attrs := v.attrs) == v
  {
    v.(attrs := v.attrs[name := value])
  }

  function WithoutAttribute(v: LegacyView, name: string): (r: LegacyView)
    ensures GetAttribute(r.attrs, name) == None
    ensures forall n :: n != name ==> GetAttribute(r.attrs, n) == GetAttribute(v.attrs, n)
    ensures r.span == v.span && r.(attrs := v.attrs) == v
  {
    v.(attrs := v.attrs - {name})
  }

  /** The `help` setter has no guard: "" is stored as "", and `null` as "null", the text
      `setAttribute` makes of it. */
  function WithHelp(v: LegacyView, help: Option<string>): (r: LegacyView)
    ensures help.Some? ==> HelpOf(r) == help
    ensures help.None? ==> HelpOf(r) == Some("null")
    ensures forall n :: n != "help" ==> GetAttribute(r.attrs, n) == GetAttribute(v.attrs, n)
    ensures r.(attrs := v.attrs) == v
  {
    WithAttribute(v, "help", Coalesce(help, "null"))
  }

  /** The `validation` setter, equally unguarded. */
  function WithValidation(v: LegacyView, validation: Option<string>): (r: LegacyView)
    ensures validation.Some? ==> ValidationOf(r) == validation
    ensures validation.None? ==> ValidationOf(r) == Some("null")
    ensures forall n :: n != "validation" ==> GetAttribute(r.attrs, n) == GetAttribute(v.attrs, n)
    ensures r.(attrs := v.attrs) == v
  {
    WithAttribute(v, "validation", Coalesce(validation, "null"))
  }

  /** connectedCallback: label and span text come from their attributes, empty when absent
      since `textContent = null` leaves a node empty; the field type is the raw `type`
      attribute, and one more `input` listener is registered. This is the only place the span
      text is ever assigned. */
  function Connected(v: LegacyView): (r: LegacyView)
    ensures r.attached && r.listeners == v.listeners + 1
    ensures r.labelText == (if "label" in v.attrs then v.attrs["label"] else "")
    ensures r.span == (if "help" in v.attrs then v.attrs["help"] else "")
    ensures r.inputType == GetAttribute(v.attrs, "type")
    ensures r.attrs == v.attrs && r.value == v.value
  {
    v.(attached := true,
       labelText := Coalesce(GetAttribute(v.attrs, "label"), ""),
       span := Coalesce(GetAttribute(v.attrs, "help"), ""),
       inputType := GetAttribute(v.attrs, "type"),
       listeners := v.listeners + 1)
  }

  datatype AttributeOp =
    | SetAttr(name: string, value: string)
    | RemoveAttr(name: string)
    | SetHelp(help: Option<string>)
    | SetValidation(validation: Option<string>)

  function Apply(v: LegacyView, op: AttributeOp): LegacyView {
    match op
    case SetAttr(n, x) => WithAttribute(v, n, x)
    case RemoveAttr(n) => WithoutAttribute(v, n)
    case SetHelp(h) => WithHelp(v, h)
    case SetValidation(x) => WithValidation(v, x)
  }

  function ApplyAll(v: LegacyView, ops: seq<AttributeOp>): LegacyView
    decreases |ops|
  {
    if ops == [] then v else ApplyAll(Apply(v, ops[0]), ops[1..])
  }

  /** No attribute write or removal, through the setters or directly, ever changes the span
      text: it stays what it was (after attachment, the text assigned at attachment). */
  lemma {:induction false} SpanFrozen(v: LegacyView, ops: seq<AttributeOp>)
    ensures ApplyAll(v, ops).span == v.span
    ensures ApplyAll(v, ops).attached == v.attached
    decreases |ops|
  {
    if ops != [] {
      var w := Apply(v, ops[0]);
      assert w.span == v.span && w.attached == v.attached by {
        match ops[0]
        case SetAttr(n, x) =>
        case RemoveAttr(n) =>
        case SetHelp(h) =>
        case SetValidation(x) =>
      }
      SpanFrozen(w, ops[1..]);
    }
  }

  /** An element attached without a `help` attribute, then given help "Password Mismatch",
      reports that help through its getter while its span still reads "". */
  lemma StaleHelpSpan()
    ensures var v := WithHelp(Connected(Created(map["label" := "Password Repeat"])), Some("Password Mismatch"));
            HelpOf(v) == Some("Password Mismatch") && v.span == ""
  {
  }

  class Input {
    var attrs: map<string, string>
    var attached: bool
    var labelText: string
    var span: string
    var inputType: Option<string>
    var value: string
    var listeners: nat

    function View(): LegacyView
      reads this
    {
      LegacyView(attrs, attached, labelText, span, inputType, value, listeners)
    }

    constructor (markup: map<string, string>)
      ensures View() == Created(markup)
    {
      attrs, attached := markup, false;
      labelText, span, inputType, value := "", "", None, "";
      listeners := 0;
    }

    method SetAttribute(name: string, value: string)
      modifies this
      ensures View() == WithAttribute(old(View()), name, value)
    {
      attrs := attrs[name := value];
    }

    method RemoveAttribute(name: string)
      modifies this
      ensures View() == WithoutAttribute(old(View()), name)
    {
      attrs := attrs - {name};
    }

    function Help(): (h: Option<string>)
      reads this
      ensures h == HelpOf(View())
    {
      GetAttribute(attrs, "help")
    }

    method SetHelp(help: Option<string>)
      modifies this
      ensures View() == WithHelp(old(View()), help)
    {
      SetAttribute("help", Coalesce(help, "null"));
    }

    function Validation(): (x: Option<string>)
      reads this
      ensures x == ValidationOf(View())
    {
      GetAttribute(attrs, "validation")
    }

    method SetValidation(validation: Option<string>)
      modifies this
      ensures View() == WithValidation(old(View()), validation)
    {
      SetAttribute("validation", Coalesce(validation, "null"));
    }

    method ConnectedCallback()
      modifies this
      ensures View() == Connected(old(View()))
    {
      labelText := Coalesce(GetAttribute(attrs, "label"), "");
      span := Coalesce(GetAttribute(attrs, "help"), "");
      inputType := GetAttribute(attrs, "type");
      listeners := listeners + 1;
      attached := true;
    }

    method OnInput(text: string) returns (events: seq<InputEvent>)
      requires attached
      modifies this
      ensures View() == old(View()).(value := text)
      ensures events == Dispatched(AppInput(text), listeners)
      ensures listeners == 1 ==> events == [AppInput(text)]
    {
      value := text;
      events := Dispatched(AppInput(value), listeners);
    }
  }
}
