/** The `app-form` orchestrator (src/registragion-form.ts): it owns the four form fields, reacts
    to the `app-input` events of its four inputs and to the button's activation event, and
    writes the inputs' `help`/`validation` and the button's `inprogress` properties. The
    delayed completion of a submission is a pending count consumed by an explicit step. */
module RegistrationForm {
  import opened Dom
  import TypedInput
  import AppButton

  /** The form's own record of what each field holds. */
  datatype State = State(username: string, email: string, password: string, passwordRepeat: string)

  const InitialState := State("", "", "", "")

  const MismatchHelp := "Password Mismatch"
  const MatchHelp := "Passwords are matching"
  const UsernameRejected := "Name must be unique"
  const EmailRejected := "Cannot be null"

  /** The label of the button in the form's markup. */
  const SubmitLabel := "登録"

  /** The form and its children as values; `pending` counts scheduled, not yet fired
      completions of the button's click handler. */
  datatype FormView = FormView(
    state: State,
    username: TypedInput.InputView,
    email: TypedInput.InputView,
    password: TypedInput.InputView,
    passwordRepeat: TypedInput.InputView,
    button: AppButton.ButtonView,
    pending: nat)

  /** The markup of the four inputs and the button, each created and attached once. */
  function InputMarkup(labelText: string, password: bool): map<string, string> {
    if password then map["slot" := "card-body", "label" := labelText, "type" := "password"]
    else map["slot" := "card-body", "label" := labelText]
  }

  const InitialView := FormView(
    InitialState,
    TypedInput.Connected(TypedInput.Created(InputMarkup("Username", false))),
    TypedInput.Connected(TypedInput.Created(InputMarkup("Email", false))),
    TypedInput.Connected(TypedInput.Created(InputMarkup("Password", true))),
    TypedInput.Connected(TypedInput.Created(InputMarkup("Password Repeat", true))),
    AppButton.Connected(AppButton.Created(SubmitLabel, map["slot" := "card-body"])),
    0)

  /** The shared match check: only the passwordRepeat input is written, `invalid` with
      "Password Mismatch" when the two recorded passwords differ, `valid` with "Passwords are
      matching" when they are equal. */
  function CheckPasswords(f: FormView): (r: FormView)
    ensures TypedInput.ValidationOf(r.passwordRepeat) ==
              Some(if f.state.password != f.state.passwordRepeat then "invalid" else "valid")
    ensures TypedInput.HelpOf(r.passwordRepeat) ==
              Some(if f.state.password != f.state.passwordRepeat then MismatchHelp else MatchHelp)
    ensures r == f.(passwordRepeat := r.passwordRepeat)
    ensures r.passwordRepeat == TypedInput.WithValidation(TypedInput.WithHelp(f.passwordRepeat,
              Some(if f.state.password != f.state.passwordRepeat then MismatchHelp else MatchHelp)),
              Some(if f.state.password != f.state.passwordRepeat then "invalid" else "valid"))
    ensures forall n :: n != "help" && n != "validation" ==>
              GetAttribute(r.passwordRepeat.attrs, n) == GetAttribute(f.passwordRepeat.attrs, n)
    ensures f.passwordRepeat.attached ==> r.passwordRepeat.span == TypedInput.HelpOf(r.passwordRepeat).value
    ensures r.passwordRepeat.(attrs := f.passwordRepeat.attrs, span := f.passwordRepeat.span) == f.passwordRepeat
  {
    var shown :=
      if f.state.password != f.state.passwordRepeat then
        TypedInput.WithValidation(TypedInput.WithHelp(f.passwordRepeat, Some(MismatchHelp)), Some("invalid"))
      else
        TypedInput.WithValidation(TypedInput.WithHelp(f.passwordRepeat, Some(MatchHelp)), Some("valid"));
    f.(passwordRepeat := shown)
  }

  /** A username change records the value and resets the username input's validation to
      "none", whatever the value, "" included; nothing else changes. */
  function UsernameInput(f: FormView, detail: string): (r: FormView)
    ensures r.state == f.state.(username := detail)
    ensures TypedInput.ValidationOf(r.username) == Some("none")
    ensures TypedInput.HelpOf(r.username) == TypedInput.HelpOf(f.username)
    ensures forall n :: n != "validation" ==> GetAttribute(r.username.attrs, n) == GetAttribute(f.username.attrs, n)
    ensures r.username.(attrs := f.username.attrs) == f.username
    ensures r.username == TypedInput.WithValidation(f.username, Some("none"))
    ensures r == f.(state := r.state, username := r.username)
  {
    f.(state := f.state.(username := detail),
       username := TypedInput.WithValidation(f.username, Some("none")))
  }

  /** An email change records the value and writes nothing to any input. */
  function EmailInput(f: FormView, detail: string): (r: FormView)
    ensures r.state == f.state.(email := detail)
    ensures r == f.(state := r.state)
  {
    f.(state := f.state.(email := detail))
  }

  /** A password change records the value and re-runs the match check. */
  function PasswordInput(f: FormView, detail: string): (r: FormView)
    ensures r.state == f.state.(password := detail)
    ensures TypedInput.ValidationOf(r.passwordRepeat) ==
              Some(if detail != f.state.passwordRepeat then "invalid" else "valid")
    ensures TypedInput.HelpOf(r.passwordRepeat) ==
              Some(if detail != f.state.passwordRepeat then MismatchHelp else MatchHelp)
    ensures r.passwordRepeat == CheckPasswords(f.(state := r.state)).passwordRepeat
    ensures forall n :: n != "help" && n != "validation" ==>
              GetAttribute(r.passwordRepeat.attrs, n) == GetAttribute(f.passwordRepeat.attrs, n)
    ensures r.passwordRepeat.(attrs := f.passwordRepeat.attrs, span := f.passwordRepeat.span) == f.passwordRepeat
    ensures r == f.(state := r.state, passwordRepeat := r.passwordRepeat)
  {
    CheckPasswords(f.(state := f.state.(password := detail)))
  }

  /** A passwordRepeat change records the value and re-runs the match check. */
  function PasswordRepeatInput(f: FormView, detail: string): (r: FormView)
    ensures r.state == f.state.(passwordRepeat := detail)
    ensures TypedInput.ValidationOf(r.passwordRepeat) ==
              Some(if f.state.password != detail then "invalid" else "valid")
    ensures TypedInput.HelpOf(r.passwordRepeat) ==
              Some(if f.state.password != detail then MismatchHelp else MatchHelp)
    ensures r.passwordRepeat == CheckPasswords(f.(state := r.state)).passwordRepeat
    ensures forall n :: n != "help" && n != "validation" ==>
              GetAttribute(r.passwordRepeat.attrs, n) == GetAttribute(f.passwordRepeat.attrs, n)
    ensures r.passwordRepeat.(attrs := f.passwordRepeat.attrs, span := f.passwordRepeat.span) == f.passwordRepeat
    ensures r == f.(state := r.state, passwordRepeat := r.passwordRepeat)
  {
    CheckPasswords(f.(state := f.state.(passwordRepeat := detail)))
  }

  /** A click sets the button in progress at once and schedules one more completion; it is
      not guarded, so a click while in progress schedules another. */
  function ButtonClick(f: FormView): (r: FormView)
    ensures AppButton.InProgressOf(r.button)
    ensures r.button == AppButton.WithInProgress(f.button, true)
    ensures r.button.attrs == f.button.attrs["inprogress" := "true"]
    ensures r.button.content == AppButton.LoadingLabel
    ensures f.button.attached ==> r.button.disabled && r.button.fading
    ensures r.button.initialValue == f.button.initialValue && r.button.attached == f.button.attached
    ensures r.button.listeners == f.button.listeners
    ensures r.pending == f.pending + 1
    ensures r == f.(button := r.button, pending := r.pending)
  {
    f.(button := AppButton.WithInProgress(f.button, true), pending := f.pending + 1)
  }

  /** A completion fires: the username and email inputs are marked invalid with fixed
      messages, and the button leaves the in-progress state. The fields are not read. */
  function Completion(f: FormView): (r: FormView)
    requires f.pending > 0
    ensures TypedInput.ValidationOf(r.username) == Some("invalid")
    ensures TypedInput.HelpOf(r.username) == Some(UsernameRejected)
    ensures TypedInput.ValidationOf(r.email) == Some("invalid")
    ensures TypedInput.HelpOf(r.email) == Some(EmailRejected)
    ensures r.username == TypedInput.WithHelp(TypedInput.WithValidation(f.username, Some("invalid")), Some(UsernameRejected))
    ensures r.email == TypedInput.WithHelp(TypedInput.WithValidation(f.email, Some("invalid")), Some(EmailRejected))
    ensures forall n :: n != "help" && n != "validation" ==>
              GetAttribute(r.username.attrs, n) == GetAttribute(f.username.attrs, n) &&
              GetAttribute(r.email.attrs, n) == GetAttribute(f.email.attrs, n)
    ensures r.username.(attrs := f.username.attrs, span := f.username.span) == f.username
    ensures r.email.(attrs := f.email.attrs, span := f.email.span) == f.email
    ensures f.username.attached ==> r.username.span == UsernameRejected
    ensures f.email.attached ==> r.email.span == EmailRejected
    ensures !AppButton.InProgressOf(r.button)
    ensures r.button == AppButton.WithInProgress(f.button, false)
    ensures r.button.attrs == f.button.attrs - {"inprogress"}
    ensures "inprogress" in f.button.attrs ==> r.button.content == AppButton.Restored(f.button)
    ensures "inprogress" in f.button.attrs && f.button.attached ==> !r.button.disabled && !r.button.fading
    ensures r.button.initialValue == f.button.initialValue && r.button.attached == f.button.attached
    ensures r.button.listeners == f.button.listeners
    ensures r.pending == f.pending - 1
    ensures r.state == f.state && r.password == f.password && r.passwordRepeat == f.passwordRepeat
  {
    f.(username := TypedInput.WithHelp(TypedInput.WithValidation(f.username, Some("invalid")), Some(UsernameRejected)),
       email := TypedInput.WithHelp(TypedInput.WithValidation(f.email, Some("invalid")), Some(EmailRejected)),
       button := AppButton.WithInProgress(f.button, false),
       pending := f.pending - 1)
  }

  /** Everything the form reacts to. */
  datatype FormEvent =
    | UsernameChanged(detail: string)
    | EmailChanged(detail: string)
    | PasswordChanged(detail: string)
    | PasswordRepeatChanged(detail: string)
    | Clicked
    | Completed

  /** One reaction; a completion can only fire while one is pending, so `Completed` with
      nothing pending is no event at all. */
  function Step(f: FormView, e: FormEvent): FormView {
    match e
    case UsernameChanged(d) => UsernameInput(f, d)
    case EmailChanged(d) => EmailInput(f, d)
    case PasswordChanged(d) => PasswordInput(f, d)
    case PasswordRepeatChanged(d) => PasswordRepeatInput(f, d)
    case Clicked => ButtonClick(f)
    case Completed => if f.pending > 0 then Completion(f) else f
  }

  function Run(f: FormView, events: seq<FormEvent>): FormView
    decreases |events|
  {
    if events == [] then f else Run(Step(f, events[0]), events[1..])
  }

  /** What holds of the form at every point of its life: every input's span shows its help,
      the button's rendering agrees with its `inprogress` attribute, and the button is in
      progress only while a completion is pending. */
  predicate Consistent(f: FormView) {
    && TypedInput.SpanShowsHelp(f.username)
    && TypedInput.SpanShowsHelp(f.email)
    && TypedInput.SpanShowsHelp(f.password)
    && TypedInput.SpanShowsHelp(f.passwordRepeat)
    && AppButton.Rendered(f.button)
    && f.button.initialValue == Some(SubmitLabel)
    && (AppButton.InProgressOf(f.button) ==> f.pending > 0)
  }

  /** The freshly attached form: all four fields are "", nothing is pending, and it is
      consistent. */
  lemma InitialConsistent()
    ensures InitialView.state.username == "" && InitialView.state.email == ""
    ensures InitialView.state.password == "" && InitialView.state.passwordRepeat == ""
    ensures InitialView.pending == 0 && !AppButton.InProgressOf(InitialView.button)
    ensures Consistent(InitialView)
  {
    AppButton.ConnectRenders(SubmitLabel, map["slot" := "card-body"]);
  }

  lemma StepConsistent(f: FormView, e: FormEvent)
    requires Consistent(f)
    ensures Consistent(Step(f, e))
  {
    match e
    case UsernameChanged(d) =>
    case EmailChanged(d) =>
    case PasswordChanged(d) =>
    case PasswordRepeatChanged(d) =>
    case Clicked =>
    case Completed =>
  }

  /** Consistency holds after any sequence of events. */
  lemma {:induction false} RunConsistent(f: FormView, events: seq<FormEvent>)
    requires Consistent(f)
    ensures Consistent(Run(f, events))
    decreases |events|
  {
    if events != [] {
      StepConsistent(f, events[0]);
      RunConsistent(Step(f, events[0]), events[1..]);
    }
  }

  /** The passwordRepeat input shows the outcome of comparing the two recorded passwords. */
  predicate PasswordsJudged(f: FormView) {
    && TypedInput.ValidationOf(f.passwordRepeat) ==
         Some(if f.state.password != f.state.passwordRepeat then "invalid" else "valid")
    && TypedInput.HelpOf(f.passwordRepeat) ==
         Some(if f.state.password != f.state.passwordRepeat then MismatchHelp else MatchHelp)
  }

  /** Once either password has been edited, the passwordRepeat input shows "valid" exactly
      when the two recorded passwords are equal, for the rest of the form's life: no other
      reaction writes that input or those two fields. */
  lemma {:induction false} PasswordsJudgedAfterEdit(f: FormView, events: seq<FormEvent>)
    requires PasswordsJudged(f) || (events != [] && (events[0].PasswordChanged? || events[0].PasswordRepeatChanged?))
    ensures PasswordsJudged(Run(f, events))
    decreases |events|
  {
    if events != [] {
      var g := Step(f, events[0]);
      assert PasswordsJudged(g) by {
        match events[0]
        case UsernameChanged(d) =>
        case EmailChanged(d) =>
        case PasswordChanged(d) =>
        case PasswordRepeatChanged(d) =>
        case Clicked =>
        case Completed =>
      }
      PasswordsJudgedAfterEdit(g, events[1..]);
    }
  }

  function Clicks(f: FormView, n: nat): FormView
    decreases n
  {
    if n == 0 then f else ButtonClick(Clicks(f, n - 1))
  }

  /** n clicks leave n more completions pending and touch nothing but the button. */
  lemma {:induction false} ClicksAccumulate(f: FormView, n: nat)
    ensures Clicks(f, n).pending == f.pending + n
    ensures n > 0 ==> AppButton.InProgressOf(Clicks(f, n).button)
    ensures Clicks(f, n) == f.(button := Clicks(f, n).button, pending := Clicks(f, n).pending)
    decreases n
  {
    if n > 0 {
      ClicksAccumulate(f, n - 1);
    }
  }

  /** The click handler has no guard: after two handled click events, the first completion
      already takes the button out of progress while the second is still pending. A user
      cannot cause the second event (see `UserRunSinglePending`); a script can. */
  lemma OverlappingClicks(f: FormView)
    ensures var g := Completion(ButtonClick(ButtonClick(f)));
            !AppButton.InProgressOf(g.button) && g.pending == f.pending + 1
  {
  }

  /** A step the user can cause: a click on the disabled button is not delivered, so it
      changes nothing; every other event is handled as `Step` handles it. */
  function UserStep(f: FormView, e: FormEvent): FormView {
    if e == Clicked && f.button.disabled then f else Step(f, e)
  }

  function UserRun(f: FormView, events: seq<FormEvent>): FormView
    decreases |events|
  {
    if events == [] then f else UserRun(UserStep(f, events[0]), events[1..])
  }

  /** A consistent form with one outstanding submission exactly while the button is in
      progress, and none otherwise. */
  predicate SinglePending(f: FormView) {
    Consistent(f) && f.pending == (if AppButton.InProgressOf(f.button) then 1 else 0)
  }

  /** Clicks that come from the user never overlap: the first click disables the button, and
      only the completion it scheduled enables it again, so at most one submission is ever
      outstanding. */
  lemma {:induction false} UserRunSinglePending(f: FormView, events: seq<FormEvent>)
    requires SinglePending(f)
    ensures SinglePending(UserRun(f, events))
    ensures UserRun(f, events).pending <= 1
    decreases |events|
  {
    if events != [] {
      var e := events[0];
      StepConsistent(f, e);
      assert SinglePending(UserStep(f, e)) by {
        match e
        case UsernameChanged(d) =>
        case EmailChanged(d) =>
        case PasswordChanged(d) =>
        case PasswordRepeatChanged(d) =>
        case Clicked =>
        case Completed =>
      }
      UserRunSinglePending(UserStep(f, e), events[1..]);
    }
  }

  /** The attached form starts with no submission outstanding. */
  lemma InitialSinglePending()
    ensures SinglePending(InitialView)
  {
    InitialConsistent();
  }

  /** A completion does not depend on the recorded fields. */
  lemma CompletionIgnoresState(f: FormView, s: State)
    requires f.pending > 0
    ensures Completion(f.(state := s)) == Completion(f).(state := s)
  {
  }

  /** "abc" then "abc" is judged matching; changing the repeat to "abcd" is a mismatch. */
  lemma PasswordScenario()
    ensures var g := PasswordRepeatInput(PasswordInput(InitialView, "abc"), "abc");
            TypedInput.ValidationOf(g.passwordRepeat) == Some("valid") &&
            TypedInput.HelpOf(g.passwordRepeat) == Some(MatchHelp) &&
            var h := PasswordRepeatInput(g, "abcd");
            TypedInput.ValidationOf(h.passwordRepeat) == Some("invalid") &&
            TypedInput.HelpOf(h.passwordRepeat) == Some(MismatchHelp)
  {
    var g := PasswordRepeatInput(PasswordInput(InitialView, "abc"), "abc");
    var h := PasswordRepeatInput(g, "abcd");
    assert h.state.password == "abc" && h.state.passwordRepeat == "abcd";
    assert |h.state.password| != |h.state.passwordRepeat|;
  }

  /** A click then its completion: the button is back to its label, both rejections are
      shown on the attached username and email inputs; editing the username then resets
      its validation to "none". */
  lemma SubmissionScenario()
    ensures var g := Completion(ButtonClick(InitialView));
            && g.pending == 0
            && !AppButton.InProgressOf(g.button) && g.button.content == SubmitLabel
            && !g.button.disabled && !g.button.fading
            && TypedInput.ValidationOf(g.username) == Some("invalid")
            && g.username.span == UsernameRejected
            && TypedInput.ValidationOf(g.email) == Some("invalid")
            && g.email.span == EmailRejected
            && TypedInput.ValidationOf(UsernameInput(g, "alice").username) == Some("none")
  {
  }

  /** The form as an object: it keeps the fields and the pending count, and holds the five
      attached children it created from its markup. */
  class Form {
    var state: State
    var pending: nat
    const username: TypedInput.Input
    const email: TypedInput.Input
    const password: TypedInput.Input
    const passwordRepeat: TypedInput.Input
    const button: AppButton.Button

    function View(): FormView
      reads this, username, email, password, passwordRepeat, button
    {
      FormView(state, username.View(), email.View(), password.View(), passwordRepeat.View(),
               button.View(), pending)
    }

    /** The children are five distinct objects, each attached once. */
    ghost predicate Valid()
      reads this, username, email, password, passwordRepeat, button
    {
      && username != email && username != password && username != passwordRepeat
      && email != password && email != passwordRepeat && password != passwordRepeat
      && username.attached && username.listeners == 1
      && email.attached && email.listeners == 1
      && password.attached && password.listeners == 1
      && passwordRepeat.attached && passwordRepeat.listeners == 1
      && button.attached && button.listeners == 1
    }

    /** Construction and attachment: the fields start empty, and the inputs and the button
        of the markup are created and attached. */
    constructor ()
      ensures Valid()
      ensures View() == InitialView
      ensures fresh(username) && fresh(email) && fresh(password) && fresh(passwordRepeat) && fresh(button)
    {
      state := InitialState;
      pending := 0;
      var u := new TypedInput.Input(InputMarkup("Username", false));
      u.ConnectedCallback();
      var e := new TypedInput.Input(InputMarkup("Email", false));
      e.ConnectedCallback();
      var p := new TypedInput.Input(InputMarkup("Password", true));
      p.ConnectedCallback();
      var q := new TypedInput.Input(InputMarkup("Password Repeat", true));
      q.ConnectedCallback();
      var b := new AppButton.Button(SubmitLabel, map["slot" := "card-body"]);
      b.ConnectedCallback();
      username, email, password, passwordRepeat, button := u, e, p, q, b;
    }

    method OnUsernameInput(detail: string)
      requires Valid()
      modifies this, username
      ensures Valid()
      ensures View() == UsernameInput(old(View()), detail)
    {
      state := state.(username := detail);
      username.SetValidation(Some("none"));
    }

    method OnEmailInput(detail: string)
      requires Valid()
      modifies this
      ensures Valid()
      ensures View() == EmailInput(old(View()), detail)
    {
      state := state.(email := detail);
    }

    method CheckPasswordMatch()
      requires Valid()
      modifies passwordRepeat
      ensures Valid()
      ensures View() == CheckPasswords(old(View()))
    {
      if state.password != state.passwordRepeat {
        passwordRepeat.SetHelp(Some(MismatchHelp));
        passwordRepeat.SetValidation(Some("invalid"));
      } else {
        passwordRepeat.SetHelp(Some(MatchHelp));
        passwordRepeat.SetValidation(Some("valid"));
      }
    }

    method OnPasswordInput(detail: string)
      requires Valid()
      modifies this, passwordRepeat
      ensures Valid()
      ensures View() == PasswordInput(old(View()), detail)
    {
      state := state.(password := detail);
      CheckPasswordMatch();
    }

    method OnPasswordRepeatInput(detail: string)
      requires Valid()
      modifies this, passwordRepeat
      ensures Valid()
      ensures View() == PasswordRepeatInput(old(View()), detail)
    {
      state := state.(passwordRepeat := detail);
      CheckPasswordMatch();
    }

    method OnClick()
      requires Valid()
      modifies this, button
      ensures Valid()
      ensures View() == ButtonClick(old(View()))
    {
      button.SetInProgress(true);
      pending := pending + 1;
    }

    method OnCompletion()
      requires Valid() && pending > 0
      modifies this, username, email, button
      ensures Valid()
      ensures View() == Completion(old(View()))
    {
      username.SetValidation(Some("invalid"));
      username.SetHelp(Some(UsernameRejected));
      email.SetValidation(Some("invalid"));
      email.SetHelp(Some(EmailRejected));
      button.SetInProgress(false);
      pending := pending - 1;
    }

    /** The user types `text` into the username field: the input re-emits it as one
        `app-input` event, which the form handles. */
    method TypeUsername(text: string)
      requires Valid()
      modifies this, username
      ensures Valid()
      ensures View() == UsernameInput(old(View()).(username := old(username.View()).(value := text)), text)
    {
      var events := username.OnInput(text);
      OnUsernameInput(events[0].detail);
    }

    /** The user activates the button: it emits one `click-app-button` event, which the form
        handles. The browser delivers no click to a disabled button, so the user can press it
        only while no submission has disabled it. */
    method PressButton()
      requires Valid() && !button.disabled
      modifies this, button
      ensures Valid()
      ensures View() == ButtonClick(old(View()))
    {
      var events := button.OnClick();
      assert events == [AppButton.ClickAppButton];
      OnClick();
    }
  }
}
