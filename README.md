# Web-component registration form and todo list, as state machines

This project models the behaviour under the browser plumbing of a small collection of custom
elements. It covers:

- the `app-form` registration form, which orchestrates the other widgets;
- the `app-input` widget, in its TypeScript version (`src/input.ts`) and its compiled twin
  (`input.js`), which behaves identically;
- the older JavaScript `app-input`;
- the `app-button` widget;
- the `my-todo` list and its `todo-input` form.

The DOM is replaced by plain state:

- an attribute table (`map<string, string>`);
- the few pieces of rendered text the code writes (label, help span, button content);
- flags for the inner button's `disabled` attribute and `fading` class;
- a count of the `input` and `click` listeners registered on the inner controls;
- for the form, a count of scheduled but not yet fired submission completions.

Events are direct calls. A widget's re-emitted events are returned as a sequence, one per
registered listener.

Every widget has two layers. A value datatype (`InputView`, `ButtonView`, `FormView`, ...)
comes with pure transition functions. These functions are the specification, and the
properties are proved about them. A class with the same fields then has methods that change
those fields in place, each proved to yield exactly the transition function's result
(`View() == WithHelp(old(View()), help)`).

Modules, one per source file:

- `Dom` holds the host values the code relies on: `null`, JavaScript truthiness,
  `getAttribute`, `??` and listener dispatch.
- `TypedInput` models `src/input.ts` and `input.js`.
- `LegacyInput` models the JavaScript `src/input.js`.
- `AppButton` models `src/button.js`.
- `RegistrationForm` models `src/registragion-form.ts`.
- `TodoList` models `my-todo.js`.
- `TodoInput` models `todo-input.js`.

Behaviour of the host platform that the code depends on, and which the model writes out:

- `attributeChangedCallback` runs only for observed attributes. It runs on every
  `setAttribute`, even with an unchanged value. It runs on `removeAttribute` only when the
  attribute was present.
- An exception thrown inside that callback is reported by the host and does not reach the
  setter's caller. So `help` set on an input that is not yet attached stores the attribute
  and leaves the span alone. On a button that is not yet attached, `inprogress` writes the
  content and then stops.
- `setAttribute(name, null)` stores the text "null", and assigning `null` to `textContent`
  leaves it empty.
- `splice(i, 1)` counts a negative `i` from the end.
- Reading `item.checked` from an index with no item throws, and the list is left as it was.

Two consequences of the code that are easy to miss:

- **Overlapping submissions.** The `click-app-button` handler has no guard, so every
  click event it receives schedules its own completion. After two such events, the first
  completion takes the button out of progress while the second is still pending
  (`RegistrationForm.OverlappingClicks`). A user cannot cause this. The first click
  disables the inner button, the browser delivers no click to a disabled button, and only
  the completion enables it again. So with user clicks alone at most one submission is
  outstanding (`RegistrationForm.UserRunSinglePending`). The race needs a
  `click-app-button` event sent from a script. For every event sequence, the button is in
  progress only while a completion is pending (`RegistrationForm.Consistent`).
- **`validation` at attachment.** `connectedCallback` reads only `label`, `help` and `type`.
  A `validation` attribute written in markup is not read at attachment.

## Model

| member | source | states |
|---|---|---|
| `TypedInput.WithAttribute` | sample_sources/typescript-version-registration-form/src/input.ts:89-97 | the value is stored and read back by `getAttribute`; on an attached element a `help` write puts the value in the span; any other write, or any write before attachment, leaves the span as it was; nothing else changes |
| `TypedInput.WithoutAttribute` | sample_sources/typescript-version-registration-form/src/input.ts:93-96 | removing an absent attribute changes nothing; otherwise it is gone; removing `help` from an attached element empties the span; nothing else changes |
| `TypedInput.WithHelp` | sample_sources/typescript-version-registration-form/src/input.ts:50-53 | a falsy value (null or "") leaves the element unchanged; any other value is stored exactly, the getter returns it, and an attached element's span shows it; before attachment the span is left as it was; `validation` and every other field are untouched |
| `TypedInput.WithValidation` | sample_sources/typescript-version-registration-form/src/input.ts:59-62 | a falsy value leaves the element unchanged; any other value is stored exactly and returned by the getter; `help` and the span never change, because `validation` is not observed |
| `TypedInput.Connected` | sample_sources/typescript-version-registration-form/src/input.ts:64-75 | label = `label` attribute or "", span = `help` attribute or "", field type = `type` attribute or "text"; one more `input` listener; attributes and value unchanged |
| `TypedInput.ConnectShowsHelp` | sample_sources/typescript-version-registration-form/input.js:58-63 | right after attachment the span shows the `help` attribute (or "") |
| `TypedInput.SpanTracksHelp` | sample_sources/typescript-version-registration-form/input.js:76-83 | once attached, after any sequence of attribute writes and removals through the host or the setters, the span still shows the current `help` attribute (or "" without one) |
| `TypedInput.HelpIsLastNonEmptyWrite` | sample_sources/typescript-version-registration-form/src/input.ts:46-53 | after a sequence of `help` writes, the getter returns the last non-empty value written, or its earlier value (null if none) when every write was falsy |
| `TypedInput.ValidationIsLastNonEmptyWrite` | sample_sources/typescript-version-registration-form/src/input.ts:55-62 | after a sequence of `validation` writes, the getter returns the last non-empty value written, or its earlier value when every write was falsy |
| `TypedInput.AttributeChanged` | sample_sources/typescript-version-registration-form/src/input.ts:93-97 | a `help` change on an attached element sets the span to the new value, or "" for null; any other change, or one before attachment, leaves the element as it was; only the span can change |
| `TypedInput.Input.constructor` | sample_sources/typescript-version-registration-form/src/input.ts:41-44 | a new element carries its markup attributes, is unattached and has no listener |
| `TypedInput.Input.AttributeChangedCallback` | sample_sources/typescript-version-registration-form/input.js:79-83 | a `help` change on an attached element sets the span to the new value or ""; otherwise nothing changes |
| `TypedInput.Input.SetAttribute` | sample_sources/typescript-version-registration-form/input.js:76-83 | the fields change exactly as `WithAttribute` prescribes, with the callback run only for the observed `help` |
| `TypedInput.Input.RemoveAttribute` | sample_sources/typescript-version-registration-form/input.js:76-83 | the fields change exactly as `WithoutAttribute` prescribes |
| `TypedInput.Input.Help` | sample_sources/typescript-version-registration-form/input.js:44-46 | the getter is the stored `help` attribute or null |
| `TypedInput.Input.SetHelp` | sample_sources/typescript-version-registration-form/input.js:47-50 | the fields change exactly as `WithHelp` prescribes: falsy values are ignored |
| `TypedInput.Input.Validation` | sample_sources/typescript-version-registration-form/input.js:51-53 | the getter is the stored `validation` attribute or null |
| `TypedInput.Input.SetValidation` | sample_sources/typescript-version-registration-form/input.js:54-57 | the fields change exactly as `WithValidation` prescribes: falsy values are ignored |
| `TypedInput.Input.ConnectedCallback` | sample_sources/typescript-version-registration-form/input.js:58-75 | the fields change exactly as `Connected` prescribes: defaults applied, one listener added |
| `TypedInput.Input.OnInput` | sample_sources/typescript-version-registration-form/src/input.ts:76-86 | a raw input event sets the field's value and emits one `app-input` event carrying it per registered listener, so exactly one for an element attached once |
| `LegacyInput.WithAttribute` | sample_sources/javascript-version-registration-form/src/input.js:83-89 | the value is stored; every other attribute, the span and the rest of the element are unchanged, since no callback ever runs |
| `LegacyInput.WithoutAttribute` | sample_sources/javascript-version-registration-form/src/input.js:83-89 | the attribute is gone; every other attribute and the span are unchanged |
| `LegacyInput.WithHelp` | sample_sources/javascript-version-registration-form/src/input.js:49-51 | any value is stored with no guard, "" included, and `null` as "null"; the getter returns it; every other attribute and every other field (span, label, type, value, listeners, attached) are unchanged |
| `LegacyInput.WithValidation` | sample_sources/javascript-version-registration-form/src/input.js:57-59 | any value is stored with no guard, and `null` as "null"; every other attribute and every other field are unchanged |
| `LegacyInput.Connected` | sample_sources/javascript-version-registration-form/src/input.js:61-70 | label and span take their attribute or "", the field type is the raw `type` attribute (null when absent), one more listener is registered |
| `LegacyInput.SpanFrozen` | sample_sources/javascript-version-registration-form/src/input.js:83-89 | no sequence of attribute writes or removals, through the setters or the host, changes the span text or the attached flag |
| `LegacyInput.StaleHelpSpan` | sample_sources/javascript-version-registration-form/src/input.js:83-89 | an input attached without help, then given help "Password Mismatch", returns it from the getter while its span still shows "" |
| `LegacyInput.Input.constructor` | sample_sources/javascript-version-registration-form/src/input.js:40-43 | a new element carries its markup attributes, is unattached and has no listener |
| `LegacyInput.Input.SetAttribute` | sample_sources/javascript-version-registration-form/src/input.js:83-89 | only the attribute table changes |
| `LegacyInput.Input.RemoveAttribute` | sample_sources/javascript-version-registration-form/src/input.js:83-89 | only the attribute table changes |
| `LegacyInput.Input.Help` | sample_sources/javascript-version-registration-form/src/input.js:45-47 | the getter is the stored `help` attribute or null |
| `LegacyInput.Input.SetHelp` | sample_sources/javascript-version-registration-form/src/input.js:49-51 | the fields change exactly as `WithHelp` prescribes |
| `LegacyInput.Input.Validation` | sample_sources/javascript-version-registration-form/src/input.js:53-55 | the getter is the stored `validation` attribute or null |
| `LegacyInput.Input.SetValidation` | sample_sources/javascript-version-registration-form/src/input.js:57-59 | the fields change exactly as `WithValidation` prescribes |
| `LegacyInput.Input.ConnectedCallback` | sample_sources/javascript-version-registration-form/src/input.js:61-81 | the fields change exactly as `Connected` prescribes; this is the only assignment of the span text |
| `LegacyInput.Input.OnInput` | sample_sources/javascript-version-registration-form/src/input.js:71-80 | a raw input event sets the value and emits one `app-input` event carrying it per registered listener |
| `AppButton.AttributeChanged` | sample_sources/typescript-version-registration-form/src/button.js:75-86 | a truthy new value shows "Loading..." and, once attached, disables and fades the button; a falsy or null one restores the cached content and, once attached, enables it and stops fading; before attachment only the content is written |
| `AppButton.WithAttribute` | sample_sources/typescript-version-registration-form/src/button.js:72-86 | the value is stored; a write to `inprogress` shows "Loading..." for a non-empty value and the cached content (or "undefined") for ""; on an attached button it disables and fades exactly for a non-empty value; before attachment `disabled` and `fading` stay as they were; a write to any other attribute changes nothing else |
| `AppButton.WithoutAttribute` | sample_sources/typescript-version-registration-form/src/button.js:72-86 | removing an absent attribute changes nothing; removing a present `inprogress` restores the cached content and, on an attached button, enables it and stops the fading; before attachment `disabled` and `fading` stay as they were; removing any other attribute changes only the table |
| `AppButton.WithInProgress` | sample_sources/typescript-version-registration-form/src/button.js:61-68 | true stores `inprogress="true"`, false removes it; the getter then equals the value set; set: "Loading...", disabled, fading; cleared from present: cached content, enabled, not fading; cleared when already absent: nothing changes; before attachment `disabled` and `fading` stay as they were |
| `AppButton.Connected` | sample_sources/typescript-version-registration-form/src/button.js:49-52 | attachment caches the current content as the initial value and registers one more click listener; nothing else changes |
| `AppButton.ConnectRenders` | sample_sources/typescript-version-registration-form/src/button.js:49-52 | a button attached without `inprogress` shows its markup content, enabled and still, and is not in progress |
| `AppButton.InProgressIdempotent` | sample_sources/typescript-version-registration-form/src/button.js:61-86 | setting `inprogress` twice to the same value gives the same state as setting it once |
| `AppButton.RenderedKept` | sample_sources/typescript-version-registration-form/src/button.js:72-86 | once attached and rendered, after any sequence of attribute writes the rendering still agrees with the getter: loading label, disabled and fading exactly while in progress, otherwise the cached content |
| `AppButton.Button.constructor` | sample_sources/typescript-version-registration-form/src/button.js:45-48 | a new element holds its slot content and markup attributes, unattached |
| `AppButton.Button.ConnectedCallback` | sample_sources/typescript-version-registration-form/src/button.js:49-60 | the fields change exactly as `Connected` prescribes |
| `AppButton.Button.OnClick` | sample_sources/typescript-version-registration-form/src/button.js:53-59 | a click on the enabled inner button emits one payload-free `click-app-button` event per registered listener, exactly one for a button attached once; a disabled button receives no click |
| `AppButton.Button.AttributeChangedCallback` | sample_sources/typescript-version-registration-form/src/button.js:75-86 | the fields change exactly as `AttributeChanged` prescribes |
| `AppButton.Button.SetAttribute` | sample_sources/typescript-version-registration-form/src/button.js:72-86 | the fields change exactly as `WithAttribute` prescribes |
| `AppButton.Button.RemoveAttribute` | sample_sources/typescript-version-registration-form/src/button.js:72-86 | the fields change exactly as `WithoutAttribute` prescribes |
| `AppButton.Button.SetInProgress` | sample_sources/typescript-version-registration-form/src/button.js:61-68 | the fields change exactly as `WithInProgress` prescribes |
| `AppButton.Button.InProgress` | sample_sources/typescript-version-registration-form/src/button.js:69-71 | the getter is true iff the `inprogress` attribute is present and not empty |
| `RegistrationForm.CheckPasswords` | sample_sources/typescript-version-registration-form/src/registragion-form.ts:67-73 | only the passwordRepeat input is written: validation "invalid" and help "Password Mismatch" iff the recorded passwords differ, else "valid" and "Passwords are matching"; an attached input's span shows that help; its other attributes and its label, type, value, listeners and attachment are unchanged |
| `RegistrationForm.UsernameInput` | sample_sources/typescript-version-registration-form/src/registragion-form.ts:58-61 | `state.username` becomes the value and the username input's validation becomes "none" whatever the value, "" included; its other attributes (help included), its label, type, span, value and listeners, the other fields and the other children are unchanged |
| `RegistrationForm.EmailInput` | sample_sources/typescript-version-registration-form/src/registragion-form.ts:62-64 | only `state.email` changes; no input is written |
| `RegistrationForm.PasswordInput` | sample_sources/typescript-version-registration-form/src/registragion-form.ts:65-74 | only `state.password` and the passwordRepeat input change; that input shows "invalid"/"Password Mismatch" iff the new password differs from the recorded repeat, else "valid"/"Passwords are matching"; the rest of the passwordRepeat input (other attributes, label, type, value, listeners) is unchanged; the password input is never written |
| `RegistrationForm.PasswordRepeatInput` | sample_sources/typescript-version-registration-form/src/registragion-form.ts:75-84 | only `state.passwordRepeat` and the passwordRepeat input change, with the same iff judgement against the recorded password; the rest of that input (other attributes, label, type, value, listeners) is unchanged |
| `RegistrationForm.ButtonClick` | sample_sources/typescript-version-registration-form/src/registragion-form.ts:85-88 | the button is in progress at once: `inprogress="true"`, "Loading...", and on an attached button disabled and fading; its other attributes, cached content and listeners are kept; exactly one more completion is pending; nothing else changes |
| `RegistrationForm.Completion` | sample_sources/typescript-version-registration-form/src/registragion-form.ts:88-94 | username becomes "invalid"/"Name must be unique" and email "invalid"/"Cannot be null", their attached spans showing the message, with their other attributes, label, type, value and listeners unchanged; the button leaves progress: `inprogress` removed and, when it was present, the cached content restored and an attached button enabled and no longer fading; one fewer completion is pending; the fields and both password inputs are untouched |
| `RegistrationForm.InitialConsistent` | sample_sources/typescript-version-registration-form/src/registragion-form.ts:33-38 | the attached form starts with all four fields "", nothing pending, the button idle, and is consistent |
| `RegistrationForm.StepConsistent` | sample_sources/typescript-version-registration-form/src/registragion-form.ts:58-95 | every reaction keeps the form consistent: spans show help, the button's rendering agrees with `inprogress`, and the button is in progress only while a completion is pending |
| `RegistrationForm.RunConsistent` | sample_sources/typescript-version-registration-form/src/registragion-form.ts:58-95 | the same after any sequence of reactions |
| `RegistrationForm.PasswordsJudgedAfterEdit` | sample_sources/typescript-version-registration-form/src/registragion-form.ts:65-84 | after either password is edited, through any later reactions, the passwordRepeat input shows "valid"/"Passwords are matching" iff the two recorded passwords are equal, and "invalid"/"Password Mismatch" otherwise |
| `RegistrationForm.ClicksAccumulate` | sample_sources/typescript-version-registration-form/src/registragion-form.ts:85-95 | n clicks leave n more completions pending, the button in progress when n > 0, and nothing but the button and the count changed |
| `RegistrationForm.OverlappingClicks` | sample_sources/typescript-version-registration-form/src/registragion-form.ts:85-95 | after two handled click events and one completion the button is no longer in progress while one completion is still pending |
| `RegistrationForm.UserRunSinglePending` | sample_sources/typescript-version-registration-form/src/button.js:53-86 | when a click on the disabled button is not delivered, any sequence of user events keeps the form consistent with exactly one submission pending while the button is in progress and none otherwise, so at most one |
| `RegistrationForm.InitialSinglePending` | sample_sources/typescript-version-registration-form/src/registragion-form.ts:30-56 | the freshly attached form has no submission pending and the button is idle |
| `RegistrationForm.CompletionIgnoresState` | sample_sources/typescript-version-registration-form/src/registragion-form.ts:88-94 | a completion's effect does not depend on the recorded fields |
| `RegistrationForm.PasswordScenario` | sample_sources/typescript-version-registration-form/src/registragion-form.ts:65-84 | "abc" and "abc" are judged matching; changing the repeat to "abcd" is judged a mismatch |
| `RegistrationForm.SubmissionScenario` | sample_sources/typescript-version-registration-form/src/registragion-form.ts:85-95 | click then completion: the button shows its label again, enabled; username and email are invalid with their messages in the spans; a later username edit resets its validation to "none" |
| `RegistrationForm.Form.constructor` | sample_sources/typescript-version-registration-form/src/registragion-form.ts:30-56 | the fields start empty, nothing is pending, and the four inputs and the button of the markup are created fresh and attached once |
| `RegistrationForm.Form.OnUsernameInput` | sample_sources/typescript-version-registration-form/src/registragion-form.ts:58-61 | the form and its children change exactly as `UsernameInput` prescribes |
| `RegistrationForm.Form.OnEmailInput` | sample_sources/typescript-version-registration-form/src/registragion-form.ts:62-64 | the form and its children change exactly as `EmailInput` prescribes |
| `RegistrationForm.Form.CheckPasswordMatch` | sample_sources/typescript-version-registration-form/src/registragion-form.ts:77-83 | the passwordRepeat input changes exactly as `CheckPasswords` prescribes |
| `RegistrationForm.Form.OnPasswordInput` | sample_sources/typescript-version-registration-form/src/registragion-form.ts:65-74 | the form and its children change exactly as `PasswordInput` prescribes |
| `RegistrationForm.Form.OnPasswordRepeatInput` | sample_sources/typescript-version-registration-form/src/registragion-form.ts:75-84 | the form and its children change exactly as `PasswordRepeatInput` prescribes |
| `RegistrationForm.Form.OnClick` | sample_sources/typescript-version-registration-form/src/registragion-form.ts:85-88 | the form and its children change exactly as `ButtonClick` prescribes |
| `RegistrationForm.Form.OnCompletion` | sample_sources/typescript-version-registration-form/src/registragion-form.ts:88-94 | the form and its children change exactly as `Completion` prescribes |
| `RegistrationForm.Form.TypeUsername` | sample_sources/typescript-version-registration-form/src/registragion-form.ts:58-61 | typing into the username field yields one `app-input` event, and the form handles it as `UsernameInput` |
| `RegistrationForm.Form.PressButton` | sample_sources/typescript-version-registration-form/src/registragion-form.ts:85-88 | pressing the enabled button yields one `click-app-button` event, and the form handles it as `ButtonClick`; a press is possible only while the button is not disabled |
| `TodoList.Appended` | sample_sources/components/todo/scripts/my-todo.js:41-44 | one item more, with the earlier items unchanged, and the new last item has the text and no `checked` flag (unchecked) |
| `TodoList.SpliceStart` | sample_sources/components/todo/scripts/my-todo.js:46-49 | `splice`'s start: an index in range is kept, past the end is clamped to the length, negative counts from the end and clamps at 0 |
| `TodoList.Spliced` | sample_sources/components/todo/scripts/my-todo.js:46-49 | for 0 <= i < length exactly item i is removed and the rest keep their order; i >= length leaves the list unchanged; a negative i removes the item i places from the end (the first one below -length); an empty list stays empty for every i |
| `TodoList.Toggled` | sample_sources/components/todo/scripts/my-todo.js:51-58 | at i the flag becomes the negation of its truthiness and the text is kept; every other item is unchanged; the length is unchanged |
| `TodoList.RemoveUndoesAdd` | sample_sources/components/todo/scripts/my-todo.js:41-49 | removing the index just appended gives back the list before the append |
| `TodoList.ToggleTwice` | sample_sources/components/todo/scripts/my-todo.js:54-56 | toggling the same index twice restores the item's checked state (a missing flag read as false) and text; an item with a flag comes back identical |
| `TodoList.RenderEntries` | sample_sources/components/todo/scripts/my-todo.js:30-38 | the render loop produces one entry per item, whose index is its position and whose text and flag are copied from the item |
| `TodoList.MyTodo.constructor` | sample_sources/components/todo/scripts/my-todo.js:10-17 | the list starts as ("my todo 1", unchecked), ("my todo 2", checked), with no container yet |
| `TodoList.MyTodo.Render` | sample_sources/components/todo/scripts/my-todo.js:27-39 | with a container, it holds exactly the entries of the list; without one, nothing happens |
| `TodoList.MyTodo.ConnectedCallback` | sample_sources/components/todo/scripts/my-todo.js:19-25 | the container exists and shows the list's entries |
| `TodoList.MyTodo.AddItem` | sample_sources/components/todo/scripts/my-todo.js:41-44 | the list becomes `Appended` of the old one, then it is re-rendered |
| `TodoList.MyTodo.RemoveItem` | sample_sources/components/todo/scripts/my-todo.js:46-49 | the list becomes `Spliced` of the old one, then it is re-rendered |
| `TodoList.MyTodo.ToggleItem` | sample_sources/components/todo/scripts/my-todo.js:51-58 | succeeds iff 0 <= i < length; then the list becomes `Toggled` and is re-rendered; otherwise the access throws and nothing changes |
| `TodoInput.Submitted` | sample_sources/components/todo/scripts/todo-input.js:18-27 | the default submission is always prevented; an empty field emits nothing and stays as it was; a non-empty one emits exactly its text and is cleared; so the field is afterwards unchanged or "" |
| `TodoInput.ResubmitEmitsNothing` | sample_sources/components/todo/scripts/todo-input.js:20-26 | a submission right after another emits nothing and leaves the field "" |
| `TodoInput.TodoInputElement.constructor` | sample_sources/components/todo/scripts/todo-input.js:9-17 | the text field starts empty |
| `TodoInput.TodoInputElement.Type` | sample_sources/components/todo/scripts/todo-input.js:3-5 | the user's typing sets the text field to exactly the typed text |
| `TodoInput.TodoInputElement.OnSubmit` | sample_sources/components/todo/scripts/todo-input.js:18-27 | the prevented flag, the emitted text and the new field value are those of `Submitted` on the old value |

## Findings

| source | as written | input that shows it | evidently intended | confidence | as-written member | corrected member |
|---|---|---|---|---|---|---|
| sample_sources/javascript-version-registration-form/src/input.js:83-89 | The change callback is spelled `attributeChagedCallback`, so the platform never calls it. Its body also reads the undefined `thie`. Once attached, the help span keeps the text it got at attachment. | Attach an input with no `help` attribute, then set `help` to "Password Mismatch". The getter returns "Password Mismatch" but the span still shows "". | A `help` change refreshes the span, as the `observedAttributes` list just above (83-85) announces. The TypeScript rewrite, which the form uses, does this. | high; not executed | `LegacyInput.StaleHelpSpan` | `TypedInput.SpanTracksHelp` |

## Left out

- Shadow roots, templates, `cloneNode`, `querySelector` and `customElements.define` are not modelled. Neither is CSS, including the `:host([validation=...])` rules that show or hide the help span and the `'vaild'` typo.
- Event bubbling and composed propagation are not modelled. Events are direct calls, and re-emitted events are returned as a sequence.
- `sample_sources/javascript-version-registration-form/src/card.js` and `sample_sources/components/minimum-CustemElm/scripts/minimum-el.js` are left out: they have no state to model.
- The 2000 ms delay of `setTimeout` is left out. Only the order is kept: a click adds one pending completion, and a later `Completion` step fires one.
- `console.log` in `toggleItem` is left out.
- The form is constructed and attached once. A second `connectedCallback` would append a second template and register the listeners again on the first four inputs. That is not modelled.
- An input or button that is attached again registers one more listener, and this is counted. Nobody listens on the shadow copies that the re-attachment appends, and those copies are not modelled.
- Attributes written in markup are taken as present at construction. The callbacks the platform runs for them during upgrade are not modelled. For an input's `help`, that callback throws (the error is reported) and has no effect. For a button's `inprogress`, it writes "Loading..." for a non-empty value and "undefined" for an empty one, then throws.
- `LegacyInput.Connected` stores the raw `type` attribute (null when absent). The browser's fallback to a text field for `type = null` is host behaviour and is not modelled.
- Nothing calls the misspelled `attributeChagedCallback` of the old input. Calling it directly would throw a ReferenceError on `thie`; this is not modelled.
- Setter arguments are strings or null. Numbers and objects, and their string conversions, are not modelled. The button's `inprogress` setter takes a boolean.
- Todo: the `todo-item` element, its `onRemove`/`onToggle` events and the `onSubmit` → `addItem` wiring (my-todo.js:23, 31-36) are not modelled. `RemoveItem` and `ToggleItem` take the index directly, as an integer.
- The typing and clicking round trip through a child widget is written out for the username input (`TypeUsername`) and the button (`PressButton`). For the other three inputs, the model calls the form's handlers directly.
