/**
 The form control factory: from a control descriptor and the current form
 state it builds the description of one lazily loaded input element, or
 fails for a control type it does not know. The three element components
 are opaque tags here; what the factory decides is each element's props.
 */
module FormControlFactory {
  import opened Wrappers
  import opened JsValue

  /** The form state object, indexed by control name. */
  type FormState = map<string, Value>

  /** A control descriptor `{type, name, label, value}` (`label` is a Dafny
      keyword, hence `labelText`). */
  datatype Control = Control(kind: string, name: string, labelText: string, value: Value)

  /** The parts of a change event an onChange callback reads. */
  datatype Event = Event(targetValue: Value, targetChecked: Value)

  /** The `(name, value)` pair an onChange callback hands to `handleChange`. */
  datatype Change = Change(name: string, value: Value)

  /** The three onChange closures the factory builds, as data, with the
      control's name and value captured when the element is built. */
  datatype ChangeHandler =
    | ReportTargetValue(name: string)
    | ReportTargetChecked(name: string)
    | ReportFixed(name: string, fixed: Value)

  /** An element description: which lazily loaded component, and its props. */
  datatype Element =
    | TextInput(key: string, labelText: string, value: Value, onChange: ChangeHandler)
    | Checkbox(key: string, labelText: string, checked: Value, onChange: ChangeHandler)
    | RadioButton(key: string, labelText: string, name: string, checked: Value, onChange: ChangeHandler)

  datatype FactoryError = UnknownControlType(kind: string)

  /** The message of the error thrown for an unknown control type. */
  function Message(e: FactoryError): string {
    "Unknown control type: " + e.kind
  }

  predicate KnownKind(kind: string) {
    kind == "text" || kind == "checkbox" || kind == "radio"
  }

  /** `formState[key]`: undefined when the state has no such entry. */
  function Lookup(state: FormState, key: string): Value {
    if key in state then state[key] else Undefined
  }

  /** What calling an onChange callback with event `e` passes to `handleChange`. */
  function Fire(h: ChangeHandler, e: Event): (c: Change)
    ensures c.name == h.name
  {
    match h
    case ReportTargetValue(n) => Change(n, e.targetValue)
    case ReportTargetChecked(n) => Change(n, e.targetChecked)
    case ReportFixed(n, v) => Change(n, v)
  }

  /** The text branch: shows the stored entry when it is truthy and the empty
      string otherwise, and reports the event's target value. */
  function TextInputFor(c: Control, state: FormState): (e: Element)
    ensures e.TextInput? && e.key == c.name && e.labelText == c.labelText
    ensures e.value == Lookup(state, c.name)
            <==> Truthy(Lookup(state, c.name)) || Lookup(state, c.name) == Str("")
    ensures Truthy(e.value) <==> Truthy(Lookup(state, c.name))
    ensures !Truthy(e.value) ==> e.value == Str("")
    ensures forall ev :: Fire(e.onChange, ev) == Change(c.name, ev.targetValue)
  {
    TextInput(c.name, c.labelText, Or(Lookup(state, c.name), Str("")), ReportTargetValue(c.name))
  }

  /** The checkbox branch: checked is the stored entry when it is truthy and
      false otherwise, and the callback reports the event's checked flag. */
  function CheckboxFor(c: Control, state: FormState): (e: Element)
    ensures e.Checkbox? && e.key == c.name && e.labelText == c.labelText
    ensures e.checked == Lookup(state, c.name)
            <==> Truthy(Lookup(state, c.name)) || Lookup(state, c.name) == Bool(false)
    ensures Truthy(e.checked) <==> Truthy(Lookup(state, c.name))
    ensures !Truthy(e.checked) ==> e.checked == Bool(false)
    ensures forall ev :: Fire(e.onChange, ev) == Change(c.name, ev.targetChecked)
  {
    Checkbox(c.name, c.labelText, Or(Lookup(state, c.name), Bool(false)), ReportTargetChecked(c.name))
  }

  /** The radio branch: checked exactly when the stored entry is the control's
      own value (never for a NaN value), and the callback reports that value
      whatever the event holds. */
  function RadioButtonFor(c: Control, state: FormState): (e: Element)
    ensures e.RadioButton? && e.key == c.name && e.labelText == c.labelText && e.name == c.name
    ensures e.checked == Bool(Lookup(state, c.name) == c.value && c.value != NaN)
    ensures forall ev :: Fire(e.onChange, ev) == Change(c.name, c.value)
  {
    RadioButton(c.name, c.labelText, c.name, Bool(StrictEquals(Lookup(state, c.name), c.value)),
                ReportFixed(c.name, c.value))
  }

  /** `formControlFactory(control, formState, handleChange)`. */
  function Make(c: Control, state: FormState): (r: Result<Element, FactoryError>)
    ensures r.Success? <==> KnownKind(c.kind)
    ensures r.Failure? ==> Message(r.error) == "Unknown control type: " + c.kind
    ensures r.Success? ==> r.value.key == c.name && r.value.labelText == c.labelText
    ensures c.kind == "text" ==> r == Success(TextInputFor(c, state))
    ensures c.kind == "checkbox" ==> r == Success(CheckboxFor(c, state))
    ensures c.kind == "radio" ==> r == Success(RadioButtonFor(c, state))
  {
    if c.kind == "text" then Success(TextInputFor(c, state))
    else if c.kind == "checkbox" then Success(CheckboxFor(c, state))
    else if c.kind == "radio" then Success(RadioButtonFor(c, state))
    else Failure(UnknownControlType(c.kind))
  }

  /** The factory reads nothing of the form state but the entry for the
      control's own name. */
  lemma MakeReadsOnlyOwnEntry(c: Control, s1: FormState, s2: FormState)
    requires Lookup(s1, c.name) == Lookup(s2, c.name)
    ensures Make(c, s1) == Make(c, s2)
  {
  }

  /** A `handleChange` that writes the reported pair back into the state,
      `{...formState, [name]: value}`. */
  function Store(state: FormState, ch: Change): (s: FormState)
    ensures Lookup(s, ch.name) == ch.value
    ensures forall k :: k != ch.name ==> Lookup(s, k) == Lookup(state, k)
  {
    state[ch.name := ch.value]
  }

  /** Round trip through such a `handleChange`: after an element's callback
      fires and its report is stored, the rebuilt element shows what the
      event carried, controls under other names are untouched, and a radio
      button of the same group with another value is no longer checked. */
  lemma ChangeThenRebuild(c: Control, state: FormState, ev: Event, other: Control)
    requires Make(c, state).Success?
    ensures var after := Store(state, Fire(Make(c, state).value.onChange, ev));
      && (c.kind == "text" && ev.targetValue.Str? ==>
            Make(c, after).value.value == ev.targetValue)
      && (c.kind == "checkbox" && ev.targetChecked.Bool? ==>
            Make(c, after).value.checked == ev.targetChecked)
      && (c.kind == "radio" ==> Make(c, after).value.checked == Bool(c.value != NaN))
      && (other.name != c.name ==> Make(other, after) == Make(other, state))
      && ((c.kind == "radio" && other.kind == "radio" && other.name == c.name && other.value != c.value)
            ==> Make(other, after).value.checked == Bool(false))
  {
  }
}
