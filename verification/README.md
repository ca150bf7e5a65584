# Design-pattern catalog: the executed logic, in Dafny

The site is a catalog of design-pattern pages, and almost all of it is markup. Its only logic is
three small pure functions, and this project models and proves them. No route in the router
(`src/App.jsx`) mounts the modules that hold them, and no other page imports them. They are
self-contained demonstration code, not the live paths of the routed pages:

- **The form control factory** (`formControlFactory`). It takes a control descriptor
  `{type, name, label, value}` and the form state object. It returns the description of a text input,
  a checkbox or a radio button. For any other type it throws `Unknown control type: <type>`.
  The displayed value or checked flag comes from JavaScript's `||` defaulting or from `===`.
  Each element's change callback passes a `(name, value)` pair to `handleChange`.
- **The themed button abstract factory** (`createButtonFactory`). For `'dark'` or `'light'` it returns a
  pair of button constructors, and `null` for any other theme. The four button variants are data.
  Each has fixed colours and a fixed caption, and it forwards the click handler it is given.
- **The composite user form.** A `User{name, Address{street, city}}` record is edited one field at a
  time. Each edit makes spread copies through a chain of change handlers.

Modules:

- `Wrappers` holds `Option` and `Result`.
- `JsValue` holds JavaScript values, truthiness (ToBoolean) and the operators `||` and `===`.
  These follow sections 7.1.2 and 7.2.15 of ECMA-262.
- `FormControlFactory`, `ButtonFactory` and `CompositeForm` follow the three source files.

React components become data. The lazily loaded components become element constructors. The
onChange closures become a `ChangeHandler` datatype, with the control's name and value captured
when the element is built. For a descriptor that is not changed afterwards, `Fire` gives the pair
each closure reports for an event. A button's click handler is a type parameter that is passed through untouched.

The factory never calls `handleChange` itself; the page that uses it supplies it. `Store` writes the
reported pair back into the state, as `{...formState, [name]: value}` would. `ChangeThenRebuild`
shows the round trip for such a caller.

In the composite form, `Edit` follows the real handler chain from one input up to the record passed
to the state holder. `Replay` models a session of input events delivered one at a time.

A catalog router and a tab state machine are not part of this model. The repository hands routing to
`react-router-dom` and tab selection to `@reach/tabs`. It has no lookup, duplicate-route or
tab-index logic of its own.

## Model

| member | source | states |
|---|---|---|
| `JsValue.Or` | src/components/factorypattern/formControlFactory.jsx:17 | JavaScript's logical or returns one of its operands unconverted. The result is truthy iff either operand is. It is the left operand exactly when that operand is truthy. |
| `JsValue.StrictEquals` | src/components/factorypattern/formControlFactory.jsx:36 | `===`, defined type by type as the standard does, holds iff the two values are identical and not NaN. |
| `FormControlFactory.Fire` | src/components/factorypattern/formControlFactory.jsx:18-37 | Every change callback reports under the name it was built for. |
| `FormControlFactory.TextInputFor` | src/components/factorypattern/formControlFactory.jsx:12-20 | The text element is keyed by the control name and labelled with its label. It shows the stored entry iff that entry is truthy or already `""`. Otherwise it shows `""`. Its truthiness is that of the entry. Its callback reports `(name, e.target.value)` for every event. |
| `FormControlFactory.CheckboxFor` | src/components/factorypattern/formControlFactory.jsx:21-29 | The checkbox is keyed and labelled by the control. `checked` is the stored entry iff that entry is truthy or already `false`. Otherwise it is `false`. Its callback reports `(name, e.target.checked)`. |
| `FormControlFactory.RadioButtonFor` | src/components/factorypattern/formControlFactory.jsx:30-39 | The radio is keyed and labelled by the control and carries `name`. It is checked iff the stored entry equals the control's value and that value is not NaN. A missing entry counts as `undefined`. Its callback reports `(name, control.value)` whatever the event holds. |
| `FormControlFactory.Make` | src/components/factorypattern/formControlFactory.jsx:10-43 | It yields an element iff the type is `text`, `checkbox` or `radio`, and that element is the matching branch's. Any other type gives an error whose message is `Unknown control type: ` followed by the type, and no element. |
| `FormControlFactory.MakeReadsOnlyOwnEntry` | src/components/factorypattern/formControlFactory.jsx:10-43 | Two form states that agree on the entry for the control's name give the same result. The factory reads nothing else of the state. |
| `FormControlFactory.ChangeThenRebuild` | src/components/factorypattern/formControlFactory.jsx:17-37 | Suppose an element's callback fires and the reported pair is stored. Then the rebuilt text input shows the typed string, and the rebuilt checkbox shows the reported flag. The rebuilt radio is checked unless its value is NaN. A radio of the same group with a different value is no longer checked. Controls under other names rebuild identically. |
| `ButtonFactory.StyleOf` | src/components/abstractfactorypattern.jsx:6-28 | Dark-theme variants have white text and light-theme variants have black text. |
| `ButtonFactory.VariantsAreDistinguishable` | src/components/abstractfactorypattern.jsx:6-28 | No two variants share a background colour or a caption. |
| `ButtonFactory.CaptionNamesThemeAndRole` | src/components/abstractfactorypattern.jsx:6-28 | Each button's text is its theme word, its role word, then "Button". |
| `ButtonFactory.CreatePrimaryButton` | src/components/abstractfactorypattern.jsx:33-41 | A factory's primary constructor builds the factory's primary variant and holds the click handler unchanged. |
| `ButtonFactory.CreateSecondaryButton` | src/components/abstractfactorypattern.jsx:33-41 | A factory's secondary constructor builds the factory's secondary variant and holds the click handler unchanged. |
| `ButtonFactory.CreateButtonFactory` | src/components/abstractfactorypattern.jsx:31-44 | There is a factory iff the theme is `"dark"` or `"light"`, and `null` otherwise. The primary constructor builds the theme's primary variant and the secondary constructor builds its secondary variant. |
| `ButtonFactory.EveryVariantHasAFactory` | src/components/abstractfactorypattern.jsx:31-44 | Each of the four variants is built by the constructor for its role, in the factory for its theme. |
| `ButtonFactory.ConstructorsForwardHandler` | src/components/abstractfactorypattern.jsx:33-41 | Both constructors pass the click handler through unchanged. They build buttons of the requested theme, and the two buttons differ. |
| `CompositeForm.InitialUser` | src/components/compositepattern.jsx:33 | The initial record has empty name, street and city. |
| `CompositeForm.OnStreetChange` | src/components/compositepattern.jsx:20 | The Street input's spread copy replaces the street and keeps the city. |
| `CompositeForm.OnCityChange` | src/components/compositepattern.jsx:21 | The City input's spread copy replaces the city and keeps the street. |
| `CompositeForm.OnNameChange` | src/components/compositepattern.jsx:27 | The Name input's spread copy replaces the name and keeps the address. |
| `CompositeForm.OnAddressChange` | src/components/compositepattern.jsx:28 | An address change replaces the user's address wholesale and keeps the name. |
| `CompositeForm.Edit` | src/components/compositepattern.jsx:20-37 | An edit through the full handler chain, up to the record handed to `setUser`, sets its own input's value. It leaves every other input's value unchanged. For example, a Street edit keeps the name and the city. |
| `CompositeForm.LeavesDetermineUser` | src/components/compositepattern.jsx:33 | Two records whose three inputs show the same values are equal. |
| `CompositeForm.EditAlgebra` | src/components/compositepattern.jsx:18-30 | A second edit of the same input overrides the first. Edits of different inputs commute. Retyping the displayed value changes nothing. |
| `CompositeForm.ReplayKeepsUntouchedLeaf` | src/components/compositepattern.jsx:18-37 | Over a session of input events, an input that no event targets keeps its starting value. |
| `CompositeForm.ReplayKeepsLastInput` | src/components/compositepattern.jsx:18-37 | After a session, each input shows the value of the last event that targeted it. |
| `CompositeForm.EveryUserReachable` | src/components/compositepattern.jsx:18-37 | Any record can be reached from the initial one by typing its three values into the three inputs. |

## Left out

- URL routing and the navbar: `react-router-dom` does the route matching. The repository has no lookup, duplicate-route or not-found logic of its own.
- Tab selection and tab/panel pairing: this is `@reach/tabs` state. Some pages declare fewer tabs than the panels that follow them. That is an authoring artefact, not behaviour.
- Code inside template-literal listings, such as the sample sorts, reducers, pagination and adapters. They are display strings and never run.
- `React.lazy` module loading: the three lazily loaded components are opaque element constructors.
- Pure markup components: the pattern description, checkbox and radio button components, and the introductory page routed at `/designpattern`.
- `alert`, `console.log` and `useState` re-render plumbing. State changes are pure transitions. `Replay` applies each event to the latest record, so stale closures from before a re-render are not modelled.
- `handleChange`: callers supply it, so the factory module does not define it. `ChangeThenRebuild` assumes a caller that stores the pair back into the state (`Store`).
- FormControlFactory.Lookup: a missing entry reads as `undefined`. Properties inherited through the prototype of a plain object (`formState["toString"]`) are not modelled.
- FormControlFactory.Make: the control's type, name and label are strings. The source accepts any value and passes `name` and `label` on unconverted. It converts `name` to a property key only when it reads `formState[control.name]`. A missing name therefore reads the `"undefined"` entry but reports `undefined`. That case is not modelled, and neither is how the error message stringifies a non-string type. A `null` or `undefined` control or form state is not modelled either; the source throws a `TypeError` for it, not the unknown-type error.
- FormControlFactory.Fire: the callbacks are modelled with the control's name and value fixed when the element is built. The source reads `control.name` and `control.value` only when a callback fires. A descriptor changed in place after building, which makes the source report the new name or value, is not modelled.
- JsValue.Value: BigInt, Symbol and the infinities are not modelled. -0 and +0 are one value, since neither truthiness nor `===` tells them apart.
- FormControlFactory.ChangeThenRebuild: the text round trip is stated for string event values and the checkbox round trip for boolean ones. These are what a DOM input delivers.
- The abstract-factory example usage dereferences the factories for `'dark'` and `'light'` only. The `TypeError` it would raise for another theme's `null` is not modelled.
