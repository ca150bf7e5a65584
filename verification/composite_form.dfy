/**
 The composite user form: a `User{name, Address{street, city}}` record
 edited field by field. Each input's change handler builds a new record by
 spreading the old one with one field replaced; the street and city
 handlers hand their new address up to the user-level handler, which
 spreads it into the user. The form's state holder replaces the whole
 record with whatever reaches the top.
 */
module CompositeForm {

  datatype Address = Address(street: string, city: string)
  datatype User = User(name: string, address: Address)

  /** The three text inputs of the form, i.e. its leaves. */
  datatype Leaf = Name | Street | City

  /** The value a leaf's input displays. */
  function Get(u: User, l: Leaf): string {
    match l
    case Name => u.name
    case Street => u.address.street
    case City => u.address.city
  }

  /** The record the form starts from. */
  function InitialUser(): (u: User)
    ensures forall l :: Get(u, l) == ""
  {
    User("", Address("", ""))
  }

  /** Street input of the address field, `{...address, street}`: replaces
      the street and keeps the city. */
  function OnStreetChange(a: Address, street: string): (r: Address)
    ensures r.street == street && r.city == a.city
  {
    a.(street := street)
  }

  /** City input of the address field, `{...address, city}`: replaces the
      city and keeps the street. */
  function OnCityChange(a: Address, city: string): (r: Address)
    ensures r.city == city && r.street == a.street
  {
    a.(city := city)
  }

  /** Name input of the user field, `{...user, name}`: replaces the name and
      keeps the address. */
  function OnNameChange(u: User, name: string): (r: User)
    ensures r.name == name && r.address == u.address
  {
    u.(name := name)
  }

  /** The address field's report to the user field, `{...user, address}`:
      replaces the address wholesale and keeps the name. */
  function OnAddressChange(u: User, address: Address): (r: User)
    ensures r.address == address && r.name == u.name
  {
    u.(address := address)
  }

  /** Typing `value` into the input for leaf `l`: the handler chain from that
      input up to the new user record that reaches the state holder. It
      changes its own leaf to the typed value and no other leaf. */
  function Edit(u: User, l: Leaf, value: string): (r: User)
    ensures Get(r, l) == value
    ensures forall other :: other != l ==> Get(r, other) == Get(u, other)
  {
    match l
    case Name => OnNameChange(u, value)
    case Street => OnAddressChange(u, OnStreetChange(u.address, value))
    case City => OnAddressChange(u, OnCityChange(u.address, value))
  }

  /** A user record is nothing but its three leaves. */
  lemma LeavesDetermineUser(u: User, w: User)
    requires forall l :: Get(u, l) == Get(w, l)
    ensures u == w
  {
    assert Get(u, Name) == Get(w, Name);
    assert Get(u, Street) == Get(w, Street);
    assert Get(u, City) == Get(w, City);
  }

  /** Typing into the same input twice keeps only the second value; edits
      of different inputs commute; retyping the displayed value changes
      nothing. */
  lemma EditAlgebra(u: User, l: Leaf, m: Leaf, v: string, w: string)
    ensures Edit(Edit(u, l, v), l, w) == Edit(u, l, w)
    ensures l != m ==> Edit(Edit(u, l, v), m, w) == Edit(Edit(u, m, w), l, v)
    ensures Edit(u, l, Get(u, l)) == u
  {
  }

  /** One keystroke-level input event: the leaf it targets and the input's new value. */
  datatype Input = Input(leaf: Leaf, value: string)

  /** The state after a session of input events delivered one at a time. */
  function Replay(u: User, inputs: seq<Input>): User
    decreases |inputs|
  {
    if inputs == [] then u
    else Replay(Edit(u, inputs[0].leaf, inputs[0].value), inputs[1..])
  }

  /** A leaf that no input of a session targets keeps its starting value. */
  lemma {:induction false} ReplayKeepsUntouchedLeaf(u: User, inputs: seq<Input>, l: Leaf)
    requires forall i :: 0 <= i < |inputs| ==> inputs[i].leaf != l
    ensures Get(Replay(u, inputs), l) == Get(u, l)
    decreases |inputs|
  {
    if inputs != [] {
      var u' := Edit(u, inputs[0].leaf, inputs[0].value);
      assert forall k :: 0 <= k < |inputs[1..]| ==> inputs[1..][k] == inputs[k + 1];
      ReplayKeepsUntouchedLeaf(u', inputs[1..], l);
    }
  }

  /** After a session, a leaf holds the value of the last input that
      targeted it. */
  lemma {:induction false} ReplayKeepsLastInput(u: User, inputs: seq<Input>, l: Leaf, i: nat)
    requires i < |inputs| && inputs[i].leaf == l
    requires forall j :: i < j < |inputs| ==> inputs[j].leaf != l
    ensures Get(Replay(u, inputs), l) == inputs[i].value
    decreases |inputs|
  {
    var u' := Edit(u, inputs[0].leaf, inputs[0].value);
    var rest := inputs[1..];
    assert forall k :: 0 <= k < |rest| ==> rest[k] == inputs[k + 1];
    if i == 0 {
      ReplayKeepsUntouchedLeaf(u', rest, l);
    } else {
      ReplayKeepsLastInput(u', rest, l, i - 1);
    }
  }

  /** Every record is reachable from the initial one by typing its three
      values into the three inputs. */
  lemma EveryUserReachable(u: User)
    ensures Replay(InitialUser(), [Input(Name, u.name), Input(Street, u.address.street),
                                   Input(City, u.address.city)]) == u
  {
    var inputs := [Input(Name, u.name), Input(Street, u.address.street), Input(City, u.address.city)];
    forall l ensures Get(Replay(InitialUser(), inputs), l) == Get(u, l) {
      match l
      case Name => ReplayKeepsLastInput(InitialUser(), inputs, l, 0);
      case Street => ReplayKeepsLastInput(InitialUser(), inputs, l, 1);
      case City => ReplayKeepsLastInput(InitialUser(), inputs, l, 2);
    }
    LeavesDetermineUser(Replay(InitialUser(), inputs), u);
  }
}
