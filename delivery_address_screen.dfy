/**
 * The delivery-address screen: an address form edited one field at a time,
 * the bill at the stored tip, and order confirmation, which clears the cart.
 */
module DeliveryAddressScreen {
  import opened Common
  import opened CartReducer
  import Bill

  datatype Address = Address(
    street: string, city: string, state: string,
    zipCode: string, phone: string, instructions: string)

  datatype Field = Street | City | StateField | ZipCode | Phone | Instructions

  /** The form as the screen first shows it: every field empty. */
  const EmptyAddress: Address := Address("", "", "", "", "", "")

  function Get(a: Address, f: Field): string {
    match f
    case Street => a.street
    case City => a.city
    case StateField => a.state
    case ZipCode => a.zipCode
    case Phone => a.phone
    case Instructions => a.instructions
  }

  /** `{ ...prev, [field]: value }`: the field takes the value and every other field keeps its own. */
  function With(a: Address, f: Field, v: string): (r: Address)
    ensures Get(r, f) == v
    ensures forall g :: g != f ==> Get(r, g) == Get(a, g)
  {
    match f
    case Street => a.(street := v)
    case City => a.(city := v)
    case StateField => a.(state := v)
    case ZipCode => a.(zipCode := v)
    case Phone => a.(phone := v)
    case Instructions => a.(instructions := v)
  }

  /** Street, city, state, ZIP code and phone are all filled in. */
  predicate RequiredFilled(a: Address)
  {
    a.street != "" && a.city != "" && a.state != "" && a.zipCode != "" && a.phone != ""
  }

  /** An order goes through exactly when no field other than the instructions is empty. */
  lemma RequiredFields(a: Address)
    ensures RequiredFilled(a) <==> forall f :: f != Instructions ==> Get(a, f) != ""
  {
    if !RequiredFilled(a) {
      if a.street == "" { assert Get(a, Street) == ""; }
      else if a.city == "" { assert Get(a, City) == ""; }
      else if a.state == "" { assert Get(a, StateField) == ""; }
      else if a.zipCode == "" { assert Get(a, ZipCode) == ""; }
      else { assert Get(a, Phone) == ""; }
    }
  }

  /** The instructions never decide whether an order goes through. */
  lemma InstructionsNeverRequired(a: Address, v: string)
    ensures RequiredFilled(With(a, Instructions, v)) == RequiredFilled(a)
  {
    assert Get(With(a, Instructions, v), Street) == a.street;
    assert Get(With(a, Instructions, v), City) == a.city;
    assert Get(With(a, Instructions, v), StateField) == a.state;
    assert Get(With(a, Instructions, v), ZipCode) == a.zipCode;
    assert Get(With(a, Instructions, v), Phone) == a.phone;
  }

  /** The bill: food total, 3% tax, the 2.00 fee and the tip the store holds (0 when none was applied). */
  function GrandTotal(s: State): (r: real)
    ensures r == Bill.FoodTotal(s.items) * 1.03 + 2.00 + s.tip
  {
    Bill.GrandTotal(s.items, s.tip)
  }

  datatype Confirmation = MissingInformation | Confirmed(total: real)

  class DeliveryAddressScreen {
    var address: Address

    constructor ()
      ensures address == EmptyAddress
    {
      address := EmptyAddress;
    }

    /** Typing in one field of the form. */
    method UpdateAddress(f: Field, v: string)
      modifies this
      ensures address == With(old(address), f, v)
    {
      address := With(address, f, v);
    }

    /**
     * The confirm button: a missing required field refuses the order and
     * leaves the cart alone; otherwise the order is confirmed at the current
     * total and, once the confirmation is acknowledged, CLEAR_CART empties the
     * cart and resets the tip.
     */
    method ConfirmOrder(store: Store) returns (c: Confirmation)
      modifies store
      ensures !RequiredFilled(address) ==> c == MissingInformation && store.state == old(store.state)
      ensures RequiredFilled(address) ==>
        && c == Confirmed(GrandTotal(old(store.state)))
        && store.state == Reduce(old(store.state), ClearCart)
        && store.state.items == [] && store.state.tip == 0.0
    {
      if !RequiredFilled(address) {
        return MissingInformation;
      }
      c := Confirmed(GrandTotal(store.state));
      store.Dispatch(ClearCart);
    }
  }
}
