/**
 * The cart screen: quantity buttons, the tip field and its apply button,
 * the bill and the place-order button. The tip field holds text; here it
 * holds what `parseFloat` makes of that text (`None` for NaN).
 */
module CartScreen {
  import opened Common
  import opened CartReducer
  import Bill
  import DeliveryAddressScreen

  /** `parseFloat(text) || 0`: an unparseable tip counts as 0. */
  function ParsedTip(text: Option<real>): (r: real)
    ensures text.None? ==> r == 0.0
    ensures text.Some? ==> r == text.value
  {
    match text
    case None => 0.0
    case Some(v) => v
  }

  /** The action a quantity button dispatches for a requested quantity. */
  function QuantityAction(id: int, quantity: int): (a: Action)
    ensures a.RemoveFromCart? || a.UpdateQuantity?
    ensures a.RemoveFromCart? <==> quantity <= 0
    ensures a.RemoveFromCart? ==> a.id == id
    ensures a.UpdateQuantity? ==> a.id == id && a.quantity == quantity
  {
    if quantity <= 0 then RemoveFromCart(id) else UpdateQuantity(id, quantity)
  }

  /** The tip the bill shows, as written: the current text of the field once a tip has been applied. */
  function DisplayedTipAsWritten(isTipApplied: bool, tipText: Option<real>): real {
    if isTipApplied then ParsedTip(tipText) else 0.0
  }

  /** The total the screen shows, as written. */
  function GrandTotalAsWritten(s: State, isTipApplied: bool, tipText: Option<real>): real {
    Bill.GrandTotal(s.items, DisplayedTipAsWritten(isTipApplied, tipText))
  }

  /** The total the screen evidently means to show: the tip the store holds, which is 0 until one is applied. */
  function GrandTotal(s: State): real {
    Bill.GrandTotal(s.items, s.tip)
  }

  /** The minus button on a line of quantity 1 removes that line and changes nothing else. */
  lemma MinusOnOneRemoves(s: State, k: nat)
    requires Valid(s) && k < |s.items| && s.items[k].quantity == 1
    ensures var r := Reduce(s, QuantityAction(s.items[k].Id(), s.items[k].quantity - 1));
      && !HasId(r.items, s.items[k].Id())
      && r.items == Filter(s.items, (it: Item) => it.Id() != s.items[k].Id())
  {
    Remove(s, s.items[k].Id());
  }

  /** The minus button on a line of quantity above 1 lowers only that line by one. */
  lemma MinusLowers(s: State, k: nat)
    requires Valid(s) && k < |s.items| && s.items[k].quantity > 1
    ensures var r := Reduce(s, QuantityAction(s.items[k].Id(), s.items[k].quantity - 1));
      && |r.items| == |s.items|
      && r.items[k].quantity == s.items[k].quantity - 1
      && forall i :: 0 <= i < |s.items| && i != k ==> r.items[i] == s.items[i]
  {
    UpdateSets(s, s.items[k].Id(), s.items[k].quantity - 1);
  }

  /** The plus button raises only that line by one. */
  lemma PlusRaises(s: State, k: nat)
    requires Valid(s) && k < |s.items|
    ensures var r := Reduce(s, QuantityAction(s.items[k].Id(), s.items[k].quantity + 1));
      && |r.items| == |s.items|
      && r.items[k].quantity == s.items[k].quantity + 1
      && forall i :: 0 <= i < |s.items| && i != k ==> r.items[i] == s.items[i]
  {
    UpdateSets(s, s.items[k].Id(), s.items[k].quantity + 1);
  }

  /** Once a tip is applied, editing the field changes the total the screen shows, without re-applying. */
  method TipEditedAfterApply() returns (shown: real, charged: real)
    ensures shown != charged
  {
    var store := new Store();
    var screen := new CartScreen();
    store.Dispatch(AddToCart(Product(1, "Margherita", 10.00)));
    screen.EditTip(Some(5.00));
    var applied := screen.ApplyTip(store);
    screen.EditTip(Some(-3.00));
    shown := GrandTotalAsWritten(store.state, screen.isTipApplied, screen.tipText);
    charged := Bill.GrandTotal(store.state.items, store.state.tip);
    assert store.state.tip == 5.00 && screen.isTipApplied;
  }

  /** Every SET_TIP in `actions` carries a tip the apply button accepts. */
  predicate AcceptedTips(actions: seq<Action>) {
    forall i :: 0 <= i < |actions| && actions[i].SetTip? ==> actions[i].tip >= 0.0
  }

  /**
   * The corrected total is what the delivery-address screen charges, and when
   * every tip came through the apply button the store never holds a negative
   * tip, so the total never falls below the taxed food total plus the fee.
   */
  lemma {:induction false} CorrectedTotalChargesAcceptedTip(s: State, actions: seq<Action>)
    requires s.tip >= 0.0 && AcceptedTips(actions)
    ensures var r := Run(s, actions);
      && GrandTotal(r) == DeliveryAddressScreen.GrandTotal(r)
      && r.tip >= 0.0
      && GrandTotal(r) >= Bill.FoodTotal(r.items) * 1.03 + 2.00
    decreases |actions|
  {
    if actions != [] {
      assert AcceptedTips(actions[1..]) by {
        forall i | 0 <= i < |actions[1..]| && actions[1..][i].SetTip?
          ensures actions[1..][i].tip >= 0.0
        {
          assert actions[1..][i] == actions[i + 1];
        }
      }
      CorrectedTotalChargesAcceptedTip(Reduce(s, actions[0]), actions[1..]);
    }
  }

  class CartScreen {
    /** The tip field, as `parseFloat` reads it. */
    var tipText: Option<real>
    var isTipApplied: bool

    constructor ()
      ensures tipText == None && !isTipApplied
    {
      tipText := None;
      isTipApplied := false;
    }

    /** Typing in the tip field. */
    method EditTip(text: Option<real>)
      modifies this
      ensures tipText == text && isTipApplied == old(isTipApplied)
    {
      tipText := text;
    }

    /** A quantity button: REMOVE_FROM_CART for zero or less, UPDATE_QUANTITY otherwise. */
    method UpdateQuantity(store: Store, id: int, quantity: int)
      modifies store
      ensures store.state == Reduce(old(store.state), QuantityAction(id, quantity))
    {
      if quantity <= 0 {
        store.Dispatch(RemoveFromCart(id));
      } else {
        store.Dispatch(CartReducer.UpdateQuantity(id, quantity));
      }
    }

    /** The apply button: a negative tip is refused; otherwise SET_TIP is dispatched and the tip marked applied. */
    method ApplyTip(store: Store) returns (applied: bool)
      modifies this, store
      ensures applied <==> ParsedTip(old(tipText)) >= 0.0
      ensures tipText == old(tipText)
      ensures applied ==> store.state == Reduce(old(store.state), SetTip(ParsedTip(old(tipText)))) && isTipApplied
      ensures !applied ==> store.state == old(store.state) && isTipApplied == old(isTipApplied)
    {
      var parsed := ParsedTip(tipText);
      if parsed < 0.0 {
        return false;
      }
      store.Dispatch(SetTip(parsed));
      isTipApplied := true;
      applied := true;
    }

    /** The place-order button goes on to the address form only when the cart has items. */
    method PlaceOrder(store: Store) returns (navigate: bool)
      ensures navigate <==> |store.state.items| > 0
    {
      navigate := |store.state.items| != 0;
    }
  }
}
