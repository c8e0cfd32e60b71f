/**
 * The cart provider of the tab-based app: it holds the cart lines and the
 * tip, replaces them on each operation, and computes food cost, tax, total
 * (no delivery fee here) and item count from them.
 */
module CartContext {
  import opened Common

  /** The dish handed to `addToCart`. */
  datatype DishInput = DishInput(
    id: string, name: string, description: string, price: real,
    image: string, cookingTime: real, rating: real)

  datatype CartItem = CartItem(
    id: string, dishId: string, name: string, description: string, price: real,
    image: string, quantity: int, cookingTime: real, rating: real)

  const TaxRate: real := 0.03

  predicate HasDish(items: seq<CartItem>, dishId: string) {
    exists i :: 0 <= i < |items| && items[i].dishId == dishId
  }

  /** A new line for a dish: quantity 1, with `freshId` standing for the time-stamped id. */
  function NewItem(dish: DishInput, freshId: string): CartItem {
    CartItem(freshId, dish.id, dish.name, dish.description, dish.price,
             dish.image, 1, dish.cookingTime, dish.rating)
  }

  function Increment(items: seq<CartItem>, dishId: string): seq<CartItem> {
    seq(|items|, i requires 0 <= i < |items| =>
      if items[i].dishId == dishId then items[i].(quantity := items[i].quantity + 1) else items[i])
  }

  function AddItem(items: seq<CartItem>, dish: DishInput, freshId: string): seq<CartItem> {
    if HasDish(items, dish.id) then Increment(items, dish.id)
    else items + [NewItem(dish, freshId)]
  }

  function RemoveItem(items: seq<CartItem>, itemId: string): seq<CartItem> {
    Filter(items, (it: CartItem) => it.id != itemId)
  }

  function SetQuantity(items: seq<CartItem>, itemId: string, q: int): seq<CartItem> {
    seq(|items|, i requires 0 <= i < |items| =>
      if items[i].id == itemId then items[i].(quantity := q) else items[i])
  }

  /** `updateQuantity`: a quantity of exactly 0 removes the line; any other value is stored as it is. */
  function UpdateItems(items: seq<CartItem>, itemId: string, q: int): seq<CartItem> {
    if q == 0 then RemoveItem(items, itemId) else SetQuantity(items, itemId, q)
  }

  /** `getFoodCost`: price times quantity, summed over the lines. */
  function FoodCost(items: seq<CartItem>): real {
    if items == [] then 0.0
    else items[0].price * items[0].quantity as real + FoodCost(items[1..])
  }

  function TaxAmount(items: seq<CartItem>): real {
    FoodCost(items) * TaxRate
  }

  function TotalAmount(items: seq<CartItem>, tip: real): real {
    FoodCost(items) + TaxAmount(items) + tip
  }

  /** `getItemCount`: the quantities, summed. */
  function ItemCount(items: seq<CartItem>): int {
    if items == [] then 0 else items[0].quantity + ItemCount(items[1..])
  }

  /** The provider's invariant: each dish has at most one line, and line ids are unique. */
  ghost predicate Valid(items: seq<CartItem>) {
    && (forall i, j :: 0 <= i < j < |items| ==> items[i].dishId != items[j].dishId)
    && (forall i, j :: 0 <= i < j < |items| ==> items[i].id != items[j].id)
  }

  predicate HasItemId(items: seq<CartItem>, id: string) {
    exists i :: 0 <= i < |items| && items[i].id == id
  }

  /** Adding a dish already in the cart raises its line by one and leaves every other line alone. */
  lemma AddExisting(items: seq<CartItem>, dish: DishInput, freshId: string)
    requires HasDish(items, dish.id)
    ensures var r := AddItem(items, dish, freshId);
      && |r| == |items|
      && forall i :: 0 <= i < |items| ==>
           r[i] == if items[i].dishId == dish.id then items[i].(quantity := items[i].quantity + 1) else items[i]
  {
  }

  /** Adding a new dish appends one line with its id, price and quantity 1. */
  lemma AddNew(items: seq<CartItem>, dish: DishInput, freshId: string)
    requires !HasDish(items, dish.id)
    ensures var r := AddItem(items, dish, freshId);
      && |r| == |items| + 1 && r[..|items|] == items
      && r[|items|].dishId == dish.id && r[|items|].quantity == 1 && r[|items|].price == dish.price
      && r[|items|].id == freshId
  {
  }

  /** Removing a line id drops exactly those lines and keeps the others in order. */
  lemma Remove(items: seq<CartItem>, itemId: string)
    ensures var r := RemoveItem(items, itemId);
      && SubseqOf(r, items)
      && !HasItemId(r, itemId)
      && forall i :: 0 <= i < |items| && items[i].id != itemId ==> items[i] in r
  {
    var r := RemoveItem(items, itemId);
    assert forall i :: 0 <= i < |r| ==> r[i].id != itemId;
  }

  /** A nonzero quantity, negative ones included, is stored on the matching lines only. */
  lemma UpdateNonZero(items: seq<CartItem>, itemId: string, q: int)
    requires q != 0
    ensures var r := UpdateItems(items, itemId, q);
      && |r| == |items|
      && forall i :: 0 <= i < |items| ==>
           r[i] == if items[i].id == itemId then items[i].(quantity := q) else items[i]
  {
  }

  /** Every operation keeps one line per dish and unique line ids, given a fresh id for new lines. */
  lemma AddValid(items: seq<CartItem>, dish: DishInput, freshId: string)
    requires Valid(items) && !HasItemId(items, freshId)
    ensures Valid(AddItem(items, dish, freshId))
  {
  }

  lemma UpdateValid(items: seq<CartItem>, itemId: string, q: int)
    requires Valid(items)
    ensures Valid(UpdateItems(items, itemId, q))
  {
    if q == 0 {
      FilterValid(items, (it: CartItem) => it.id != itemId);
    }
  }

  lemma {:induction false} FilterValid(items: seq<CartItem>, p: CartItem -> bool)
    requires Valid(items)
    ensures Valid(Filter(items, p))
  {
    if items != [] {
      FilterValid(items[1..], p);
      var rest := Filter(items[1..], p);
      if p(items[0]) {
        assert Filter(items, p) == [items[0]] + rest;
        forall j | 0 <= j < |rest|
          ensures items[0].dishId != rest[j].dishId && items[0].id != rest[j].id
        {
          assert rest[j] in items[1..];
        }
        ConsValid(items[0], rest);
      } else {
        assert Filter(items, p) == rest;
      }
    }
  }

  /** A line whose dish and id the rest does not have, in front of a valid cart, keeps it valid. */
  lemma ConsValid(x: CartItem, rest: seq<CartItem>)
    requires Valid(rest)
    requires forall j :: 0 <= j < |rest| ==> x.dishId != rest[j].dishId && x.id != rest[j].id
    ensures Valid([x] + rest)
  {
    var r := [x] + rest;
    forall i, j | 0 <= i < j < |r| ensures r[i].dishId != r[j].dishId && r[i].id != r[j].id {
      assert r[j] == rest[j - 1];
      if i > 0 {
        assert r[i] == rest[i - 1];
      }
    }
  }

  /** With the cart screen's buttons (quantity minus or plus one), every quantity stays at least 1. */
  lemma ButtonsKeepPositive(items: seq<CartItem>, k: nat, delta: int)
    requires Valid(items) && k < |items| && (delta == 1 || delta == -1)
    requires forall i :: 0 <= i < |items| ==> items[i].quantity >= 1
    ensures var r := UpdateItems(items, items[k].id, items[k].quantity + delta);
      forall i :: 0 <= i < |r| ==> r[i].quantity >= 1
  {
    var q := items[k].quantity + delta;
    if q == 0 {
      var r := RemoveItem(items, items[k].id);
      assert forall i :: 0 <= i < |r| ==> r[i] in items;
    }
  }

  /** The food cost of an empty cart is 0. */
  lemma EmptyCost()
    ensures FoodCost([]) == 0.0 && ItemCount([]) == 0 && TotalAmount([], 0.0) == 0.0
  {
  }

  /** The total is the food cost plus 3% tax plus the tip, with no delivery fee. */
  lemma TotalIs(items: seq<CartItem>, tip: real)
    ensures TaxAmount(items) == FoodCost(items) * 0.03
    ensures TotalAmount(items, tip) == FoodCost(items) * 1.03 + tip
  {
  }

  lemma {:induction false} CountAppend(items: seq<CartItem>, x: CartItem)
    ensures ItemCount(items + [x]) == ItemCount(items) + x.quantity
    ensures FoodCost(items + [x]) == FoodCost(items) + x.price * x.quantity as real
  {
    if items == [] {
      assert [] + [x] == [x];
    } else {
      assert (items + [x])[1..] == items[1..] + [x];
      CountAppend(items[1..], x);
    }
  }

  lemma {:induction false} IncrementOne(items: seq<CartItem>, dishId: string, k: nat)
    requires k < |items| && items[k].dishId == dishId
    requires forall i :: 0 <= i < |items| && i != k ==> items[i].dishId != dishId
    ensures ItemCount(Increment(items, dishId)) == ItemCount(items) + 1
    ensures FoodCost(Increment(items, dishId)) == FoodCost(items) + items[k].price
  {
    assert Increment(items, dishId)[1..] == Increment(items[1..], dishId);
    if k == 0 {
      assert Increment(items[1..], dishId) == items[1..];
    } else {
      IncrementOne(items[1..], dishId, k - 1);
    }
  }

  /** On a valid cart, adding a dish always raises the item count by exactly 1. */
  lemma AddRaisesCount(items: seq<CartItem>, dish: DishInput, freshId: string)
    requires Valid(items)
    ensures ItemCount(AddItem(items, dish, freshId)) == ItemCount(items) + 1
  {
    if HasDish(items, dish.id) {
      var k :| 0 <= k < |items| && items[k].dishId == dish.id;
      IncrementOne(items, dish.id, k);
    } else {
      CountAppend(items, NewItem(dish, freshId));
    }
  }

  /** Adding a new dish raises the food cost by its price. */
  lemma AddNewCost(items: seq<CartItem>, dish: DishInput, freshId: string)
    requires !HasDish(items, dish.id)
    ensures FoodCost(AddItem(items, dish, freshId)) == FoodCost(items) + dish.price
  {
    CountAppend(items, NewItem(dish, freshId));
  }

  /** On a valid cart, adding a dish already at line `k` raises the food cost by that line's price. */
  lemma AddExistingCost(items: seq<CartItem>, dish: DishInput, freshId: string, k: nat)
    requires Valid(items) && k < |items| && items[k].dishId == dish.id
    ensures FoodCost(AddItem(items, dish, freshId)) == FoodCost(items) + items[k].price
  {
    IncrementOne(items, dish.id, k);
  }

  class CartProvider {
    var cartItems: seq<CartItem>
    var tipAmount: real

    constructor ()
      ensures cartItems == [] && tipAmount == 0.0
    {
      cartItems := [];
      tipAmount := 0.0;
    }

    /** `freshId` stands for the `dishId-timestamp` id the source builds from the clock. */
    method AddToCart(dish: DishInput, freshId: string)
      modifies this
      ensures cartItems == AddItem(old(cartItems), dish, freshId) && tipAmount == old(tipAmount)
    {
      cartItems := AddItem(cartItems, dish, freshId);
    }

    method RemoveFromCart(itemId: string)
      modifies this
      ensures cartItems == RemoveItem(old(cartItems), itemId) && tipAmount == old(tipAmount)
    {
      cartItems := RemoveItem(cartItems, itemId);
    }

    method UpdateQuantity(itemId: string, newQuantity: int)
      modifies this
      ensures cartItems == UpdateItems(old(cartItems), itemId, newQuantity) && tipAmount == old(tipAmount)
    {
      if newQuantity == 0 {
        RemoveFromCart(itemId);
        return;
      }
      cartItems := SetQuantity(cartItems, itemId, newQuantity);
    }

    method ClearCart()
      modifies this
      ensures cartItems == [] && tipAmount == 0.0
    {
      cartItems := [];
      tipAmount := 0.0;
    }

    method SetTipAmount(amount: real)
      modifies this
      ensures tipAmount == amount && cartItems == old(cartItems)
    {
      tipAmount := amount;
    }

    function GetFoodCost(): real reads this { FoodCost(cartItems) }
    function GetTaxAmount(): real reads this { TaxAmount(cartItems) }
    function GetTipAmount(): real reads this { tipAmount }
    function GetTotalAmount(): real reads this { TotalAmount(cartItems, tipAmount) }
    function GetItemCount(): int reads this { ItemCount(cartItems) }
  }
}
