/**
 * The bill shown by the cart and delivery-address screens: food total,
 * 3% tax, a flat 2.00 delivery fee and the tip. Money is exact (`real`).
 */
module Bill {
  import opened Common
  import opened CartReducer

  const TaxRate: real := 0.03
  const DeliveryFee: real := 2.00

  /** What one line costs: its price times its quantity. */
  function LineTotal(x: Item): real {
    x.product.price * x.quantity as real
  }

  /** Sum of the line totals. */
  function FoodTotal(items: seq<Item>): real {
    if items == [] then 0.0
    else LineTotal(items[0]) + FoodTotal(items[1..])
  }

  function TaxAmount(foodTotal: real): (r: real)
    ensures foodTotal >= 0.0 ==> 0.0 <= r <= foodTotal
  {
    foodTotal * TaxRate
  }

  function GrandTotal(items: seq<Item>, tip: real): real {
    var food := FoodTotal(items);
    food + TaxAmount(food) + DeliveryFee + tip
  }

  /** The grand total is 103% of the food total plus the delivery fee and the tip. */
  lemma GrandTotalIs(items: seq<Item>, tip: real)
    ensures GrandTotal(items, tip) == FoodTotal(items) * 1.03 + 2.00 + tip
  {
  }

  /** The food total of an empty cart is 0, so its bill is the fee plus the tip. */
  lemma EmptyBill(tip: real)
    ensures FoodTotal([]) == 0.0 && GrandTotal([], tip) == 2.00 + tip
  {
  }

  lemma {:induction false} FoodTotalAppend(items: seq<Item>, x: Item)
    ensures FoodTotal(items + [x]) == FoodTotal(items) + LineTotal(x)
  {
    if items == [] {
      assert [] + [x] == [x];
    } else {
      assert (items + [x])[1..] == items[1..] + [x];
      FoodTotalAppend(items[1..], x);
    }
  }

  /** Non-negative prices and positive quantities give a non-negative food total. */
  lemma {:induction false} FoodTotalNonNegative(items: seq<Item>)
    requires forall i :: 0 <= i < |items| ==> items[i].product.price >= 0.0 && items[i].quantity >= 0
    ensures FoodTotal(items) >= 0.0
  {
    if items != [] {
      FoodTotalNonNegative(items[1..]);
    }
  }

  lemma FoodTotalCons(x: Item, items: seq<Item>)
    ensures FoodTotal([x] + items) == LineTotal(x) + FoodTotal(items)
  {
    assert ([x] + items)[1..] == items;
  }

  /** Totals reconcile with the lines: what a filter keeps plus what it drops is the whole food total. */
  lemma {:induction false} FoodTotalSplits(items: seq<Item>, p: Item -> bool, q: Item -> bool)
    requires forall it :: q(it) == !p(it)
    ensures FoodTotal(Filter(items, p)) + FoodTotal(Filter(items, q)) == FoodTotal(items)
  {
    if items != [] {
      FoodTotalSplits(items[1..], p, q);
      var x := items[0];
      var kept, dropped := Filter(items[1..], p), Filter(items[1..], q);
      if p(x) {
        assert Filter(items, p) == [x] + kept && Filter(items, q) == dropped;
        FoodTotalCons(x, kept);
      } else {
        assert Filter(items, q) == [x] + dropped && Filter(items, p) == kept;
        FoodTotalCons(x, dropped);
      }
    }
  }

  /** Adding a new product raises the food total by its price. */
  lemma AddNewRaisesFoodTotal(s: State, p: Product)
    requires !HasId(s.items, p.id)
    ensures FoodTotal(Reduce(s, AddToCart(p)).items) == FoodTotal(s.items) + p.price
  {
    FoodTotalAppend(s.items, Item(p, 1));
  }

  /** On a valid cart, adding a product already at line `k` raises the food total by that line's price. */
  lemma AddExistingRaisesFoodTotal(s: State, p: Product, k: nat)
    requires Valid(s) && k < |s.items| && s.items[k].Id() == p.id
    ensures FoodTotal(Reduce(s, AddToCart(p)).items) == FoodTotal(s.items) + s.items[k].product.price
  {
    IncrementOne(s.items, p.id, k);
  }

  lemma {:induction false} IncrementOne(items: seq<Item>, id: int, k: nat)
    requires k < |items| && items[k].Id() == id
    requires forall i :: 0 <= i < |items| && i != k ==> items[i].Id() != id
    ensures FoodTotal(Increment(items, id)) == FoodTotal(items) + items[k].product.price
  {
    assert Increment(items, id)[1..] == Increment(items[1..], id);
    if k == 0 {
      IncrementNone(items[1..], id);
    } else {
      IncrementOne(items[1..], id, k - 1);
    }
  }

  lemma {:induction false} IncrementNone(items: seq<Item>, id: int)
    requires forall i :: 0 <= i < |items| ==> items[i].Id() != id
    ensures Increment(items, id) == items
  {
  }

  /** Sum of the quantities: how many units the cart holds. */
  function Units(items: seq<Item>): int {
    if items == [] then 0 else items[0].quantity + Units(items[1..])
  }

  /** Adding a product to a valid cart raises the unit count by exactly one. */
  lemma AddRaisesUnits(s: State, p: Product)
    requires Valid(s)
    ensures Units(Reduce(s, AddToCart(p)).items) == Units(s.items) + 1
  {
    if HasId(s.items, p.id) {
      var k :| 0 <= k < |s.items| && s.items[k].Id() == p.id;
      IncrementUnits(s.items, p.id, k);
    } else {
      UnitsAppend(s.items, Item(p, 1));
    }
  }

  lemma {:induction false} UnitsAppend(items: seq<Item>, x: Item)
    ensures Units(items + [x]) == Units(items) + x.quantity
  {
    if items == [] {
      assert [] + [x] == [x];
    } else {
      assert (items + [x])[1..] == items[1..] + [x];
      UnitsAppend(items[1..], x);
    }
  }

  lemma {:induction false} IncrementUnits(items: seq<Item>, id: int, k: nat)
    requires k < |items| && items[k].Id() == id
    requires forall i :: 0 <= i < |items| && i != k ==> items[i].Id() != id
    ensures Units(Increment(items, id)) == Units(items) + 1
  {
    assert Increment(items, id)[1..] == Increment(items[1..], id);
    if k == 0 {
      IncrementNone(items[1..], id);
    } else {
      IncrementUnits(items[1..], id, k - 1);
    }
  }
}
