/**
 * The cart reducer of the menu/cart/delivery flow: a pure function from the
 * current cart state and an action to the next state, plus the store that
 * holds the state and applies dispatched actions.
 */
module CartReducer {
  import opened Common

  /** A menu entry as dispatched with ADD_TO_CART (its display-only fields are not modelled). */
  datatype Product = Product(id: int, name: string, price: real)

  /** A cart line: the dispatched product spread together with a quantity. */
  datatype Item = Item(product: Product, quantity: int) {
    function Id(): int { product.id }
  }

  datatype State = State(items: seq<Item>, tip: real)

  /** The dispatched actions; `Unknown` stands for any other action type. */
  datatype Action =
    | AddToCart(product: Product)
    | RemoveFromCart(id: int)
    | UpdateQuantity(id: int, quantity: int)
    | SetTip(tip: real)
    | ClearCart
    | Unknown(kind: string)

  /** The state the store starts from: no items and no tip. */
  const Initial: State := State([], 0.0)

  predicate HasId(items: seq<Item>, id: int) {
    exists i :: 0 <= i < |items| && items[i].Id() == id
  }

  /** ADD_TO_CART on an id already present: every line with that id gets one more. */
  function Increment(items: seq<Item>, id: int): seq<Item> {
    seq(|items|, i requires 0 <= i < |items| =>
      if items[i].Id() == id then items[i].(quantity := items[i].quantity + 1) else items[i])
  }

  /** UPDATE_QUANTITY before the clean-up: every line with that id gets the new quantity. */
  function SetQuantity(items: seq<Item>, id: int, quantity: int): seq<Item> {
    seq(|items|, i requires 0 <= i < |items| =>
      if items[i].Id() == id then items[i].(quantity := quantity) else items[i])
  }

  function Reduce(s: State, a: Action): State {
    match a
    case AddToCart(p) =>
      if HasId(s.items, p.id) then s.(items := Increment(s.items, p.id))
      else s.(items := s.items + [Item(p, 1)])
    case RemoveFromCart(id) =>
      s.(items := Filter(s.items, (it: Item) => it.Id() != id))
    case UpdateQuantity(id, q) =>
      s.(items := Filter(SetQuantity(s.items, id, q), (it: Item) => it.quantity > 0))
    case SetTip(t) => s.(tip := t)
    case ClearCart => s.(items := [], tip := 0.0)
    case Unknown(_) => s
  }

  /** Folding a sequence of dispatched actions over a state. */
  function Run(s: State, actions: seq<Action>): State
    decreases |actions|
  {
    if actions == [] then s else Run(Reduce(s, actions[0]), actions[1..])
  }

  /** The cart invariant: ids are unique and every quantity is at least 1. */
  ghost predicate Valid(s: State) {
    ValidItems(s.items)
  }

  ghost predicate ValidItems(items: seq<Item>) {
    && (forall i, j :: 0 <= i < j < |items| ==> items[i].Id() != items[j].Id())
    && (forall i :: 0 <= i < |items| ==> items[i].quantity >= 1)
  }

  /** ADD_TO_CART on a present id raises that line by exactly one and leaves every other line, and the order, alone. */
  lemma AddExisting(s: State, p: Product)
    requires HasId(s.items, p.id)
    ensures var r := Reduce(s, AddToCart(p));
      && r.tip == s.tip
      && |r.items| == |s.items|
      && forall i :: 0 <= i < |s.items| ==>
           r.items[i] == if s.items[i].Id() == p.id
                         then s.items[i].(quantity := s.items[i].quantity + 1)
                         else s.items[i]
  {
  }

  /** ADD_TO_CART on an absent id appends one line with quantity 1 at the end. */
  lemma AddNew(s: State, p: Product)
    requires !HasId(s.items, p.id)
    ensures var r := Reduce(s, AddToCart(p));
      && r.tip == s.tip
      && r.items == s.items + [Item(p, 1)]
      && |r.items| == |s.items| + 1
  {
  }

  /** REMOVE_FROM_CART drops every line with the id and keeps the others, in order. */
  lemma Remove(s: State, id: int)
    ensures var r := Reduce(s, RemoveFromCart(id));
      && r.tip == s.tip
      && SubseqOf(r.items, s.items)
      && !HasId(r.items, id)
      && forall i :: 0 <= i < |s.items| && s.items[i].Id() != id ==> s.items[i] in r.items
  {
    var r := Reduce(s, RemoveFromCart(id));
    assert forall i :: 0 <= i < |r.items| ==> r.items[i].Id() != id;
  }

  /** UPDATE_QUANTITY leaves only positive quantities, and keeps every other positive line. */
  lemma UpdatePositive(s: State, id: int, q: int)
    ensures var r := Reduce(s, UpdateQuantity(id, q));
      && r.tip == s.tip
      && (forall i :: 0 <= i < |r.items| ==> r.items[i].quantity > 0)
      && (forall i :: 0 <= i < |s.items| && s.items[i].Id() != id && s.items[i].quantity > 0 ==>
            s.items[i] in r.items)
  {
    var set' := SetQuantity(s.items, id, q);
    forall i | 0 <= i < |s.items| && s.items[i].Id() != id && s.items[i].quantity > 0
      ensures s.items[i] in Reduce(s, UpdateQuantity(id, q)).items
    {
      assert set'[i] == s.items[i];
    }
  }

  /** On a valid cart, UPDATE_QUANTITY to a positive value changes only the matching line's quantity. */
  lemma UpdateSets(s: State, id: int, q: int)
    requires Valid(s) && q > 0
    ensures Reduce(s, UpdateQuantity(id, q)).items == SetQuantity(s.items, id, q)
  {
    FilterAll(SetQuantity(s.items, id, q), (it: Item) => it.quantity > 0);
  }

  /** On a valid cart, UPDATE_QUANTITY to zero or less is exactly REMOVE_FROM_CART. */
  lemma UpdateNonPositiveRemoves(s: State, id: int, q: int)
    requires Valid(s) && q <= 0
    ensures Reduce(s, UpdateQuantity(id, q)).items == Reduce(s, RemoveFromCart(id)).items
  {
    SetThenDropIsRemove(s.items, id, q);
  }

  lemma {:induction false} SetThenDropIsRemove(items: seq<Item>, id: int, q: int)
    requires q <= 0
    requires forall i :: 0 <= i < |items| ==> items[i].quantity >= 1
    ensures Filter(SetQuantity(items, id, q), (it: Item) => it.quantity > 0)
         == Filter(items, (it: Item) => it.Id() != id)
  {
    if items != [] {
      SetThenDropIsRemove(items[1..], id, q);
      assert SetQuantity(items, id, q)[1..] == SetQuantity(items[1..], id, q);
    }
  }

  /** SET_TIP changes the tip and nothing else. */
  lemma SetTipOnly(s: State, t: real)
    ensures Reduce(s, SetTip(t)) == State(s.items, t)
  {
  }

  /** CLEAR_CART yields the initial state from any state. */
  lemma ClearResets(s: State)
    ensures Reduce(s, ClearCart) == Initial
  {
  }

  /** An action the reducer does not know leaves the state as it was. */
  lemma UnknownUnchanged(s: State, kind: string)
    ensures Reduce(s, Unknown(kind)) == s
  {
  }

  /** Lines kept by a filter of a valid cart still form a valid cart. */
  lemma {:induction false} FilterValid(items: seq<Item>, p: Item -> bool)
    requires ValidItems(items)
    ensures ValidItems(Filter(items, p))
  {
    if items != [] {
      FilterValid(items[1..], p);
      var rest := Filter(items[1..], p);
      if p(items[0]) {
        assert Filter(items, p) == [items[0]] + rest;
        forall j | 0 <= j < |rest| ensures items[0].Id() != rest[j].Id() {
          assert rest[j] in items[1..];
        }
        ConsValid(items[0], rest);
      } else {
        assert Filter(items, p) == rest;
      }
    }
  }

  /** A line whose id the rest does not have, in front of a valid cart, keeps it valid. */
  lemma ConsValid(x: Item, rest: seq<Item>)
    requires ValidItems(rest) && x.quantity >= 1
    requires forall j :: 0 <= j < |rest| ==> x.Id() != rest[j].Id()
    ensures ValidItems([x] + rest)
  {
    var r := [x] + rest;
    forall i, j | 0 <= i < j < |r| ensures r[i].Id() != r[j].Id() {
      assert r[j] == rest[j - 1];
      if i > 0 {
        assert r[i] == rest[i - 1];
      }
    }
    forall i | 0 <= i < |r| ensures r[i].quantity >= 1 {
      if i > 0 {
        assert r[i] == rest[i - 1];
      }
    }
  }

  /** Every action keeps the cart invariant. */
  lemma ReducePreservesValid(s: State, a: Action)
    requires Valid(s)
    ensures Valid(Reduce(s, a))
  {
    match a
    case AddToCart(p) =>
    case RemoveFromCart(id) =>
      FilterValid(s.items, (it: Item) => it.Id() != id);
    case UpdateQuantity(id, q) =>
      var set' := SetQuantity(s.items, id, q);
      var p := (it: Item) => it.quantity > 0;
      var r := Filter(set', p);
      forall i, j | 0 <= i < j < |r| ensures r[i].Id() != r[j].Id() {
        SubseqIndices(r, set', i, j);
      }
    case SetTip(_) =>
    case ClearCart =>
    case Unknown(_) =>
  }

  /** Two positions of a subsequence come from two ordered positions of the whole. */
  lemma {:induction false} SubseqIndices<T>(a: seq<T>, b: seq<T>, i: nat, j: nat)
    requires SubseqOf(a, b) && i < j < |a|
    ensures exists i', j' :: 0 <= i' < j' < |b| && a[i] == b[i'] && a[j] == b[j']
    decreases |b|
  {
    if a[0] == b[0] {
      if i == 0 {
        assert a[j] in b[1..] by { SubseqMember(a[1..], b[1..], j - 1); }
        var j' :| 0 <= j' < |b[1..]| && b[1..][j'] == a[j];
        assert b[0] == a[0] && b[j' + 1] == a[j];
      } else {
        SubseqIndices(a[1..], b[1..], i - 1, j - 1);
        var i', j' :| 0 <= i' < j' < |b[1..]| && a[1..][i - 1] == b[1..][i'] && a[1..][j - 1] == b[1..][j'];
        assert a[i] == b[i' + 1] && a[j] == b[j' + 1];
      }
    } else {
      SubseqIndices(a, b[1..], i, j);
      var i', j' :| 0 <= i' < j' < |b[1..]| && a[i] == b[1..][i'] && a[j] == b[1..][j'];
      assert a[i] == b[i' + 1] && a[j] == b[j' + 1];
    }
  }

  lemma {:induction false} SubseqMember<T>(a: seq<T>, b: seq<T>, k: nat)
    requires SubseqOf(a, b) && k < |a|
    ensures a[k] in b
    decreases |b|
  {
    if a[0] == b[0] {
      if k > 0 {
        SubseqMember(a[1..], b[1..], k - 1);
      }
    } else {
      SubseqMember(a, b[1..], k);
    }
  }

  /** From the initial state, any sequence of actions keeps ids unique and quantities at least 1. */
  lemma {:induction false} RunPreservesValid(s: State, actions: seq<Action>)
    requires Valid(s)
    ensures Valid(Run(s, actions))
    decreases |actions|
  {
    if actions != [] {
      ReducePreservesValid(s, actions[0]);
      RunPreservesValid(Reduce(s, actions[0]), actions[1..]);
    }
  }

  lemma InitialValid()
    ensures Valid(Initial)
  {
  }

  /** The store the provider creates with the reducer and the initial state; dispatch applies the reducer. */
  class Store {
    var state: State

    /** The store's invariant: the cart holds distinct lines of positive quantity. */
    ghost predicate Valid()
      reads this
    {
      ValidItems(state.items)
    }

    constructor ()
      ensures state == Initial
      ensures Valid()
    {
      state := Initial;
    }

    /** One dispatch: the new state is the reducer's, and the invariant is kept. */
    method Dispatch(a: Action)
      modifies this
      ensures state == Reduce(old(state), a)
      ensures old(Valid()) ==> Valid()
    {
      if Valid() {
        ReducePreservesValid(state, a);
      }
      state := Reduce(state, a);
    }
  }
}
