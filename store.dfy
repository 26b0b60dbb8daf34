/** The cart store of src/contexts/StoreContext.tsx: the state, the four actions, the
    reducer that maps a state and an action to the next state (and the toast it shows),
    and the provider that holds the current state and dispatches actions to the reducer. */
module Store {
  import opened Models
  import opened Seqs

  /** The cart lines in insertion order and their derived subtotal, in cents. */
  datatype StoreState = StoreState(cart: seq<CartItem>, subtotal: int)

  /** The four actions the reducer understands. */
  datatype StoreAction =
    | AddToCart(product: Product, quantity: int)
    | RemoveFromCart(productId: int)
    | UpdateQuantity(productId: int, quantity: int)
    | ClearCart

  /** The toast a transition shows: `Added`, `Updated` and `Cleared` are success toasts,
      `Removed` is an info toast, `NoNotice` means no toast at all. */
  datatype Notice = Added(name: string) | Updated(name: string) | Removed | Cleared | NoNotice

  /** What one dispatch produces: the next state and the toast shown on the way. */
  datatype Transition = Transition(state: StoreState, notice: Notice)

  /** The state the provider starts from: an empty cart with subtotal 0. */
  const InitialState := StoreState([], 0)

  /** `calculateSubtotal`: the left fold `sum + price * quantity` over the lines. */
  function Subtotal(cart: seq<CartItem>): int
  {
    if cart == [] then 0
    else Subtotal(cart[..|cart| - 1]) + LineTotal(cart[|cart| - 1])
  }

  /** The subtotal is never negative while no price and no quantity is. */
  lemma {:induction false} SubtotalNonNegative(cart: seq<CartItem>)
    requires forall i :: 0 <= i < |cart| ==> cart[i].product.price >= 0 && cart[i].quantity >= 0
    ensures Subtotal(cart) >= 0
  {
    if cart != [] {
      var last := cart[|cart| - 1];
      SubtotalNonNegative(cart[..|cart| - 1]);
      assert LineTotal(last) >= 0 by {
        assert last.product.price >= 0 && last.quantity >= 0;
      }
    }
  }

  /** Some line of the cart is for product `id`. */
  predicate InCart(cart: seq<CartItem>, id: int)
  {
    exists i :: 0 <= i < |cart| && cart[i].product.id == id
  }

  /** The cart holds at most one line per product id. */
  predicate UniqueIds(cart: seq<CartItem>)
  {
    forall i, j :: 0 <= i < j < |cart| ==> cart[i].product.id != cart[j].product.id
  }

  /** The derived subtotal agrees with the lines. */
  predicate Consistent(s: StoreState)
  {
    s.subtotal == Subtotal(s.cart)
  }

  /** The invariant the store keeps: a consistent subtotal and one line per product. */
  predicate Invariant(s: StoreState)
  {
    Consistent(s) && UniqueIds(s.cart)
  }

  /** `cart.findIndex(item => item.product.id === id)`: the first matching index, or -1. */
  function FindLine(cart: seq<CartItem>, id: int): (r: int)
    ensures -1 <= r < |cart|
    ensures r < 0 <==> !InCart(cart, id)
    ensures r >= 0 ==> cart[r].product.id == id
    ensures r >= 0 ==> forall i :: 0 <= i < r ==> cart[i].product.id != id
  {
    if cart == [] then -1
    else if cart[0].product.id == id then 0
    else
      var k := FindLine(cart[1..], id);
      assert forall i :: 1 <= i < |cart| ==> cart[1..][i - 1] == cart[i];
      if k < 0 then -1 else k + 1
  }

  /** The cart after ADD_TO_CART: the existing line's quantity grows by `quantity`
      (the line keeps its own product record), or a new line is appended. */
  function AddLine(cart: seq<CartItem>, product: Product, quantity: int): seq<CartItem>
  {
    var k := FindLine(cart, product.id);
    if k >= 0 then cart[k := cart[k].(quantity := cart[k].quantity + quantity)]
    else cart + [CartItem(product, quantity)]
  }

  /** The filter predicate `item => item.product.id !== id`. */
  function OtherProduct(id: int): CartItem -> bool
  {
    (item: CartItem) => item.product.id != id
  }

  /** The cart after REMOVE_FROM_CART: every line for `id` filtered out. */
  function RemoveLines(cart: seq<CartItem>, id: int): seq<CartItem>
  {
    Filter(cart, OtherProduct(id))
  }

  /** The cart after a positive UPDATE_QUANTITY: each line for `id` gets `quantity`. */
  function SetQuantity(cart: seq<CartItem>, id: int, quantity: int): seq<CartItem>
  {
    seq(|cart|, i requires 0 <= i < |cart| =>
      if cart[i].product.id == id then cart[i].(quantity := quantity) else cart[i])
  }

  /** A state whose subtotal is recomputed from `cart`. */
  function WithCart(cart: seq<CartItem>): (s: StoreState)
    ensures Consistent(s)
  {
    StoreState(cart, Subtotal(cart))
  }

  /** `storeReducer`, together with the toast it fires. Every resulting state has a
      subtotal that agrees with its lines. */
  function Reduce(s: StoreState, action: StoreAction): (r: Transition)
    ensures Consistent(r.state)
  {
    match action
    case AddToCart(product, quantity) =>
      Transition(WithCart(AddLine(s.cart, product, quantity)),
        if FindLine(s.cart, product.id) >= 0 then Updated(product.name) else Added(product.name))
    case RemoveFromCart(id) =>
      Transition(WithCart(RemoveLines(s.cart, id)), Removed)
    case UpdateQuantity(id, quantity) =>
      if quantity <= 0 then Transition(WithCart(RemoveLines(s.cart, id)), Removed)
      else Transition(WithCart(SetQuantity(s.cart, id, quantity)), NoNotice)
    case ClearCart =>
      Transition(StoreState([], 0), Cleared)
  }

  /** The state after dispatching `actions` one after the other. */
  function Run(s: StoreState, actions: seq<StoreAction>): StoreState
    decreases |actions|
  {
    if actions == [] then s else Run(Reduce(s, actions[0]).state, actions[1..])
  }

  // ---------------------------------------------------------------------------
  // The subtotal: recomputing it after a change equals patching it by the change.

  lemma {:induction false} SubtotalAppend(a: seq<CartItem>, b: seq<CartItem>)
    ensures Subtotal(a + b) == Subtotal(a) + Subtotal(b)
  {
    if b != [] {
      var n := |b|;
      assert (a + b)[..|a + b| - 1] == a + b[..n - 1];
      assert (a + b)[|a + b| - 1] == b[n - 1];
      assert Subtotal(a + b) == Subtotal(a + b[..n - 1]) + LineTotal(b[n - 1]);
      SubtotalAppend(a, b[..n - 1]);
      assert Subtotal(b) == Subtotal(b[..n - 1]) + LineTotal(b[n - 1]);
    } else {
      assert a + b == a;
    }
  }

  /** Replacing line `k` changes the subtotal by exactly the difference of the two lines. */
  lemma {:induction false} SubtotalReplace(cart: seq<CartItem>, k: nat, item: CartItem)
    requires k < |cart|
    ensures Subtotal(cart[k := item]) == Subtotal(cart) - LineTotal(cart[k]) + LineTotal(item)
  {
    var pre, post := cart[..k], cart[k + 1..];
    assert cart == pre + [cart[k]] + post;
    assert cart[k := item] == pre + [item] + post;
    SubtotalAppend(pre + [cart[k]], post);
    SubtotalAppend(pre + [item], post);
    SubtotalAppend(pre, [cart[k]]);
    SubtotalAppend(pre, [item]);
    assert Subtotal([cart[k]]) == LineTotal(cart[k]) by { assert [cart[k]][..0] == []; }
    assert Subtotal([item]) == LineTotal(item) by { assert [item][..0] == []; }
  }

  /** Deleting line `k` lowers the subtotal by exactly that line's total. */
  lemma {:induction false} SubtotalDelete(cart: seq<CartItem>, k: nat)
    requires k < |cart|
    ensures Subtotal(cart[..k] + cart[k + 1..]) == Subtotal(cart) - LineTotal(cart[k])
  {
    var pre, mid, post := cart[..k], [cart[k]], cart[k + 1..];
    assert cart == pre + mid + post;
    SubtotalAppend(pre + mid, post);
    SubtotalAppend(pre, mid);
    SubtotalAppend(pre, post);
    assert Subtotal(mid) == LineTotal(cart[k]) by { assert mid[..0] == []; }
  }

  // ---------------------------------------------------------------------------
  // ADD_TO_CART

  /** Adding a product that has a line keeps the length, grows that line (the first with
      the id) by `quantity` in place, and leaves every other line as it was. */
  lemma AddExisting(s: StoreState, product: Product, quantity: int, k: nat)
    requires k < |s.cart| && s.cart[k].product.id == product.id
    requires forall j :: 0 <= j < k ==> s.cart[j].product.id != product.id
    ensures Reduce(s, AddToCart(product, quantity)).notice == Updated(product.name)
    ensures var c := Reduce(s, AddToCart(product, quantity)).state.cart;
      |c| == |s.cart| &&
      c[k] == CartItem(s.cart[k].product, s.cart[k].quantity + quantity) &&
      (forall i :: 0 <= i < |c| && i != k ==> c[i] == s.cart[i])
  {
    assert FindLine(s.cart, product.id) == k;
  }

  /** Adding a product without a line appends it as the last line; the earlier lines are
      unchanged and the cart grows by one. */
  lemma AddNew(s: StoreState, product: Product, quantity: int)
    requires !InCart(s.cart, product.id)
    ensures Reduce(s, AddToCart(product, quantity)).notice == Added(product.name)
    ensures Reduce(s, AddToCart(product, quantity)).state.cart == s.cart + [CartItem(product, quantity)]
  {
  }

  /** From a consistent state, the recomputed subtotal after an add equals the old one plus
      the added amount priced at the line's own product: the existing line's product when
      there is one (its record is kept), the added product otherwise. */
  lemma AddSubtotal(s: StoreState, product: Product, quantity: int)
    requires Consistent(s)
    ensures var k := FindLine(s.cart, product.id);
      Reduce(s, AddToCart(product, quantity)).state.subtotal ==
        s.subtotal + (if k >= 0 then s.cart[k].product.price else product.price) * quantity
  {
    var k := FindLine(s.cart, product.id);
    var c := AddLine(s.cart, product, quantity);
    assert Reduce(s, AddToCart(product, quantity)).state.subtotal == Subtotal(c);
    if k >= 0 {
      var line := s.cart[k];
      var grown := line.(quantity := line.quantity + quantity);
      assert c == s.cart[k := grown];
      SubtotalReplace(s.cart, k, grown);
      assert LineTotal(grown) == LineTotal(line) + line.product.price * quantity by {
        assert line.product.price * (line.quantity + quantity) ==
          line.product.price * line.quantity + line.product.price * quantity;
      }
    } else {
      var added := CartItem(product, quantity);
      assert c == s.cart + [added];
      SubtotalAppend(s.cart, [added]);
      assert Subtotal([added]) == LineTotal(added) by { assert [added][..0] == []; }
    }
  }

  /** Adding is cumulative: adding `a` and then `b` of a product leaves the same cart as
      adding `a + b` at once. */
  lemma AddCumulative(s: StoreState, product: Product, a: int, b: int)
    ensures Reduce(Reduce(s, AddToCart(product, a)).state, AddToCart(product, b)).state ==
            Reduce(s, AddToCart(product, a + b)).state
  {
    var c1 := AddLine(s.cart, product, a);
    assert Reduce(s, AddToCart(product, a)).state == WithCart(c1);
    assert Reduce(WithCart(c1), AddToCart(product, b)).state == WithCart(AddLine(c1, product, b));
    AddLineCumulative(s.cart, product, a, b);
  }

  lemma AddLineCumulative(cart: seq<CartItem>, product: Product, a: int, b: int)
    ensures AddLine(AddLine(cart, product, a), product, b) == AddLine(cart, product, a + b)
  {
    var c1 := AddLine(cart, product, a);
    var k := FindLine(cart, product.id);
    if k >= 0 {
      assert forall i :: 0 <= i < |c1| ==> c1[i].product == cart[i].product;
      assert FindLine(c1, product.id) == k;
    } else {
      assert c1[|cart|].product.id == product.id;
      assert FindLine(c1, product.id) == |cart|;
    }
  }

  // ---------------------------------------------------------------------------
  // REMOVE_FROM_CART

  /** Removing leaves no line for the id, keeps exactly the other lines (every copy) in
      their original relative order, and always shows the "removed" toast. */
  lemma RemoveDropsId(s: StoreState, id: int)
    ensures Reduce(s, RemoveFromCart(id)).notice == Removed
    ensures var c := Reduce(s, RemoveFromCart(id)).state.cart;
      !InCart(c, id) &&
      (forall item :: item in c <==> item in s.cart && item.product.id != id) &&
      (forall item :: multiset(c)[item] == if item.product.id != id then multiset(s.cart)[item] else 0) &&
      IsSubsequence(c, s.cart)
  {
    var c := RemoveLines(s.cart, id);
    FilterIsSubsequence(s.cart, OtherProduct(id));
    FilterCounts(s.cart, OtherProduct(id));
    forall i | 0 <= i < |c| ensures c[i].product.id != id {
      assert c[i] in c;
    }
  }

  /** Removing an id that has no line leaves a consistent state exactly as it was (the
      "removed" toast still fires). */
  lemma RemoveAbsent(s: StoreState, id: int)
    requires Consistent(s) && !InCart(s.cart, id)
    ensures Reduce(s, RemoveFromCart(id)) == Transition(s, Removed)
  {
    FilterKeepsAll(s.cart, OtherProduct(id));
  }

  /** With one line per product, removing the id at line `k` deletes exactly that line
      and lowers the subtotal by its total. */
  lemma RemovePresent(s: StoreState, id: int, k: nat)
    requires Invariant(s) && k < |s.cart| && s.cart[k].product.id == id
    ensures Reduce(s, RemoveFromCart(id)).state.cart == s.cart[..k] + s.cart[k + 1..]
    ensures Reduce(s, RemoveFromCart(id)).state.subtotal == s.subtotal - LineTotal(s.cart[k])
  {
    FilterDropsOne(s.cart, OtherProduct(id), k);
    SubtotalDelete(s.cart, k);
  }

  // ---------------------------------------------------------------------------
  // UPDATE_QUANTITY

  /** A quantity of zero or less behaves exactly like REMOVE_FROM_CART of that id. */
  lemma UpdateNonPositiveIsRemove(s: StoreState, id: int, quantity: int)
    requires quantity <= 0
    ensures Reduce(s, UpdateQuantity(id, quantity)) == Reduce(s, RemoveFromCart(id))
  {
  }

  /** A positive quantity is set absolutely on every line for the id, shows no toast, and
      keeps the length, the order and every other line. */
  lemma UpdatePositive(s: StoreState, id: int, quantity: int)
    requires quantity > 0
    ensures Reduce(s, UpdateQuantity(id, quantity)).notice == NoNotice
    ensures var c := Reduce(s, UpdateQuantity(id, quantity)).state.cart;
      |c| == |s.cart| &&
      (forall i :: 0 <= i < |c| ==> c[i].product == s.cart[i].product) &&
      (forall i :: 0 <= i < |c| && s.cart[i].product.id == id ==> c[i].quantity == quantity) &&
      (forall i :: 0 <= i < |c| && s.cart[i].product.id != id ==> c[i] == s.cart[i])
  {
  }

  /** A positive update of an id with no line leaves a consistent state unchanged. */
  lemma UpdateAbsent(s: StoreState, id: int, quantity: int)
    requires Consistent(s) && quantity > 0 && !InCart(s.cart, id)
    ensures Reduce(s, UpdateQuantity(id, quantity)) == Transition(s, NoNotice)
  {
    assert SetQuantity(s.cart, id, quantity) == s.cart;
  }

  /** With one line per product, a positive update of the line at `k` changes the
      subtotal by the line's price times the change in quantity. */
  lemma UpdateSubtotal(s: StoreState, id: int, quantity: int, k: nat)
    requires Invariant(s) && quantity > 0 && k < |s.cart| && s.cart[k].product.id == id
    ensures Reduce(s, UpdateQuantity(id, quantity)).state.cart ==
            s.cart[k := s.cart[k].(quantity := quantity)]
    ensures Reduce(s, UpdateQuantity(id, quantity)).state.subtotal ==
            s.subtotal + s.cart[k].product.price * (quantity - s.cart[k].quantity)
  {
    var item := s.cart[k].(quantity := quantity);
    assert Reduce(s, UpdateQuantity(id, quantity)).state == WithCart(SetQuantity(s.cart, id, quantity));
    SetQuantityAt(s.cart, id, quantity, k);
    SubtotalReplace(s.cart, k, item);
    assert LineTotal(item) - LineTotal(s.cart[k]) == s.cart[k].product.price * (quantity - s.cart[k].quantity);
  }

  lemma SetQuantityAt(cart: seq<CartItem>, id: int, quantity: int, k: nat)
    requires UniqueIds(cart) && k < |cart| && cart[k].product.id == id
    ensures SetQuantity(cart, id, quantity) == cart[k := cart[k].(quantity := quantity)]
  {
    var c := SetQuantity(cart, id, quantity);
    forall i | 0 <= i < |cart| && i != k ensures c[i] == cart[i] {
      assert cart[i].product.id != id by {
        if i < k { assert cart[i].product.id != cart[k].product.id; }
        else { assert cart[k].product.id != cart[i].product.id; }
      }
    }
  }

  /** Updates are absolute: a positive update followed by another update of the same id
      ends where the second update alone ends. */
  lemma UpdateOverwrites(s: StoreState, id: int, a: int, b: int)
    requires a > 0
    ensures Reduce(Reduce(s, UpdateQuantity(id, a)).state, UpdateQuantity(id, b)) ==
            Reduce(s, UpdateQuantity(id, b))
  {
    var c1 := SetQuantity(s.cart, id, a);
    if b > 0 {
      assert SetQuantity(c1, id, b) == SetQuantity(s.cart, id, b);
    } else {
      RemoveAfterSet(s.cart, id, a);
    }
  }

  /** Setting the quantity of the lines that are then removed makes no difference. */
  lemma {:induction false} RemoveAfterSet(cart: seq<CartItem>, id: int, a: int)
    ensures RemoveLines(SetQuantity(cart, id, a), id) == RemoveLines(cart, id)
  {
    if cart != [] {
      RemoveAfterSet(cart[1..], id, a);
      assert SetQuantity(cart, id, a)[1..] == SetQuantity(cart[1..], id, a);
    }
  }

  // ---------------------------------------------------------------------------
  // CLEAR_CART

  /** Clearing yields the empty cart with subtotal 0 from any state, so it is idempotent. */
  lemma ClearEmpties(s: StoreState)
    ensures Reduce(s, ClearCart) == Transition(InitialState, Cleared)
    ensures Reduce(Reduce(s, ClearCart).state, ClearCart) == Reduce(s, ClearCart)
  {
  }

  // ---------------------------------------------------------------------------
  // Invariants over every action and every run.

  lemma {:induction false} RemoveKeepsUniqueIds(cart: seq<CartItem>, p: CartItem -> bool)
    requires UniqueIds(cart)
    ensures UniqueIds(Filter(cart, p))
  {
    if cart != [] {
      var rest := cart[1..];
      RemoveKeepsUniqueIds(rest, p);
      if p(cart[0]) {
        var r := Filter(cart, p);
        assert r == [cart[0]] + Filter(rest, p);
        forall j | 0 < j < |r| ensures r[0].product.id != r[j].product.id {
          assert r[j] in Filter(rest, p);
          var m :| 0 <= m < |rest| && rest[m] == r[j];
          assert cart[m + 1] == r[j];
        }
        forall i, j | 0 < i < j < |r| ensures r[i].product.id != r[j].product.id {
          assert r[i] == Filter(rest, p)[i - 1] && r[j] == Filter(rest, p)[j - 1];
        }
      }
    }
  }

  /** "At most one line per product id" survives every action. */
  lemma ReduceKeepsUniqueIds(s: StoreState, action: StoreAction)
    requires UniqueIds(s.cart)
    ensures UniqueIds(Reduce(s, action).state.cart)
  {
    match action
    case AddToCart(product, quantity) =>
    case RemoveFromCart(id) =>
      RemoveKeepsUniqueIds(s.cart, OtherProduct(id));
    case UpdateQuantity(id, quantity) =>
      if quantity <= 0 {
        RemoveKeepsUniqueIds(s.cart, OtherProduct(id));
      }
    case ClearCart =>
  }

  /** Every line has a positive quantity. */
  predicate PositiveQuantities(cart: seq<CartItem>)
  {
    forall i :: 0 <= i < |cart| ==> cart[i].quantity > 0
  }

  /** Lines keep positive quantities under every action except an add of a non-positive
      amount, which the reducer does not reject. */
  lemma ReduceKeepsPositiveQuantities(s: StoreState, action: StoreAction)
    requires PositiveQuantities(s.cart)
    requires action.AddToCart? ==> action.quantity > 0
    ensures PositiveQuantities(Reduce(s, action).state.cart)
  {
    if action.RemoveFromCart? || (action.UpdateQuantity? && action.quantity <= 0) {
      var c := RemoveLines(s.cart, action.productId);
      forall i | 0 <= i < |c| ensures c[i].quantity > 0 {
        assert c[i] in s.cart;
      }
    }
  }

  /** From any state that keeps the invariant (the initial one among them), any sequence of
      actions reaches a state whose subtotal is the sum of price times quantity over its
      lines and which has one line per product. */
  lemma {:induction false} RunKeepsInvariant(s: StoreState, actions: seq<StoreAction>)
    requires Invariant(s)
    ensures Invariant(Run(s, actions))
    decreases |actions|
  {
    if actions != [] {
      ReduceKeepsUniqueIds(s, actions[0]);
      RunKeepsInvariant(Reduce(s, actions[0]).state, actions[1..]);
    }
  }

  /** The provider's starting state satisfies the store invariant. */
  lemma InitialInvariant()
    ensures Invariant(InitialState)
  {
  }

  // ---------------------------------------------------------------------------
  // The provider: one mutable cell holding the current state.

  /** `StoreProvider`: holds the current state and offers the four cart operations, each of
      which dispatches one action to the reducer and replaces the held state with the
      reducer's result. Each operation returns the toast it shows. */
  class StoreProvider {
    var state: StoreState

    /** The held state keeps the store invariant. */
    ghost predicate Valid()
      reads this
    {
      Invariant(state)
    }

    /** `useReducer(storeReducer, initialState)`. */
    constructor ()
      ensures Valid() && state == InitialState
    {
      state := InitialState;
    }

    /** `dispatch(action)`: replace the state by the reducer's next state. */
    method Dispatch(action: StoreAction) returns (notice: Notice)
      requires Valid()
      modifies this
      ensures Valid()
      ensures Transition(state, notice) == Reduce(old(state), action)
    {
      ReduceKeepsUniqueIds(state, action);
      var t := Reduce(state, action);
      state := t.state;
      notice := t.notice;
    }

    /** `addToCart(product, quantity)`. */
    method AddToCart(product: Product, quantity: int) returns (notice: Notice)
      requires Valid()
      modifies this
      ensures Valid()
      ensures Transition(state, notice) == Reduce(old(state), StoreAction.AddToCart(product, quantity))
      ensures InCart(state.cart, product.id)
      ensures notice == if InCart(old(state.cart), product.id) then Updated(product.name) else Added(product.name)
      ensures state.subtotal == old(state.subtotal) +
        (if InCart(old(state.cart), product.id)
         then old(state.cart)[FindLine(old(state.cart), product.id)].product.price
         else product.price) * quantity
    {
      AddSubtotal(state, product, quantity);
      ghost var k := FindLine(state.cart, product.id);
      if k >= 0 {
        AddExisting(state, product, quantity, k);
      } else {
        AddNew(state, product, quantity);
        k := |state.cart|;
      }
      notice := Dispatch(StoreAction.AddToCart(product, quantity));
      assert state.cart[k].product.id == product.id;
    }

    /** `removeFromCart(productId)`. */
    method RemoveFromCart(productId: int) returns (notice: Notice)
      requires Valid()
      modifies this
      ensures Valid()
      ensures Transition(state, notice) == Reduce(old(state), StoreAction.RemoveFromCart(productId))
      ensures !InCart(state.cart, productId) && notice == Removed
      ensures !InCart(old(state.cart), productId) ==> state == old(state)
    {
      RemoveDropsId(state, productId);
      if !InCart(state.cart, productId) {
        RemoveAbsent(state, productId);
      }
      notice := Dispatch(StoreAction.RemoveFromCart(productId));
    }

    /** `updateQuantity(productId, quantity)`. */
    method UpdateQuantity(productId: int, quantity: int) returns (notice: Notice)
      requires Valid()
      modifies this
      ensures Valid()
      ensures Transition(state, notice) == Reduce(old(state), StoreAction.UpdateQuantity(productId, quantity))
      ensures quantity <= 0 ==> !InCart(state.cart, productId) && notice == Removed
      ensures quantity > 0 ==> |state.cart| == |old(state.cart)| && notice == NoNotice
      ensures quantity > 0 ==> forall i :: 0 <= i < |state.cart| && state.cart[i].product.id == productId ==>
        state.cart[i].quantity == quantity
    {
      if quantity <= 0 {
        RemoveDropsId(state, productId);
      } else {
        UpdatePositive(state, productId, quantity);
      }
      notice := Dispatch(StoreAction.UpdateQuantity(productId, quantity));
    }

    /** `clearCart()`. */
    method ClearCart() returns (notice: Notice)
      requires Valid()
      modifies this
      ensures Valid()
      ensures state == InitialState && notice == Cleared
    {
      notice := Dispatch(StoreAction.ClearCart);
    }
  }
}
