/** Worked runs of the cart store on small carts, stated as lemmas over the reducer. */
module StoreScenarios {
  import opened Models
  import opened Store

  const A := Product(1, "A", "", 1299, "", "x", false, true, 0)
  const B := Product(2, "B", "", 8999, "", "x", false, true, 0)
  const C := Product(3, "C", "", 500, "", "y", false, true, 0)

  /** Adding A once and B twice, setting A to 3 and removing B moves the subtotal through
      12.99, 192.97, 218.95 and 38.97. */
  lemma PricedRun()
    ensures var s1 := Reduce(InitialState, AddToCart(A, 1)).state;
      var s2 := Reduce(s1, AddToCart(B, 2)).state;
      var s3 := Reduce(s2, UpdateQuantity(A.id, 3)).state;
      var s4 := Reduce(s3, RemoveFromCart(B.id)).state;
      s1.subtotal == 1299 && s2.subtotal == 19297 && s3.subtotal == 21895 &&
      s4 == StoreState([CartItem(A, 3)], 3897)
  {
    var s1 := Reduce(InitialState, AddToCart(A, 1)).state;
    AddNew(InitialState, A, 1);
    AddSubtotal(InitialState, A, 1);
    var s2 := Reduce(s1, AddToCart(B, 2)).state;
    AddNew(s1, B, 2);
    AddSubtotal(s1, B, 2);
    assert s2.cart == [CartItem(A, 1), CartItem(B, 2)];
    var s3 := Reduce(s2, UpdateQuantity(A.id, 3)).state;
    UpdateSubtotal(s2, A.id, 3, 0);
    assert s3.cart == [CartItem(A, 3), CartItem(B, 2)];
    RemovePresent(s3, B.id, 1);
  }

  /** Adding 2 and then 3 of a product leaves one line with quantity 5. */
  lemma CumulativeAdd()
    ensures Run(InitialState, [AddToCart(A, 2), AddToCart(A, 3)]).cart == [CartItem(A, 5)]
  {
    var acts := [AddToCart(A, 2), AddToCart(A, 3)];
    var s1 := Reduce(InitialState, AddToCart(A, 2)).state;
    AddNew(InitialState, A, 2);
    AddExisting(s1, A, 3, 0);
    assert acts[1..] == [AddToCart(A, 3)] && acts[1..][1..] == [];
    assert Run(InitialState, acts) == Run(s1, acts[1..]) == Run(Reduce(s1, AddToCart(A, 3)).state, []);
  }

  /** From quantity 5, updating to 2 gives 2 (not 7); updating to 0 or -1 removes the line. */
  lemma AbsoluteUpdate()
    ensures Reduce(StoreState([CartItem(A, 5)], 6495), UpdateQuantity(1, 2)).state.cart == [CartItem(A, 2)]
    ensures Reduce(StoreState([CartItem(A, 5)], 6495), UpdateQuantity(1, 0)).state.cart == []
    ensures Reduce(StoreState([CartItem(A, 5)], 6495), UpdateQuantity(1, -1)).state.cart == []
  {
    RemovePresent(StoreState([CartItem(A, 5)], 6495), 1, 0);
  }

  /** Lines stay in insertion order: adding A, B and C and then removing B leaves [A, C]. */
  lemma InsertionOrder()
    ensures Run(InitialState, [AddToCart(A, 1), AddToCart(B, 1), AddToCart(C, 1), RemoveFromCart(2)]).cart ==
            [CartItem(A, 1), CartItem(C, 1)]
  {
    var s1 := Reduce(InitialState, AddToCart(A, 1)).state;
    AddNew(InitialState, A, 1);
    var s2 := Reduce(s1, AddToCart(B, 1)).state;
    AddNew(s1, B, 1);
    var s3 := Reduce(s2, AddToCart(C, 1)).state;
    AddNew(s2, C, 1);
    assert s3.cart == [CartItem(A, 1), CartItem(B, 1), CartItem(C, 1)];
    RemovePresent(s3, 2, 1);
    var acts := [AddToCart(A, 1), AddToCart(B, 1), AddToCart(C, 1), RemoveFromCart(2)];
    assert acts[1..] == [AddToCart(B, 1), AddToCart(C, 1), RemoveFromCart(2)];
    assert acts[1..][1..] == [AddToCart(C, 1), RemoveFromCart(2)];
    assert acts[1..][1..][1..] == [RemoveFromCart(2)];
    assert acts[1..][1..][1..][1..] == [];
    assert Run(InitialState, acts) == Run(s1, acts[1..]) == Run(s2, acts[1..][1..]) ==
           Run(s3, acts[1..][1..][1..]) == Reduce(s3, RemoveFromCart(2)).state;
  }

  /** Removing an absent id leaves the state as it was; the toast still says "removed". */
  lemma RemoveAbsentKeepsState()
    ensures Reduce(StoreState([CartItem(A, 1)], 1299), RemoveFromCart(2)) ==
            Transition(StoreState([CartItem(A, 1)], 1299), Removed)
  {
    RemoveAbsent(StoreState([CartItem(A, 1)], 1299), 2);
  }
}
