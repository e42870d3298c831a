/** The cart side of client/src/components/CartSidebar.tsx: the quantity
    handlers behind the minus and plus buttons, and sending the order, which
    hands the lines and total to the messaging service and empties the cart.
    The message itself is not part of this model. */
module CartSidebar {
  import opened Wrappers
  import opened Schema
  import opened Cart

  /** What is handed to the messaging service. */
  datatype Order = Order(items: seq<CartItem>, user: User, totalAmount: real)

  /** `handleQuantityChange`: a quantity of zero or less removes the line,
      any other quantity is set on it. */
  method HandleQuantityChange(cart: CartProvider, itemId: string, newQuantity: int)
    requires cart.Valid()
    modifies cart
    ensures cart.Valid()
    ensures newQuantity <= 0 ==> cart.Items() == WithoutLine(old(cart.Items()), itemId)
    ensures newQuantity > 0 ==> cart.Items() == WithLineQuantity(old(cart.Items()), itemId, newQuantity)
  {
    if newQuantity <= 0 {
      cart.RemoveItem(itemId);
    } else {
      cart.UpdateQuantity(itemId, newQuantity);
    }
  }

  /** The handler's own test for a non-positive quantity agrees with the
      reducer's: removing and setting a non-positive quantity are one action. */
  lemma HandlerAgreesWithReducer(state: CartState, itemId: string, q: int)
    ensures q <= 0 ==> Reduce(state, RemoveItem(itemId)) == Reduce(state, UpdateQuantity(itemId, q))
    ensures Reduce(state, UpdateQuantity(itemId, q)).items ==
            (if q <= 0 then WithoutLine(state.items, itemId) else WithLineQuantity(state.items, itemId, q))
  {
  }

  /** The minus button: one less of the line. */
  method Decrement(cart: CartProvider, line: CartItem)
    requires cart.Valid()
    modifies cart
    ensures cart.Valid()
    ensures line.quantity <= 1 ==> cart.Items() == WithoutLine(old(cart.Items()), line.id)
    ensures line.quantity > 1 ==> cart.Items() == WithLineQuantity(old(cart.Items()), line.id, line.quantity - 1)
  {
    HandleQuantityChange(cart, line.id, line.quantity - 1);
  }

  /** The plus button: one more of the line. */
  method Increment(cart: CartProvider, line: CartItem)
    requires cart.Valid()
    modifies cart
    ensures cart.Valid()
    ensures line.quantity >= 0 ==> cart.Items() == WithLineQuantity(old(cart.Items()), line.id, line.quantity + 1)
  {
    HandleQuantityChange(cart, line.id, line.quantity + 1);
  }

  /** Decrementing a line of quantity one removes exactly that line, keeps
      the others in order, and lowers the count of items by one. */
  lemma DecrementLastRemoves(items: seq<CartItem>, k: nat)
    requires UniqueIds(items) && k < |items| && items[k].quantity == 1
    ensures var r := WithoutLine(items, items[k].id);
            && r == items[..k] + items[k + 1..]
            && TotalItemsOf(r) == TotalItemsOf(items) - 1
  {
    WithoutUniqueLine(items, k);
  }

  /** Dropping the one line with a unique id: the rest in order, and that
      line's quantity fewer items. */
  lemma WithoutUniqueLine(items: seq<CartItem>, k: nat)
    requires UniqueIds(items) && k < |items|
    ensures WithoutLine(items, items[k].id) == items[..k] + items[k + 1..]
    ensures TotalItemsOf(WithoutLine(items, items[k].id)) == TotalItemsOf(items) - items[k].quantity
  {
    WithoutUniqueLineOrder(items, k);
    var pre, mid, post := items[..k], [items[k]], items[k + 1..];
    assert items == pre + mid + post;
    SumQuantitiesAppend(pre + mid, post);
    SumQuantitiesAppend(pre, mid);
    SumQuantitiesAppend(pre, post);
    assert SumQuantities(mid, 0) == items[k].quantity by {
      assert SumQuantities(mid[1..], items[k].quantity) == items[k].quantity;
    }
  }

  lemma WithoutUniqueLineOrder(items: seq<CartItem>, k: nat)
    requires UniqueIds(items) && k < |items|
    ensures WithoutLine(items, items[k].id) == items[..k] + items[k + 1..]
  {
    var id := items[k].id;
    var keep := (l: CartItem) => l.id != id;
    var pre, mid, post := items[..k], [items[k]], items[k + 1..];
    forall i | 0 <= i < |pre| ensures keep(pre[i]) {
      assert pre[i] == items[i];
    }
    forall i | 0 <= i < |post| ensures keep(post[i]) {
      assert post[i] == items[k + 1 + i];
    }
    calc {
      WithoutLine(items, id);
      Seqs.Filter(items, keep);
      { assert items == (pre + mid) + post; }
      Seqs.Filter((pre + mid) + post, keep);
      { Seqs.FilterAppend(pre + mid, post, keep); }
      Seqs.Filter(pre + mid, keep) + Seqs.Filter(post, keep);
      { Seqs.FilterAppend(pre, mid, keep); }
      Seqs.Filter(pre, keep) + Seqs.Filter(mid, keep) + Seqs.Filter(post, keep);
      { Seqs.FilterKeepsAll(pre, keep); Seqs.FilterKeepsAll(post, keep); }
      pre + Seqs.Filter(mid, keep) + post;
      { assert Seqs.Filter(mid, keep) == []; }
      pre + post;
    }
  }

  /** The count of items of two lists of lines together. */
  lemma {:induction false} SumQuantitiesAppend(a: seq<CartItem>, b: seq<CartItem>)
    ensures SumQuantities(a + b, 0) == SumQuantities(a, 0) + SumQuantities(b, 0)
    decreases |a|
  {
    if a == [] {
      assert a + b == b;
    } else {
      assert (a + b)[1..] == a[1..] + b;
      SumQuantitiesShift((a + b)[1..], a[0].quantity);
      SumQuantitiesShift(a[1..], a[0].quantity);
      SumQuantitiesAppend(a[1..], b);
    }
  }

  /** `handleSendWhatsApp`: nothing when the cart is empty; otherwise the
      lines and total are handed over and the cart is emptied. */
  method HandleSendWhatsApp(cart: CartProvider, user: User) returns (sent: Option<Order>)
    requires cart.Valid()
    modifies cart
    ensures cart.Valid()
    ensures old(cart.Items()) == [] ==> sent == None && cart.state == old(cart.state)
    ensures old(cart.Items()) != [] ==>
              sent == Some(Order(old(cart.Items()), user, old(cart.TotalAmount()))) && cart.Items() == []
  {
    if |cart.Items()| == 0 {
      return None;
    }
    sent := Some(Order(cart.Items(), user, cart.TotalAmount()));
    cart.ClearCart();
  }

  /** The total handed over is the sum of the lines' unit price times
      quantity. */
  lemma SentTotalIsPrice(items: seq<CartItem>, user: User)
    requires WellPriced(items)
    ensures Order(items, user, TotalAmountOf(items)).totalAmount == PriceOfLines(items)
  {
    TotalAmountIsPriceOfLines(items);
  }
}
