/** The shopping cart of client/src/contexts/CartContext.tsx: a reducer that is
    a total transition function over the list of cart lines (ADD_ITEM,
    UPDATE_QUANTITY, REMOVE_ITEM, CLEAR_CART), the totals derived from the
    lines, and the provider object that holds the current state. */
module Cart {
  import opened Schema
  import Seqs

  datatype CartState = CartState(items: seq<CartItem>)

  /** The ADD_ITEM payload: a cart line without its id and its total. */
  datatype NewItem = NewItem(
    productId: string, productName: string, productImage: string,
    colorId: string, colorName: string, quantity: int, unitPrice: real)

  /** The reducer's actions. ADD_ITEM carries the id that `crypto.randomUUID()`
      would give a new line, since the reducer itself cannot generate one here. */
  datatype Action =
    | AddItem(item: NewItem, freshId: string)
    | UpdateQuantity(itemId: string, quantity: int)
    | RemoveItem(itemId: string)
    | ClearCart

  function LineTotal(unitPrice: real, quantity: int): real {
    unitPrice * quantity as real
  }

  /** The line is for the same product in the same colour as the payload. */
  predicate SameLine(line: CartItem, item: NewItem) {
    line.productId == item.productId && line.colorId == item.colorId
  }

  /** Two lines are not for the same product in the same colour. */
  predicate DistinctLines(a: CartItem, b: CartItem) {
    !(a.productId == b.productId && a.colorId == b.colorId)
  }

  /** The line with its quantity replaced and its total recomputed. */
  function WithQuantity(line: CartItem, quantity: int): CartItem {
    line.(quantity := quantity, totalPrice := LineTotal(line.unitPrice, quantity))
  }

  /** The line ADD_ITEM appends when no line matches the payload. */
  function NewLine(item: NewItem, id: string): CartItem {
    CartItem(id, item.productId, item.productName, item.productImage, item.colorId,
             item.colorName, item.quantity, item.unitPrice, LineTotal(item.unitPrice, item.quantity))
  }

  /** `findIndex` of the line for the payload's product and colour, or -1. */
  function LineIndex(items: seq<CartItem>, item: NewItem): int {
    Seqs.IndexWhere(items, (l: CartItem) => SameLine(l, item))
  }

  /** `items.filter(item => item.id !== id)` */
  function WithoutLine(items: seq<CartItem>, id: string): seq<CartItem> {
    Seqs.Filter(items, (l: CartItem) => l.id != id)
  }

  /** `items.map(...)` that gives the lines with that id the new quantity. */
  function WithLineQuantity(items: seq<CartItem>, id: string, quantity: int): seq<CartItem> {
    Seqs.UpdateWhere(items, (l: CartItem) => l.id == id, (l: CartItem) => WithQuantity(l, quantity))
  }

  /** `cartReducer` */
  function Reduce(state: CartState, action: Action): CartState {
    match action
    case AddItem(item, freshId) =>
      var k := LineIndex(state.items, item);
      if k >= 0 then
        var existing := state.items[k];
        CartState(state.items[k := WithQuantity(existing, existing.quantity + item.quantity)])
      else
        CartState(state.items + [NewLine(item, freshId)])
    case UpdateQuantity(itemId, quantity) =>
      if quantity <= 0 then CartState(WithoutLine(state.items, itemId))
      else CartState(WithLineQuantity(state.items, itemId, quantity))
    case RemoveItem(itemId) =>
      CartState(WithoutLine(state.items, itemId))
    case ClearCart =>
      CartState([])
  }

  // ----- Totals -----

  /** `items.reduce((total, item) => total + item.quantity, acc)` */
  function SumQuantities(items: seq<CartItem>, acc: int): int
    decreases |items|
  {
    if items == [] then acc else SumQuantities(items[1..], acc + items[0].quantity)
  }

  /** `items.reduce((total, item) => total + item.totalPrice, acc)` */
  function SumTotals(items: seq<CartItem>, acc: real): real
    decreases |items|
  {
    if items == [] then acc else SumTotals(items[1..], acc + items[0].totalPrice)
  }

  function TotalItemsOf(items: seq<CartItem>): int { SumQuantities(items, 0) }

  function TotalAmountOf(items: seq<CartItem>): real { SumTotals(items, 0.0) }

  /** Reference definition: the sum of unit price times quantity over the lines. */
  function PriceOfLines(items: seq<CartItem>): real
    decreases |items|
  {
    if items == [] then 0.0
    else LineTotal(items[0].unitPrice, items[0].quantity) + PriceOfLines(items[1..])
  }

  // ----- Invariants -----

  /** At most one line per (product, colour). */
  ghost predicate OneLinePerProduct(items: seq<CartItem>) {
    Seqs.Pairwise(items, DistinctLines)
  }

  /** Every line's total is its unit price times its quantity. */
  ghost predicate WellPriced(items: seq<CartItem>) {
    forall i :: 0 <= i < |items| ==> items[i].totalPrice == LineTotal(items[i].unitPrice, items[i].quantity)
  }

  /** No two lines share an id. */
  ghost predicate UniqueIds(items: seq<CartItem>) {
    forall i, j :: 0 <= i < j < |items| ==> items[i].id != items[j].id
  }

  // ----- ADD_ITEM -----

  /** Adding a product+colour that is already in the cart adds to the first such
      line: its quantity grows by the added quantity, its total is recomputed
      from its own unit price, and nothing else changes. */
  lemma AddItemMerges(state: CartState, item: NewItem, freshId: string)
    requires exists j :: 0 <= j < |state.items| && SameLine(state.items[j], item)
    ensures var k := LineIndex(state.items, item);
            var r := Reduce(state, AddItem(item, freshId)).items;
            && 0 <= k < |state.items|
            && SameLine(state.items[k], item)
            && (forall j :: 0 <= j < k ==> !SameLine(state.items[j], item))
            && |r| == |state.items|
            && r[k] == state.items[k].(quantity := state.items[k].quantity + item.quantity,
                                       totalPrice := LineTotal(state.items[k].unitPrice, state.items[k].quantity + item.quantity))
            && (forall j :: 0 <= j < |r| && j != k ==> r[j] == state.items[j])
  {
  }

  /** Adding a product+colour that is not in the cart appends exactly one line,
      with the fresh id and total unit price times quantity. */
  lemma AddItemAppends(state: CartState, item: NewItem, freshId: string)
    requires forall j :: 0 <= j < |state.items| ==> !SameLine(state.items[j], item)
    ensures var r := Reduce(state, AddItem(item, freshId)).items;
            && |r| == |state.items| + 1
            && r[..|state.items|] == state.items
            && r[|state.items|] == CartItem(freshId, item.productId, item.productName, item.productImage, item.colorId,
                                            item.colorName, item.quantity, item.unitPrice, item.unitPrice * item.quantity as real)
            && SameLine(r[|state.items|], item)
  {
    assert LineIndex(state.items, item) == -1;
  }

  // ----- UPDATE_QUANTITY, REMOVE_ITEM, CLEAR_CART -----

  /** Removing a line by id leaves no line with that id, keeps every other line,
      and keeps their order. */
  lemma {:induction false} WithoutLineRemoves(items: seq<CartItem>, id: string)
    ensures var r := WithoutLine(items, id);
            && (forall i :: 0 <= i < |r| ==> r[i].id != id)
            && (forall i :: 0 <= i < |items| && items[i].id != id ==> items[i] in r)
            && Seqs.IsSubsequence(r, items)
            && ((forall i :: 0 <= i < |items| ==> items[i].id != id) ==> r == items)
  {
    Seqs.FilterIsSubsequence(items, (l: CartItem) => l.id != id);
    if forall i :: 0 <= i < |items| ==> items[i].id != id {
      Seqs.FilterKeepsAll(items, (l: CartItem) => l.id != id);
    }
  }

  /** UPDATE_QUANTITY to zero or less is REMOVE_ITEM. */
  lemma UpdateToZeroRemoves(state: CartState, itemId: string, quantity: int)
    requires quantity <= 0
    ensures Reduce(state, UpdateQuantity(itemId, quantity)) == Reduce(state, RemoveItem(itemId))
    ensures forall i :: 0 <= i < |Reduce(state, UpdateQuantity(itemId, quantity)).items| ==>
              Reduce(state, UpdateQuantity(itemId, quantity)).items[i].id != itemId
  {
    WithoutLineRemoves(state.items, itemId);
  }

  /** UPDATE_QUANTITY to a positive quantity sets the quantity and recomputes the
      total of exactly the lines with that id; the length is unchanged. */
  lemma UpdateQuantitySets(state: CartState, itemId: string, quantity: int)
    requires quantity > 0
    ensures var r := Reduce(state, UpdateQuantity(itemId, quantity)).items;
            && |r| == |state.items|
            && forall i :: 0 <= i < |r| ==>
                 if state.items[i].id == itemId then
                   r[i].quantity == quantity && r[i].totalPrice == state.items[i].unitPrice * quantity as real &&
                   r[i] == state.items[i].(quantity := r[i].quantity, totalPrice := r[i].totalPrice)
                 else r[i] == state.items[i]
  {
  }

  /** CLEAR_CART empties the cart, whatever it held. */
  lemma ClearCartEmpties(state: CartState)
    ensures Reduce(state, ClearCart).items == []
    ensures TotalItemsOf(Reduce(state, ClearCart).items) == 0
    ensures TotalAmountOf(Reduce(state, ClearCart).items) == 0.0
  {
  }

  // ----- Invariants preserved by every action -----

  /** Every action keeps at most one line per (product, colour). */
  lemma ReduceKeepsOneLinePerProduct(state: CartState, action: Action)
    requires OneLinePerProduct(state.items)
    ensures OneLinePerProduct(Reduce(state, action).items)
  {
    var s := state.items;
    var r := Reduce(state, action).items;
    match action
    case AddItem(item, freshId) =>
      var k := LineIndex(s, item);
      if k >= 0 {
        assert forall i :: 0 <= i < |r| ==> r[i].productId == s[i].productId && r[i].colorId == s[i].colorId;
        assert forall i, j :: 0 <= i < j < |r| ==> DistinctLines(s[i], s[j]);
      } else {
        forall i, j | 0 <= i < j < |r| ensures DistinctLines(r[i], r[j]) {
          if j == |s| {
            assert !SameLine(s[i], item);
          } else {
            assert DistinctLines(s[i], s[j]);
          }
        }
      }
    case UpdateQuantity(itemId, quantity) =>
      if quantity <= 0 {
        Seqs.FilterKeepsPairwise(s, (l: CartItem) => l.id != itemId, DistinctLines);
      } else {
        assert forall i :: 0 <= i < |r| ==> r[i].productId == s[i].productId && r[i].colorId == s[i].colorId;
        assert forall i, j :: 0 <= i < j < |r| ==> DistinctLines(s[i], s[j]);
      }
    case RemoveItem(itemId) =>
      Seqs.FilterKeepsPairwise(s, (l: CartItem) => l.id != itemId, DistinctLines);
    case ClearCart =>
  }

  /** Every action keeps each line's total equal to unit price times quantity. */
  lemma ReduceKeepsWellPriced(state: CartState, action: Action)
    requires WellPriced(state.items)
    ensures WellPriced(Reduce(state, action).items)
  {
    var s := state.items;
    var r := Reduce(state, action).items;
    match action
    case AddItem(item, freshId) =>
    case UpdateQuantity(itemId, quantity) =>
      if quantity <= 0 {
        forall i | 0 <= i < |r| ensures r[i].totalPrice == LineTotal(r[i].unitPrice, r[i].quantity) {
          assert r[i] in s;
        }
      }
    case RemoveItem(itemId) =>
      forall i | 0 <= i < |r| ensures r[i].totalPrice == LineTotal(r[i].unitPrice, r[i].quantity) {
        assert r[i] in s;
      }
    case ClearCart =>
  }

  /** Ids stay unique when ADD_ITEM's generated id is not already in use. */
  lemma ReduceKeepsUniqueIds(state: CartState, action: Action)
    requires UniqueIds(state.items)
    requires action.AddItem? ==> forall i :: 0 <= i < |state.items| ==> state.items[i].id != action.freshId
    ensures UniqueIds(Reduce(state, action).items)
  {
    var s := state.items;
    var r := Reduce(state, action).items;
    match action
    case AddItem(item, freshId) =>
    case UpdateQuantity(itemId, quantity) =>
      if quantity <= 0 {
        Seqs.FilterKeepsPairwise(s, (l: CartItem) => l.id != itemId, (a: CartItem, b: CartItem) => a.id != b.id);
      }
    case RemoveItem(itemId) =>
      Seqs.FilterKeepsPairwise(s, (l: CartItem) => l.id != itemId, (a: CartItem, b: CartItem) => a.id != b.id);
    case ClearCart =>
  }

  // ----- Totals -----

  /** The fold's accumulator can be taken out. */
  lemma {:induction false} SumQuantitiesShift(items: seq<CartItem>, acc: int)
    ensures SumQuantities(items, acc) == acc + SumQuantities(items, 0)
    decreases |items|
  {
    if items != [] {
      SumQuantitiesShift(items[1..], acc + items[0].quantity);
      SumQuantitiesShift(items[1..], items[0].quantity);
    }
  }

  lemma {:induction false} SumTotalsShift(items: seq<CartItem>, acc: real)
    ensures SumTotals(items, acc) == acc + SumTotals(items, 0.0)
    decreases |items|
  {
    if items != [] {
      SumTotalsShift(items[1..], acc + items[0].totalPrice);
      SumTotalsShift(items[1..], items[0].totalPrice);
    }
  }

  /** totalAmount equals the sum of unit price times quantity over the lines
      whenever every line is well priced. */
  lemma {:induction false} TotalAmountIsPriceOfLines(items: seq<CartItem>)
    requires WellPriced(items)
    ensures TotalAmountOf(items) == PriceOfLines(items)
    decreases |items|
  {
    if items != [] {
      SumTotalsShift(items[1..], items[0].totalPrice);
      TotalAmountIsPriceOfLines(items[1..]);
    }
  }

  /** Replacing one line changes totalItems by the difference in quantity. */
  lemma {:induction false} TotalItemsAfterReplace(items: seq<CartItem>, k: int, line: CartItem)
    requires 0 <= k < |items|
    ensures TotalItemsOf(items[k := line]) == TotalItemsOf(items) - items[k].quantity + line.quantity
    decreases |items|
  {
    SumQuantitiesShift(items[1..], items[0].quantity);
    SumQuantitiesShift(items[k := line][1..], items[k := line][0].quantity);
    if k > 0 {
      assert items[k := line][1..] == items[1..][k - 1 := line];
      TotalItemsAfterReplace(items[1..], k - 1, line);
    } else {
      assert items[k := line][1..] == items[1..];
    }
  }

  /** Appending a line adds its quantity to totalItems. */
  lemma {:induction false} TotalItemsAfterAppend(items: seq<CartItem>, line: CartItem)
    ensures TotalItemsOf(items + [line]) == TotalItemsOf(items) + line.quantity
    decreases |items|
  {
    if items == [] {
      assert items + [line] == [line];
      calc {
        SumQuantities([line], 0);
        SumQuantities([line][1..], line.quantity);
        { assert [line][1..] == []; }
        SumQuantities([], line.quantity);
      }
    } else {
      SumQuantitiesShift(items[1..], items[0].quantity);
      SumQuantitiesShift((items + [line])[1..], items[0].quantity);
      assert (items + [line])[1..] == items[1..] + [line];
      TotalItemsAfterAppend(items[1..], line);
    }
  }

  /** ADD_ITEM raises totalItems by exactly the quantity added, whether it
      merges into an existing line or appends a new one. */
  lemma AddItemTotalItems(state: CartState, item: NewItem, freshId: string)
    ensures TotalItemsOf(Reduce(state, AddItem(item, freshId)).items) == TotalItemsOf(state.items) + item.quantity
  {
    var k := LineIndex(state.items, item);
    if k >= 0 {
      var existing := state.items[k];
      TotalItemsAfterReplace(state.items, k, WithQuantity(existing, existing.quantity + item.quantity));
    } else {
      TotalItemsAfterAppend(state.items, NewLine(item, freshId));
    }
  }

  /** In a well-priced cart ADD_ITEM raises totalAmount by the added quantity
      at the unit price of the line it lands in: the existing line's price when
      it merges, the payload's price when it appends. */
  lemma AddItemTotalAmount(state: CartState, item: NewItem, freshId: string)
    requires WellPriced(state.items)
    ensures var k := LineIndex(state.items, item);
            var price := if k >= 0 then state.items[k].unitPrice else item.unitPrice;
            TotalAmountOf(Reduce(state, AddItem(item, freshId)).items) ==
              TotalAmountOf(state.items) + LineTotal(price, item.quantity)
  {
    var k := LineIndex(state.items, item);
    AddItemLines(state, item, freshId);
    if k >= 0 {
      var e := state.items[k];
      var merged := state.items[k := WithQuantity(e, e.quantity + item.quantity)];
      MergedLineAmount(state.items, k, item.quantity);
      assert TotalAmountOf(merged) == TotalAmountOf(state.items) + LineTotal(e.unitPrice, item.quantity);
    } else {
      AppendedLineAmount(state.items, NewLine(item, freshId));
    }
  }

  /** The lines ADD_ITEM leaves, case by case. */
  lemma AddItemLines(state: CartState, item: NewItem, freshId: string)
    ensures var k := LineIndex(state.items, item);
            var r := Reduce(state, AddItem(item, freshId)).items;
            && (k >= 0 ==> r == state.items[k := WithQuantity(state.items[k], state.items[k].quantity + item.quantity)])
            && (k < 0 ==> r == state.items + [NewLine(item, freshId)])
  {
  }

  /** totalAmount after merging `added` units into line `k` of a well-priced cart. */
  lemma MergedLineAmount(items: seq<CartItem>, k: int, added: int)
    requires WellPriced(items)
    requires 0 <= k < |items|
    ensures TotalAmountOf(items[k := WithQuantity(items[k], items[k].quantity + added)])
              == TotalAmountOf(items) + LineTotal(items[k].unitPrice, added)
  {
    var e := items[k];
    var merged := items[k := WithQuantity(e, e.quantity + added)];
    assert WellPriced(merged);
    TotalAmountIsPriceOfLines(items);
    TotalAmountIsPriceOfLines(merged);
    MergedLinePrice(items, k, added);
  }

  /** totalAmount after appending a well-priced line to a well-priced cart. */
  lemma AppendedLineAmount(items: seq<CartItem>, line: CartItem)
    requires WellPriced(items)
    requires line.totalPrice == LineTotal(line.unitPrice, line.quantity)
    ensures TotalAmountOf(items + [line]) == TotalAmountOf(items) + LineTotal(line.unitPrice, line.quantity)
  {
    assert WellPriced(items + [line]);
    TotalAmountIsPriceOfLines(items);
    TotalAmountIsPriceOfLines(items + [line]);
    PriceOfLinesAfterAppend(items, line);
  }

  /** Merging `added` units into line `k` raises the price of the lines by
      that line's unit price times `added`. */
  lemma MergedLinePrice(items: seq<CartItem>, k: int, added: int)
    requires 0 <= k < |items|
    ensures var e := items[k];
            PriceOfLines(items[k := WithQuantity(e, e.quantity + added)])
              == PriceOfLines(items) + LineTotal(e.unitPrice, added)
  {
    var e := items[k];
    PriceOfLinesAfterReplace(items, k, WithQuantity(e, e.quantity + added));
    LineTotalSplit(e.unitPrice, e.quantity, added);
  }

  lemma LineTotalSplit(unitPrice: real, quantity: int, added: int)
    ensures LineTotal(unitPrice, quantity + added) == LineTotal(unitPrice, quantity) + LineTotal(unitPrice, added)
  {
    assert (quantity + added) as real == quantity as real + added as real;
  }

  lemma {:induction false} PriceOfLinesAfterReplace(items: seq<CartItem>, k: int, line: CartItem)
    requires 0 <= k < |items|
    ensures PriceOfLines(items[k := line]) == PriceOfLines(items)
              - LineTotal(items[k].unitPrice, items[k].quantity) + LineTotal(line.unitPrice, line.quantity)
    decreases |items|
  {
    if k > 0 {
      assert items[k := line][1..] == items[1..][k - 1 := line];
      PriceOfLinesAfterReplace(items[1..], k - 1, line);
    } else {
      assert items[k := line][1..] == items[1..];
    }
  }

  lemma {:induction false} PriceOfLinesAfterAppend(items: seq<CartItem>, line: CartItem)
    ensures PriceOfLines(items + [line]) == PriceOfLines(items) + LineTotal(line.unitPrice, line.quantity)
    decreases |items|
  {
    if items == [] {
      assert items + [line] == [line];
    } else {
      assert (items + [line])[1..] == items[1..] + [line];
      PriceOfLinesAfterAppend(items[1..], line);
    }
  }

  // ----- The provider -----

  /** `CartProvider`: the state held by `useReducer` and the commands that
      dispatch to it. */
  class CartProvider {
    var state: CartState

    /** The cart invariants every action preserves. */
    ghost predicate Valid()
      reads this
    {
      OneLinePerProduct(state.items) && WellPriced(state.items)
    }

    constructor ()
      ensures state.items == [] && Valid()
    {
      state := CartState([]);
    }

    function Items(): seq<CartItem>
      reads this
    {
      state.items
    }

    /** `totalItems` */
    function TotalItems(): int
      reads this
    {
      TotalItemsOf(state.items)
    }

    /** `totalAmount` */
    function TotalAmount(): real
      reads this
    {
      TotalAmountOf(state.items)
    }

    method Dispatch(action: Action)
      requires Valid()
      modifies this
      ensures Valid()
      ensures state == Reduce(old(state), action)
    {
      ReduceKeepsOneLinePerProduct(state, action);
      ReduceKeepsWellPriced(state, action);
      state := Reduce(state, action);
    }

    /** `addItem`; `freshId` is the id a new line would get. */
    method AddItem(item: NewItem, freshId: string)
      requires Valid()
      modifies this
      ensures Valid()
      ensures state == Reduce(old(state), Action.AddItem(item, freshId))
      ensures TotalItems() == old(TotalItems()) + item.quantity
      ensures var k := LineIndex(old(state).items, item);
              TotalAmount() == old(TotalAmount()) +
                LineTotal(if k >= 0 then old(state).items[k].unitPrice else item.unitPrice, item.quantity)
    {
      AddItemTotalItems(state, item, freshId);
      AddItemTotalAmount(state, item, freshId);
      Dispatch(Action.AddItem(item, freshId));
    }

    /** `updateQuantity` */
    method UpdateQuantity(itemId: string, quantity: int)
      requires Valid()
      modifies this
      ensures Valid()
      ensures state == Reduce(old(state), Action.UpdateQuantity(itemId, quantity))
    {
      Dispatch(Action.UpdateQuantity(itemId, quantity));
    }

    /** `removeItem` */
    method RemoveItem(itemId: string)
      requires Valid()
      modifies this
      ensures Valid()
      ensures state == Reduce(old(state), Action.RemoveItem(itemId))
      ensures forall i :: 0 <= i < |state.items| ==> state.items[i].id != itemId
    {
      WithoutLineRemoves(state.items, itemId);
      Dispatch(Action.RemoveItem(itemId));
    }

    /** `clearCart` */
    method ClearCart()
      requires Valid()
      modifies this
      ensures Valid()
      ensures state.items == []
    {
      Dispatch(Action.ClearCart);
    }
  }
}
