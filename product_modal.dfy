/** The product dialog of client/src/components/ProductModal.tsx: the image
    carousel, the quantity control, the colours offered and chosen, the unit
    price for the user's type, and adding the choice to the cart. The
    dialog's state (`quantity`, `selectedColorId`, `currentImageIndex`) lives
    as long as the page, across the products it is opened for. */
module ProductModal {
  import opened Wrappers
  import opened Schema
  import Seqs
  import Cart
  import Data

  // ----- Carousel -----

  /** The "previous" button: from the first image to the last. */
  function PrevImage(index: int, count: int): int {
    if index == 0 then count - 1 else index - 1
  }

  /** The "next" button: from the last image to the first. */
  function NextImage(index: int, count: int): int {
    if index == count - 1 then 0 else index + 1
  }

  /** The carousel stays in range, and next and previous undo each other. */
  lemma CarouselWraps(index: int, count: int)
    requires 0 <= index < count
    ensures 0 <= NextImage(index, count) < count && 0 <= PrevImage(index, count) < count
    ensures PrevImage(NextImage(index, count), count) == index
    ensures NextImage(PrevImage(index, count), count) == index
  {
  }

  /** The carousel is arithmetic modulo the number of images. */
  lemma CarouselIsModular(index: int, count: int)
    requires 0 <= index < count
    ensures NextImage(index, count) == (index + 1) % count
    ensures PrevImage(index, count) == (index - 1) % count
  {
    if index == count - 1 {
      assert (index + 1) % count == count % count == 0;
    } else {
      assert (index + 1) % count == index + 1;
    }
    if index == 0 {
      assert (index - 1) % count == (-1) % count == count - 1;
    } else {
      assert (index - 1) % count == index - 1;
    }
  }

  /** An index left over from a product with more images than the current one
      is out of range: "next" moves it further away instead of wrapping, and
      "previous" walks it back one step at a time. */
  lemma StaleIndexRunsAway(index: int, count: int)
    requires 1 <= count <= index
    ensures NextImage(index, count) == index + 1 > count - 1
    ensures PrevImage(index, count) == index - 1
  {
  }

  // ----- Colours and price -----

  /** `availableColors`: the colours the product offers, in the colours' order. */
  function AvailableColors(product: Product, colors: seq<Color>): seq<Color> {
    Seqs.Filter(colors, (c: Color) => c.id in product.colors)
  }

  /** `selectedColor`: the colour with the chosen id among all colours, or
      else the first colour the product offers. */
  function SelectedColor(product: Product, colors: seq<Color>, selectedColorId: string): Option<Color> {
    var chosen := Seqs.FindWhere(colors, (c: Color) => c.id == selectedColorId);
    var available := AvailableColors(product, colors);
    if chosen.Some? then chosen
    else if |available| > 0 then Some(available[0])
    else None
  }

  /** The offered colours are exactly those listed by the product, in order;
      with nothing chosen the first of them is selected, and there is a
      selection exactly when something is chosen or something is offered. */
  lemma ColorsMeaning(product: Product, colors: seq<Color>, selectedColorId: string)
    ensures var a := AvailableColors(product, colors);
            && Seqs.IsSubsequence(a, colors)
            && (forall i :: 0 <= i < |colors| ==> (colors[i] in a <==> colors[i].id in product.colors))
    ensures SelectedColor(product, colors, selectedColorId).None? <==>
              (forall i :: 0 <= i < |colors| ==> colors[i].id != selectedColorId) && |AvailableColors(product, colors)| == 0
    ensures (forall i :: 0 <= i < |colors| ==> colors[i].id != selectedColorId) && |AvailableColors(product, colors)| > 0 ==>
              SelectedColor(product, colors, selectedColorId) == Some(AvailableColors(product, colors)[0])
    ensures SelectedColor(product, colors, selectedColorId).Some? && selectedColorId in product.colors ==>
              SelectedColor(product, colors, selectedColorId).value in AvailableColors(product, colors)
    ensures (exists i :: 0 <= i < |colors| && colors[i].id == selectedColorId) ==>
              SelectedColor(product, colors, selectedColorId).Some?
              && SelectedColor(product, colors, selectedColorId).value.id == selectedColorId
  {
    Seqs.FilterIsSubsequence(colors, (c: Color) => c.id in product.colors);
  }

  /** `userPricingTables`: the active tables of the user's type. */
  function UserPricingTables(tables: seq<PricingTable>, userType: UserType): seq<PricingTable> {
    Seqs.Filter(tables, (t: PricingTable) => t.userType == userType && t.isActive)
  }

  /** The unit price: the base price for a restaurant; otherwise the base
      price times the first of the user's tables' multiplier, with 1 when there
      is none or it is 0 (`|| 1`). */
  function UnitPrice(product: Product, userType: UserType, tables: seq<PricingTable>): real {
    var own := UserPricingTables(tables, userType);
    if userType == Restaurante then product.basePrice
    else product.basePrice * (if |own| > 0 && own[0].multiplier != 0.0 then own[0].multiplier else 1.0)
  }

  /** The price rules against the table list itself: a restaurant pays the
      base price; anyone else pays it times the multiplier of the first active
      table of their type, or times 1 when there is none or its multiplier is 0. */
  lemma UnitPriceMeaning(product: Product, userType: UserType, tables: seq<PricingTable>)
    ensures var first := Seqs.FindWhere(tables, (t: PricingTable) => t.userType == userType && t.isActive);
            UnitPrice(product, userType, tables) ==
              if userType == Restaurante then product.basePrice
              else if first.None? || first.value.multiplier == 0.0 then product.basePrice
              else product.basePrice * first.value.multiplier
  {
    Seqs.FilterHeadIsFind(tables, (t: PricingTable) => t.userType == userType && t.isActive);
  }

  /** With the seeded tables, a store pays the base price ("À Vista", the
      first store table, has multiplier 1) and a restaurant pays it too. */
  lemma SeededStorePaysBase(product: Product, now: string)
    ensures UnitPrice(product, Loja, Data.DefaultPricingTables(now)) == product.basePrice
    ensures UnitPrice(product, Restaurante, Data.DefaultPricingTables(now)) == product.basePrice
  {
    var tables := Data.DefaultPricingTables(now);
    assert UserPricingTables(tables, Loja)[0] == tables[0];
  }

  /** The cart line the dialog adds. */
  function LineFor(product: Product, color: Color, quantity: int, unitPrice: real): Cart.NewItem {
    Cart.NewItem(product.id, product.name, if |product.images| > 0 then product.images[0] else "",
                 color.id, color.name, quantity, unitPrice)
  }

  // ----- The dialog's state -----

  class ModalState {
    var quantity: int
    var selectedColorId: string
    var currentImageIndex: int

    /** The quantity is at least one. */
    ghost predicate Valid()
      reads this
    {
      quantity >= 1
    }

    constructor ()
      ensures Valid() && quantity == 1 && selectedColorId == "" && currentImageIndex == 0
    {
      quantity := 1;
      selectedColorId := "";
      currentImageIndex := 0;
    }

    /** The render-time default: with nothing chosen, choose the first
        offered colour. */
    method SyncDefaultColor(product: Product, colors: seq<Color>)
      modifies this
      ensures var a := AvailableColors(product, colors);
              selectedColorId == if old(selectedColorId) == "" && |a| > 0 then a[0].id else old(selectedColorId)
      ensures quantity == old(quantity) && currentImageIndex == old(currentImageIndex)
    {
      var available := AvailableColors(product, colors);
      if selectedColorId == "" && |available| > 0 {
        selectedColorId := available[0].id;
      }
    }

    /** `handleImageChange`; the buttons exist only for more than one image. */
    method ChangeImage(product: Product, next: bool)
      requires |product.images| > 1
      modifies this
      ensures currentImageIndex == if next then NextImage(old(currentImageIndex), |product.images|)
                                   else PrevImage(old(currentImageIndex), |product.images|)
      ensures 0 <= old(currentImageIndex) < |product.images| ==> 0 <= currentImageIndex < |product.images|
      ensures quantity == old(quantity) && selectedColorId == old(selectedColorId)
    {
      if next {
        currentImageIndex := NextImage(currentImageIndex, |product.images|);
      } else {
        currentImageIndex := PrevImage(currentImageIndex, |product.images|);
      }
    }

    /** A thumbnail: shows the image at its own index; the thumbnails exist
        only for more than one image. */
    method SelectImage(product: Product, index: int)
      requires |product.images| > 1 && 0 <= index < |product.images|
      modifies this
      ensures currentImageIndex == index && 0 <= currentImageIndex < |product.images|
      ensures quantity == old(quantity) && selectedColorId == old(selectedColorId)
    {
      currentImageIndex := index;
    }

    /** The minus control: one less, never below one. */
    method DecreaseQuantity()
      requires Valid()
      modifies this
      ensures Valid()
      ensures quantity == if old(quantity) > 1 then old(quantity) - 1 else 1
      ensures selectedColorId == old(selectedColorId) && currentImageIndex == old(currentImageIndex)
    {
      quantity := if quantity - 1 > 1 then quantity - 1 else 1;
    }

    /** The plus control. */
    method IncreaseQuantity()
      requires Valid()
      modifies this
      ensures Valid() && quantity == old(quantity) + 1
      ensures selectedColorId == old(selectedColorId) && currentImageIndex == old(currentImageIndex)
    {
      quantity := quantity + 1;
    }

    /** `handleAddToCart`: nothing without a selected colour; otherwise one
        line with the product, the colour, the quantity and the unit price. */
    method AddToCart(product: Product, user: User, colors: seq<Color>, tables: seq<PricingTable>,
                     cart: Cart.CartProvider, freshId: string) returns (added: bool)
      requires cart.Valid()
      modifies cart
      ensures cart.Valid()
      ensures var color := SelectedColor(product, colors, selectedColorId);
              && (added <==> color.Some?)
              && (color.None? ==> cart.state == old(cart.state))
              && (color.Some? ==> cart.state == Cart.Reduce(old(cart.state),
                    Cart.AddItem(LineFor(product, color.value, quantity, UnitPrice(product, user.userType, tables)), freshId)))
    {
      var color := SelectedColor(product, colors, selectedColorId);
      if color.None? {
        return false;
      }
      var price := UnitPrice(product, user.userType, tables);
      cart.AddItem(LineFor(product, color.value, quantity, price), freshId);
      added := true;
    }
  }
}
