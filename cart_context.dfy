/**
 * The cart provider: the state it holds (`cartItems`, `packagingOption`,
 * `isCartLoaded`), the operations it exposes, and its two effects — the
 * one-time load from browser storage and the save that follows every state
 * change once the load has happened.
 *
 * Browser storage is two slots. The cart slot is seen through what
 * `JSON.parse` makes of it: nothing stored, text that does not parse, or a
 * parsed list of lines. The packaging slot holds an option or nothing.
 */
module CartContext {
  import opened Wrappers
  import opened CartItems

  /** The cart slot as the load reads it. */
  datatype CartSlot = EmptySlot | ParseError | Parsed(items: seq<CartItem>)

  /** The lines after the load: kept when nothing is stored, emptied when the text does not parse. */
  function LoadedItems(current: seq<CartItem>, slot: CartSlot): (r: seq<CartItem>)
    ensures slot.ParseError? ==> r == []
    ensures slot.Parsed? ==> r == slot.items
    ensures slot.EmptySlot? ==> r == current
  {
    match slot
    case EmptySlot => current
    case ParseError => []
    case Parsed(s) => s
  }

  /** The packaging option after the load: the stored one when there is one. */
  function LoadedPackaging(current: Packaging, slot: Option<Packaging>): (p: Packaging)
    ensures slot.Some? ==> p == slot.value
    ensures slot.None? ==> p == current
  {
    match slot
    case None => current
    case Some(stored) => stored
  }

  class CartStore {
    /** The cost constants the derived prices use. */
    const costs: CostConstants

    var items: seq<CartItem>
    var packaging: Packaging
    var isCartLoaded: bool

    /** The storage slots `marivelasCart` and `marivelasPackaging`. */
    var cartSlot: CartSlot
    var packagingSlot: Option<Packaging>

    /** Once the load has happened, storage holds the current lines and packaging. */
    ghost predicate Valid()
      reads this
    {
      isCartLoaded ==> cartSlot == Parsed(items) && packagingSlot == Some(packaging)
    }

    /** The slots after the save effect has run, given what they held before the change. */
    ghost predicate SavedAfter(oldCart: CartSlot, oldPackaging: Option<Packaging>)
      reads this
    {
      if isCartLoaded then cartSlot == Parsed(items) && packagingSlot == Some(packaging)
      else cartSlot == oldCart && packagingSlot == oldPackaging
    }

    /** A freshly mounted provider: empty cart, standard packaging, not yet loaded; storage as found. */
    constructor (costs: CostConstants, cartSlot: CartSlot, packagingSlot: Option<Packaging>)
      ensures this.costs == costs
      ensures items == [] && packaging == Standard && !isCartLoaded
      ensures this.cartSlot == cartSlot && this.packagingSlot == packagingSlot
      ensures Valid()
    {
      this.costs := costs;
      items := [];
      packaging := Standard;
      isCartLoaded := false;
      this.cartSlot := cartSlot;
      this.packagingSlot := packagingSlot;
    }

    /** The save effect: writes both slots, but only once the load has happened. */
    method SaveEffect()
      modifies this`cartSlot, this`packagingSlot
      ensures SavedAfter(old(cartSlot), old(packagingSlot))
    {
      if isCartLoaded {
        cartSlot := Parsed(items);
        packagingSlot := Some(packaging);
      }
    }

    /**
     * The load effect: restores the lines and the packaging option from
     * storage, marks the cart loaded whatever the outcome, after which the
     * save effect writes the restored state back.
     */
    method Load()
      modifies this
      ensures items == LoadedItems(old(items), old(cartSlot))
      ensures packaging == LoadedPackaging(old(packaging), old(packagingSlot))
      ensures isCartLoaded
      ensures cartSlot == Parsed(items) && packagingSlot == Some(packaging)
      ensures Valid()
    {
      items := LoadedItems(items, cartSlot);
      packaging := LoadedPackaging(packaging, packagingSlot);
      isCartLoaded := true;
      SaveEffect();
    }

    method AddToCart(candle: Candle, color: ColorOption)
      modifies this
      ensures items == AddLine(old(items), candle, color)
      ensures packaging == old(packaging) && isCartLoaded == old(isCartLoaded)
      ensures SavedAfter(old(cartSlot), old(packagingSlot)) && Valid()
      ensures WellFormed(old(items)) ==> WellFormed(items)
    {
      if WellFormed(items) {
        AddPreservesWellFormed(items, candle, color);
      }
      items := AddLine(items, candle, color);
      SaveEffect();
    }

    method RemoveFromCart(id: string)
      modifies this
      ensures items == RemoveLines(old(items), id)
      ensures packaging == old(packaging) && isCartLoaded == old(isCartLoaded)
      ensures SavedAfter(old(cartSlot), old(packagingSlot)) && Valid()
      ensures WellFormed(old(items)) ==> WellFormed(items)
    {
      if WellFormed(items) {
        RemovePreservesWellFormed(items, id);
      }
      items := RemoveLines(items, id);
      SaveEffect();
    }

    /** A quantity below one removes the line; otherwise the quantity is set. */
    method UpdateQuantity(id: string, quantity: int)
      modifies this
      ensures items == UpdateLines(old(items), id, quantity)
      ensures quantity < 1 ==> items == RemoveLines(old(items), id)
      ensures packaging == old(packaging) && isCartLoaded == old(isCartLoaded)
      ensures SavedAfter(old(cartSlot), old(packagingSlot)) && Valid()
      ensures WellFormed(old(items)) ==> WellFormed(items)
    {
      if quantity < 1 {
        RemoveFromCart(id);
        return;
      }
      if WellFormed(items) {
        UpdatePreservesWellFormed(items, id, quantity);
      }
      items := UpdateLines(items, id, quantity);
      SaveEffect();
    }

    method UpdatePackagingOption(option: Packaging)
      modifies this
      ensures packaging == option
      ensures items == old(items) && isCartLoaded == old(isCartLoaded)
      ensures SavedAfter(old(cartSlot), old(packagingSlot)) && Valid()
    {
      packaging := option;
      SaveEffect();
    }

    /** Empties the cart and resets packaging to standard, after which every derived value is zero. */
    method ClearCart()
      modifies this
      ensures items == [] && packaging == Standard
      ensures isCartLoaded == old(isCartLoaded)
      ensures SavedAfter(old(cartSlot), old(packagingSlot)) && Valid()
      ensures WellFormed(items)
      ensures ItemCount(items) == 0 && Subtotal(items) == 0
      ensures PackagingCost(items, packaging, costs) == 0 && ShippingCost(items, costs) == 0
      ensures TotalPrice(items, packaging, costs) == 0
    {
      items := [];
      packaging := Standard;
      SaveEffect();
    }
  }

  /**
   * A fresh start of the storefront over the storage `store` left behind:
   * the new provider restores the same lines and packaging option.
   */
  method Reload(store: CartStore) returns (restored: CartStore)
    requires store.Valid() && store.isCartLoaded
    ensures fresh(restored) && restored.Valid() && restored.isCartLoaded
    ensures restored.items == store.items && restored.packaging == store.packaging
  {
    restored := new CartStore(store.costs, store.cartSlot, store.packagingSlot);
    restored.Load();
  }
}
