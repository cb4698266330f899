/**
 * The cart's line items and the pure transformations the cart provider
 * applies to them: the updater functions passed to `setCartItems` by
 * `addToCart`, `removeFromCart` and `updateQuantity`, and the `reduce`s
 * behind the item count, subtotal, packaging cost, shipping cost and total.
 * Money is held in integer euro cents.
 */
module CartItems {

  /** A colour of the static colour catalogue. */
  datatype ColorOption = ColorOption(name: string, value: string, hexColor: string)

  /** A candle as the cart stores it; `price` is in cents. */
  datatype Candle = Candle(id: string, name: string, price: int)

  /** One line of the cart: a candle in one colour, with its quantity. */
  datatype CartItem = CartItem(id: string, candle: Candle, color: ColorOption, quantity: int)

  /** The cart-wide packaging option `"none" | "standard" | "premium"`. */
  datatype Packaging = NoPackaging | Standard | Premium

  /** The three cost constants of the configuration, in cents. */
  datatype CostConstants = CostConstants(standardPackaging: int, premiumPerItem: int, shipping: int)

  /** The option's name as the interface prints it. */
  function PackagingLabel(p: Packaging): (name: string)
    ensures (name == "none" <==> p == NoPackaging) && (name == "standard" <==> p == Standard)
    ensures name == "premium" <==> p == Premium
  {
    match p
    case NoPackaging => "none"
    case Standard => "standard"
    case Premium => "premium"
  }

  /** The line identity of a candle in a colour: `${candle.id}-${color.value}`. */
  function ItemId(candle: Candle, color: ColorOption): string {
    candle.id + "-" + color.value
  }

  /** The colour catalogue, as its option values define it. */
  const AvailableColors: seq<ColorOption> := [
    ColorOption("Rojo Clásico", "rojo", "#dc2626"),
    ColorOption("Azul Océano", "azul", "#2563eb"),
    ColorOption("Verde Bosque", "verde", "#16a34a"),
    ColorOption("Rosa Pastel", "rosa", "#fbcfe8"),
    ColorOption("Beige Arena", "beige", "#f5e7c4"),
    ColorOption("Marrón Tierra", "marron", "#78350f"),
    ColorOption("Blanco Nieve", "blanco", "#FFFFFF"),
    ColorOption("Negro Ónix", "negro", "#000000")
  ]

  predicate HasId(items: seq<CartItem>, id: string) {
    exists i :: 0 <= i < |items| && items[i].id == id
  }

  /** Line `k` is the one and only line whose id is `id`. */
  predicate OnlyAt(items: seq<CartItem>, id: string, k: int) {
    0 <= k < |items| && items[k].id == id &&
    forall j :: 0 <= j < |items| && j != k ==> items[j].id != id
  }

  predicate UniqueIds(items: seq<CartItem>) {
    forall i, j :: 0 <= i < j < |items| ==> items[i].id != items[j].id
  }

  predicate PositiveQuantities(items: seq<CartItem>) {
    forall i :: 0 <= i < |items| ==> items[i].quantity >= 1
  }

  /** The cart invariant: one line per id, and every line holds at least one unit. */
  predicate WellFormed(items: seq<CartItem>) {
    UniqueIds(items) && PositiveQuantities(items)
  }

  // ---------------------------------------------------------------------------
  // The updaters

  /**
   * `addToCart`: when a line with the candle/colour id exists, every line with
   * that id gets one more unit; otherwise a line with one unit is appended.
   */
  function AddLine(items: seq<CartItem>, candle: Candle, color: ColorOption): (r: seq<CartItem>)
    ensures |r| == if HasId(items, ItemId(candle, color)) then |items| else |items| + 1
    ensures forall i :: 0 <= i < |items| ==>
      r[i].id == items[i].id && r[i].candle == items[i].candle && r[i].color == items[i].color
    ensures HasId(r, ItemId(candle, color))
  {
    var id := ItemId(candle, color);
    if HasId(items, id) then
      seq(|items|, i requires 0 <= i < |items| =>
        if items[i].id == id then items[i].(quantity := items[i].quantity + 1) else items[i])
    else
      var line := CartItem(id, candle, color, 1);
      assert (items + [line])[|items|] == line;
      items + [line]
  }

  /** `removeFromCart`: keeps, in order, the lines whose id is not `id`. */
  function RemoveLines(items: seq<CartItem>, id: string): (r: seq<CartItem>)
    ensures |r| <= |items|
    ensures forall x :: x in r <==> x in items && x.id != id
  {
    if items == [] then []
    else
      var rest := RemoveLines(items[..|items| - 1], id);
      assert items == items[..|items| - 1] + [items[|items| - 1]];
      if items[|items| - 1].id != id then rest + [items[|items| - 1]] else rest
  }

  /**
   * `updateQuantity`: a quantity below one removes the line; any other sets
   * the quantity of every line with that id.
   */
  function UpdateLines(items: seq<CartItem>, id: string, quantity: int): (r: seq<CartItem>)
    ensures quantity >= 1 ==> |r| == |items| && forall i :: 0 <= i < |items| ==>
      r[i].id == items[i].id && r[i].candle == items[i].candle && r[i].color == items[i].color
    ensures quantity < 1 ==> !HasId(r, id)
  {
    if quantity < 1 then
      RemoveLines(items, id)
    else
      seq(|items|, i requires 0 <= i < |items| =>
        if items[i].id == id then items[i].(quantity := quantity) else items[i])
  }

  // ---------------------------------------------------------------------------
  // Derived values

  /** `getItemCount`: the sum of the quantities, folded from the first line. */
  function ItemCount(items: seq<CartItem>): (n: int)
    ensures PositiveQuantities(items) ==> n >= |items|
  {
    if items == [] then 0 else ItemCount(items[..|items| - 1]) + items[|items| - 1].quantity
  }

  /** `subtotal`: the sum of price times quantity, folded from the first line. */
  function Subtotal(items: seq<CartItem>): (s: int)
    ensures (forall i :: 0 <= i < |items| ==> items[i].candle.price >= 0 && items[i].quantity >= 0) ==> s >= 0
  {
    if items == [] then 0
    else Subtotal(items[..|items| - 1]) + items[|items| - 1].candle.price * items[|items| - 1].quantity
  }

  /** `packagingCost`: a flat fee for a non-empty standard cart, a fee per unit for premium. */
  function PackagingCost(items: seq<CartItem>, packaging: Packaging, costs: CostConstants): (c: int)
    ensures items == [] ==> c == 0
    ensures packaging == NoPackaging ==> c == 0
    ensures packaging == Standard ==> (c == costs.standardPackaging <==> |items| > 0 || costs.standardPackaging == 0)
  {
    match packaging
    case Standard => if |items| > 0 then costs.standardPackaging else 0
    case Premium => ItemCount(items) * costs.premiumPerItem
    case NoPackaging => 0
  }

  /** `currentShippingCost`: a flat fee for a non-empty cart. */
  function ShippingCost(items: seq<CartItem>, costs: CostConstants): (c: int)
    ensures items == [] ==> c == 0
  {
    if |items| > 0 then costs.shipping else 0
  }

  /** `totalPrice`. */
  function TotalPrice(items: seq<CartItem>, packaging: Packaging, costs: CostConstants): (t: int)
    ensures items == [] ==> t == 0
  {
    Subtotal(items) + PackagingCost(items, packaging, costs) + ShippingCost(items, costs)
  }

  // ---------------------------------------------------------------------------
  // Line identity

  /** With dash-free colour values, a line id determines the candle id and the colour value. */
  lemma ItemIdInjective(c1: Candle, k1: ColorOption, c2: Candle, k2: ColorOption)
    requires '-' !in k1.value && '-' !in k2.value
    requires ItemId(c1, k1) == ItemId(c2, k2)
    ensures c1.id == c2.id && k1.value == k2.value
  {
    var s := ItemId(c1, k1);
    var a1, a2 := c1.id, c2.id;
    assert |a1| == |a2| by {
      assert s[|a1|] == '-' && s[|a2|] == '-';
      assert forall i :: |a1| < i < |s| ==> s[i] == k1.value[i - |a1| - 1];
      assert forall i :: |a2| < i < |s| ==> s[i] == k2.value[i - |a2| - 1];
    }
    assert a1 == s[..|a1|] == a2;
    assert k1.value == s[|a1| + 1..] == k2.value;
  }

  /** Every colour of the catalogue has a dash-free value, so the lemma above applies to them. */
  lemma CatalogueColorsDashFree(k: int)
    requires 0 <= k < |AvailableColors|
    ensures '-' !in AvailableColors[k].value
  {
  }

  /** Without the dash-free condition two different candle/colour pairs can share a line. */
  lemma ItemIdCollision()
    ensures ItemId(Candle("a", "", 0), ColorOption("", "b-c", ""))
         == ItemId(Candle("a-b", "", 0), ColorOption("", "c", ""))
  {
    assert "a" + "-" + "b-c" == "a-b" + "-" + "c";
  }

  // ---------------------------------------------------------------------------
  // addToCart

  /** Adding a candle/colour whose line exists adds exactly one unit to that line and nothing else. */
  lemma AddExisting(items: seq<CartItem>, candle: Candle, color: ColorOption, k: int)
    requires OnlyAt(items, ItemId(candle, color), k)
    ensures AddLine(items, candle, color) == items[k := items[k].(quantity := items[k].quantity + 1)]
  {
    var r := AddLine(items, candle, color);
    var e := items[k := items[k].(quantity := items[k].quantity + 1)];
    assert |r| == |e|;
    forall i | 0 <= i < |r| ensures r[i] == e[i] {
    }
  }

  /** Adding a candle/colour without a line appends a one-unit line at the end. */
  lemma AddAbsent(items: seq<CartItem>, candle: Candle, color: ColorOption)
    requires !HasId(items, ItemId(candle, color))
    ensures AddLine(items, candle, color) == items + [CartItem(ItemId(candle, color), candle, color, 1)]
  {
  }

  lemma AddPreservesWellFormed(items: seq<CartItem>, candle: Candle, color: ColorOption)
    requires WellFormed(items)
    ensures WellFormed(AddLine(items, candle, color))
  {
    var r := AddLine(items, candle, color);
    var id := ItemId(candle, color);
    if HasId(items, id) {
      assert forall i :: 0 <= i < |r| ==> r[i].quantity >= items[i].quantity;
    } else {
      assert forall i :: 0 <= i < |items| ==> r[i] == items[i];
    }
  }

  /** `addToCart` applied `n` times. */
  function AddRepeatedly(items: seq<CartItem>, candle: Candle, color: ColorOption, n: nat): seq<CartItem> {
    if n == 0 then items else AddLine(AddRepeatedly(items, candle, color, n - 1), candle, color)
  }

  /** `n` additions of the same candle/colour to a cart without it leave one line holding `n` units. */
  lemma {:induction false} AddRepeatedlyMerges(items: seq<CartItem>, candle: Candle, color: ColorOption, n: nat)
    requires n >= 1 && !HasId(items, ItemId(candle, color))
    ensures AddRepeatedly(items, candle, color, n) == items + [CartItem(ItemId(candle, color), candle, color, n)]
  {
    var id := ItemId(candle, color);
    if n == 1 {
      AddAbsent(items, candle, color);
    } else {
      AddRepeatedlyMerges(items, candle, color, n - 1);
      var prev := items + [CartItem(id, candle, color, n - 1)];
      assert OnlyAt(prev, id, |items|);
      AddExisting(prev, candle, color, |items|);
      assert prev[|items| := prev[|items|].(quantity := n)] == items + [CartItem(id, candle, color, n)];
    }
  }

  // ---------------------------------------------------------------------------
  // removeFromCart

  /** Removing an absent id leaves the cart as it was. */
  lemma {:induction false} RemoveAbsent(items: seq<CartItem>, id: string)
    requires !HasId(items, id)
    ensures RemoveLines(items, id) == items
  {
    if items != [] {
      var init, last := items[..|items| - 1], items[|items| - 1];
      assert !HasId(init, id) by {
        forall i | 0 <= i < |init| ensures init[i].id != id {
          assert init[i] == items[i];
        }
      }
      RemoveAbsent(init, id);
      assert last.id != id;
      assert RemoveLines(items, id) == RemoveLines(init, id) + [last];
      assert items == init + [last];
    }
  }

  /** Removing the id of the one line that has it drops exactly that line, keeping the order of the rest. */
  lemma RemoveExisting(items: seq<CartItem>, id: string, k: int)
    requires OnlyAt(items, id, k)
    ensures RemoveLines(items, id) == items[..k] + items[k + 1..]
  {
    var pre, post := items[..k], items[k + 1..];
    SplitAt(items, k);
    assert forall i :: 0 <= i < |pre| ==> pre[i] == items[i];
    assert forall i :: 0 <= i < |post| ==> post[i] == items[k + 1 + i];
    RemoveAbsent(pre, id);
    RemoveAbsent(post, id);
    RemoveAppend(pre + [items[k]], post, id);
    RemoveAppend(pre, [items[k]], id);
    assert RemoveLines([items[k]], id) == [] by {
      assert [items[k]][..0] == [];
    }
  }

  /** Removing works piecewise, so the kept lines stay in their order whatever ids the cart holds. */
  lemma {:induction false} RemoveAppend(a: seq<CartItem>, b: seq<CartItem>, id: string)
    ensures RemoveLines(a + b, id) == RemoveLines(a, id) + RemoveLines(b, id)
  {
    if b == [] {
      assert a + b == a;
    } else {
      var b', last := b[..|b| - 1], b[|b| - 1];
      RemoveAppend(a, b', id);
      assert (a + b)[..|a + b| - 1] == a + b';
      assert (a + b)[|a + b| - 1] == last;
      if last.id != id {
        assert RemoveLines(a + b, id) == RemoveLines(a + b', id) + [last];
        assert RemoveLines(b, id) == RemoveLines(b', id) + [last];
      } else {
        assert RemoveLines(a + b, id) == RemoveLines(a + b', id);
        assert RemoveLines(b, id) == RemoveLines(b', id);
      }
    }
  }

  /** Removing twice is the same as removing once. */
  lemma {:induction false} RemoveIdempotent(items: seq<CartItem>, id: string)
    ensures RemoveLines(RemoveLines(items, id), id) == RemoveLines(items, id)
  {
    var r := RemoveLines(items, id);
    assert forall i :: 0 <= i < |r| ==> r[i] in r;
    RemoveAbsent(r, id);
  }

  lemma RemovePreservesWellFormed(items: seq<CartItem>, id: string)
    requires WellFormed(items)
    ensures WellFormed(RemoveLines(items, id))
  {
    var r := RemoveLines(items, id);
    assert PositiveQuantities(r) by {
      forall i | 0 <= i < |r| ensures r[i].quantity >= 1 {
        assert r[i] in r;
      }
    }
    RemoveKeepsUnique(items, id);
  }

  lemma {:induction false} RemoveKeepsUnique(items: seq<CartItem>, id: string)
    requires UniqueIds(items)
    ensures UniqueIds(RemoveLines(items, id))
  {
    if items != [] {
      var n := |items|;
      var init := items[..n - 1];
      var last := items[n - 1];
      assert UniqueIds(init) by {
        forall i, j | 0 <= i < j < |init| ensures init[i].id != init[j].id {
          assert init[i] == items[i] && init[j] == items[j];
        }
      }
      RemoveKeepsUnique(init, id);
      var rest := RemoveLines(init, id);
      if last.id != id {
        forall i | 0 <= i < |rest| ensures rest[i].id != last.id {
          assert rest[i] in init;
          var j :| 0 <= j < |init| && init[j] == rest[i];
          assert items[j] == rest[i];
        }
      }
    }
  }

  // ---------------------------------------------------------------------------
  // updateQuantity

  /** A quantity below one behaves exactly as `removeFromCart`. */
  lemma UpdateBelowOneRemoves(items: seq<CartItem>, id: string, quantity: int)
    requires quantity < 1
    ensures UpdateLines(items, id, quantity) == RemoveLines(items, id)
  {
  }

  /** A quantity of at least one replaces the quantity of the one matching line and nothing else. */
  lemma UpdateExisting(items: seq<CartItem>, id: string, quantity: int, k: int)
    requires quantity >= 1 && OnlyAt(items, id, k)
    ensures UpdateLines(items, id, quantity) == items[k := items[k].(quantity := quantity)]
  {
    var r := UpdateLines(items, id, quantity);
    var e := items[k := items[k].(quantity := quantity)];
    forall i | 0 <= i < |r| ensures r[i] == e[i] {
    }
  }

  /** Updating an absent id leaves the cart as it was. */
  lemma UpdateAbsent(items: seq<CartItem>, id: string, quantity: int)
    requires !HasId(items, id)
    ensures UpdateLines(items, id, quantity) == items
  {
    if quantity < 1 {
      RemoveAbsent(items, id);
    } else {
      var r := UpdateLines(items, id, quantity);
      forall i | 0 <= i < |r| ensures r[i] == items[i] {
      }
    }
  }

  lemma UpdatePreservesWellFormed(items: seq<CartItem>, id: string, quantity: int)
    requires WellFormed(items)
    ensures WellFormed(UpdateLines(items, id, quantity))
  {
    if quantity < 1 {
      RemovePreservesWellFormed(items, id);
    }
  }

  // ---------------------------------------------------------------------------
  // Sums

  lemma {:induction false} ItemCountAppend(a: seq<CartItem>, b: seq<CartItem>)
    ensures ItemCount(a + b) == ItemCount(a) + ItemCount(b)
  {
    if b != [] {
      var b' := b[..|b| - 1];
      ItemCountAppend(a, b');
      assert (a + b)[..|a + b| - 1] == a + b';
      assert (a + b)[|a + b| - 1] == b[|b| - 1];
      assert ItemCount(a + b) == ItemCount(a + b') + b[|b| - 1].quantity;
      assert ItemCount(b) == ItemCount(b') + b[|b| - 1].quantity;
    } else {
      assert a + b == a;
    }
  }

  lemma {:induction false} SubtotalAppend(a: seq<CartItem>, b: seq<CartItem>)
    ensures Subtotal(a + b) == Subtotal(a) + Subtotal(b)
  {
    if b != [] {
      var b' := b[..|b| - 1];
      SubtotalAppend(a, b');
      assert (a + b)[..|a + b| - 1] == a + b';
      assert (a + b)[|a + b| - 1] == b[|b| - 1];
      assert Subtotal(a + b) == Subtotal(a + b') + b[|b| - 1].candle.price * b[|b| - 1].quantity;
      assert Subtotal(b) == Subtotal(b') + b[|b| - 1].candle.price * b[|b| - 1].quantity;
    } else {
      assert a + b == a;
    }
  }

  /** Replacing line `k` changes each sum by exactly the difference of that line's term. */
  lemma SumsAfterReplace(items: seq<CartItem>, k: int, x: CartItem)
    requires 0 <= k < |items|
    ensures ItemCount(items[k := x]) == ItemCount(items) - items[k].quantity + x.quantity
    ensures Subtotal(items[k := x]) == Subtotal(items) - items[k].candle.price * items[k].quantity + x.candle.price * x.quantity
  {
    var pre, post := items[..k], items[k + 1..];
    SplitAt(items, k);
    SplitAt(items[k := x], k);
    assert items[k := x][..k] == pre && items[k := x][k + 1..] == post;
    ItemCountAppend(pre + [items[k]], post);
    ItemCountAppend(pre + [x], post);
    SubtotalAppend(pre + [items[k]], post);
    SubtotalAppend(pre + [x], post);
    assert (pre + [x])[..|pre|] == pre;
    assert (pre + [items[k]])[..|pre|] == pre;
  }

  /** Adding one candle adds one unit to the count and its price to the subtotal. */
  lemma AddSums(items: seq<CartItem>, candle: Candle, color: ColorOption)
    requires UniqueIds(items)
    ensures ItemCount(AddLine(items, candle, color)) == ItemCount(items) + 1
    ensures HasId(items, ItemId(candle, color)) || Subtotal(AddLine(items, candle, color)) == Subtotal(items) + candle.price
  {
    var id := ItemId(candle, color);
    var r := AddLine(items, candle, color);
    if HasId(items, id) {
      var k :| 0 <= k < |items| && items[k].id == id;
      assert OnlyAt(items, id, k);
      var x := items[k].(quantity := items[k].quantity + 1);
      AddExisting(items, candle, color, k);
      assert r == items[k := x];
      SumsAfterReplace(items, k, x);
      assert ItemCount(r) == ItemCount(items) - items[k].quantity + x.quantity;
    } else {
      var line := CartItem(id, candle, color, 1);
      assert r == items + [line];
      assert (items + [line])[..|items|] == items;
    }
  }

  /**
   * Adding to an existing line adds that line's own unit price to the
   * subtotal: the stored candle is kept, so a price differing from the
   * added candle's stays in force.
   */
  lemma AddExistingSubtotal(items: seq<CartItem>, candle: Candle, color: ColorOption, k: int)
    requires OnlyAt(items, ItemId(candle, color), k)
    ensures Subtotal(AddLine(items, candle, color)) == Subtotal(items) + items[k].candle.price
  {
    var a, c := items[k].quantity, items[k].candle.price;
    var x := items[k].(quantity := a + 1);
    AddExisting(items, candle, color, k);
    var r := AddLine(items, candle, color);
    assert r == items[k := x];
    SumsAfterReplace(items, k, x);
    assert Subtotal(r) == Subtotal(items) - c * a + c * (a + 1);
    OneMoreUnit(c, a);
  }

  /** Removing the line with an id takes its units out of the count and its amount out of the subtotal. */
  lemma RemoveSums(items: seq<CartItem>, id: string, k: int)
    requires OnlyAt(items, id, k)
    ensures ItemCount(RemoveLines(items, id)) == ItemCount(items) - items[k].quantity
    ensures Subtotal(RemoveLines(items, id)) == Subtotal(items) - items[k].candle.price * items[k].quantity
  {
    RemoveExisting(items, id, k);
    SumsWithout(items, k);
  }

  lemma SumsWithout(items: seq<CartItem>, k: int)
    requires 0 <= k < |items|
    ensures ItemCount(items[..k] + items[k + 1..]) == ItemCount(items) - items[k].quantity
    ensures Subtotal(items[..k] + items[k + 1..]) == Subtotal(items) - items[k].candle.price * items[k].quantity
  {
    var pre, x, post := items[..k], items[k], items[k + 1..];
    var amount := x.candle.price * x.quantity;
    SplitAt(items, k);
    assert (pre + [x])[..|pre|] == pre;
    assert ItemCount(pre + [x]) == ItemCount(pre) + x.quantity;
    assert Subtotal(pre + [x]) == Subtotal(pre) + amount;
    ItemCountAppend(pre + [x], post);
    ItemCountAppend(pre, post);
    SubtotalAppend(pre + [x], post);
    SubtotalAppend(pre, post);
  }
  /** A sequence is the part before position `k`, the element there and the part after. */
  lemma SplitAt<T>(s: seq<T>, k: int)
    requires 0 <= k < |s|
    ensures s == s[..k] + [s[k]] + s[k + 1..]
  {
  }


  /** In a well-formed cart, having lines and having units are the same thing. */
  lemma NonEmptyIffUnits(items: seq<CartItem>)
    requires PositiveQuantities(items)
    ensures |items| > 0 <==> ItemCount(items) > 0
  {
  }

  /** Shipping is charged exactly when the cart has lines (for a non-zero fee). */
  lemma ShippingIffNonEmpty(items: seq<CartItem>, costs: CostConstants)
    requires costs.shipping != 0
    ensures ShippingCost(items, costs) == costs.shipping <==> |items| > 0
  {
  }

  /** The line items with each candle's price raised by `fee` cents. */
  function Surcharged(items: seq<CartItem>, fee: int): (r: seq<CartItem>)
    ensures |r| == |items|
  {
    if items == [] then []
    else
      var last := items[|items| - 1];
      Surcharged(items[..|items| - 1], fee) + [last.(candle := last.candle.(price := last.candle.price + fee))]
  }

  lemma OneMoreUnit(price: int, quantity: int)
    ensures price * (quantity + 1) == price * quantity + price
  {
  }

  lemma Distribute(a: int, b: int, c: int)
    ensures (a + b) * c == a * c + b * c
  {
  }

  /** Premium packaging costs the same as raising every candle's price by the per-unit fee. */
  lemma {:induction false} PremiumIsPerUnitSurcharge(items: seq<CartItem>, costs: CostConstants)
    ensures Subtotal(items) + PackagingCost(items, Premium, costs) == Subtotal(Surcharged(items, costs.premiumPerItem))
  {
    if items != [] {
      var n := |items|;
      var init, last := items[..n - 1], items[n - 1];
      var fee := costs.premiumPerItem;
      var raised := Surcharged(items, fee);
      PremiumIsPerUnitSurcharge(init, costs);
      var x := last.(candle := last.candle.(price := last.candle.price + fee));
      assert raised == Surcharged(init, fee) + [x];
      assert (Surcharged(init, fee) + [x])[..n - 1] == Surcharged(init, fee);
      assert Subtotal(raised) == Subtotal(Surcharged(init, fee)) + (last.candle.price + fee) * last.quantity;
      assert Subtotal(items) == Subtotal(init) + last.candle.price * last.quantity;
      assert ItemCount(items) == ItemCount(init) + last.quantity;
      SurchargeStep(Subtotal(init), ItemCount(init), Subtotal(Surcharged(init, fee)), last.candle.price, last.quantity, fee);
    }
  }

  /** One more line in the induction above, as arithmetic on the sums. */
  lemma SurchargeStep(subtotal: int, units: int, raised: int, price: int, quantity: int, fee: int)
    requires subtotal + units * fee == raised
    ensures (subtotal + price * quantity) + (units + quantity) * fee == raised + (price + fee) * quantity
  {
    Distribute(units, quantity, fee);
    Distribute(price, fee, quantity);
    assert quantity * fee == fee * quantity;
  }

  /** Standard packaging is one fee whatever the number of units. */
  lemma StandardIsFlat(a: seq<CartItem>, b: seq<CartItem>, costs: CostConstants)
    requires |a| > 0 && |b| > 0
    ensures PackagingCost(a, Standard, costs) == PackagingCost(b, Standard, costs) == costs.standardPackaging
  {
  }

  /** With non-negative prices and constants, the total is never below the subtotal. */
  lemma TotalAtLeastSubtotal(items: seq<CartItem>, packaging: Packaging, costs: CostConstants)
    requires PositiveQuantities(items)
    requires costs.standardPackaging >= 0 && costs.premiumPerItem >= 0 && costs.shipping >= 0
    ensures TotalPrice(items, packaging, costs) >= Subtotal(items)
  {
  }

  /** The cleared cart (no lines, standard packaging) costs nothing. */
  lemma ClearedCartCostsNothing(costs: CostConstants)
    ensures ItemCount([]) == 0 && Subtotal([]) == 0
    ensures PackagingCost([], Standard, costs) == 0 && ShippingCost([], costs) == 0
    ensures TotalPrice([], Standard, costs) == 0
  {
  }
}
