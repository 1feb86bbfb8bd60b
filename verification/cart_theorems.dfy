/** Properties that relate the cart operations to one another: the effect of
    each call on the totals, preservation of the cart invariant, and the
    lower bound the invariant puts on the total quantity. */
module CartTheorems {
  import opened Wrappers
  import opened ShoppingCart

  /** A successful add raises the total quantity by exactly the quantity
      added, whether the name was new or already present. */
  lemma AddItemTotalQuantity(c: Cart, name: string, price: int, quantity: int)
    ensures AddItem(c, name, price, quantity).Success? ==>
      TotalQuantity(AddItem(c, name, price, quantity).value) == TotalQuantity(c) + quantity
  {
    if quantity > 0 {
      match Find(c.entries, name)
      case Some(i) =>
        var li := c.entries[i].item;
        SumUpdate(c.entries, i, Entry(name, LineItem(li.price, li.quantity + quantity)), Quantity);
      case None =>
        SumSnoc(c.entries, Entry(name, LineItem(price, quantity)), Quantity);
    }
  }

  /** A successful add raises the total price by the quantity added times the
      unit price the cart keeps for that name: the stored price when the name
      was present (the first price wins), the given price otherwise. */
  lemma AddItemTotalPrice(c: Cart, name: string, price: int, quantity: int)
    ensures AddItem(c, name, price, quantity).Success? ==>
      TotalPrice(AddItem(c, name, price, quantity).value)
        == TotalPrice(c) + quantity * (if name in GetItems(c) then GetItems(c)[name].price else price)
  {
    if quantity > 0 {
      ItemsLookup(c.entries, name);
      match Find(c.entries, name)
      case Some(i) =>
        var li := c.entries[i].item;
        var li' := LineItem(li.price, li.quantity + quantity);
        SumUpdate(c.entries, i, Entry(name, li'), Subtotal);
        SubtotalGrows(li, quantity);
      case None =>
        SumSnoc(c.entries, Entry(name, LineItem(price, quantity)), Subtotal);
    }
  }

  /** Raising a line item's quantity raises its subtotal by the added
      quantity times its price. */
  lemma SubtotalGrows(li: LineItem, quantity: int)
    ensures Subtotal(LineItem(li.price, li.quantity + quantity)) == Subtotal(li) + quantity * li.price
  {
  }

  /** Removing a name lowers the total quantity by that name's stored
      quantity, or by nothing when it is absent. */
  lemma RemoveItemTotalQuantity(c: Cart, name: string)
    requires DistinctNames(c.entries)
    ensures TotalQuantity(RemoveItem(c, name))
         == TotalQuantity(c) - (if name in GetItems(c) then GetItems(c)[name].quantity else 0)
  {
    SumWithout(c.entries, name, Quantity);
  }

  /** Removing a name lowers the total price by that name's price times its
      quantity, or by nothing when it is absent. */
  lemma RemoveItemTotalPrice(c: Cart, name: string)
    requires DistinctNames(c.entries)
    ensures TotalPrice(RemoveItem(c, name))
         == TotalPrice(c) - (if name in GetItems(c) then GetItems(c)[name].price * GetItems(c)[name].quantity else 0)
  {
    SumWithout(c.entries, name, Subtotal);
  }

  /** Removing a present name lowers the number of names by one; removing an
      absent name leaves it as it was. */
  lemma RemoveItemCount(c: Cart, name: string)
    ensures |GetItems(RemoveItem(c, name))| == |GetItems(c)| - (if name in GetItems(c) then 1 else 0)
  {
  }

  /** Adding keeps names unique and every quantity at least 1. */
  lemma AddItemPreservesValid(c: Cart, name: string, price: int, quantity: int)
    requires Valid(c)
    ensures AddItem(c, name, price, quantity).Success? ==> Valid(AddItem(c, name, price, quantity).value)
  {
  }

  /** Removing keeps names unique and every quantity at least 1. */
  lemma RemoveItemPreservesValid(c: Cart, name: string)
    requires Valid(c)
    ensures Valid(RemoveItem(c, name))
  {
    WithoutDistinct(c.entries, name);
  }

  /** In a cart that satisfies the invariant the total quantity is at least
      the number of names, and it is 0 exactly when the cart is empty. */
  lemma TotalQuantityBounds(c: Cart)
    requires Valid(c)
    ensures TotalQuantity(c) >= |GetItems(c)|
    ensures TotalQuantity(c) == 0 <==> GetItems(c) == map[]
  {
    ItemsCardinality(c.entries);
    QuantitySumAtLeastLength(c.entries);
    if c.entries == [] {
      assert GetItems(c) == map[];
    } else {
      assert c.entries[0].name in GetItems(c);
    }
  }
}
