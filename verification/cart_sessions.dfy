/** Sequences of cart calls: a run of add calls, a run of remove calls, and
    the concrete scenarios the cart's unit tests exercise. An add call that
    fails is taken as caught by the caller, so the cart carries on unchanged. */
module CartSessions {
  import opened Wrappers
  import opened ShoppingCart
  import opened CartTheorems

  /** The arguments of one add call. */
  datatype Request = Request(name: string, price: int, quantity: int)

  /** One add call; a rejected call leaves the cart as it was. */
  function Apply(c: Cart, q: Request): Cart {
    match AddItem(c, q.name, q.price, q.quantity)
    case Success(c') => c'
    case Failure(_) => c
  }

  /** The add calls performed in order. */
  function AddAll(c: Cart, qs: seq<Request>): Cart
    decreases |qs|
  {
    if |qs| == 0 then c else AddAll(Apply(c, qs[0]), qs[1..])
  }

  /** The remove calls performed in order. */
  function RemoveAll(c: Cart, names: seq<string>): Cart
    decreases |names|
  {
    if |names| == 0 then c else RemoveAll(RemoveItem(c, names[0]), names[1..])
  }

  /** The sum of the accepted (positive) quantities among the requests. */
  function AcceptedQuantity(qs: seq<Request>): int {
    if |qs| == 0 then 0
    else (if qs[0].quantity > 0 then qs[0].quantity else 0) + AcceptedQuantity(qs[1..])
  }

  /** The sum of the accepted quantities requested under `name`. */
  function AcceptedQuantityOf(qs: seq<Request>, name: string): int {
    if |qs| == 0 then 0
    else (if qs[0].name == name && qs[0].quantity > 0 then qs[0].quantity else 0)
         + AcceptedQuantityOf(qs[1..], name)
  }

  /** The price of the first accepted request under `name`, if any. */
  function FirstAcceptedPrice(qs: seq<Request>, name: string): Option<int> {
    if |qs| == 0 then None
    else if qs[0].name == name && qs[0].quantity > 0 then Some(qs[0].price)
    else FirstAcceptedPrice(qs[1..], name)
  }

  /** After a run of add calls the total quantity has grown by the sum of
      the accepted quantities. */
  lemma {:induction false} AddAllTotalQuantity(c: Cart, qs: seq<Request>)
    ensures TotalQuantity(AddAll(c, qs)) == TotalQuantity(c) + AcceptedQuantity(qs)
    decreases |qs|
  {
    if |qs| != 0 {
      AddItemTotalQuantity(c, qs[0].name, qs[0].price, qs[0].quantity);
      AddAllTotalQuantity(Apply(c, qs[0]), qs[1..]);
    }
  }

  /** A run of add calls keeps the cart invariant. */
  lemma {:induction false} AddAllPreservesValid(c: Cart, qs: seq<Request>)
    requires Valid(c)
    ensures Valid(AddAll(c, qs))
    decreases |qs|
  {
    if |qs| != 0 {
      AddItemPreservesValid(c, qs[0].name, qs[0].price, qs[0].quantity);
      AddAllPreservesValid(Apply(c, qs[0]), qs[1..]);
    }
  }

  /** After a run of add calls, calls under one name have been collapsed
      into one line item: it is present when it was before or some call for
      it was accepted; its quantity is the earlier quantity plus every
      accepted quantity for it; its price is the earlier price, or else the
      price of the first accepted call for it. */
  lemma {:induction false} AddAllCollapsesByName(c: Cart, qs: seq<Request>, name: string)
    ensures var before := GetItems(c);
            var after := GetItems(AddAll(c, qs));
            && (name in after <==> name in before || FirstAcceptedPrice(qs, name).Some?)
            && (name in after ==>
                  after[name].quantity
                    == (if name in before then before[name].quantity else 0) + AcceptedQuantityOf(qs, name))
            && (name in after ==>
                  Some(after[name].price)
                    == (if name in before then Some(before[name].price) else FirstAcceptedPrice(qs, name)))
    decreases |qs|
  {
    if |qs| != 0 {
      AddAllCollapsesByName(Apply(c, qs[0]), qs[1..], name);
    }
  }

  /** After a run of remove calls a name is left exactly when it was there
      before and was not among the removed names. */
  lemma {:induction false} RemoveAllKeys(c: Cart, names: seq<string>, n: string)
    ensures n in GetItems(RemoveAll(c, names)) <==> n in GetItems(c) && n !in names
    decreases |names|
  {
    if |names| != 0 {
      RemoveAllKeys(RemoveItem(c, names[0]), names[1..], n);
      assert n in names <==> n == names[0] || n in names[1..];
    }
  }

  /** Removing every name in the cart gives back the fresh empty cart. */
  lemma RemoveEveryNameEmpties(c: Cart, names: seq<string>)
    requires forall n :: n in GetItems(c) ==> n in names
    ensures RemoveAll(c, names) == Empty()
  {
    var r := RemoveAll(c, names);
    forall n
      ensures n !in GetItems(r)
    {
      RemoveAllKeys(c, names, n);
    }
    assert GetItems(r) == map[];
    ItemsEmpty(r.entries);
    assert r.entries == [];
  }

  // ---------------------------------------------------------------------
  // Scenarios of the unit tests
  // ---------------------------------------------------------------------

  /** Two different fruits: two names, total quantity 5 and a positive total
      price; removing one leaves one name, removing the other leaves none. */
  lemma ScenarioTwoFruits()
    ensures var c := AddAll(Empty(), [Request("Apel", 10000, 2), Request("Pisang", 5000, 3)]);
            && |GetItems(c)| == 2
            && TotalQuantity(c) == 5
            && TotalPrice(c) > 0
            && |GetItems(RemoveItem(c, "Pisang"))| == 1
            && GetItems(RemoveItem(RemoveItem(c, "Pisang"), "Apel")) == map[]
  {
  }

  /** Two carts with two different names each have the same number of
      names. */
  lemma ScenarioSameSize()
    ensures |GetItems(AddAll(Empty(), [Request("Apel", 10000, 2), Request("Pisang", 5000, 3)]))|
         == |GetItems(AddAll(Empty(), [Request("Jeruk", 8000, 1), Request("Mangga", 12000, 4)]))|
  {
  }

  /** A laptop and two mice cost 15400000 in total. */
  lemma ScenarioTotalPrice()
    ensures TotalPrice(AddAll(Empty(), [Request("Laptop", 15000000, 1), Request("Mouse", 200000, 2)])) == 15400000
  {
  }

  /** Adding a zero quantity is rejected with the invalid-quantity error. */
  lemma ScenarioZeroQuantity()
    ensures AddItem(Empty(), "NuggetGedaGedi", 10000, 0) == Failure(InvalidQuantity)
    ensures Message(AddItem(Empty(), "NuggetGedaGedi", 10000, 0).error) == "Quantity must be greater than 0."
  {
  }

  /** The same name twice: one line item with the first price and the
      quantities added up. */
  lemma ScenarioSameNameTwice()
    ensures var c := AddAll(Empty(), [Request("Apel", 10000, 2), Request("Apel", 15000, 3)]);
            GetItems(c) == map["Apel" := LineItem(10000, 5)] && TotalQuantity(c) == 5
  {
  }
}
