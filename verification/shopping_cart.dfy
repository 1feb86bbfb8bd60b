/** The shopping cart: a table from item name to a line item holding a unit
    price and a quantity, with the four operations of the cart class
    (add, remove, total quantity, total price) and the items view.

    The state is an insertion-ordered sequence of named line items, the way
    the ordered array of the source keeps them; `GetItems` is the
    name-to-line-item map a caller sees. */
module ShoppingCart {
  import opened Wrappers

  /** One line of the cart: the unit price fixed at first insertion and the
      accumulated quantity. */
  datatype LineItem = LineItem(price: int, quantity: int)

  /** A line item under its name, the key of the cart. */
  datatype Entry = Entry(name: string, item: LineItem)

  /** The cart state, in insertion order. */
  datatype Cart = Cart(entries: seq<Entry>)

  /** The one error the cart reports: adding a non-positive quantity. */
  datatype Error = InvalidQuantity

  /** The text the cart attaches to an error. */
  function Message(e: Error): string {
    match e
    case InvalidQuantity => "Quantity must be greater than 0."
  }

  // ---------------------------------------------------------------------
  // Invariants
  // ---------------------------------------------------------------------

  /** Names are unique keys: no two entries share a name. */
  predicate DistinctNames(s: seq<Entry>) {
    forall i, j :: 0 <= i < j < |s| ==> s[i].name != s[j].name
  }

  /** Every stored quantity is at least 1. */
  predicate PositiveQuantities(s: seq<Entry>) {
    forall e :: e in s ==> e.item.quantity >= 1
  }

  /** The invariant every cart built by the operations satisfies. */
  predicate Valid(c: Cart) {
    DistinctNames(c.entries) && PositiveQuantities(c.entries)
  }

  // ---------------------------------------------------------------------
  // Lookup and the map view
  // ---------------------------------------------------------------------

  /** The position of the first entry named `name`, if any. */
  function Find(s: seq<Entry>, name: string): (r: Option<nat>)
    ensures r.Some? ==> r.value < |s| && s[r.value].name == name
    ensures r.Some? ==> forall j :: 0 <= j < r.value ==> s[j].name != name
    ensures r.None? ==> forall j :: 0 <= j < |s| ==> s[j].name != name
  {
    if |s| == 0 then None
    else if s[0].name == name then Some(0)
    else match Find(s[1..], name)
      case None => None
      case Some(j) => Some(j + 1)
  }

  /** The entries as a map from name to line item; a name maps to the line
      item of its first entry. */
  function Items(s: seq<Entry>): map<string, LineItem> {
    if |s| == 0 then map[]
    else Items(s[1..])[s[0].name := s[0].item]
  }

  /** The entries with every entry named `name` dropped, order kept. */
  function Without(s: seq<Entry>, name: string): (r: seq<Entry>)
    ensures |r| <= |s|
    ensures forall e :: e in r ==> e in s && e.name != name
  {
    if |s| == 0 then []
    else if s[0].name == name then Without(s[1..], name)
    else [s[0]] + Without(s[1..], name)
  }

  /** The sum of `weight` over the line items of the entries. */
  function SumOf(s: seq<Entry>, weight: LineItem -> int): int {
    if |s| == 0 then 0 else weight(s[0].item) + SumOf(s[1..], weight)
  }

  /** The quantity a line item contributes to the total quantity. */
  function Quantity(li: LineItem): int {
    li.quantity
  }

  /** The amount a line item contributes to the total price. */
  function Subtotal(li: LineItem): int {
    li.price * li.quantity
  }

  // ---------------------------------------------------------------------
  // The cart operations
  // ---------------------------------------------------------------------

  /** A freshly constructed cart. */
  function Empty(): (c: Cart)
    ensures Valid(c)
    ensures GetItems(c) == map[]
    ensures TotalQuantity(c) == 0 && TotalPrice(c) == 0
  {
    Cart([])
  }

  /** The items view: each name in the cart with its line item. */
  function GetItems(c: Cart): map<string, LineItem> {
    Items(c.entries)
  }

  /** Add `quantity` units of `name`. A non-positive quantity is rejected and
      nothing changes; a name already present keeps its price and gains the
      quantity; a new name is inserted with the given price and quantity. */
  function AddItem(c: Cart, name: string, price: int, quantity: int := 1): (r: Result<Cart, Error>)
    ensures r.Failure? <==> quantity <= 0
    ensures r.Failure? ==> r.error == InvalidQuantity
    ensures r.Success? && name in GetItems(c) ==>
      GetItems(r.value) == GetItems(c)[name := LineItem(GetItems(c)[name].price, GetItems(c)[name].quantity + quantity)]
    ensures r.Success? && name !in GetItems(c) ==>
      GetItems(r.value) == GetItems(c)[name := LineItem(price, quantity)]
    ensures r.Success? ==> |GetItems(r.value)| == |GetItems(c)| + (if name in GetItems(c) then 0 else 1)
  {
    if quantity <= 0 then Failure(InvalidQuantity)
    else
      ItemsLookup(c.entries, name);
      match Find(c.entries, name)
      case Some(i) =>
        var li := c.entries[i].item;
        assert GetItems(c)[name] == li;
        var e := Entry(name, LineItem(li.price, li.quantity + quantity));
        ItemsUpdateFirst(c.entries, i, e.item);
        Success(Cart(c.entries[i := e]))
      case None =>
        var e := Entry(name, LineItem(price, quantity));
        ItemsAppendFresh(c.entries, e);
        Success(Cart(c.entries + [e]))
  }

  /** Remove `name` from the cart; removing an absent name changes nothing. */
  function RemoveItem(c: Cart, name: string): (r: Cart)
    ensures GetItems(r) == GetItems(c) - {name}
    ensures name !in GetItems(c) ==> r == c
  {
    ItemsWithout(c.entries, name);
    ItemsLookup(c.entries, name);
    assert name !in GetItems(c) ==> Without(c.entries, name) == c.entries by {
      if name !in GetItems(c) {
        WithoutAbsent(c.entries, name);
      }
    }
    Cart(Without(c.entries, name))
  }

  /** The sum of the stored quantities. */
  function TotalQuantity(c: Cart): int {
    SumOf(c.entries, Quantity)
  }

  /** The sum of price times quantity over the stored line items. */
  function TotalPrice(c: Cart): int {
    SumOf(c.entries, Subtotal)
  }

  /** The total quantity, accumulated entry by entry from 0. */
  method GetTotalQuantity(c: Cart) returns (total: int)
    ensures total == TotalQuantity(c)
  {
    total := 0;
    var i := 0;
    while i < |c.entries|
      invariant 0 <= i <= |c.entries|
      invariant total == SumOf(c.entries[..i], Quantity)
    {
      SumSnoc(c.entries[..i], c.entries[i], Quantity);
      assert c.entries[..i + 1] == c.entries[..i] + [c.entries[i]];
      total := total + c.entries[i].item.quantity;
      i := i + 1;
    }
    assert c.entries[..i] == c.entries;
  }

  /** The total price, accumulated entry by entry from 0. */
  method GetTotalPrice(c: Cart) returns (total: int)
    ensures total == TotalPrice(c)
  {
    total := 0;
    var i := 0;
    while i < |c.entries|
      invariant 0 <= i <= |c.entries|
      invariant total == SumOf(c.entries[..i], Subtotal)
    {
      SumSnoc(c.entries[..i], c.entries[i], Subtotal);
      assert c.entries[..i + 1] == c.entries[..i] + [c.entries[i]];
      total := total + c.entries[i].item.price * c.entries[i].item.quantity;
      i := i + 1;
    }
    assert c.entries[..i] == c.entries;
  }

  // ---------------------------------------------------------------------
  // Lemmas about the entry sequence
  // ---------------------------------------------------------------------

  /** The map view holds a name exactly when some entry carries it, and then
      holds the line item of the first such entry. */
  lemma {:induction false} ItemsLookup(s: seq<Entry>, n: string)
    ensures n in Items(s) <==> Find(s, n).Some?
    ensures n in Items(s) ==> Items(s)[n] == s[Find(s, n).value].item
  {
    if |s| != 0 && s[0].name != n {
      ItemsLookup(s[1..], n);
    }
  }

  /** The map view is empty exactly when there are no entries. */
  lemma ItemsEmpty(s: seq<Entry>)
    ensures Items(s) == map[] <==> s == []
  {
    if s != [] {
      assert s[0].name in Items(s);
    }
  }

  /** Replacing the line item of the first entry named n updates the map
      view at n and nowhere else. */
  lemma {:induction false} ItemsUpdateFirst(s: seq<Entry>, i: nat, li: LineItem)
    requires i < |s| && Find(s, s[i].name) == Some(i)
    ensures Items(s[i := Entry(s[i].name, li)]) == Items(s)[s[i].name := li]
  {
    var n := s[i].name;
    var t := s[i := Entry(n, li)];
    if i == 0 {
      assert t[1..] == s[1..];
      assert Items(t) == Items(s[1..])[n := li];
    } else {
      assert s[0].name != n;
      assert t[1..] == s[1..][i - 1 := Entry(n, li)];
      assert Find(s[1..], n) == Some(i - 1);
      ItemsUpdateFirst(s[1..], i - 1, li);
      assert Items(t) == Items(s[1..])[n := li][s[0].name := s[0].item];
    }
  }

  /** Appending an entry under a new name adds exactly that name to the map
      view. */
  lemma {:induction false} ItemsAppendFresh(s: seq<Entry>, e: Entry)
    requires Find(s, e.name).None?
    ensures Items(s + [e]) == Items(s)[e.name := e.item]
  {
    if |s| == 0 {
      assert s + [e] == [e];
      assert [e][1..] == [];
    } else {
      assert (s + [e])[1..] == s[1..] + [e];
      ItemsAppendFresh(s[1..], e);
    }
  }

  /** Dropping a name removes exactly that key from the map view. */
  lemma {:induction false} ItemsWithout(s: seq<Entry>, name: string)
    ensures Items(Without(s, name)) == Items(s) - {name}
  {
    if |s| != 0 {
      var e, rest := s[0], s[1..];
      ItemsWithout(rest, name);
      UpdateThenRemove(Items(rest), e.name, e.item, name);
      if e.name != name {
        var w := Without(rest, name);
        assert ([e] + w)[1..] == w;
      }
    }
  }

  /** Removing a key after updating one: the update is lost when the keys
      agree and survives otherwise. */
  lemma UpdateThenRemove<K, V>(m: map<K, V>, k: K, v: V, j: K)
    ensures m[k := v] - {j} == if k == j then m - {j} else (m - {j})[k := v]
  {
  }

  /** Dropping a name that does not occur leaves the entries as they are. */
  lemma {:induction false} WithoutAbsent(s: seq<Entry>, name: string)
    requires Find(s, name).None?
    ensures Without(s, name) == s
  {
    if |s| != 0 {
      WithoutAbsent(s[1..], name);
      assert [s[0]] + s[1..] == s;
    }
  }

  /** Dropping a name keeps the names distinct. */
  lemma {:induction false} WithoutDistinct(s: seq<Entry>, name: string)
    requires DistinctNames(s)
    ensures DistinctNames(Without(s, name))
  {
    if |s| != 0 {
      assert DistinctNames(s[1..]);
      WithoutDistinct(s[1..], name);
      if s[0].name != name {
        var w := Without(s[1..], name);
        forall j | 0 <= j < |w|
          ensures w[j].name != s[0].name
        {
          assert w[j] in s[1..];
          var k :| 0 <= k < |s[1..]| && s[1..][k] == w[j];
          assert s[k + 1] == w[j];
        }
        assert ([s[0]] + w)[1..] == w;
      }
    }
  }

  /** With distinct names the map view has one key per entry. */
  lemma {:induction false} ItemsCardinality(s: seq<Entry>)
    requires DistinctNames(s)
    ensures |Items(s)| == |s|
  {
    if |s| != 0 {
      assert DistinctNames(s[1..]);
      ItemsCardinality(s[1..]);
      ItemsLookup(s[1..], s[0].name);
      assert Find(s[1..], s[0].name).None? by {
        forall j | 0 <= j < |s[1..]|
          ensures s[1..][j].name != s[0].name
        {
          assert s[j + 1] == s[1..][j];
        }
      }
    }
  }

  /** A sum over a concatenation is the sum of the two sums. */
  lemma {:induction false} SumAppend(a: seq<Entry>, b: seq<Entry>, weight: LineItem -> int)
    ensures SumOf(a + b, weight) == SumOf(a, weight) + SumOf(b, weight)
  {
    if |a| == 0 {
      assert a + b == b;
    } else {
      assert (a + b)[1..] == a[1..] + b;
      SumAppend(a[1..], b, weight);
    }
  }

  /** Appending one entry adds its weight to the sum. */
  lemma SumSnoc(s: seq<Entry>, e: Entry, weight: LineItem -> int)
    ensures SumOf(s + [e], weight) == SumOf(s, weight) + weight(e.item)
  {
    SumAppend(s, [e], weight);
    assert [e][1..] == [];
  }

  /** Replacing one entry changes the sum by the difference of the weights. */
  lemma {:induction false} SumUpdate(s: seq<Entry>, i: nat, e: Entry, weight: LineItem -> int)
    requires i < |s|
    ensures SumOf(s[i := e], weight) == SumOf(s, weight) - weight(s[i].item) + weight(e.item)
  {
    if i == 0 {
      assert s[i := e][1..] == s[1..];
    } else {
      assert s[i := e][1..] == s[1..][i - 1 := e];
      SumUpdate(s[1..], i - 1, e, weight);
    }
  }

  /** With distinct names, dropping a name subtracts the weight of its line
      item, or nothing when the name is absent. */
  lemma {:induction false} SumWithout(s: seq<Entry>, name: string, weight: LineItem -> int)
    requires DistinctNames(s)
    ensures SumOf(Without(s, name), weight)
         == SumOf(s, weight) - (if name in Items(s) then weight(Items(s)[name]) else 0)
  {
    if |s| != 0 {
      assert DistinctNames(s[1..]);
      if s[0].name == name {
        assert Find(s[1..], name).None? by {
          forall j | 0 <= j < |s[1..]|
            ensures s[1..][j].name != name
          {
            assert s[j + 1] == s[1..][j];
          }
        }
        WithoutAbsent(s[1..], name);
      } else {
        SumWithout(s[1..], name, weight);
        var w := Without(s[1..], name);
        assert ([s[0]] + w)[1..] == w;
      }
    }
  }

  /** When every quantity is at least 1, the quantities sum to at least the
      number of entries. */
  lemma {:induction false} QuantitySumAtLeastLength(s: seq<Entry>)
    requires PositiveQuantities(s)
    ensures SumOf(s, Quantity) >= |s|
  {
    if |s| != 0 {
      assert s[0] in s;
      assert PositiveQuantities(s[1..]) by {
        forall e | e in s[1..]
          ensures e.item.quantity >= 1
        {
          assert e in s;
        }
      }
      QuantitySumAtLeastLength(s[1..]);
    }
  }
}
