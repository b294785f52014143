/** The shopping-cart store of the cart drawer: an ordered list of cart lines,
    each a product's fields plus a `count`, matched by product `id`. Four mutators
    edit the list in place, the total is derived from it, and a subscription writes
    the whole cart to local storage under the key "cart" after every change. */
module Cart {

  datatype Option<T> = None | Some(value: T)

  /** A catalogue product as the cart uses it. Prices are whole currency units. */
  datatype Product = Product(id: int, price: int, quantity: int)

  /** A cart line: the product's fields spread into one record beside `count`. */
  datatype Line = Line(id: int, price: int, quantity: int, count: int)

  /** `{ count, ...p }`: a line for `count` units of the product. */
  function NewLine(p: Product, count: int): (l: Line)
    ensures l.id == p.id && l.price == p.price && l.quantity == p.quantity
    ensures l.count == count && Amount(l) == p.price * count
  {
    Line(p.id, p.price, p.quantity, count)
  }

  ghost predicate HasId(lines: seq<Line>, id: int)
  {
    exists i :: 0 <= i < |lines| && lines[i].id == id
  }

  /** Each product id appears at most once in the cart. */
  ghost predicate UniqueIds(lines: seq<Line>)
  {
    forall i, j :: 0 <= i < j < |lines| ==> lines[i].id != lines[j].id
  }

  /** Every line holds at least one unit and no more than the product's stock. */
  ghost predicate CountsInStock(lines: seq<Line>)
  {
    forall i :: 0 <= i < |lines| ==> 1 <= lines[i].count <= lines[i].quantity
  }

  /** `findIndex(pc => p.id === pc.id)`: the first line with the id, or -1. */
  function FindIndex(lines: seq<Line>, id: int): (r: int)
    ensures -1 <= r < |lines|
    ensures r == -1 <==> !HasId(lines, id)
    ensures r >= 0 ==> lines[r].id == id && forall j :: 0 <= j < r ==> lines[j].id != id
  {
    if lines == [] then -1
    else if lines[0].id == id then 0
    else
      var k := FindIndex(lines[1..], id);
      if k == -1 then -1 else k + 1
  }

  /** With unique ids the line found is the only one with that id. */
  lemma FoundIsOnly(lines: seq<Line>, id: int, j: int)
    requires UniqueIds(lines) && 0 <= j < |lines| && lines[j].id == id
    ensures FindIndex(lines, id) == j
  {
  }

  /** The lines without the one at position `i`, the others in their order. */
  function Delete(lines: seq<Line>, i: int): (r: seq<Line>)
    requires 0 <= i < |lines|
    ensures |r| == |lines| - 1
    ensures forall j :: 0 <= j < i ==> r[j] == lines[j]
    ensures forall j :: i <= j < |r| ==> r[j] == lines[j + 1]
  {
    lines[..i] + lines[i + 1..]
  }

  /** `Array.prototype.splice(start, 1)`: a negative start counts from the end
      (clamped at 0), and a start at or past the end deletes nothing. */
  function SpliceOne(lines: seq<Line>, start: int): (r: seq<Line>)
    ensures 0 <= start < |lines| ==> r == Delete(lines, start)
    ensures start == -1 && lines != [] ==> r == lines[..|lines| - 1]
    ensures start >= |lines| || lines == [] ==> r == lines
  {
    var from := if start < 0 then (if |lines| + start < 0 then 0 else |lines| + start) else start;
    if from < |lines| then Delete(lines, from) else lines
  }

  /** What a line contributes to the total: `price * count`. */
  function Amount(l: Line): int
  {
    l.price * l.count
  }

  /** `reduce((acc, cur) => acc += cur.price * cur.count, 0)` with the initial
      value generalised to `acc`: the lines are folded from the first to the last
      into the accumulator. When no line has a negative amount the fold never
      drops below its starting value. */
  function Fold(lines: seq<Line>, acc: int): (r: int)
    ensures (forall i :: 0 <= i < |lines| ==> Amount(lines[i]) >= 0) ==> r >= acc
  {
    if lines == [] then acc else Fold(lines[1..], acc + Amount(lines[0]))
  }

  /** `calculations.total`: the fold started at 0. An empty cart totals 0, and a
      cart without negative amounts never totals below 0. */
  function Total(lines: seq<Line>): (r: int)
    ensures lines == [] ==> r == 0
    ensures (forall i :: 0 <= i < |lines| ==> Amount(lines[i]) >= 0) ==> r >= 0
  {
    Fold(lines, 0)
  }

  /** The sum over the lines of `price * count`, written without an accumulator. */
  function SumOfAmounts(lines: seq<Line>): int
  {
    if lines == [] then 0 else Amount(lines[0]) + SumOfAmounts(lines[1..])
  }

  lemma {:induction false} FoldIsSum(lines: seq<Line>, acc: int)
    ensures Fold(lines, acc) == acc + SumOfAmounts(lines)
  {
    if lines != [] {
      FoldIsSum(lines[1..], acc + Amount(lines[0]));
    }
  }

  /** The total is the sum of `price * count` over the current lines, and 0 for an
      empty cart. */
  lemma TotalIsSumOfAmounts(lines: seq<Line>)
    ensures Total(lines) == SumOfAmounts(lines)
    ensures lines == [] ==> Total(lines) == 0
  {
    FoldIsSum(lines, 0);
  }

  lemma {:induction false} SumAppend(a: seq<Line>, b: seq<Line>)
    ensures SumOfAmounts(a + b) == SumOfAmounts(a) + SumOfAmounts(b)
  {
    if a == [] {
      assert a + b == b;
    } else {
      assert (a + b)[1..] == a[1..] + b;
      SumAppend(a[1..], b);
    }
  }

  /** The total of two line lists one after the other is the sum of their totals. */
  lemma TotalAppend(a: seq<Line>, b: seq<Line>)
    ensures Total(a + b) == Total(a) + Total(b)
  {
    TotalIsSumOfAmounts(a + b);
    TotalIsSumOfAmounts(a);
    TotalIsSumOfAmounts(b);
    SumAppend(a, b);
  }

  lemma {:induction false} SumReplace(lines: seq<Line>, i: int, l: Line)
    requires 0 <= i < |lines|
    ensures SumOfAmounts(lines[i := l]) == SumOfAmounts(lines) - Amount(lines[i]) + Amount(l)
  {
    if i > 0 {
      assert lines[i := l][1..] == lines[1..][i - 1 := l];
      SumReplace(lines[1..], i - 1, l);
    }
  }

  /** Replacing one line changes the total by the difference of the two amounts. */
  lemma TotalReplace(lines: seq<Line>, i: int, l: Line)
    requires 0 <= i < |lines|
    ensures Total(lines[i := l]) == Total(lines) - Amount(lines[i]) + Amount(l)
  {
    TotalIsSumOfAmounts(lines[i := l]);
    TotalIsSumOfAmounts(lines);
    SumReplace(lines, i, l);
  }

  lemma {:induction false} SumDelete(lines: seq<Line>, i: int)
    requires 0 <= i < |lines|
    ensures SumOfAmounts(Delete(lines, i)) == SumOfAmounts(lines) - Amount(lines[i])
  {
    if i > 0 {
      assert Delete(lines, i)[1..] == Delete(lines[1..], i - 1);
      SumDelete(lines[1..], i - 1);
    } else {
      assert Delete(lines, i) == lines[1..];
    }
  }

  /** Deleting one line takes its amount off the total. */
  lemma TotalDelete(lines: seq<Line>, i: int)
    requires 0 <= i < |lines|
    ensures Total(Delete(lines, i)) == Total(lines) - Amount(lines[i])
  {
    TotalIsSumOfAmounts(Delete(lines, i));
    TotalIsSumOfAmounts(lines);
    SumDelete(lines, i);
  }

  /** `addProductToCart(p, count)`: an absent product is appended as a new line
      holding `count` units, not limited by stock; for a present product `count`
      is ignored and the line gains exactly one unit, and only while its stock
      exceeds its count. */
  function Added(lines: seq<Line>, p: Product, count: int): (r: seq<Line>)
    ensures !HasId(lines, p.id) ==> r == lines + [NewLine(p, count)]
    ensures HasId(lines, p.id) ==> |r| == |lines|
    ensures HasId(lines, p.id) ==>
      var k := FindIndex(lines, p.id);
      && (forall j :: 0 <= j < |lines| && j != k ==> r[j] == lines[j])
      && r[k] == lines[k].(count := if lines[k].quantity > lines[k].count then lines[k].count + 1 else lines[k].count)
  {
    var idx := FindIndex(lines, p.id);
    if idx == -1 then lines + [NewLine(p, count)]
    else if lines[idx].quantity > lines[idx].count then lines[idx := lines[idx].(count := lines[idx].count + 1)]
    else lines
  }

  /** `removeOne(p)`: nothing happens for an absent id; a line holding more than
      one unit loses one; a line holding one unit or fewer is deleted. */
  function RemovedOne(lines: seq<Line>, id: int): (r: seq<Line>)
    ensures !HasId(lines, id) ==> r == lines
    ensures HasId(lines, id) && lines[FindIndex(lines, id)].count > 1 ==>
      var k := FindIndex(lines, id);
      |r| == |lines| && r[k] == lines[k].(count := lines[k].count - 1) &&
      forall j :: 0 <= j < |lines| && j != k ==> r[j] == lines[j]
    ensures HasId(lines, id) && lines[FindIndex(lines, id)].count <= 1 ==>
      r == Delete(lines, FindIndex(lines, id))
  {
    var idx := FindIndex(lines, id);
    if idx == -1 then lines
    else if lines[idx].count > 1 then lines[idx := lines[idx].(count := lines[idx].count - 1)]
    else SpliceOne(lines, idx)
  }

  /** `removeProductFromCart(p)`: `splice(findIndex(...), 1)`. A present id loses
      its line; for an absent id `findIndex` gives -1, and `splice(-1, 1)` deletes
      the last line of a non-empty cart. */
  function Removed(lines: seq<Line>, id: int): (r: seq<Line>)
    ensures HasId(lines, id) ==> r == Delete(lines, FindIndex(lines, id))
    ensures !HasId(lines, id) && lines != [] ==> r == lines[..|lines| - 1]
    ensures lines == [] ==> r == []
  {
    SpliceOne(lines, FindIndex(lines, id))
  }

  lemma DeleteKeepsUnique(lines: seq<Line>, i: int)
    requires 0 <= i < |lines| && UniqueIds(lines)
    ensures UniqueIds(Delete(lines, i))
  {
    var r := Delete(lines, i);
    forall a, b | 0 <= a < b < |r| ensures r[a].id != r[b].id {
      var a' := if a < i then a else a + 1;
      var b' := if b < i then b else b + 1;
      assert r[a] == lines[a'] && r[b] == lines[b'];
    }
  }

  lemma DeleteKeepsStock(lines: seq<Line>, i: int)
    requires 0 <= i < |lines| && CountsInStock(lines)
    ensures CountsInStock(Delete(lines, i))
  {
    var r := Delete(lines, i);
    forall j | 0 <= j < |r| ensures 1 <= r[j].count <= r[j].quantity {
      assert r[j] == lines[if j < i then j else j + 1];
    }
  }

  /** Adding keeps each id at most once. */
  lemma AddedKeepsUnique(lines: seq<Line>, p: Product, count: int)
    requires UniqueIds(lines)
    ensures UniqueIds(Added(lines, p, count))
  {
  }

  /** Adding never pushes an existing line past its stock or below one unit; a new
      line is within stock only when the requested count is. */
  lemma AddedKeepsStock(lines: seq<Line>, p: Product, count: int)
    requires CountsInStock(lines)
    requires !HasId(lines, p.id) ==> 1 <= count <= p.quantity
    ensures CountsInStock(Added(lines, p, count))
  {
  }

  /** One more unit adds one `price` to a line's amount. */
  lemma AmountOneMore(l: Line)
    ensures Amount(l.(count := l.count + 1)) == Amount(l) + l.price
  {
    assert l.price * (l.count + 1) == l.price * l.count + l.price;
  }

  /** A new line adds its amount (`price * count`) to the total; an increment adds
      one `price`; an add at the stock limit leaves the total alone. */
  lemma AddedTotal(lines: seq<Line>, p: Product, count: int)
    ensures var k := FindIndex(lines, p.id);
      Total(Added(lines, p, count)) ==
        if k == -1 then Total(lines) + Amount(NewLine(p, count))
        else if lines[k].quantity > lines[k].count then Total(lines) + lines[k].price
        else Total(lines)
  {
    var k := FindIndex(lines, p.id);
    if k == -1 {
      TotalAppend(lines, [NewLine(p, count)]);
      TotalIsSumOfAmounts([NewLine(p, count)]);
    } else if lines[k].quantity > lines[k].count {
      var l := lines[k].(count := lines[k].count + 1);
      assert Added(lines, p, count) == lines[k := l];
      TotalReplace(lines, k, l);
      AmountOneMore(lines[k]);
    }
  }

  lemma RemovedOneKeepsUnique(lines: seq<Line>, id: int)
    requires UniqueIds(lines)
    ensures UniqueIds(RemovedOne(lines, id))
  {
    var k := FindIndex(lines, id);
    if k != -1 && lines[k].count <= 1 {
      DeleteKeepsUnique(lines, k);
    }
  }

  /** Removing one unit keeps every remaining line between one unit and its stock. */
  lemma RemovedOneKeepsStock(lines: seq<Line>, id: int)
    requires CountsInStock(lines)
    ensures CountsInStock(RemovedOne(lines, id))
  {
    var k := FindIndex(lines, id);
    if k != -1 && lines[k].count <= 1 {
      DeleteKeepsStock(lines, k);
    }
  }

  /** Taking the last unit of a product out of a cart with unique ids leaves no
      line for that product. */
  lemma RemovedOneLastUnitDropsProduct(lines: seq<Line>, id: int)
    requires UniqueIds(lines) && HasId(lines, id)
    requires lines[FindIndex(lines, id)].count <= 1
    ensures !HasId(RemovedOne(lines, id), id)
  {
    var k := FindIndex(lines, id);
    var r := RemovedOne(lines, id);
    forall j | 0 <= j < |r| ensures r[j].id != id {
      assert r[j] == lines[if j < k then j else j + 1];
    }
  }

  /** Removing one unit takes one `price` off the total, or the line's whole
      amount when the line goes. */
  lemma RemovedOneTotal(lines: seq<Line>, id: int)
    ensures var k := FindIndex(lines, id);
      Total(RemovedOne(lines, id)) ==
        if k == -1 then Total(lines)
        else if lines[k].count > 1 then Total(lines) - lines[k].price
        else Total(lines) - Amount(lines[k])
  {
    var k := FindIndex(lines, id);
    if k != -1 {
      if lines[k].count > 1 {
        var l := lines[k].(count := lines[k].count - 1);
        assert RemovedOne(lines, id) == lines[k := l];
        TotalReplace(lines, k, l);
        AmountOneMore(l);
        assert l.(count := l.count + 1) == lines[k];
      } else {
        assert RemovedOne(lines, id) == Delete(lines, k);
        TotalDelete(lines, k);
      }
    }
  }

  lemma RemovedKeepsUnique(lines: seq<Line>, id: int)
    requires UniqueIds(lines)
    ensures UniqueIds(Removed(lines, id))
  {
    if lines != [] {
      var k := FindIndex(lines, id);
      DeleteKeepsUnique(lines, if k == -1 then |lines| - 1 else k);
    }
  }

  /** Removing a product, present or not, keeps every remaining line between one
      unit and its stock. */
  lemma RemovedKeepsStock(lines: seq<Line>, id: int)
    requires CountsInStock(lines)
    ensures CountsInStock(Removed(lines, id))
  {
    if lines != [] {
      var k := FindIndex(lines, id);
      DeleteKeepsStock(lines, if k == -1 then |lines| - 1 else k);
    }
  }

  /** Removing a present product from a cart with unique ids leaves no line for it
      and takes its whole amount off the total. */
  lemma RemovedDropsProduct(lines: seq<Line>, id: int)
    requires UniqueIds(lines) && HasId(lines, id)
    ensures !HasId(Removed(lines, id), id)
    ensures Total(Removed(lines, id)) == Total(lines) - Amount(lines[FindIndex(lines, id)])
  {
    var k := FindIndex(lines, id);
    var r := Removed(lines, id);
    forall j | 0 <= j < |r| ensures r[j].id != id {
      assert r[j] == lines[if j < k then j else j + 1];
    }
    TotalDelete(lines, k);
  }

  /** What `JSON.parse` makes of the text stored under the "cart" key: text that
      is not JSON (the parse throws), JSON for a falsy value, or a cart object. */
  datatype Stored = Malformed | Falsy | CartJson(products: seq<Line>)

  datatype LoadResult = Loaded(products: seq<Line>) | ParseError

  /** `JSON.stringify(cartStore)`: the stored form of a cart, which loads back as
      the same cart. */
  function Serialize(lines: seq<Line>): (s: Stored)
    ensures Load(Some(s)) == Loaded(lines)
  {
    CartJson(lines)
  }

  /** `JSON.parse(localStorage.getItem("cart")) || { products: [] }`. A missing
      key reads as `null`, which parses to `null`; a falsy parse result falls back
      to the empty cart; unparsable text throws, as nothing catches it. */
  function Load(stored: Option<Stored>): (r: LoadResult)
    ensures r == ParseError <==> stored == Some(Malformed)
    ensures stored == None || stored == Some(Falsy) ==> r == Loaded([])
  {
    match stored
    case None => Loaded([])
    case Some(Malformed) => ParseError
    case Some(Falsy) => Loaded([])
    case Some(CartJson(products)) => Loaded(products)
  }

  /** `localStorage.getItem(key)`: the stored value, or nothing (`null`). */
  function Lookup(storage: map<string, Stored>, key: string): (r: Option<Stored>)
    ensures r.Some? <==> key in storage
    ensures r.Some? ==> r.value == storage[key]
  {
    if key in storage then Some(storage[key]) else None
  }

  /** The cart store with the local storage it persists to. */
  class CartStore {
    var products: seq<Line>
    var storage: map<string, Stored>

    /** The stored copy under "cart" is the in-memory cart. */
    ghost predicate Persisted()
      reads this
    {
      "cart" in storage && storage["cart"] == Serialize(products)
    }

    /** `calculations.total`, recomputed from the current lines. */
    function CurrentTotal(): (r: int)
      reads this
      ensures r == SumOfAmounts(products)
    {
      TotalIsSumOfAmounts(products);
      Total(products)
    }

    constructor (products: seq<Line>, storage: map<string, Stored>)
      ensures this.products == products && this.storage == storage
    {
      this.products := products;
      this.storage := storage;
    }

    /** Module start-up: the store is created from what local storage holds under
        "cart"; unparsable text throws, which here is the null result. */
    static method Open(storage: map<string, Stored>) returns (store: CartStore?)
      ensures store == null <==> Load(Lookup(storage, "cart")) == ParseError
      ensures store != null ==>
        && fresh(store)
        && store.products == Load(Lookup(storage, "cart")).products
        && store.storage == storage
      ensures store != null && "cart" !in storage ==> store.products == []
    {
      var loaded := Load(Lookup(storage, "cart"));
      if loaded == ParseError {
        store := null;
      } else {
        store := new CartStore(loaded.products, storage);
      }
    }

    /** The `subscribe` callback: write the whole cart under "cart". */
    method Persist()
      modifies this`storage
      ensures storage == old(storage)["cart" := Serialize(products)]
      ensures Persisted()
    {
      storage := storage["cart" := CartJson(products)];
    }

    method AddProductToCart(p: Product, count: int := 1)
      modifies this
      ensures products == Added(old(products), p, count)
      ensures storage == if products == old(products) then old(storage)
                         else old(storage)["cart" := Serialize(products)]
      ensures UniqueIds(old(products)) ==> UniqueIds(products)
    {
      if UniqueIds(products) {
        AddedKeepsUnique(products, p, count);
      }
      var idx := FindIndex(products, p.id);
      if idx == -1 {
        products := products + [NewLine(p, count)];
        assert |products| == |old(products)| + 1;
        Persist();
        return;
      }
      var line := products[idx];
      if line.quantity > line.count {
        products := products[idx := line.(count := line.count + 1)];
        assert products[idx] != old(products)[idx];
        Persist();
      }
    }

    method RemoveOne(id: int)
      modifies this
      ensures products == RemovedOne(old(products), id)
      ensures storage == if products == old(products) then old(storage)
                         else old(storage)["cart" := Serialize(products)]
      ensures UniqueIds(old(products)) ==> UniqueIds(products)
    {
      if UniqueIds(products) {
        RemovedOneKeepsUnique(products, id);
      }
      var idx := FindIndex(products, id);
      if idx == -1 {
        return;
      }
      var line := products[idx];
      if line.count > 1 {
        products := products[idx := line.(count := line.count - 1)];
        assert products[idx] != old(products)[idx];
      } else {
        products := SpliceOne(products, idx);
        assert |products| == |old(products)| - 1;
      }
      Persist();
    }

    method RemoveProductFromCart(id: int)
      modifies this
      ensures products == Removed(old(products), id)
      ensures storage == if products == old(products) then old(storage)
                         else old(storage)["cart" := Serialize(products)]
      ensures UniqueIds(old(products)) ==> UniqueIds(products)
    {
      if UniqueIds(products) {
        RemovedKeepsUnique(products, id);
      }
      var idx := FindIndex(products, id);
      var before := products;
      products := SpliceOne(products, idx);
      if before != [] {
        assert |products| == |before| - 1;
        Persist();
      }
    }

    /** `products = []` assigns a new array, so the cart is written even when it
        was already empty. */
    method ResetCart()
      modifies this
      ensures products == [] && CurrentTotal() == 0
      ensures storage == old(storage)["cart" := Serialize([])]
    {
      products := [];
      Persist();
    }
  }

  /** Five adds of a product with five in stock fill its line to five units and a
      total of 500; a sixth add is refused silently and changes nothing. */
  lemma FillToStock()
    ensures var p := Product(1, 100, 5);
      var full := Added(Added(Added(Added(Added([], p, 1), p, 1), p, 1), p, 1), p, 1);
      full == [Line(1, 100, 5, 5)] && Total(full) == 500 && Added(full, p, 1) == full
  {
  }

  /** After any change the stored copy loads back as the cart in memory. */
  lemma PersistedReloads(store: CartStore)
    requires store.Persisted()
    ensures Load(Lookup(store.storage, "cart")) == Loaded(store.products)
  {
  }
}
