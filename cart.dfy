/** The shopping-cart hook (`lib/hooks/use-cart.ts`): a list of lines keyed by product id, the
    operations that produce the next list, and the totals derived from it. Every operation is a
    function from the current list to the next one, as the hook's `setItems` updaters are. */
module Cart {
  import opened Wrappers

  /** One line of the cart. Prices are exact reals; the hook's JavaScript numbers are not. */
  datatype CartItem = CartItem(
    id: string,
    name: string,
    price: real,
    originalPrice: Option<real>,
    image: string,
    merchant: string,
    quantity: int,
    category: string)

  /** The product record `addItem` is given; the fields it copies into a new line. */
  datatype Product = Product(
    id: string,
    name: string,
    price: real,
    originalPrice: Option<real>,
    image: string,
    merchant: string,
    category: string)

  /** 16% VAT, exact. */
  const TaxRate: real := 16.0 / 100.0
  const FreeShippingThreshold: real := 5000.0
  const ShippingCost: real := 500.0
  /** The quantity `addItem` uses when none is given. */
  const DefaultQuantity: int := 1

  // ---------------------------------------------------------------- totals

  function LineTotal(item: CartItem): real {
    item.price * item.quantity as real
  }

  /** `items.reduce((sum, item) => sum + item.price * item.quantity, 0)`: a left fold. */
  function Subtotal(items: seq<CartItem>): real {
    if items == [] then 0.0
    else Subtotal(items[..|items| - 1]) + LineTotal(items[|items| - 1])
  }

  /** `items.reduce((sum, item) => sum + item.quantity, 0)`: a left fold. */
  function TotalItems(items: seq<CartItem>): int {
    if items == [] then 0
    else TotalItems(items[..|items| - 1]) + items[|items| - 1].quantity
  }

  function Tax(subtotal: real): (r: real)
    ensures r * 100.0 == subtotal * 16.0
  {
    subtotal * TaxRate
  }

  /** The flat fee, waived once the subtotal reaches the threshold. */
  function Shipping(subtotal: real): (r: real)
    ensures r == 0.0 <==> subtotal >= FreeShippingThreshold
    ensures r == 0.0 || r == ShippingCost
  {
    if subtotal >= FreeShippingThreshold then 0.0 else ShippingCost
  }

  function TotalPrice(subtotal: real): (r: real)
    ensures subtotal >= FreeShippingThreshold ==> r * 100.0 == subtotal * 116.0
    ensures subtotal < FreeShippingThreshold ==> r * 100.0 == subtotal * 116.0 + 50000.0
  {
    subtotal + Tax(subtotal) + Shipping(subtotal)
  }

  /** Adding `q` units to a line adds the cost of `q` units at that line's price. */
  lemma LineTotalAdd(x: CartItem, q: int)
    ensures LineTotal(x.(quantity := x.quantity + q)) == LineTotal(x) + LineTotal(x.(quantity := q))
  {
    assert (x.quantity + q) as real == x.quantity as real + q as real;
  }

  /** Both folds split over concatenation, so the order of the reduction does not matter. */
  lemma {:induction false} SubtotalAppend(a: seq<CartItem>, b: seq<CartItem>)
    ensures Subtotal(a + b) == Subtotal(a) + Subtotal(b)
    ensures TotalItems(a + b) == TotalItems(a) + TotalItems(b)
    decreases |b|
  {
    if b == [] {
      assert a + b == a;
    } else {
      var ab := a + b;
      assert ab[..|ab| - 1] == a + b[..|b| - 1];
      assert ab[|ab| - 1] == b[|b| - 1];
      SubtotalAppend(a, b[..|b| - 1]);
    }
  }

  /** A cart whose lines all cost something non-negative has a non-negative subtotal. */
  lemma {:induction false} SubtotalNonNegative(items: seq<CartItem>)
    requires forall i | 0 <= i < |items| :: items[i].price >= 0.0 && items[i].quantity >= 0
    ensures Subtotal(items) >= 0.0
  {
    if items != [] {
      var last := items[|items| - 1];
      SubtotalNonNegative(items[..|items| - 1]);
      assert last.price * last.quantity as real >= 0.0;
    }
  }

  /** When every line holds at least one unit, the item count is at least the number of lines. */
  lemma {:induction false} TotalItemsAtLeastLines(items: seq<CartItem>)
    requires forall i | 0 <= i < |items| :: items[i].quantity >= 1
    ensures TotalItems(items) >= |items|
  {
    if items != [] {
      TotalItemsAtLeastLines(items[..|items| - 1]);
    }
  }

  lemma SubtotalCons(x: CartItem, rest: seq<CartItem>)
    ensures Subtotal([x] + rest) == LineTotal(x) + Subtotal(rest)
    ensures TotalItems([x] + rest) == x.quantity + TotalItems(rest)
  {
    SubtotalAppend([x], rest);
    assert [x][..0] == [];
  }

  /** Replacing the line at `k` changes each total by the difference of that line alone. */
  lemma SubtotalPointUpdate(a: seq<CartItem>, b: seq<CartItem>, k: nat)
    requires |a| == |b| && k < |a|
    requires forall i | 0 <= i < |a| && i != k :: a[i] == b[i]
    ensures Subtotal(b) == Subtotal(a) - LineTotal(a[k]) + LineTotal(b[k])
    ensures TotalItems(b) == TotalItems(a) - a[k].quantity + b[k].quantity
  {
    assert a[..k] == b[..k];
    assert a[k + 1..] == b[k + 1..];
    assert a == a[..k] + [a[k]] + a[k + 1..];
    assert b == b[..k] + [b[k]] + b[k + 1..];
    SubtotalAppend(a[..k] + [a[k]], a[k + 1..]);
    SubtotalAppend(a[..k], [a[k]]);
    SubtotalAppend(b[..k] + [b[k]], b[k + 1..]);
    SubtotalAppend(b[..k], [b[k]]);
    SubtotalCons(a[k], []);
    SubtotalCons(b[k], []);
    assert [a[k]] + [] == [a[k]] && [b[k]] + [] == [b[k]];
  }

  /** The total price is not monotone in the subtotal: just below the free-shipping threshold
      the customer pays more than at the threshold itself. */
  lemma TotalPriceNotMonotone(subtotal: real)
    requires 4600.0 <= subtotal < FreeShippingThreshold
    ensures TotalPrice(subtotal) > TotalPrice(FreeShippingThreshold)
  {
  }

  // ---------------------------------------------------------------- lookups

  /** No two lines share an id: what `addItem`'s merge is there to keep. */
  ghost predicate UniqueIds(items: seq<CartItem>) {
    forall i, j | 0 <= i < j < |items| :: items[i].id != items[j].id
  }

  /** `items.some(item => item.id === id)`. */
  predicate IsInCart(items: seq<CartItem>, id: string)
  {
    exists i | 0 <= i < |items| :: items[i].id == id
  }

  /** Index of the first line with `id`, or `|items|` when there is none. */
  function FirstMatch(items: seq<CartItem>, id: string): (k: nat)
    ensures k <= |items|
    ensures forall j | 0 <= j < k :: items[j].id != id
    ensures k < |items| ==> items[k].id == id
    ensures k < |items| <==> IsInCart(items, id)
  {
    if items == [] then 0
    else if items[0].id == id then 0
    else 1 + FirstMatch(items[1..], id)
  }

  /** `items.find(item => item.id === id)`: the first line with that id. */
  function Find(items: seq<CartItem>, id: string): (r: Option<CartItem>)
    ensures r.Some? <==> IsInCart(items, id)
    ensures r.Some? ==> r.value in items && r.value.id == id
    ensures r.Some? ==> r.value == items[FirstMatch(items, id)]
  {
    var k := FirstMatch(items, id);
    if k < |items| then Some(items[k]) else None
  }

  /** The three facts of `FirstMatch`'s contract pin its result down. */
  lemma FirstMatchAt(items: seq<CartItem>, id: string, k: nat)
    requires k <= |items|
    requires forall j | 0 <= j < k :: items[j].id != id
    requires k < |items| ==> items[k].id == id
    ensures FirstMatch(items, id) == k
  {
  }

  /** `getItemQuantity`: the quantity of the first line with that id, 0 when there is none. */
  function GetItemQuantity(items: seq<CartItem>, id: string): (q: int)
    ensures !IsInCart(items, id) ==> q == 0
    ensures IsInCart(items, id) ==> q == items[FirstMatch(items, id)].quantity
  {
    match Find(items, id)
    case Some(item) => item.quantity
    case None => 0
  }

  /** With unique ids, the quantity reported for a line's id is that line's quantity. */
  lemma GetItemQuantityUnique(items: seq<CartItem>, k: nat)
    requires UniqueIds(items) && k < |items|
    ensures GetItemQuantity(items, items[k].id) == items[k].quantity
  {
    assert FirstMatch(items, items[k].id) == k;
  }

  // ---------------------------------------------------------------- operations

  function NewItem(product: Product, quantity: int): (item: CartItem)
    ensures item.id == product.id && item.quantity == quantity && item.price == product.price
  {
    CartItem(product.id, product.name, product.price, product.originalPrice, product.image,
             product.merchant, quantity, product.category)
  }

  /** `currentItems.map(...)` adding `quantity` to every line with `id`. */
  function IncreaseMatching(items: seq<CartItem>, id: string, quantity: int): (r: seq<CartItem>)
    ensures |r| == |items|
    ensures forall i | 0 <= i < |items| :: r[i].id == items[i].id
    ensures forall i | 0 <= i < |items| && items[i].id == id ::
      r[i] == items[i].(quantity := items[i].quantity + quantity)
    ensures forall i | 0 <= i < |items| && items[i].id != id :: r[i] == items[i]
  {
    seq(|items|, i requires 0 <= i < |items| =>
      if items[i].id == id then items[i].(quantity := items[i].quantity + quantity) else items[i])
  }

  /** `addItem`: merge into the existing line with the product's id, or append a new line. */
  function AddItem(items: seq<CartItem>, product: Product, quantity: int): (r: seq<CartItem>)
    ensures IsInCart(r, product.id)
    ensures IsInCart(items, product.id) ==>
      |r| == |items| &&
      forall i | 0 <= i < |items| ::
        r[i].id == items[i].id &&
        (items[i].id != product.id ==> r[i] == items[i]) &&
        (items[i].id == product.id ==>
          r[i] == items[i].(quantity := items[i].quantity + quantity))
    ensures !IsInCart(items, product.id) ==>
      |r| == |items| + 1 && r[..|items|] == items &&
      r[|items|] == NewItem(product, quantity)
  {
    if Find(items, product.id).Some? then IncreaseMatching(items, product.id, quantity)
    else
      var r := items + [NewItem(product, quantity)];
      assert r[|items|].id == product.id;
      r
  }

  /** `addItem(product)` with the quantity left out. */
  function AddOne(items: seq<CartItem>, product: Product): (r: seq<CartItem>)
    ensures GetItemQuantity(r, product.id) == GetItemQuantity(items, product.id) + 1
  {
    AddItemQuantities(items, product, DefaultQuantity, product.id);
    AddItem(items, product, DefaultQuantity)
  }

  /** `removeItem`: `currentItems.filter(item => item.id !== id)`. */
  function RemoveItem(items: seq<CartItem>, id: string): (r: seq<CartItem>)
    ensures |r| <= |items|
  {
    if items == [] then []
    else (if items[0].id == id then [] else [items[0]]) + RemoveItem(items[1..], id)
  }

  /** A product is in the cart exactly when filtering its id out shortens the list. */
  lemma {:induction false} IsInCartByRemoval(items: seq<CartItem>, id: string)
    ensures IsInCart(items, id) <==> |RemoveItem(items, id)| < |items|
  {
    if items != [] {
      IsInCartByRemoval(items[1..], id);
      assert forall i | 1 <= i < |items| :: items[i] == items[1..][i - 1];
      if items[0].id != id && IsInCart(items, id) {
        var i :| 0 <= i < |items| && items[i].id == id;
        assert items[1..][i - 1].id == id;
      }
    }
  }

  /** `updateQuantity`'s `map`: every line with `id` gets quantity `quantity`. */
  function SetQuantity(items: seq<CartItem>, id: string, quantity: int): (r: seq<CartItem>)
    ensures |r| == |items|
    ensures forall i | 0 <= i < |items| :: r[i].id == items[i].id
    ensures forall i | 0 <= i < |items| && items[i].id == id :: r[i] == items[i].(quantity := quantity)
    ensures forall i | 0 <= i < |items| && items[i].id != id :: r[i] == items[i]
  {
    seq(|items|, i requires 0 <= i < |items| =>
      if items[i].id == id then items[i].(quantity := quantity) else items[i])
  }

  /** `updateQuantity`: a quantity of zero or less removes the line, any other sets it. */
  function UpdateQuantity(items: seq<CartItem>, id: string, quantity: int): (r: seq<CartItem>)
    ensures quantity <= 0 ==> r == RemoveItem(items, id)
    ensures quantity > 0 ==>
      |r| == |items| &&
      forall i | 0 <= i < |items| ::
        r[i] == if items[i].id == id then items[i].(quantity := quantity) else items[i]
  {
    if quantity <= 0 then RemoveItem(items, id) else SetQuantity(items, id, quantity)
  }

  /** `clearCart`: the next list is empty whatever the current one is. */
  function ClearCart(items: seq<CartItem>): (r: seq<CartItem>)
    ensures |r| == 0
  {
    []
  }

  // ---------------------------------------------------------------- properties

  lemma UniqueIdsCons(x: CartItem, rest: seq<CartItem>)
    ensures UniqueIds([x] + rest) <==> !IsInCart(rest, x.id) && UniqueIds(rest)
  {
    var s := [x] + rest;
    if UniqueIds(s) {
      forall i | 0 <= i < |rest| ensures rest[i].id != x.id {
        assert s[0] == x && s[i + 1] == rest[i];
      }
      forall i, j | 0 <= i < j < |rest| ensures rest[i].id != rest[j].id {
        assert s[i + 1] == rest[i] && s[j + 1] == rest[j];
      }
    }
    if !IsInCart(rest, x.id) && UniqueIds(rest) {
      forall i, j | 0 <= i < j < |s| ensures s[i].id != s[j].id {
        assert s[j] == rest[j - 1];
        if i > 0 { assert s[i] == rest[i - 1]; }
      }
    }
  }

  /** `addItem` raises the reported quantity of the product's id by `quantity` and leaves every
      other id's quantity alone, whether or not the id was already in the cart. */
  lemma AddItemQuantities(items: seq<CartItem>, product: Product, quantity: int, other: string)
    ensures GetItemQuantity(AddItem(items, product, quantity), product.id)
      == GetItemQuantity(items, product.id) + quantity
    ensures other != product.id ==>
      GetItemQuantity(AddItem(items, product, quantity), other) == GetItemQuantity(items, other)
  {
    var r := AddItem(items, product, quantity);
    var k := FirstMatch(items, product.id);
    if k < |items| {
      FirstMatchAt(r, product.id, k);
    } else {
      FirstMatchAt(r, product.id, |items|);
    }
    if other != product.id {
      AddItemOtherMatch(items, product, quantity, other);
    }
  }

  lemma AddItemOtherMatch(items: seq<CartItem>, product: Product, quantity: int, other: string)
    requires other != product.id
    ensures FirstMatch(AddItem(items, product, quantity), other) == FirstMatch(items, other)
      || (FirstMatch(items, other) == |items| && FirstMatch(AddItem(items, product, quantity), other)
          == |AddItem(items, product, quantity)|)
  {
    var r := AddItem(items, product, quantity);
    var m := FirstMatch(items, other);
    if IsInCart(items, product.id) || m < |items| {
      FirstMatchAt(r, other, m);
    } else {
      FirstMatchAt(r, other, |r|);
    }
  }

  lemma AddItemTotalsExisting(items: seq<CartItem>, product: Product, quantity: int)
    requires UniqueIds(items) && IsInCart(items, product.id)
    ensures UniqueIds(AddItem(items, product, quantity))
    ensures TotalItems(AddItem(items, product, quantity)) == TotalItems(items) + quantity
    ensures Subtotal(AddItem(items, product, quantity))
      == Subtotal(items) + LineTotal(Find(items, product.id).value.(quantity := quantity))
  {
    var r := AddItem(items, product, quantity);
    var k := FirstMatch(items, product.id);
    assert forall i | 0 <= i < |items| && i != k :: items[i] == r[i];
    SubtotalPointUpdate(items, r, k);
    var x := items[k];
    assert r[k] == x.(quantity := x.quantity + quantity);
    LineTotalAdd(x, quantity);
    forall i, j | 0 <= i < j < |r| ensures r[i].id != r[j].id {
      assert r[i].id == items[i].id && r[j].id == items[j].id;
    }
  }

  lemma AddItemTotalsNew(items: seq<CartItem>, product: Product, quantity: int)
    requires UniqueIds(items) && !IsInCart(items, product.id)
    ensures UniqueIds(AddItem(items, product, quantity))
    ensures TotalItems(AddItem(items, product, quantity)) == TotalItems(items) + quantity
    ensures Subtotal(AddItem(items, product, quantity))
      == Subtotal(items) + LineTotal(NewItem(product, quantity))
  {
    var n := NewItem(product, quantity);
    var r := AddItem(items, product, quantity);
    assert r == items + [n];
    SubtotalAppend(items, [n]);
    SubtotalCons(n, []);
    assert [n] + [] == [n];
    forall i, j | 0 <= i < j < |r| ensures r[i].id != r[j].id {
      if j == |items| { assert r[i] == items[i]; } else { assert r[i] == items[i] && r[j] == items[j]; }
    }
  }

  /** With unique ids, `addItem` keeps them unique and raises the item count by `quantity`; the
      subtotal rises by `quantity` units at the price of the line the product lands in, which is
      the price already in the cart when the id was there, not the product's current price. */
  lemma AddItemTotals(items: seq<CartItem>, product: Product, quantity: int)
    requires UniqueIds(items)
    ensures UniqueIds(AddItem(items, product, quantity))
    ensures TotalItems(AddItem(items, product, quantity)) == TotalItems(items) + quantity
    ensures Subtotal(AddItem(items, product, quantity))
      == Subtotal(items) + LineTotal(Find(items, product.id).GetOr(NewItem(product, 0)).(quantity := quantity))
  {
    var f := Find(items, product.id);
    if f.Some? {
      AddItemTotalsExisting(items, product, quantity);
      assert f.GetOr(NewItem(product, 0)) == f.value;
    } else {
      AddItemTotalsNew(items, product, quantity);
      assert f.GetOr(NewItem(product, 0)).(quantity := quantity) == NewItem(product, quantity);
    }
  }

  /** Filtering splits over concatenation: the kept lines stay in their original order. */
  lemma {:induction false} RemoveItemAppend(a: seq<CartItem>, b: seq<CartItem>, id: string)
    ensures RemoveItem(a + b, id) == RemoveItem(a, id) + RemoveItem(b, id)
  {
    if a == [] {
      assert a + b == b;
    } else {
      assert (a + b)[0] == a[0] && (a + b)[1..] == a[1..] + b;
      RemoveItemAppend(a[1..], b, id);
    }
  }

  /** Removing an id that is not in the cart changes nothing. */
  lemma {:induction false} RemoveItemAbsent(items: seq<CartItem>, id: string)
    requires !IsInCart(items, id)
    ensures RemoveItem(items, id) == items
  {
    if items != [] {
      assert !IsInCart(items[1..], id) by {
      }
      RemoveItemAbsent(items[1..], id);
      assert [items[0]] + items[1..] == items;
    }
  }

  /** The lines `removeItem` keeps are exactly the lines without that id. */
  lemma {:induction false} RemoveItemMembers(items: seq<CartItem>, id: string, x: CartItem)
    ensures x in RemoveItem(items, id) <==> x in items && x.id != id
  {
    if items != [] {
      RemoveItemMembers(items[1..], id, x);
      assert x in items <==> x == items[0] || x in items[1..];
    }
  }

  /** After `removeItem` no line has the id. */
  lemma RemoveItemGone(items: seq<CartItem>, id: string)
    ensures !IsInCart(RemoveItem(items, id), id)
  {
    var r := RemoveItem(items, id);
    forall i | 0 <= i < |r| ensures r[i].id != id {
      RemoveItemMembers(items, id, r[i]);
    }
  }

  /** `removeItem` is idempotent. */
  lemma RemoveItemIdempotent(items: seq<CartItem>, id: string)
    ensures RemoveItem(RemoveItem(items, id), id) == RemoveItem(items, id)
  {
    RemoveItemGone(items, id);
    RemoveItemAbsent(RemoveItem(items, id), id);
  }

  /** Removing the id of the one line that carries it leaves the lines around it. */
  lemma RemoveItemSplit(pre: seq<CartItem>, x: CartItem, post: seq<CartItem>)
    requires !IsInCart(pre, x.id) && !IsInCart(post, x.id)
    ensures RemoveItem(pre + ([x] + post), x.id) == pre + post
  {
    RemoveItemAbsent(pre, x.id);
    RemoveItemAbsent(post, x.id);
    RemoveItemAppend([x], post, x.id);
    assert [x][1..] == [];
    RemoveItemAppend(pre, [x] + post, x.id);
  }

  /** With unique ids, removing an id present at `k` deletes exactly that line. */
  lemma RemoveItemUnique(items: seq<CartItem>, k: nat)
    requires UniqueIds(items) && k < |items|
    ensures RemoveItem(items, items[k].id) == items[..k] + items[k + 1..]
  {
    var id := items[k].id;
    var pre, post := items[..k], items[k + 1..];
    assert items[k..] == [items[k]] + post;
    assert items == pre + items[k..];
    assert !IsInCart(pre, id) by {
      forall i | 0 <= i < |pre| ensures pre[i].id != id {
        assert pre[i] == items[i];
      }
    }
    assert !IsInCart(post, id) by {
      forall i | 0 <= i < |post| ensures post[i].id != id {
        assert post[i] == items[k + 1 + i];
      }
    }
    RemoveItemSplit(pre, items[k], post);
  }

  /** Removing lines keeps ids unique. */
  lemma {:induction false} RemoveItemKeepsUnique(items: seq<CartItem>, id: string)
    requires UniqueIds(items)
    ensures UniqueIds(RemoveItem(items, id))
  {
    if items != [] {
      assert items == [items[0]] + items[1..];
      UniqueIdsCons(items[0], items[1..]);
      RemoveItemKeepsUnique(items[1..], id);
      var rest := RemoveItem(items[1..], id);
      if items[0].id != id {
        assert !IsInCart(rest, items[0].id) by {
          forall i | 0 <= i < |rest| ensures rest[i].id != items[0].id {
            RemoveItemMembers(items[1..], id, rest[i]);
          }
        }
        UniqueIdsCons(items[0], rest);
      } else {
        assert RemoveItem(items, id) == [] + rest;
      }
    }
  }

  /** With unique ids, removing a line takes its quantity and its line total off the totals. */
  lemma {:induction false} RemoveItemTotals(items: seq<CartItem>, id: string)
    requires UniqueIds(items)
    ensures TotalItems(RemoveItem(items, id)) == TotalItems(items) - GetItemQuantity(items, id)
    ensures Subtotal(RemoveItem(items, id))
      == Subtotal(items) - (if IsInCart(items, id) then LineTotal(Find(items, id).value) else 0.0)
  {
    if items != [] {
      var x, rest := items[0], items[1..];
      assert items == [x] + rest;
      UniqueIdsCons(x, rest);
      SubtotalCons(x, rest);
      if x.id == id {
        RemoveItemAbsent(rest, id);
        assert RemoveItem(items, id) == rest;
        assert Find(items, id) == Some(x);
      } else {
        RemoveItemTotals(rest, id);
        SubtotalCons(x, RemoveItem(rest, id));
        assert RemoveItem(items, id) == [x] + RemoveItem(rest, id);
        assert FirstMatch(items, id) == 1 + FirstMatch(rest, id);
        assert IsInCart(items, id) <==> IsInCart(rest, id);
        assert Find(items, id) == Find(rest, id);
      }
    }
  }

  /** `updateQuantity` with a positive quantity: the id's reported quantity becomes exactly that
      quantity when the id is in the cart, nothing is added when it is not, every other id's
      quantity is unchanged, and ids stay unique. */
  lemma UpdateQuantityPositive(items: seq<CartItem>, id: string, quantity: int, other: string)
    requires quantity > 0
    ensures GetItemQuantity(UpdateQuantity(items, id, quantity), id)
      == if IsInCart(items, id) then quantity else 0
    ensures other != id ==>
      GetItemQuantity(UpdateQuantity(items, id, quantity), other) == GetItemQuantity(items, other)
    ensures UniqueIds(items) ==> UniqueIds(UpdateQuantity(items, id, quantity))
  {
    var r := UpdateQuantity(items, id, quantity);
    var k := FirstMatch(items, id);
    var kr := FirstMatch(r, id);
    assert kr == k;
    if other != id {
      var m := FirstMatch(items, other);
      var mr := FirstMatch(r, other);
      assert mr == m;
    }
    if UniqueIds(items) {
      forall i, j | 0 <= i < j < |r| ensures r[i].id != r[j].id {
        assert r[i].id == items[i].id && r[j].id == items[j].id;
      }
    }
  }

  /** `updateQuantity` with a quantity of zero or less is `removeItem`; the id is gone. */
  lemma UpdateQuantityNonPositive(items: seq<CartItem>, id: string, quantity: int)
    requires quantity <= 0
    ensures UpdateQuantity(items, id, quantity) == RemoveItem(items, id)
    ensures GetItemQuantity(UpdateQuantity(items, id, quantity), id) == 0
  {
    RemoveItemGone(items, id);
  }

  /** After `clearCart` nothing is in the cart, the subtotal and item count are 0, shipping is
      charged and the total is the shipping fee alone. */
  lemma ClearCartTotals(items: seq<CartItem>, id: string)
    ensures !IsInCart(ClearCart(items), id)
    ensures Subtotal(ClearCart(items)) == 0.0 && TotalItems(ClearCart(items)) == 0
    ensures Shipping(Subtotal(ClearCart(items))) == ShippingCost
    ensures TotalPrice(Subtotal(ClearCart(items))) == ShippingCost
    ensures ClearCart(ClearCart(items)) == ClearCart(items)
  {
  }
}
