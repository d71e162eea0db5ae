/**
 * The client-side shopping cart of lib/cart.ts.
 *
 * The cart is a list of (product, quantity) entries held in one storage slot
 * (the `cosmic-cart` key of the browser's local storage). Every mutating
 * operation reads the list, changes it and writes the whole list back. The
 * storage slot is modelled by the field `CartStore.stored`; the JSON
 * serialisation round trip is the identity.
 */
module Cart {
  import opened Optional

  /** The part of a product record the cart and the checkout read; `price` is in cents. */
  datatype Product = Product(
    id: string,
    name: string,
    description: string,
    price: int,
    images: seq<string>)  // the imgix URLs of the product's images, in order

  /** One cart entry; the quantity's sign is never checked. */
  datatype CartItem = CartItem(product: Product, quantity: int)

  /** No two entries of the cart share a product id. */
  ghost predicate UniqueIds(cart: seq<CartItem>)
  {
    forall i, j :: 0 <= i < j < |cart| ==> cart[i].product.id != cart[j].product.id
  }

  /** `cart.find(item => item.product.id === id)`, as the index of the first entry that matches. */
  function Find(cart: seq<CartItem>, id: string): (r: Option<nat>)
    ensures r.Some? ==> r.value < |cart| && cart[r.value].product.id == id
    ensures r.Some? ==> forall k :: 0 <= k < r.value ==> cart[k].product.id != id
    ensures r.None? <==> forall k :: 0 <= k < |cart| ==> cart[k].product.id != id
  {
    if |cart| == 0 then None
    else if cart[0].product.id == id then Some(0)
    else match Find(cart[1..], id)
      case None => None
      case Some(k) => Some(k + 1)
  }

  /** `cart.filter(item => item.product.id !== id)`. */
  function Without(cart: seq<CartItem>, id: string): (r: seq<CartItem>)
    ensures |r| <= |cart|
    ensures forall x :: x in r <==> x in cart && x.product.id != id
  {
    if |cart| == 0 then []
    else if cart[0].product.id == id then Without(cart[1..], id)
    else [cart[0]] + Without(cart[1..], id)
  }

  /** The cart that `addToCart(product, quantity)` writes back, given the cart it read. */
  function Added(cart: seq<CartItem>, product: Product, quantity: int): seq<CartItem>
  {
    match Find(cart, product.id)
    case Some(i) => cart[i := cart[i].(quantity := cart[i].quantity + quantity)]
    case None => cart + [CartItem(product, quantity)]
  }

  /** The cart that `updateCartItemQuantity(id, quantity)` leaves behind, given the cart it read. */
  function WithQuantity(cart: seq<CartItem>, id: string, quantity: int): seq<CartItem>
  {
    match Find(cart, id)
    case None => cart
    case Some(i) => if quantity <= 0 then Without(cart, id) else cart[i := cart[i].(quantity := quantity)]
  }

  /** The left fold `cart.reduce((acc, item) => acc + f(item), 0)`. */
  function Sum(cart: seq<CartItem>, f: CartItem -> int): int
  {
    if |cart| == 0 then 0 else Sum(cart[..|cart| - 1], f) + f(cart[|cart| - 1])
  }

  function Subtotal(item: CartItem): int
  {
    item.product.price * item.quantity
  }

  function Units(item: CartItem): int
  {
    item.quantity
  }

  /** What `getCartTotal` computes over a cart: the sum of price × quantity, in cents. */
  function Total(cart: seq<CartItem>): int
  {
    Sum(cart, Subtotal)
  }

  /** What `getCartItemCount` computes over a cart: the sum of the quantities. */
  function Count(cart: seq<CartItem>): int
  {
    Sum(cart, Units)
  }

  // ---------------------------------------------------------------------------
  // The storage-backed cart
  // ---------------------------------------------------------------------------

  class CartStore {
    /** Whether the code runs in a browser (`typeof window !== 'undefined'`). */
    const inBrowser: bool
    /** The local-storage slot under the key `cosmic-cart`; `None` when nothing is stored under the key. */
    var stored: Option<seq<CartItem>>

    constructor (inBrowser: bool, stored: Option<seq<CartItem>>)
      ensures this.inBrowser == inBrowser && this.stored == stored
    {
      this.inBrowser := inBrowser;
      this.stored := stored;
    }

    /** `getCart`: the stored list, or the empty cart on the server or when nothing is stored. */
    function GetCart(): (cart: seq<CartItem>)
      reads this
      ensures !inBrowser ==> cart == []
      ensures stored.None? ==> cart == []
      ensures inBrowser && stored.Some? ==> cart == stored.value
    {
      if !inBrowser then []
      else match stored
        case None => []
        case Some(c) => c
    }

    /** `getCartTotal`: the fold `Total` over the cart as read; 0 when it reads empty. */
    function GetCartTotal(): (total: int)
      reads this
      ensures GetCart() == [] ==> total == 0
    {
      Total(GetCart())
    }

    /** `getCartItemCount`: the fold `Count` over the cart as read; 0 when it reads empty. */
    function GetCartItemCount(): (count: int)
      reads this
      ensures GetCart() == [] ==> count == 0
    {
      Count(GetCart())
    }

    /**
     * `addToCart(product, quantity = 1)`. Outside a browser the final write to
     * local storage throws, which `thrown` reports; nothing is stored then.
     */
    method AddToCart(product: Product, quantity: int := 1) returns (thrown: bool)
      modifies this
      ensures thrown == !inBrowser
      ensures thrown ==> stored == old(stored)
      ensures !thrown ==> stored == Some(Added(old(GetCart()), product, quantity))
      ensures UniqueIds(old(GetCart())) ==> UniqueIds(GetCart())
      ensures !thrown ==> GetCartTotal() == old(GetCartTotal()) + ChargedPrice(old(GetCart()), product) * quantity
      ensures !thrown ==> GetCartItemCount() == old(GetCartItemCount()) + quantity
    {
      var cart := GetCart();
      var existing := Find(cart, product.id);
      match existing {
        case Some(i) =>
          cart := cart[i := cart[i].(quantity := cart[i].quantity + quantity)];
        case None =>
          cart := cart + [CartItem(product, quantity)];
      }
      if !inBrowser {
        thrown := true;
        return;
      }
      stored := Some(cart);
      thrown := false;
      if UniqueIds(old(GetCart())) {
        AddedKeepsUnique(old(GetCart()), product, quantity);
      }
      AddedTotals(old(GetCart()), product, quantity);
    }

    /** `removeFromCart(id)`: keeps the entries whose id differs. Throws outside a browser. */
    method RemoveFromCart(id: string) returns (thrown: bool)
      modifies this
      ensures thrown == !inBrowser
      ensures thrown ==> stored == old(stored)
      ensures !thrown ==> stored == Some(Without(old(GetCart()), id))
      ensures UniqueIds(old(GetCart())) ==> UniqueIds(GetCart())
    {
      var cart := GetCart();
      var updated := Without(cart, id);
      if !inBrowser {
        thrown := true;
        return;
      }
      stored := Some(updated);
      thrown := false;
      if UniqueIds(cart) {
        WithoutKeepsUnique(cart, id);
      }
    }

    /**
     * `updateCartItemQuantity(id, quantity)`. Nothing is written when no entry
     * has the id (on the server the cart always reads empty, so this never throws).
     */
    method UpdateCartItemQuantity(id: string, quantity: int)
      modifies this
      ensures Find(old(GetCart()), id).None? ==> stored == old(stored)
      ensures Find(old(GetCart()), id).Some? ==> stored == Some(WithQuantity(old(GetCart()), id, quantity))
      ensures GetCart() == WithQuantity(old(GetCart()), id, quantity)
      ensures UniqueIds(old(GetCart())) ==> UniqueIds(GetCart())
    {
      var cart := GetCart();
      var item := Find(cart, id);
      if item.Some? {
        if quantity <= 0 {
          var _ := RemoveFromCart(id);
        } else {
          var i := item.value;
          cart := cart[i := cart[i].(quantity := quantity)];
          stored := Some(cart);
        }
        if UniqueIds(old(GetCart())) {
          WithQuantityKeepsUnique(old(GetCart()), id, quantity);
        }
      }
    }

    /** `clearCart`: removes the storage key. Throws outside a browser. */
    method ClearCart() returns (thrown: bool)
      modifies this
      ensures thrown == !inBrowser
      ensures thrown ==> stored == old(stored)
      ensures !thrown ==> stored == None
      ensures GetCart() == [] && GetCartTotal() == 0 && GetCartItemCount() == 0
    {
      if !inBrowser {
        thrown := true;
        return;
      }
      stored := None;
      thrown := false;
    }
  }

  /** The unit price `addToCart` adds to the total: that of the entry already present, else the product's own. */
  function ChargedPrice(cart: seq<CartItem>, product: Product): int
  {
    match Find(cart, product.id)
    case Some(i) => cart[i].product.price
    case None => product.price
  }

  // ---------------------------------------------------------------------------
  // The folds
  // ---------------------------------------------------------------------------

  lemma {:induction false} SumConcat(a: seq<CartItem>, b: seq<CartItem>, f: CartItem -> int)
    ensures Sum(a + b, f) == Sum(a, f) + Sum(b, f)
    decreases |b|
  {
    if |b| == 0 {
      assert a + b == a;
    } else {
      var b' := b[..|b| - 1];
      assert (a + b)[..|a + b| - 1] == a + b';
      assert (a + b)[|a + b| - 1] == b[|b| - 1];
      SumConcat(a, b', f);
    }
  }

  /** Taking one entry out of the middle of a cart lowers a fold by that entry's term. */
  lemma SumRemoveMiddle(a: seq<CartItem>, x: CartItem, b: seq<CartItem>, f: CartItem -> int)
    ensures Sum(a + [x] + b, f) == Sum(a + b, f) + f(x)
  {
    SumConcat(a + [x], b, f);
    SumConcat(a, b, f);
    SumAppend(a, x, f);
  }

  /** Replacing one entry changes a fold by the difference of that entry's two terms. */
  lemma SumUpdate(cart: seq<CartItem>, i: nat, x: CartItem, f: CartItem -> int)
    requires i < |cart|
    ensures Sum(cart[i := x], f) == Sum(cart, f) - f(cart[i]) + f(x)
  {
    var a, b := cart[..i], cart[i + 1..];
    assert cart == a + [cart[i]] + b;
    assert cart[i := x] == a + [x] + b;
    SumRemoveMiddle(a, cart[i], b, f);
    SumRemoveMiddle(a, x, b, f);
  }

  /** Dropping one entry lowers a fold by that entry's term. */
  lemma SumRemoveAt(cart: seq<CartItem>, i: nat, f: CartItem -> int)
    requires i < |cart|
    ensures Sum(cart, f) == Sum(cart[..i] + cart[i + 1..], f) + f(cart[i])
  {
    var a, b := cart[..i], cart[i + 1..];
    assert cart == a + [cart[i]] + b;
    SumRemoveMiddle(a, cart[i], b, f);
  }

  lemma SumAppend(a: seq<CartItem>, x: CartItem, f: CartItem -> int)
    ensures Sum(a + [x], f) == Sum(a, f) + f(x)
  {
    assert (a + [x])[..|a|] == a;
  }

  /** Both folds are 0 on the empty cart, and adding an entry at the end adds its term. */
  lemma EmptyAndAppendTotals(cart: seq<CartItem>, x: CartItem)
    ensures Total([]) == 0 && Count([]) == 0
    ensures Total(cart + [x]) == Total(cart) + x.product.price * x.quantity
    ensures Count(cart + [x]) == Count(cart) + x.quantity
  {
    assert (cart + [x])[..|cart|] == cart;
  }

  // ---------------------------------------------------------------------------
  // addToCart
  // ---------------------------------------------------------------------------

  /** Adding a present id raises only that entry's quantity; adding an absent id appends. */
  lemma AddedShape(cart: seq<CartItem>, product: Product, quantity: int)
    ensures Find(cart, product.id).Some? ==>
      var i := Find(cart, product.id).value;
      var r := Added(cart, product, quantity);
      && |r| == |cart|
      && r[i].product == cart[i].product
      && r[i].quantity == cart[i].quantity + quantity
      && forall k :: 0 <= k < |cart| && k != i ==> r[k] == cart[k]
    ensures Find(cart, product.id).None? ==>
      Added(cart, product, quantity) == cart + [CartItem(product, quantity)]
  {
  }

  lemma AddedKeepsUnique(cart: seq<CartItem>, product: Product, quantity: int)
    requires UniqueIds(cart)
    ensures UniqueIds(Added(cart, product, quantity))
  {
    var r := Added(cart, product, quantity);
    match Find(cart, product.id)
    case Some(i) =>
      assert forall k :: 0 <= k < |r| ==> r[k].product.id == cart[k].product.id;
    case None =>
      assert forall k :: 0 <= k < |cart| ==> r[k] == cart[k];
  }

  /** `getCartTotal` rises by the charged unit price × quantity and `getCartItemCount` by quantity. */
  lemma AddedTotals(cart: seq<CartItem>, product: Product, quantity: int)
    ensures Total(Added(cart, product, quantity)) == Total(cart) + ChargedPrice(cart, product) * quantity
    ensures Count(Added(cart, product, quantity)) == Count(cart) + quantity
  {
    match Find(cart, product.id)
    case Some(i) =>
      var x := cart[i].(quantity := cart[i].quantity + quantity);
      SumUpdate(cart, i, x, Subtotal);
      SumUpdate(cart, i, x, Units);
      assert Subtotal(x) == Subtotal(cart[i]) + cart[i].product.price * quantity by {
        var p := cart[i].product.price;
        assert p * (cart[i].quantity + quantity) == p * cart[i].quantity + p * quantity;
      }
    case None =>
      EmptyAndAppendTotals(cart, CartItem(product, quantity));
  }

  // ---------------------------------------------------------------------------
  // removeFromCart
  // ---------------------------------------------------------------------------

  /** Removing an id that no entry has changes nothing. */
  lemma {:induction false} WithoutAbsent(cart: seq<CartItem>, id: string)
    requires Find(cart, id).None?
    ensures Without(cart, id) == cart
  {
    if |cart| > 0 {
      var rest := cart[1..];
      assert cart[0].product.id != id;
      assert Find(rest, id).None? by {
        forall k | 0 <= k < |rest|
          ensures rest[k].product.id != id
        {
          assert rest[k] == cart[k + 1];
        }
      }
      WithoutAbsent(rest, id);
      assert Without(cart, id) == [cart[0]] + rest;
      assert [cart[0]] + rest == cart;
    }
  }

  /**
   * The filter works entry by entry, for every cart: filtering a concatenation
   * concatenates the filtered parts. With `Without([x], id)` being `[x]` or `[]`
   * by the entry's id, this fixes the order and the multiplicity of the kept entries.
   */
  lemma {:induction false} WithoutConcat(a: seq<CartItem>, b: seq<CartItem>, id: string)
    ensures Without(a + b, id) == Without(a, id) + Without(b, id)
  {
    if |a| == 0 {
      assert a + b == b;
    } else {
      assert (a + b)[1..] == a[1..] + b;
      WithoutConcat(a[1..], b, id);
    }
  }

  /** Filtering a single entry keeps it exactly when its id differs. */
  lemma WithoutSingle(x: CartItem, id: string)
    ensures Without([x], id) == if x.product.id == id then [] else [x]
  {
    assert [x][1..] == [];
  }

  /** The tail of a cart with unique ids has unique ids, none of them the head's. */
  lemma UniqueTail(cart: seq<CartItem>)
    requires |cart| > 0 && UniqueIds(cart)
    ensures UniqueIds(cart[1..])
    ensures Find(cart[1..], cart[0].product.id).None?
  {
    forall k | 0 <= k < |cart| - 1
      ensures cart[1..][k].product.id != cart[0].product.id
    {
      assert cart[1..][k] == cart[k + 1];
    }
  }

  /** Dropping position i of a sequence, seen from its tail. */
  lemma DropAtTail(s: seq<CartItem>, i: nat)
    requires 0 < i < |s|
    ensures [s[0]] + (s[1..][..i - 1] + s[1..][i..]) == s[..i] + s[i + 1..]
  {
    assert s[1..][..i - 1] == s[1..i];
    assert s[1..][i..] == s[i + 1..];
    assert [s[0]] + s[1..i] == s[..i];
  }

  /** In a cart with unique ids, removing a present id drops exactly its entry and keeps the order of the rest. */
  lemma {:induction false} WithoutPresent(cart: seq<CartItem>, id: string, i: nat)
    requires UniqueIds(cart)
    requires Find(cart, id) == Some(i)
    ensures Without(cart, id) == cart[..i] + cart[i + 1..]
  {
    UniqueTail(cart);
    var rest := cart[1..];
    if i == 0 {
      WithoutAbsent(rest, id);
      assert cart[..0] + cart[1..] == rest;
    } else {
      assert cart[0].product.id != id;
      assert Find(rest, id) == Some(i - 1);
      WithoutPresent(rest, id, i - 1);
      assert Without(cart, id) == [cart[0]] + (rest[..i - 1] + rest[i..]);
      DropAtTail(cart, i);
    }
  }

  /** Dropping one entry from a cart with unique ids leaves unique ids. */
  lemma UniqueDrop(cart: seq<CartItem>, i: nat)
    requires UniqueIds(cart) && i < |cart|
    ensures UniqueIds(cart[..i] + cart[i + 1..])
  {
    var r := cart[..i] + cart[i + 1..];
    forall p, q | 0 <= p < q < |r|
      ensures r[p].product.id != r[q].product.id
    {
      var p', q' := if p < i then p else p + 1, if q < i then q else q + 1;
      assert r[p] == cart[p'] && r[q] == cart[q'];
    }
  }

  lemma {:induction false} WithoutKeepsUnique(cart: seq<CartItem>, id: string)
    requires UniqueIds(cart)
    ensures UniqueIds(Without(cart, id))
  {
    match Find(cart, id)
    case None =>
      WithoutAbsent(cart, id);
    case Some(i) =>
      WithoutPresent(cart, id, i);
      UniqueDrop(cart, i);
  }

  /** In a cart with unique ids, removing a present entry lowers the total and the count by its share. */
  lemma WithoutTotals(cart: seq<CartItem>, id: string)
    ensures Find(cart, id).None? ==> Total(Without(cart, id)) == Total(cart) && Count(Without(cart, id)) == Count(cart)
    ensures UniqueIds(cart) && Find(cart, id).Some? ==>
      var i := Find(cart, id).value;
      && Total(Without(cart, id)) == Total(cart) - cart[i].product.price * cart[i].quantity
      && Count(Without(cart, id)) == Count(cart) - cart[i].quantity
  {
    match Find(cart, id)
    case None =>
      WithoutAbsent(cart, id);
    case Some(i) =>
      if UniqueIds(cart) {
        WithoutPresent(cart, id, i);
        SumRemoveAt(cart, i, Subtotal);
        SumRemoveAt(cart, i, Units);
      }
  }

  // ---------------------------------------------------------------------------
  // updateCartItemQuantity
  // ---------------------------------------------------------------------------

  /** Setting a quantity of 0 or less is the same as removing the id (present or not). */
  lemma {:induction false} NonPositiveQuantityRemoves(cart: seq<CartItem>, id: string, quantity: int)
    requires quantity <= 0
    ensures WithQuantity(cart, id, quantity) == Without(cart, id)
  {
    if Find(cart, id).None? {
      WithoutAbsent(cart, id);
    }
  }

  /** A positive quantity on a present id replaces only that entry's quantity; an absent id changes nothing. */
  lemma PositiveQuantityShape(cart: seq<CartItem>, id: string, quantity: int)
    requires quantity > 0
    ensures Find(cart, id).None? ==> WithQuantity(cart, id, quantity) == cart
    ensures Find(cart, id).Some? ==>
      var i := Find(cart, id).value;
      var r := WithQuantity(cart, id, quantity);
      && |r| == |cart|
      && r[i] == CartItem(cart[i].product, quantity)
      && forall k :: 0 <= k < |cart| && k != i ==> r[k] == cart[k]
  {
  }

  lemma {:induction false} WithQuantityKeepsUnique(cart: seq<CartItem>, id: string, quantity: int)
    requires UniqueIds(cart)
    ensures UniqueIds(WithQuantity(cart, id, quantity))
  {
    match Find(cart, id)
    case None =>
    case Some(i) =>
      if quantity <= 0 {
        WithoutKeepsUnique(cart, id);
      } else {
        var r := WithQuantity(cart, id, quantity);
        assert forall k :: 0 <= k < |r| ==> r[k].product.id == cart[k].product.id;
      }
  }

  /** A positive quantity q on a present entry moves the total by price × (q − old quantity). */
  lemma WithQuantityTotals(cart: seq<CartItem>, id: string, quantity: int)
    requires quantity > 0
    ensures Find(cart, id).Some? ==>
      var i := Find(cart, id).value;
      && Total(WithQuantity(cart, id, quantity)) == Total(cart) + cart[i].product.price * (quantity - cart[i].quantity)
      && Count(WithQuantity(cart, id, quantity)) == Count(cart) + (quantity - cart[i].quantity)
  {
    match Find(cart, id)
    case None =>
    case Some(i) =>
      var x := cart[i].(quantity := quantity);
      SumUpdate(cart, i, x, Subtotal);
      SumUpdate(cart, i, x, Units);
      assert Subtotal(x) - Subtotal(cart[i]) == cart[i].product.price * (quantity - cart[i].quantity) by {
        var p := cart[i].product.price;
        assert p * (quantity - cart[i].quantity) == p * quantity - p * cart[i].quantity;
      }
  }
}
