/**
 * The shared favorites/cart store of the storefront (the `AppProvider` of
 * src/contexts/AppContext.tsx).
 *
 * Every transition of the store is a pure function of the previous list
 * (the `find`, `filter`, `map` and spread-append expressions handed to the
 * state setters); the class `AppStore` at the end holds the two lists as
 * fields and replaces them with those functions' results.
 */
module Store {

  /** A catalog record as the store receives it. */
  datatype Product = Product(id: int, name: string, price: int, image: string, category: string)

  /** A cart line: the product's fields, copied when the line is created, plus a quantity. */
  datatype CartItem = CartItem(id: int, name: string, price: int, image: string, category: string, quantity: int)

  /** `addToCart`'s default quantity. */
  const DefaultQuantity := 1

  /** The product fields a cart line carries, without its quantity. */
  function ProductOf(x: CartItem): Product {
    Product(x.id, x.name, x.price, x.image, x.category)
  }

  /** `{ ...product, quantity }`: a line that gives back the product and holds `quantity` units. */
  function NewItem(p: Product, quantity: int): (r: CartItem)
    ensures ProductOf(r) == p && r.quantity == quantity
  {
    CartItem(p.id, p.name, p.price, p.image, p.category, quantity)
  }

  // ---------------------------------------------------------------------------
  // Favorites
  // ---------------------------------------------------------------------------

  /** Some favorite has this id (`some`, and the truthiness of `find`). */
  function HasFavorite(favs: seq<Product>, id: int): (r: bool)
    ensures r <==> exists i :: 0 <= i < |favs| && favs[i].id == id
  {
    |favs| > 0 && (favs[0].id == id || HasFavorite(favs[1..], id))
  }

  /** At most one favorite per product id. */
  ghost predicate UniqueFavorites(favs: seq<Product>) {
    forall i, j :: 0 <= i < j < |favs| ==> favs[i].id != favs[j].id
  }

  /** `addToFavorites`: keep the list if the id is already there, else append. */
  function WithFavorite(favs: seq<Product>, p: Product): (r: seq<Product>)
    ensures favs <= r
    ensures HasFavorite(r, p.id)
    ensures HasFavorite(favs, p.id) ==> r == favs
    ensures !HasFavorite(favs, p.id) ==> |r| == |favs| + 1 && r[|favs|] == p
  {
    if HasFavorite(favs, p.id) then favs
    else
      assert (favs + [p])[|favs|] == p;
      favs + [p]
  }

  /** Adding a favorite keeps one entry per id, and adds no id but the product's. */
  lemma WithFavoriteInvariants(favs: seq<Product>, p: Product)
    ensures UniqueFavorites(favs) ==> UniqueFavorites(WithFavorite(favs, p))
    ensures forall j :: HasFavorite(WithFavorite(favs, p), j) <==> HasFavorite(favs, j) || j == p.id
  {
  }

  /** `removeFromFavorites`: keep, in order, the favorites whose id differs. */
  function WithoutFavorite(favs: seq<Product>, id: int): (r: seq<Product>)
    ensures |r| <= |favs|
  {
    if favs == [] then []
    else if favs[0].id == id then WithoutFavorite(favs[1..], id)
    else [favs[0]] + WithoutFavorite(favs[1..], id)
  }

  /** The ids left are exactly the old ones but the removed one. */
  lemma {:induction false} WithoutFavoriteIds(favs: seq<Product>, id: int)
    ensures forall j :: HasFavorite(WithoutFavorite(favs, id), j) <==> HasFavorite(favs, j) && j != id
  {
    if favs != [] {
      WithoutFavoriteIds(favs[1..], id);
    }
  }

  /** Exactly the favorites with another id are kept. */
  lemma {:induction false} WithoutFavoriteMembers(favs: seq<Product>, id: int)
    ensures forall x :: x in WithoutFavorite(favs, id) <==> x in favs && x.id != id
  {
    if favs != [] {
      WithoutFavoriteMembers(favs[1..], id);
      assert favs == [favs[0]] + favs[1..];
    }
  }

  /** Removing a favorite keeps one entry per id. */
  lemma {:induction false} WithoutFavoriteUnique(favs: seq<Product>, id: int)
    requires UniqueFavorites(favs)
    ensures UniqueFavorites(WithoutFavorite(favs, id))
  {
    if favs != [] {
      var x, s := favs[0], favs[1..];
      var rest := WithoutFavorite(s, id);
      WithoutFavoriteIds(s, id);
      assert UniqueFavorites(s) by {
        forall i, j | 0 <= i < j < |s| ensures s[i].id != s[j].id {
          assert s[i] == favs[i + 1] && s[j] == favs[j + 1];
        }
      }
      WithoutFavoriteUnique(s, id);
      if x.id != id {
        assert !HasFavorite(s, x.id) by {
          forall k | 0 <= k < |s| ensures s[k].id != x.id {
            assert s[k] == favs[k + 1];
          }
        }
        var r := [x] + rest;
        assert WithoutFavorite(favs, id) == r;
        forall i, j | 0 <= i < j < |r| ensures r[i].id != r[j].id {
          if i == 0 {
            assert r[j] == rest[j - 1];
          } else {
            assert r[i] == rest[i - 1] && r[j] == rest[j - 1];
          }
        }
      }
    }
  }

  /** Removing an id that is not there changes nothing. */
  lemma {:induction false} WithoutFavoriteAbsent(favs: seq<Product>, id: int)
    requires !HasFavorite(favs, id)
    ensures WithoutFavorite(favs, id) == favs
  {
    if favs != [] {
      WithoutFavoriteAbsent(favs[1..], id);
      assert favs == [favs[0]] + favs[1..];
    }
  }

  /** Removal keeps the order: it acts on each part of a concatenation separately. */
  lemma {:induction false} WithoutFavoriteConcat(a: seq<Product>, b: seq<Product>, id: int)
    ensures WithoutFavorite(a + b, id) == WithoutFavorite(a, id) + WithoutFavorite(b, id)
  {
    if a == [] {
      assert a + b == b;
    } else {
      assert (a + b)[0] == a[0] && (a + b)[1..] == a[1..] + b;
      WithoutFavoriteConcat(a[1..], b, id);
      if a[0].id != id {
        assert [a[0]] + (WithoutFavorite(a[1..], id) + WithoutFavorite(b, id))
            == ([a[0]] + WithoutFavorite(a[1..], id)) + WithoutFavorite(b, id);
      }
    }
  }

  /** Removing the same id twice is the same as removing it once. */
  lemma {:induction false} WithoutFavoriteIdempotent(favs: seq<Product>, id: int)
    ensures WithoutFavorite(WithoutFavorite(favs, id), id) == WithoutFavorite(favs, id)
  {
    WithoutFavoriteIds(favs, id);
    WithoutFavoriteAbsent(WithoutFavorite(favs, id), id);
  }

  /** Adding a product to the favorites and then removing its id leaves it no favorite;
      when it was not a favorite before, the list is back to what it was. */
  lemma {:induction false} FavoriteRoundTrip(favs: seq<Product>, p: Product)
    ensures !HasFavorite(WithoutFavorite(WithFavorite(favs, p), p.id), p.id)
    ensures !HasFavorite(favs, p.id) ==> WithoutFavorite(WithFavorite(favs, p), p.id) == favs
  {
    WithoutFavoriteIds(WithFavorite(favs, p), p.id);
    if !HasFavorite(favs, p.id) {
      WithoutFavoriteConcat(favs, [p], p.id);
      WithoutFavoriteAbsent(favs, p.id);
      assert WithoutFavorite([p], p.id) == [];
    }
  }

  // ---------------------------------------------------------------------------
  // Cart
  // ---------------------------------------------------------------------------

  /** Some cart line has this id. */
  function HasItem(cart: seq<CartItem>, id: int): (r: bool)
    ensures r <==> exists i :: 0 <= i < |cart| && cart[i].id == id
  {
    |cart| > 0 && (cart[0].id == id || HasItem(cart[1..], id))
  }

  /** At most one cart line per product id. */
  ghost predicate UniqueItems(cart: seq<CartItem>) {
    forall i, j :: 0 <= i < j < |cart| ==> cart[i].id != cart[j].id
  }

  /** Every line holds at least one unit. */
  ghost predicate PositiveQuantities(cart: seq<CartItem>) {
    forall i :: 0 <= i < |cart| ==> cart[i].quantity >= 1
  }

  /** The `map` of `addToCart`: every line with this id gets `quantity` more units. */
  function Incremented(cart: seq<CartItem>, id: int, quantity: int): (r: seq<CartItem>)
    ensures |r| == |cart|
  {
    if cart == [] then []
    else
      [if cart[0].id == id then cart[0].(quantity := cart[0].quantity + quantity) else cart[0]]
        + Incremented(cart[1..], id, quantity)
  }

  /** Line by line: the lines with this id gain `quantity` units and keep every other
      field; all other lines are unchanged. */
  lemma {:induction false} IncrementedLines(cart: seq<CartItem>, id: int, quantity: int)
    ensures forall i :: 0 <= i < |cart| ==>
      Incremented(cart, id, quantity)[i] == if cart[i].id == id then cart[i].(quantity := cart[i].quantity + quantity) else cart[i]
  {
    if cart != [] {
      IncrementedLines(cart[1..], id, quantity);
    }
  }

  /** `addToCart`: add to the quantity of the existing line, or append a new line. */
  function WithItem(cart: seq<CartItem>, p: Product, quantity: int): (r: seq<CartItem>)
    ensures HasItem(r, p.id)
    ensures HasItem(cart, p.id) ==> |r| == |cart|
    ensures HasItem(cart, p.id) ==> forall i :: 0 <= i < |cart| ==>
      r[i] == if cart[i].id == p.id then cart[i].(quantity := cart[i].quantity + quantity) else cart[i]
    ensures !HasItem(cart, p.id) ==> cart <= r && |r| == |cart| + 1 && r[|cart|] == NewItem(p, quantity)
  {
    IncrementedLines(cart, p.id, quantity);
    if HasItem(cart, p.id) then Incremented(cart, p.id, quantity)
    else
      assert (cart + [NewItem(p, quantity)])[|cart|] == NewItem(p, quantity);
      cart + [NewItem(p, quantity)]
  }

  /** Adding to the cart keeps one line per id, adds no id but the product's, and keeps
      quantities positive when at least one unit is added. */
  lemma WithItemInvariants(cart: seq<CartItem>, p: Product, quantity: int)
    ensures forall j :: HasItem(WithItem(cart, p, quantity), j) <==> HasItem(cart, j) || j == p.id
    ensures UniqueItems(cart) ==> UniqueItems(WithItem(cart, p, quantity))
    ensures PositiveQuantities(cart) && quantity >= 1 ==> PositiveQuantities(WithItem(cart, p, quantity))
  {
  }

  /** `removeFromCart`: keep, in order, the lines whose id differs. */
  function WithoutItem(cart: seq<CartItem>, id: int): (r: seq<CartItem>)
    ensures |r| <= |cart|
  {
    if cart == [] then []
    else if cart[0].id == id then WithoutItem(cart[1..], id)
    else [cart[0]] + WithoutItem(cart[1..], id)
  }

  /** The ids left are exactly the old ones but the removed one. */
  lemma {:induction false} WithoutItemIds(cart: seq<CartItem>, id: int)
    ensures forall j :: HasItem(WithoutItem(cart, id), j) <==> HasItem(cart, j) && j != id
  {
    if cart != [] {
      WithoutItemIds(cart[1..], id);
    }
  }

  /** Exactly the lines with another id are kept. */
  lemma {:induction false} WithoutItemMembers(cart: seq<CartItem>, id: int)
    ensures forall x :: x in WithoutItem(cart, id) <==> x in cart && x.id != id
  {
    if cart != [] {
      WithoutItemMembers(cart[1..], id);
      assert cart == [cart[0]] + cart[1..];
    }
  }

  /** Removing a line keeps one line per id and keeps quantities positive. */
  lemma {:induction false} WithoutItemInvariants(cart: seq<CartItem>, id: int)
    ensures UniqueItems(cart) ==> UniqueItems(WithoutItem(cart, id))
    ensures PositiveQuantities(cart) ==> PositiveQuantities(WithoutItem(cart, id))
  {
    if cart != [] {
      var x, s := cart[0], cart[1..];
      var rest := WithoutItem(s, id);
      WithoutItemIds(s, id);
      var r := WithoutItem(cart, id);
      WithoutItemInvariants(s, id);
      assert UniqueItems(cart) ==> UniqueItems(s) by {
        if UniqueItems(cart) {
          forall i, j | 0 <= i < j < |s| ensures s[i].id != s[j].id {
            assert s[i] == cart[i + 1] && s[j] == cart[j + 1];
          }
        }
      }
      assert PositiveQuantities(cart) ==> PositiveQuantities(s) by {
        if PositiveQuantities(cart) {
          forall i | 0 <= i < |s| ensures s[i].quantity >= 1 {
            assert s[i] == cart[i + 1];
          }
        }
      }
      if x.id != id {
        assert r == [x] + rest;
        if UniqueItems(cart) {
          assert !HasItem(s, x.id) by {
            forall k | 0 <= k < |s| ensures s[k].id != x.id {
              assert s[k] == cart[k + 1];
            }
          }
          forall i, j | 0 <= i < j < |r| ensures r[i].id != r[j].id {
            if i == 0 {
              assert r[j] == rest[j - 1];
            } else {
              assert r[i] == rest[i - 1] && r[j] == rest[j - 1];
            }
          }
        }
        if PositiveQuantities(cart) {
          forall i | 0 <= i < |r| ensures r[i].quantity >= 1 {
            if i > 0 {
              assert r[i] == rest[i - 1];
            }
          }
        }
      } else {
        assert r == rest;
      }
    }
  }

  /** Removing an id that is not there changes nothing. */
  lemma {:induction false} WithoutItemAbsent(cart: seq<CartItem>, id: int)
    ensures !HasItem(cart, id) ==> WithoutItem(cart, id) == cart
  {
    if cart != [] && !HasItem(cart, id) {
      WithoutItemAbsent(cart[1..], id);
      assert cart == [cart[0]] + cart[1..];
    }
  }

  /** Removal keeps the order: it acts on each part of a concatenation separately. */
  lemma {:induction false} WithoutItemConcat(a: seq<CartItem>, b: seq<CartItem>, id: int)
    ensures WithoutItem(a + b, id) == WithoutItem(a, id) + WithoutItem(b, id)
  {
    if a == [] {
      assert a + b == b;
    } else {
      assert (a + b)[0] == a[0] && (a + b)[1..] == a[1..] + b;
      WithoutItemConcat(a[1..], b, id);
      if a[0].id != id {
        assert [a[0]] + (WithoutItem(a[1..], id) + WithoutItem(b, id))
            == ([a[0]] + WithoutItem(a[1..], id)) + WithoutItem(b, id);
      }
    }
  }

  /** Removing the same line twice is the same as removing it once. */
  lemma {:induction false} WithoutItemIdempotent(cart: seq<CartItem>, id: int)
    ensures WithoutItem(WithoutItem(cart, id), id) == WithoutItem(cart, id)
  {
    WithoutItemIds(cart, id);
    WithoutItemAbsent(WithoutItem(cart, id), id);
  }

  /** The `map` of `updateCartQuantity`: every line with this id gets exactly `quantity` units. */
  function Reassigned(cart: seq<CartItem>, id: int, quantity: int): (r: seq<CartItem>)
    ensures |r| == |cart|
  {
    if cart == [] then []
    else
      [if cart[0].id == id then cart[0].(quantity := quantity) else cart[0]]
        + Reassigned(cart[1..], id, quantity)
  }

  /** Line by line: the lines with this id hold exactly `quantity` units and keep every
      other field; all other lines are unchanged. */
  lemma {:induction false} ReassignedLines(cart: seq<CartItem>, id: int, quantity: int)
    ensures forall i :: 0 <= i < |cart| ==>
      Reassigned(cart, id, quantity)[i] == if cart[i].id == id then cart[i].(quantity := quantity) else cart[i]
  {
    if cart != [] {
      ReassignedLines(cart[1..], id, quantity);
    }
  }

  /** `updateCartQuantity`: a quantity of zero or less removes the line, any other sets it. */
  function WithQuantity(cart: seq<CartItem>, id: int, quantity: int): (r: seq<CartItem>)
    ensures quantity <= 0 ==> r == WithoutItem(cart, id)
    ensures quantity > 0 ==> |r| == |cart|
    ensures quantity > 0 ==> forall i :: 0 <= i < |cart| ==>
      r[i] == if cart[i].id == id then cart[i].(quantity := quantity) else cart[i]
    ensures !HasItem(cart, id) ==> r == cart
  {
    if quantity <= 0 then
      WithoutItemAbsent(cart, id);
      WithoutItem(cart, id)
    else
      ReassignedLines(cart, id, quantity);
      Reassigned(cart, id, quantity)
  }

  /** Updating a quantity keeps one line per id, adds no id, and keeps quantities positive
      (a request for zero or fewer units removes the line instead of storing it). */
  lemma WithQuantityInvariants(cart: seq<CartItem>, id: int, quantity: int)
    ensures forall j :: HasItem(WithQuantity(cart, id, quantity), j) ==> HasItem(cart, j)
    ensures UniqueItems(cart) ==> UniqueItems(WithQuantity(cart, id, quantity))
    ensures PositiveQuantities(cart) ==> PositiveQuantities(WithQuantity(cart, id, quantity))
  {
    if quantity <= 0 {
      WithoutItemIds(cart, id);
      WithoutItemInvariants(cart, id);
    } else {
      var r := WithQuantity(cart, id, quantity);
      forall j | HasItem(r, j) ensures HasItem(cart, j) {
        var i :| 0 <= i < |r| && r[i].id == j;
        assert r[i].id == cart[i].id;
      }
    }
  }

  // ---------------------------------------------------------------------------
  // Totals (the two `reduce` folds, from the left starting at 0)
  // ---------------------------------------------------------------------------

  /** What one line adds to the total price. */
  function LineValue(x: CartItem): int {
    x.price * x.quantity
  }

  /** Adding units to a line adds their price to its value. */
  lemma LineValueAdd(x: CartItem, quantity: int)
    ensures LineValue(x.(quantity := x.quantity + quantity)) == LineValue(x) + x.price * quantity
  {
  }

  /** `getTotalPrice`: the sum of `price * quantity` over the lines; never negative
      when no price and no quantity is. */
  function TotalPrice(cart: seq<CartItem>): (r: int)
    ensures (forall i :: 0 <= i < |cart| ==> cart[i].price >= 0 && cart[i].quantity >= 0) ==> r >= 0
  {
    if cart == [] then 0
    else
      var last := cart[|cart| - 1];
      assert last.price >= 0 && last.quantity >= 0 ==> LineValue(last) >= 0;
      TotalPrice(cart[..|cart| - 1]) + LineValue(last)
  }

  /** `getTotalItems`: the sum of the quantities over the lines; never negative when
      no quantity is. */
  function TotalItems(cart: seq<CartItem>): (r: int)
    ensures (forall i :: 0 <= i < |cart| ==> cart[i].quantity >= 0) ==> r >= 0
  {
    if cart == [] then 0
    else TotalItems(cart[..|cart| - 1]) + cart[|cart| - 1].quantity
  }

  /** Units held on lines with this id: the quantity of that id's line, or 0. */
  function QuantityOf(cart: seq<CartItem>, id: int): (r: int)
    ensures !HasItem(cart, id) ==> r == 0
  {
    if cart == [] then 0
    else (if cart[0].id == id then cart[0].quantity else 0) + QuantityOf(cart[1..], id)
  }

  /** The price fold splits over a concatenation. */
  lemma {:induction false} TotalPriceConcat(a: seq<CartItem>, b: seq<CartItem>)
    ensures TotalPrice(a + b) == TotalPrice(a) + TotalPrice(b)
  {
    if b == [] {
      assert a + b == a;
    } else {
      var b' := b[..|b| - 1];
      assert (a + b)[..|a + b| - 1] == a + b';
      TotalPriceConcat(a, b');
    }
  }

  /** The unit fold splits over a concatenation. */
  lemma {:induction false} TotalItemsConcat(a: seq<CartItem>, b: seq<CartItem>)
    ensures TotalItems(a + b) == TotalItems(a) + TotalItems(b)
  {
    if b == [] {
      assert a + b == a;
    } else {
      var b' := b[..|b| - 1];
      assert (a + b)[..|a + b| - 1] == a + b';
      TotalItemsConcat(a, b');
    }
  }

  /** The price fold, read from the first line. */
  lemma TotalPriceCons(x: CartItem, s: seq<CartItem>)
    ensures TotalPrice([x] + s) == LineValue(x) + TotalPrice(s)
  {
    TotalPriceConcat([x], s);
    assert [x][..0] == [];
  }

  /** The unit fold, read from the first line. */
  lemma TotalItemsCons(x: CartItem, s: seq<CartItem>)
    ensures TotalItems([x] + s) == x.quantity + TotalItems(s)
  {
    TotalItemsConcat([x], s);
    assert [x][..0] == [];
  }

  /** An empty cart has both totals 0, and the two-line cart (299, 2), (89, 1) totals 687 for 3 units. */
  lemma TotalsExample(a: Product, b: Product)
    requires a.price == 299 && b.price == 89
    ensures TotalPrice([]) == 0 && TotalItems([]) == 0
    ensures TotalPrice([NewItem(a, 2), NewItem(b, 1)]) == 687
    ensures TotalItems([NewItem(a, 2), NewItem(b, 1)]) == 3
  {
  }

  /** With positive quantities there are at least as many units as lines, and
      with non-negative prices the total price is non-negative. */
  lemma {:induction false} TotalsBounds(cart: seq<CartItem>)
    ensures PositiveQuantities(cart) ==> TotalItems(cart) >= |cart|
    ensures PositiveQuantities(cart) && (forall i :: 0 <= i < |cart| ==> cart[i].price >= 0) ==>
      TotalPrice(cart) >= 0
  {
    if cart != [] {
      var last := cart[|cart| - 1];
      TotalsBounds(cart[..|cart| - 1]);
      if last.price >= 0 && last.quantity >= 1 {
        assert last.price * last.quantity >= 0;
      }
    }
  }

  /** In a cart with one line per id, `QuantityOf` is that line's quantity. */
  lemma {:induction false} QuantityOfLine(cart: seq<CartItem>, i: int)
    requires UniqueItems(cart) && 0 <= i < |cart|
    ensures QuantityOf(cart, cart[i].id) == cart[i].quantity
  {
    if i == 0 {
      assert !HasItem(cart[1..], cart[0].id);
    } else {
      QuantityOfLine(cart[1..], i - 1);
    }
  }

  /** Removing an id takes exactly that id's units off the unit count. */
  lemma {:induction false} WithoutItemTotalItems(cart: seq<CartItem>, id: int)
    ensures TotalItems(WithoutItem(cart, id)) == TotalItems(cart) - QuantityOf(cart, id)
  {
    if cart != [] {
      var x, s := cart[0], cart[1..];
      assert cart == [x] + s;
      WithoutItemTotalItems(s, id);
      TotalItemsCons(x, s);
      if x.id != id {
        TotalItemsCons(x, WithoutItem(s, id));
      } else {
        assert WithoutItem(cart, id) == WithoutItem(s, id);
      }
    }
  }

  /** Incrementing an id that has no line changes nothing. */
  lemma {:induction false} IncrementedAbsent(cart: seq<CartItem>, id: int, quantity: int)
    requires !HasItem(cart, id)
    ensures Incremented(cart, id, quantity) == cart
  {
    IncrementedLines(cart, id, quantity);
    assert forall i :: 0 <= i < |cart| ==> Incremented(cart, id, quantity)[i] == cart[i];
  }

  /** Incrementing the one line with this id adds `quantity` units. */
  lemma {:induction false} IncrementedTotalItems(cart: seq<CartItem>, i: int, quantity: int)
    requires UniqueItems(cart) && 0 <= i < |cart|
    ensures TotalItems(Incremented(cart, cart[i].id, quantity)) == TotalItems(cart) + quantity
  {
    var id, x, s := cart[i].id, cart[0], cart[1..];
    var y := if x.id == id then x.(quantity := x.quantity + quantity) else x;
    var rest := Incremented(s, id, quantity);
    assert cart == [x] + s;
    assert Incremented(cart, id, quantity) == [y] + rest;
    TotalItemsCons(x, s);
    TotalItemsCons(y, rest);
    if i == 0 {
      assert !HasItem(s, id);
      IncrementedAbsent(s, id, quantity);
    } else {
      assert s[i - 1] == cart[i];
      IncrementedTotalItems(s, i - 1, quantity);
    }
  }

  /** Incrementing the one line with this id adds `quantity` units at that line's price. */
  lemma {:induction false} IncrementedTotalPrice(cart: seq<CartItem>, i: int, quantity: int)
    requires UniqueItems(cart) && 0 <= i < |cart|
    ensures TotalPrice(Incremented(cart, cart[i].id, quantity)) == TotalPrice(cart) + cart[i].price * quantity
  {
    var id, x, s := cart[i].id, cart[0], cart[1..];
    var y := if x.id == id then x.(quantity := x.quantity + quantity) else x;
    var rest := Incremented(s, id, quantity);
    assert cart == [x] + s;
    assert Incremented(cart, id, quantity) == [y] + rest;
    TotalPriceCons(x, s);
    TotalPriceCons(y, rest);
    if i == 0 {
      assert !HasItem(s, id);
      IncrementedAbsent(s, id, quantity);
      LineValueAdd(x, quantity);
    } else {
      assert s[i - 1] == cart[i];
      IncrementedTotalPrice(s, i - 1, quantity);
    }
  }

  /** `addToCart(p, q)` raises the unit count by q, each unit priced at the line's snapshot
      price when the id was already in the cart, at `p.price` otherwise. */
  lemma WithItemTotals(cart: seq<CartItem>, p: Product, quantity: int)
    requires UniqueItems(cart)
    ensures TotalItems(WithItem(cart, p, quantity)) == TotalItems(cart) + quantity
    ensures !HasItem(cart, p.id) ==>
      TotalPrice(WithItem(cart, p, quantity)) == TotalPrice(cart) + p.price * quantity
    ensures forall i :: 0 <= i < |cart| && cart[i].id == p.id ==>
      TotalPrice(WithItem(cart, p, quantity)) == TotalPrice(cart) + cart[i].price * quantity
  {
    if HasItem(cart, p.id) {
      var i :| 0 <= i < |cart| && cart[i].id == p.id;
      IncrementedTotalItems(cart, i, quantity);
      IncrementedTotalPrice(cart, i, quantity);
    } else {
      TotalItemsConcat(cart, [NewItem(p, quantity)]);
      TotalPriceConcat(cart, [NewItem(p, quantity)]);
      TotalItemsCons(NewItem(p, quantity), []);
      TotalPriceCons(NewItem(p, quantity), []);
    }
  }

  /** Incrementing every line with this id, read through `QuantityOf`. */
  lemma {:induction false} IncrementedQuantity(cart: seq<CartItem>, id: int, quantity: int, j: int)
    requires UniqueItems(cart)
    ensures QuantityOf(Incremented(cart, id, quantity), j)
         == QuantityOf(cart, j) + (if j == id && HasItem(cart, id) then quantity else 0)
  {
    if cart != [] {
      var r := Incremented(cart, id, quantity);
      assert r[1..] == Incremented(cart[1..], id, quantity);
      IncrementedQuantity(cart[1..], id, quantity, j);
      if cart[0].id == id {
        assert !HasItem(cart[1..], id);
      }
    }
  }

  /** Appending a line adds its quantity to its id's count. */
  lemma {:induction false} AppendQuantity(cart: seq<CartItem>, x: CartItem, j: int)
    ensures QuantityOf(cart + [x], j) == QuantityOf(cart, j) + (if x.id == j then x.quantity else 0)
  {
    if cart != [] {
      assert (cart + [x])[1..] == cart[1..] + [x];
      AppendQuantity(cart[1..], x, j);
    }
  }

  /** Repeated adds accumulate: `addToCart(p, q)` adds q to the units held for `p.id`
      and changes no other id's units. */
  lemma WithItemAccumulates(cart: seq<CartItem>, p: Product, quantity: int, j: int)
    requires UniqueItems(cart)
    ensures QuantityOf(WithItem(cart, p, quantity), j)
         == QuantityOf(cart, j) + (if j == p.id then quantity else 0)
  {
    if HasItem(cart, p.id) {
      IncrementedQuantity(cart, p.id, quantity, j);
    } else {
      AppendQuantity(cart, NewItem(p, quantity), j);
    }
  }

  /** `addToCart(p, 2)` then `addToCart(p, 3)` on a cart without `p.id` leaves exactly one
      line for `p.id`, holding 5 units. */
  lemma AddTwiceAggregates(cart: seq<CartItem>, p: Product)
    requires UniqueItems(cart) && !HasItem(cart, p.id)
    ensures var r := WithItem(WithItem(cart, p, 2), p, 3);
      UniqueItems(r) && HasItem(r, p.id) && |r| == |cart| + 1 && r[|cart|] == NewItem(p, 5)
  {
    var once := WithItem(cart, p, 2);
    WithItemInvariants(cart, p, 2);
    WithItemInvariants(once, p, 3);
    assert once[|cart|] == NewItem(p, 2);
    assert once[|cart|].(quantity := 2 + 3) == NewItem(p, 5);
  }

  /** Reassigning the one line with this id, read through `QuantityOf`. */
  lemma {:induction false} ReassignedQuantity(cart: seq<CartItem>, id: int, quantity: int, j: int)
    requires UniqueItems(cart)
    ensures QuantityOf(Reassigned(cart, id, quantity), j)
         == if j == id && HasItem(cart, id) then quantity else QuantityOf(cart, j)
  {
    if cart != [] {
      var r := Reassigned(cart, id, quantity);
      assert r[1..] == Reassigned(cart[1..], id, quantity);
      ReassignedQuantity(cart[1..], id, quantity, j);
      if cart[0].id == id {
        assert !HasItem(cart[1..], id);
      }
    }
  }

  /** `updateCartQuantity(id, q)` sets (does not add) the units held for `id` to q when the
      line exists and q is positive, drops them to 0 when q <= 0, and leaves other ids alone. */
  lemma WithQuantitySets(cart: seq<CartItem>, id: int, quantity: int, j: int)
    requires UniqueItems(cart)
    ensures j != id ==> QuantityOf(WithQuantity(cart, id, quantity), j) == QuantityOf(cart, j)
    ensures quantity > 0 && HasItem(cart, id) ==> QuantityOf(WithQuantity(cart, id, quantity), id) == quantity
    ensures quantity <= 0 ==> QuantityOf(WithQuantity(cart, id, quantity), id) == 0
  {
    if quantity > 0 {
      ReassignedQuantity(cart, id, quantity, j);
      ReassignedQuantity(cart, id, quantity, id);
    } else {
      WithoutItemQuantity(cart, id, j);
      WithoutItemQuantity(cart, id, id);
    }
  }

  /** Removing an id takes away exactly that id's units. */
  lemma {:induction false} WithoutItemQuantity(cart: seq<CartItem>, id: int, j: int)
    ensures QuantityOf(WithoutItem(cart, id), j) == if j == id then 0 else QuantityOf(cart, j)
  {
    if cart != [] {
      var rest := WithoutItem(cart[1..], id);
      WithoutItemQuantity(cart[1..], id, j);
      if cart[0].id == id {
        assert WithoutItem(cart, id) == rest;
      } else {
        var r := WithoutItem(cart, id);
        assert r == [cart[0]] + rest;
        assert r[1..] == rest;
      }
    }
  }

  /** `updateCartQuantity(id, 0)` on an existing line takes that line's units off the badge count. */
  lemma RemovalViaZero(cart: seq<CartItem>, id: int)
    ensures TotalItems(WithQuantity(cart, id, 0)) == TotalItems(cart) - QuantityOf(cart, id)
  {
    WithoutItemTotalItems(cart, id);
  }

  // ---------------------------------------------------------------------------
  // The store
  // ---------------------------------------------------------------------------

  /** The session-lifetime store: two ordered lists, replaced by each operation. */
  class AppStore {
    var favorites: seq<Product>
    var cart: seq<CartItem>

    /** One favorite and one cart line per product id. */
    ghost predicate Valid()
      reads this
    {
      UniqueFavorites(favorites) && UniqueItems(cart)
    }

    /** Both lists start empty. */
    constructor ()
      ensures Valid()
      ensures favorites == [] && cart == []
    {
      favorites := [];
      cart := [];
    }

    method AddToFavorites(product: Product)
      modifies this
      ensures favorites == WithFavorite(old(favorites), product) && cart == old(cart)
      ensures old(Valid()) ==> Valid()
    {
      WithFavoriteInvariants(favorites, product);
      favorites := WithFavorite(favorites, product);
    }

    method RemoveFromFavorites(productId: int)
      modifies this
      ensures favorites == WithoutFavorite(old(favorites), productId) && cart == old(cart)
      ensures old(Valid()) ==> Valid()
    {
      if UniqueFavorites(favorites) {
        WithoutFavoriteUnique(favorites, productId);
      }
      favorites := WithoutFavorite(favorites, productId);
    }

    /** True exactly when some favorite carries this id. */
    function IsFavorite(productId: int): (r: bool)
      reads this
      ensures r <==> exists i :: 0 <= i < |favorites| && favorites[i].id == productId
    {
      HasFavorite(favorites, productId)
    }

    /** Callers that omit the quantity pass `DefaultQuantity`. In a valid store the
        product's units grow by `quantity`, no other product's units change, and the
        unit count grows by `quantity`. */
    method AddToCart(product: Product, quantity: int)
      modifies this
      ensures cart == WithItem(old(cart), product, quantity) && favorites == old(favorites)
      ensures old(Valid()) ==> Valid()
      ensures old(Valid()) ==>
        forall j :: QuantityOf(cart, j) == old(QuantityOf(cart, j)) + (if j == product.id then quantity else 0)
      ensures old(Valid()) ==> TotalItems(cart) == old(TotalItems(cart)) + quantity
    {
      WithItemInvariants(cart, product, quantity);
      if UniqueItems(cart) {
        WithItemTotals(cart, product, quantity);
        forall j | true
          ensures QuantityOf(WithItem(cart, product, quantity), j) ==
            QuantityOf(cart, j) + (if j == product.id then quantity else 0)
        {
          WithItemAccumulates(cart, product, quantity, j);
        }
      }
      cart := WithItem(cart, product, quantity);
    }

    /** The product's units drop to 0, no other product's units change, and the unit
        count falls by what the product held. */
    method RemoveFromCart(productId: int)
      modifies this
      ensures cart == WithoutItem(old(cart), productId) && favorites == old(favorites)
      ensures old(Valid()) ==> Valid()
      ensures forall j :: QuantityOf(cart, j) == if j == productId then 0 else old(QuantityOf(cart, j))
      ensures TotalItems(cart) == old(TotalItems(cart)) - old(QuantityOf(cart, productId))
    {
      WithoutItemInvariants(cart, productId);
      WithoutItemTotalItems(cart, productId);
      forall j | true
        ensures QuantityOf(WithoutItem(cart, productId), j) == if j == productId then 0 else QuantityOf(cart, j)
      {
        WithoutItemQuantity(cart, productId, j);
      }
      cart := WithoutItem(cart, productId);
    }

    /** In a valid store the product's units become `quantity` when it has a line and
        `quantity` is positive, and 0 otherwise; no other product's units change. */
    method UpdateCartQuantity(productId: int, quantity: int)
      modifies this
      ensures cart == WithQuantity(old(cart), productId, quantity) && favorites == old(favorites)
      ensures old(Valid()) ==> Valid()
      ensures old(Valid()) ==>
        forall j :: QuantityOf(cart, j) ==
                      if j != productId then old(QuantityOf(cart, j))
                      else if quantity > 0 && old(HasItem(cart, productId)) then quantity
                      else 0
    {
      if quantity <= 0 {
        RemoveFromCart(productId);
        return;
      }
      WithQuantityInvariants(cart, productId, quantity);
      if UniqueItems(cart) {
        forall j | true
          ensures QuantityOf(WithQuantity(cart, productId, quantity), j) ==
            if j != productId then QuantityOf(cart, j)
            else if HasItem(cart, productId) then quantity
            else 0
        {
          WithQuantitySets(cart, productId, quantity, j);
        }
      }
      cart := Reassigned(cart, productId, quantity);
    }

    method ClearCart()
      modifies this
      ensures cart == [] && favorites == old(favorites)
      ensures old(Valid()) ==> Valid()
    {
      cart := [];
    }

    /** The sum of `price * quantity` over the cart; 0 for an empty cart. */
    function GetTotalPrice(): (r: int)
      reads this
      ensures cart == [] ==> r == 0
      ensures PositiveQuantities(cart) && (forall i :: 0 <= i < |cart| ==> cart[i].price >= 0) ==> r >= 0
    {
      TotalsBounds(cart);
      TotalPrice(cart)
    }

    /** The sum of the quantities over the cart; 0 for an empty cart. */
    function GetTotalItems(): (r: int)
      reads this
      ensures cart == [] ==> r == 0
      ensures PositiveQuantities(cart) ==> r >= |cart|
    {
      TotalsBounds(cart);
      TotalItems(cart)
    }
  }
}
