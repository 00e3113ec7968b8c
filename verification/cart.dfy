/** The cart state module: an ordered, duplicate-permitting sequence of
    products, hydrated once from the `"products"` key of the store and written
    back to that key after every mutation. */
module CartState {
  import opened Types
  import ProductJson
  import LocalStorage

  /** The store key the cart is persisted under. */
  const Key: string := "products"

  // ---------------------------------------------------------------------
  // The total price
  // ---------------------------------------------------------------------

  /** The sum of the prices of all entries: every entry counted, duplicates included. */
  function Sum(ps: seq<Product>): nat {
    if ps == [] then 0 else ps[0].price + Sum(ps[1..])
  }

  /** The total of a concatenation is the sum of the totals. */
  lemma {:induction false} SumAppend(a: seq<Product>, b: seq<Product>)
    ensures Sum(a + b) == Sum(a) + Sum(b)
  {
    if a == [] {
      assert a + b == b;
    } else {
      assert (a + b)[1..] == a[1..] + b;
      SumAppend(a[1..], b);
    }
  }

  /** Every entry's price is part of the total. */
  lemma {:induction false} PriceAtMostSum(ps: seq<Product>, i: nat)
    requires i < |ps|
    ensures ps[i].price <= Sum(ps)
  {
    if i > 0 {
      PriceAtMostSum(ps[1..], i - 1);
    }
  }

  // ---------------------------------------------------------------------
  // Removing a product
  // ---------------------------------------------------------------------

  /** The cart after `removeFromCart(p)`. When `p` occurs more than once,
      this model removes its FIRST occurrence only; when it does not occur,
      the cart is unchanged. */
  function RemoveFirst(ps: seq<Product>, p: Product): seq<Product> {
    if ps == [] then []
    else if ps[0] == p then ps[1..]
    else [ps[0]] + RemoveFirst(ps[1..], p)
  }

  /** Removing a product the cart does not hold leaves the cart as it was. */
  lemma {:induction false} RemoveFirstAbsent(ps: seq<Product>, p: Product)
    requires p !in ps
    ensures RemoveFirst(ps, p) == ps
  {
    if ps != [] {
      assert p !in ps[1..];
      RemoveFirstAbsent(ps[1..], p);
      assert ps == [ps[0]] + ps[1..];
    }
  }

  /** Exactly one copy of `p` leaves the cart, if there was one. */
  lemma {:induction false} RemoveFirstMultiset(ps: seq<Product>, p: Product)
    ensures multiset(RemoveFirst(ps, p)) == multiset(ps) - multiset{p}
  {
    if ps != [] {
      assert ps == [ps[0]] + ps[1..];
      if ps[0] != p {
        RemoveFirstMultiset(ps[1..], p);
      }
    }
  }

  /** The entry removed is the first one equal to `p`: the entries before
      it and the entries after it stay, in their order. */
  lemma {:induction false} RemoveFirstOccurrence(before: seq<Product>, p: Product, after: seq<Product>)
    requires p !in before
    ensures RemoveFirst(before + [p] + after, p) == before + after
  {
    if before == [] {
      assert before + [p] + after == [p] + after;
    } else {
      var ps := before + [p] + after;
      assert ps[0] == before[0];
      assert ps[1..] == before[1..] + [p] + after;
      RemoveFirstOccurrence(before[1..], p, after);
      assert before + after == [before[0]] + (before[1..] + after);
    }
  }

  /** Removing a product takes exactly its price off the total. */
  lemma {:induction false} RemoveFirstSum(ps: seq<Product>, p: Product)
    ensures Sum(RemoveFirst(ps, p)) + (if p in ps then p.price else 0) == Sum(ps)
  {
    if ps != [] && ps[0] != p {
      RemoveFirstSum(ps[1..], p);
      assert p in ps <==> p in ps[1..];
      assert ([ps[0]] + RemoveFirst(ps[1..], p))[1..] == RemoveFirst(ps[1..], p);
    }
  }

  /** Removing a product that was just added to a cart without it gives the
      cart back. */
  lemma {:induction false} RemoveUndoesAdd(ps: seq<Product>, p: Product)
    requires p !in ps
    ensures RemoveFirst(ps + [p], p) == ps
  {
    if ps != [] {
      assert (ps + [p])[1..] == ps[1..] + [p];
      RemoveUndoesAdd(ps[1..], p);
      assert ps == [ps[0]] + ps[1..];
    }
  }

  // ---------------------------------------------------------------------
  // Hydration
  // ---------------------------------------------------------------------

  /** The cart a session starts with, given what `getItem("products")`
      returned: nothing stored, or a text that is not a cart, gives the empty
      cart. */
  function Hydrate(stored: Option<string>): seq<Product> {
    match stored
    case None => []
    case Some(t) => ProductJson.Decode(t).GetOr([])
  }

  /** A stored encoding hydrates to the cart it encodes. */
  lemma HydrateEncoded(ps: seq<Product>)
    ensures Hydrate(Some(ProductJson.Encode(ps))) == ps
  {
    ProductJson.DecodeEncode(ps);
  }

  /** A stored text that is no cart's encoding hydrates to the empty cart. */
  lemma HydrateMalformed(t: string)
    requires forall ps :: ProductJson.Encode(ps) != t
    ensures Hydrate(Some(t)) == []
  {
    if ProductJson.Decode(t).Some? {
      ProductJson.EncodeDecode(t);
      assert false;
    }
  }

  // ---------------------------------------------------------------------
  // The cart object
  // ---------------------------------------------------------------------

  class Cart {
    var products: seq<Product>
    const store: LocalStorage.Store

    /** The write-through invariant: the store holds the encoding of the
        in-memory sequence under `"products"`. Every mutation establishes it;
        hydration does not write, so a fresh cart need not satisfy it. */
    ghost predicate Synced()
      reads this, store
    {
      Key in store.items && store.items[Key] == ProductJson.Encode(products)
    }

    /** Hydrates from the store; reads it once and does not write to it. */
    constructor (store: LocalStorage.Store)
      ensures this.store == store
      ensures products == Hydrate(store.GetItem(Key))
    {
      this.store := store;
      products := Hydrate(store.GetItem(Key));
    }

    /** The sum of the prices of the entries now in the cart. */
    function TotalPrice(): (total: nat)
      reads this
      ensures products == [] ==> total == 0
      ensures forall i :: 0 <= i < |products| ==> products[i].price <= total
    {
      assert forall i :: 0 <= i < |products| ==> products[i].price <= Sum(products) by {
        forall i | 0 <= i < |products| {
          PriceAtMostSum(products, i);
        }
      }
      Sum(products)
    }

    /** `addToCart`: appends `p` (no deduplication) and writes the cart back. */
    method AddToCart(p: Product)
      modifies this, store
      ensures products == old(products) + [p]
      ensures store.items == old(store.items)[Key := ProductJson.Encode(products)]
      ensures Synced()
      ensures TotalPrice() == old(TotalPrice()) + p.price
    {
      products := products + [p];
      store.SetItem(Key, ProductJson.Encode(products));
      SumAppend(old(products), [p]);
    }

    /** `removeFromCart`: drops the first entry equal to `p`, if any, and
        writes the cart back. */
    method RemoveFromCart(p: Product)
      modifies this, store
      ensures products == RemoveFirst(old(products), p)
      ensures store.items == old(store.items)[Key := ProductJson.Encode(products)]
      ensures Synced()
      ensures TotalPrice() + (if p in old(products) then p.price else 0) == old(TotalPrice())
    {
      products := RemoveFirst(products, p);
      store.SetItem(Key, ProductJson.Encode(products));
      RemoveFirstSum(old(products), p);
    }

    /** `clearCart`: empties the cart and writes `"[]"`, even when the cart
        was already empty. */
    method ClearCart()
      modifies this, store
      ensures products == []
      ensures store.items == old(store.items)[Key := "[]"]
      ensures Synced()
      ensures TotalPrice() == 0
    {
      products := [];
      store.SetItem(Key, ProductJson.Encode(products));
    }

    /** While the cart and the store are in sync, a new session hydrated from
        the store starts with exactly this cart. */
    lemma SyncedRehydrates()
      requires Synced()
      ensures Hydrate(store.GetItem(Key)) == products
    {
      HydrateEncoded(products);
    }
  }
}
