/** The cart's test cases, each run against a fresh store and a freshly
    hydrated cart, with what they expect stated as postconditions. */
module CartScenarios {
  import opened Types
  import ProductJson
  import LocalStorage
  import CartState

  /** The product the test cases put in the cart, at the given price. */
  function Foo(price: nat): Product {
    Product("Product foo", price, "image.jpg")
  }

  /** "loads data from localStorage": a cart stored before mount is the cart
      the hook starts with. */
  method LoadsDataFromLocalStorage() returns (products: seq<Product>)
    ensures products == [Foo(0)]
  {
    var store := new LocalStorage.Store();
    store.SetItem(CartState.Key, ProductJson.Encode([Foo(0)]));
    var cart := new CartState.Cart(store);
    CartState.HydrateEncoded([Foo(0)]);
    products := cart.products;
  }

  /** "adds items to the cart": on an empty store, adding a product gives a
      one-entry cart and writes its encoding under "products". */
  method AddsItemsToTheCart() returns (products: seq<Product>, written: string)
    ensures products == [Foo(0)]
    ensures written == ProductJson.Encode([Foo(0)])
  {
    var store := new LocalStorage.Store();
    var cart := new CartState.Cart(store);
    cart.AddToCart(Foo(0));
    products := cart.products;
    written := store.items[CartState.Key];
  }

  /** "removes items to the cart": removing the only product empties the
      cart and writes "[]". */
  method RemovesItemsFromTheCart() returns (products: seq<Product>, written: string)
    ensures products == []
    ensures written == "[]"
  {
    var store := new LocalStorage.Store();
    store.SetItem(CartState.Key, ProductJson.Encode([Foo(0)]));
    var cart := new CartState.Cart(store);
    CartState.HydrateEncoded([Foo(0)]);
    cart.RemoveFromCart(Foo(0));
    products := cart.products;
    written := store.items[CartState.Key];
  }

  /** "returns total products price": two entries of the same product at 21
      total 42. */
  method ReturnsTotalProductsPrice() returns (total: nat)
    ensures total == 42
  {
    var store := new LocalStorage.Store();
    store.SetItem(CartState.Key, ProductJson.Encode([Foo(21), Foo(21)]));
    var cart := new CartState.Cart(store);
    CartState.HydrateEncoded([Foo(21), Foo(21)]);
    total := cart.TotalPrice();
  }

  /** "removes all the products from the cart": clearing a two-entry cart
      empties it and writes "[]". */
  method RemovesAllTheProductsFromTheCart() returns (products: seq<Product>, written: string)
    ensures products == []
    ensures written == "[]"
  {
    var store := new LocalStorage.Store();
    store.SetItem(CartState.Key, ProductJson.Encode([Foo(21), Foo(21)]));
    var cart := new CartState.Cart(store);
    cart.ClearCart();
    products := cart.products;
    written := store.items[CartState.Key];
  }
}
