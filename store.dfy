/**
 * The two zustand stores of lib/store.ts. Each store is an object whose
 * fields its actions overwrite wholesale through `set()`.
 */
module Store {
  import opened Wrappers

  datatype User = User(id: int, name: string, email: string)

  datatype CartItem = CartItem(id: int, productId: int, quantity: int, product: string)

  /** `useAuthStore`: who is logged in. */
  class AuthStore {
    var user: Option<User>
    var token: Option<string>
    var isAuthenticated: bool

    /** The store's initial state: nobody logged in. */
    constructor ()
      ensures user == None && token == None && !isAuthenticated
      ensures Valid()
    {
      user := None;
      token := None;
      isAuthenticated := false;
    }

    /** The flag is set exactly when a token is held. */
    ghost predicate Valid()
      reads this
    {
      isAuthenticated <==> token.Some?
    }

    /** `setAuth(user, token)`: both replaced, the flag raised, no check on the token. */
    method SetAuth(u: User, t: string)
      modifies this
      ensures user == Some(u) && token == Some(t) && isAuthenticated
      ensures Valid()
    {
      user, token, isAuthenticated := Some(u), Some(t), true;
    }

    /** `logout()`: back to the initial state, whatever the state was; so a second call changes nothing. */
    method Logout()
      modifies this
      ensures user == None && token == None && !isAuthenticated
      ensures Valid()
    {
      user, token, isAuthenticated := None, None, false;
    }
  }

  /** `useCartStore`: the last cart the server sent, kept as given. */
  class CartStore {
    var items: seq<CartItem>
    var total: real
    var count: int

    /** The store's initial state: an empty cart. */
    constructor ()
      ensures items == [] && total == 0.0 && count == 0
    {
      items, total, count := [], 0.0, 0;
    }

    /** `setCart`: the three fields replaced as given; `total` and `count` are not checked against `items`. */
    method SetCart(newItems: seq<CartItem>, newTotal: real, newCount: int)
      modifies this
      ensures items == newItems && total == newTotal && count == newCount
    {
      items, total, count := newItems, newTotal, newCount;
    }

    /** `clearCart`: exactly the initial state again; so a second call changes nothing. */
    method ClearCart()
      modifies this
      ensures items == [] && total == 0.0 && count == 0
    {
      items, total, count := [], 0.0, 0;
    }
  }

  /**
   * A session over both stores: logging in and out leaves the cart as it
   * was, and emptying the cart leaves the session as it was, because each
   * action's frame is its own store.
   */
  method StoresAreIndependent(auth: AuthStore, cart: CartStore, u: User, t: string)
    modifies auth, cart
    ensures !auth.isAuthenticated && auth.token == None
    ensures cart.items == [] && cart.count == 0
  {
    var items, total, count := cart.items, cart.total, cart.count;
    auth.SetAuth(u, t);
    assert cart.items == items && cart.total == total && cart.count == count;
    cart.ClearCart();
    assert auth.user == Some(u) && auth.token == Some(t) && auth.isAuthenticated;
    auth.Logout();
    auth.Logout();
  }
}
