/** The cart server actions: each reads the cart cookie, calls the commerce SDK
    and writes back the cookie and cache-invalidation tags.

    The commerce SDK is modelled by the state the actions can observe: a store
    mapping each cart id to its lines, and a log of the mutations the actions
    issue. Its business rules (what adding a product or changing a quantity does
    to a cart's lines, and how `cartCount` counts them) are left abstract: they
    are functions the session is created with. What the SDK decides for itself
    (whether `cartAdd` returned a cart, which id a new cart gets) is passed to
    each action as a parameter. */
module CartActions {
  import opened Wrappers

  type CartId = string
  type ProductId = string

  /** The lines of one cart: the quantity of each product in it. */
  type Lines = map<ProductId, int>

  /** The cart cookie's JSON payload. */
  datatype CartCookie = CartCookie(id: CartId, linesCount: int)

  /** A copy of a cart as `cartGet` returns it. */
  datatype Cart = Cart(id: CartId, lines: Lines)

  datatype Direction = Increase | Decrease

  /** The store mutations an action can issue, in the SDK's own terms. */
  datatype Mutation =
    | CartCreate
    | CartAdd(productId: ProductId, into: Option<CartId>)
    | CartChangeQuantity(productId: ProductId, cartId: CartId, operation: Direction)
    | CartSetQuantity(productId: ProductId, cartId: CartId, quantity: int)

  /** What `formData.get("productId")` returns: nothing, a string or a file. */
  datatype FormEntry = Missing | Text(text: string) | Upload

  /** The errors the actions throw. */
  datatype CartError = InvalidProductId | CartNotFound | FailedToCreateCart

  /** What the find-or-create action returns: a copy of the existing cart, or
      the id of the cart it created. */
  datatype FoundOrCreated = Found(cart: Cart) | Created(id: CartId)

  const AdminOrdersTag: string := "admin-orders"

  function CartTag(id: CartId): (tag: string)
    ensures |tag| == 5 + |id| && tag[..5] == "cart-" && tag[5..] == id
  {
    "cart-" + id
  }

  /** A tag of the form `cart-<id>`. */
  predicate IsCartTag(tag: string) {
    |tag| >= 5 && tag[..5] == "cart-"
  }

  /** A product id passes the action's guard: a string, and not the empty one. */
  predicate ValidProductId(e: FormEntry): (ok: bool)
    ensures e.Missing? || e.Upload? ==> !ok
    ensures e.Text? ==> (ok <==> e.text != "")
  {
    e.Text? && e.text != ""
  }

  /** The quantity the cart already holds of a product: its line's quantity,
      or 0 when it has no line for it. */
  function CurrentQuantity(lines: Lines, productId: ProductId): (q: int)
    ensures productId in lines ==> q == lines[productId]
    ensures productId !in lines ==> q == 0
  {
    if productId in lines then lines[productId] else 0
  }

  class CartSession {
    /** The cart cookie; None when there is none (or it does not parse). */
    var cookie: Option<CartCookie>
    /** The commerce store: every cart the SDK knows, by id. */
    var carts: map<CartId, Lines>
    /** Every store mutation issued, oldest first. */
    var mutations: seq<Mutation>
    /** Every cache tag revalidated, oldest first. */
    var revalidated: seq<string>

    /** The object invariant: the actions only ever revalidate cart tags and
        the admin-orders tag. */
    ghost predicate Valid()
      reads this
    {
      forall i :: 0 <= i < |revalidated| ==> IsCartTag(revalidated[i]) || revalidated[i] == AdminOrdersTag
    }

    /** The SDK's rules, left abstract. */
    const addRule: (Lines, ProductId) -> Lines
    const changeRule: (Lines, ProductId, Direction) -> Lines
    const setRule: (Lines, ProductId, int) -> Lines
    const cartCount: Lines -> int

    constructor (cookie: Option<CartCookie>, carts: map<CartId, Lines>,
                 addRule: (Lines, ProductId) -> Lines,
                 changeRule: (Lines, ProductId, Direction) -> Lines,
                 setRule: (Lines, ProductId, int) -> Lines,
                 cartCount: Lines -> int)
      ensures Valid()
      ensures this.cookie == cookie && this.carts == carts
      ensures mutations == [] && revalidated == []
      ensures this.addRule == addRule && this.changeRule == changeRule
      ensures this.setRule == setRule && this.cartCount == cartCount
    {
      this.cookie := cookie;
      this.carts := carts;
      this.mutations := [];
      this.revalidated := [];
      this.addRule := addRule;
      this.changeRule := changeRule;
      this.setRule := setRule;
      this.cartCount := cartCount;
    }

    /** getCartFromCookiesAction: the cart the cookie points at, if the store
        has it. */
    function CartFromCookies(): (r: Option<Cart>)
      reads this
      ensures cookie.None? ==> r.None?
      ensures cookie.Some? && cookie.value.id !in carts ==> r.None?
      ensures cookie.Some? && cookie.value.id in carts ==> r == Some(Cart(cookie.value.id, carts[cookie.value.id]))
    {
      match cookie
      case None => None
      case Some(c) => if c.id in carts then Some(Cart(c.id, carts[c.id])) else None
    }

    /** setInitialCartCookiesAction */
    method SetInitialCartCookies(cartId: CartId, linesCount: int)
      requires Valid()
      modifies this`cookie, this`revalidated
      ensures Valid()
      ensures cookie == Some(CartCookie(cartId, linesCount))
      ensures revalidated == old(revalidated) + [CartTag(cartId)]
    {
      cookie := Some(CartCookie(cartId, linesCount));
      revalidated := revalidated + [CartTag(cartId)];
    }

    /** findOrCreateCartIdFromCookiesAction: `newId` is the id the SDK gives the
        cart it creates, which is not the id of any cart it already has. */
    method FindOrCreateCartIdFromCookies(newId: CartId) returns (r: FoundOrCreated)
      requires newId !in carts
      requires Valid()
      modifies this`cookie, this`carts, this`mutations, this`revalidated
      ensures Valid()
      ensures old(CartFromCookies()).Some? ==>
                r == Found(old(CartFromCookies()).value)
                && cookie == old(cookie) && carts == old(carts)
                && mutations == old(mutations) && revalidated == old(revalidated)
      ensures old(CartFromCookies()).None? ==>
                r == Created(newId)
                && carts == old(carts)[newId := map[]]
                && mutations == old(mutations) + [CartCreate]
                && cookie == Some(CartCookie(newId, 0))
                && revalidated == old(revalidated) + [CartTag(newId)]
    {
      var cart := CartFromCookies();
      if cart.Some? {
        return Found(cart.value);
      }
      carts := carts[newId := map[]];
      mutations := mutations + [CartCreate];
      cookie := Some(CartCookie(newId, 0));
      revalidated := revalidated + [CartTag(newId)];
      r := Created(newId);
    }

    /** clearCartCookieAction */
    method ClearCartCookie()
      requires Valid()
      modifies this`cookie, this`revalidated
      ensures Valid()
      ensures old(cookie).None? ==> cookie == old(cookie) && revalidated == old(revalidated)
      ensures old(cookie).Some? ==>
                cookie.None?
                && revalidated == old(revalidated) + [CartTag(old(cookie).value.id), AdminOrdersTag]
    {
      if cookie.None? {
        return;
      }
      var id := cookie.value.id;
      cookie := None;
      revalidated := revalidated + [CartTag(id), AdminOrdersTag];
    }

    /** Commerce.cartAdd: adds to `cartId` when given, otherwise creates a cart
        with id `newId`, an id no cart in the store has. `succeeded` says whether
        the SDK returned the cart; when it did not, the store is left as it was. */
    method SdkCartAdd(productId: ProductId, cartId: Option<CartId>, succeeded: bool, newId: CartId)
      returns (updated: Option<Cart>)
      requires cartId.Some? ==> cartId.value in carts
      requires cartId.None? ==> newId !in carts
      requires Valid()
      modifies this`carts, this`mutations
      ensures Valid()
      ensures mutations == old(mutations) + [CartAdd(productId, cartId)]
      ensures !succeeded ==> updated.None? && carts == old(carts)
      ensures succeeded ==>
                var id := cartId.GetOr(newId);
                var before := if cartId.Some? then old(carts)[id] else map[];
                && carts == old(carts)[id := addRule(before, productId)]
                && updated == Some(Cart(id, carts[id]))
    {
      mutations := mutations + [CartAdd(productId, cartId)];
      if !succeeded {
        return None;
      }
      var id := cartId.GetOr(newId);
      var before := if cartId.Some? then carts[id] else map[];
      carts := carts[id := addRule(before, productId)];
      updated := Some(Cart(id, carts[id]));
    }

    /** Commerce.cartSetQuantity: a cart the store does not have is left alone. */
    method SdkCartSetQuantity(productId: ProductId, cartId: CartId, quantity: int)
      requires Valid()
      modifies this`carts, this`mutations
      ensures Valid()
      ensures mutations == old(mutations) + [CartSetQuantity(productId, cartId, quantity)]
      ensures carts == if cartId in old(carts)
                       then old(carts)[cartId := setRule(old(carts)[cartId], productId, quantity)]
                       else old(carts)
    {
      mutations := mutations + [CartSetQuantity(productId, cartId, quantity)];
      if cartId in carts {
        carts := carts[cartId := setRule(carts[cartId], productId, quantity)];
      }
    }

    /** addToCartAction: `succeeded` and `newId` are the SDK's answers to the add. */
    method AddToCart(productId: FormEntry, succeeded: bool, newId: CartId) returns (r: Result<Option<Cart>, CartError>)
      requires newId !in carts
      requires Valid()
      modifies this`cookie, this`carts, this`mutations, this`revalidated
      ensures Valid()
      ensures !ValidProductId(productId) ==>
                r == Failure(InvalidProductId)
                && cookie == old(cookie) && carts == old(carts)
                && mutations == old(mutations) && revalidated == old(revalidated)
      ensures ValidProductId(productId) ==>
                var cart := old(CartFromCookies());
                var cartId := if cart.Some? then Some(cart.value.id) else None;
                && mutations == old(mutations) + [CartAdd(productId.text, cartId)]
                && r.Success?
                && (!succeeded ==>
                      r.value.None? && cookie == old(cookie) && carts == old(carts)
                      && revalidated == old(revalidated))
                && (succeeded ==>
                      var id := cartId.GetOr(newId);
                      var before := if cart.Some? then cart.value.lines else map[];
                      && carts == old(carts)[id := addRule(before, productId.text)]
                      && r.value == Some(Cart(id, carts[id]))
                      && cookie == Some(CartCookie(id, cartCount(carts[id])))
                      && revalidated == old(revalidated) + [CartTag(id)])
    {
      if !ValidProductId(productId) {
        return Failure(InvalidProductId);
      }
      var cart := CartFromCookies();
      var cartId := if cart.Some? then Some(cart.value.id) else None;
      var updated := SdkCartAdd(productId.text, cartId, succeeded, newId);
      if updated.Some? {
        var u := updated.value;
        cookie := Some(CartCookie(u.id, cartCount(u.lines)));
        revalidated := revalidated + [CartTag(u.id)];
      }
      r := Success(updated);
    }

    /** The shared body of increaseQuantity and decreaseQuantity. */
    method ChangeQuantity(productId: ProductId, operation: Direction) returns (r: Outcome<CartError>)
      requires Valid()
      modifies this`carts, this`mutations
      ensures Valid()
      ensures old(CartFromCookies()).None? ==>
                r == Fail(CartNotFound) && carts == old(carts) && mutations == old(mutations)
      ensures old(CartFromCookies()).Some? ==>
                var id := old(CartFromCookies()).value.id;
                && r == Pass
                && mutations == old(mutations) + [CartChangeQuantity(productId, id, operation)]
                && carts == old(carts)[id := changeRule(old(carts)[id], productId, operation)]
    {
      var cart := CartFromCookies();
      if cart.None? {
        return Fail(CartNotFound);
      }
      var id := cart.value.id;
      mutations := mutations + [CartChangeQuantity(productId, id, operation)];
      carts := carts[id := changeRule(carts[id], productId, operation)];
      r := Pass;
    }

    /** increaseQuantity */
    method IncreaseQuantity(productId: ProductId) returns (r: Outcome<CartError>)
      requires Valid()
      modifies this`carts, this`mutations
      ensures Valid()
      ensures old(CartFromCookies()).None? ==>
                r == Fail(CartNotFound) && carts == old(carts) && mutations == old(mutations)
      ensures old(CartFromCookies()).Some? ==>
                var id := old(CartFromCookies()).value.id;
                && r == Pass
                && mutations == old(mutations) + [CartChangeQuantity(productId, id, Increase)]
                && carts == old(carts)[id := changeRule(old(carts)[id], productId, Increase)]
    {
      r := ChangeQuantity(productId, Increase);
    }

    /** decreaseQuantity */
    method DecreaseQuantity(productId: ProductId) returns (r: Outcome<CartError>)
      requires Valid()
      modifies this`carts, this`mutations
      ensures Valid()
      ensures old(CartFromCookies()).None? ==>
                r == Fail(CartNotFound) && carts == old(carts) && mutations == old(mutations)
      ensures old(CartFromCookies()).Some? ==>
                var id := old(CartFromCookies()).value.id;
                && r == Pass
                && mutations == old(mutations) + [CartChangeQuantity(productId, id, Decrease)]
                && carts == old(carts)[id := changeRule(old(carts)[id], productId, Decrease)]
    {
      r := ChangeQuantity(productId, Decrease);
    }

    /** setQuantity: the cookie's cart must exist, but the quantity is set on
        the cart id the caller passes. */
    method SetQuantity(productId: ProductId, cartId: CartId, quantity: int) returns (r: Outcome<CartError>)
      requires Valid()
      modifies this`carts, this`mutations
      ensures Valid()
      ensures old(CartFromCookies()).None? ==>
                r == Fail(CartNotFound) && carts == old(carts) && mutations == old(mutations)
      ensures old(CartFromCookies()).Some? ==>
                && r == Pass
                && mutations == old(mutations) + [CartSetQuantity(productId, cartId, quantity)]
                && carts == if cartId in old(carts)
                            then old(carts)[cartId := setRule(old(carts)[cartId], productId, quantity)]
                            else old(carts)
    {
      var cart := CartFromCookies();
      if cart.None? {
        return Fail(CartNotFound);
      }
      SdkCartSetQuantity(productId, cartId, quantity);
      r := Pass;
    }

    /** addMultipleToCartAction. Without a cart: one add (answered by
        `succeeded` and `newId`), then a set-quantity call only when more than
        one unit is asked for; the cookie's count is that of the cart as the add
        returned it. With a cart: one set-quantity call to the current quantity
        plus `quantity`, then the cookie is resynchronised from the re-fetched
        cart. */
    method AddMultipleToCart(productId: ProductId, quantity: int, succeeded: bool, newId: CartId)
      returns (r: Outcome<CartError>)
      requires newId !in carts
      requires Valid()
      modifies this`cookie, this`carts, this`mutations, this`revalidated
      ensures Valid()
      ensures old(CartFromCookies()).None? && !succeeded ==>
                r == Fail(FailedToCreateCart)
                && mutations == old(mutations) + [CartAdd(productId, None)]
                && carts == old(carts) && cookie == old(cookie) && revalidated == old(revalidated)
      ensures old(CartFromCookies()).None? && succeeded ==>
                var added := addRule(map[], productId);
                && r == Pass
                && mutations == old(mutations) + [CartAdd(productId, None)]
                              + (if quantity > 1 then [CartSetQuantity(productId, newId, quantity)] else [])
                && carts == old(carts)[newId := if quantity > 1 then setRule(added, productId, quantity) else added]
                && cookie == Some(CartCookie(newId, cartCount(added)))
                && revalidated == old(revalidated) + [CartTag(newId)]
      ensures old(CartFromCookies()).Some? ==>
                var cart := old(CartFromCookies()).value;
                var newQty := CurrentQuantity(cart.lines, productId) + quantity;
                && r == Pass
                && mutations == old(mutations) + [CartSetQuantity(productId, cart.id, newQty)]
                && carts == old(carts)[cart.id := setRule(cart.lines, productId, newQty)]
                && cookie == Some(CartCookie(cart.id, cartCount(carts[cart.id])))
                && revalidated == old(revalidated) + [CartTag(cart.id)]
    {
      var cart := CartFromCookies();
      if cart.None? {
        var newCart := SdkCartAdd(productId, None, succeeded, newId);
        if newCart.None? {
          return Fail(FailedToCreateCart);
        }
        if quantity > 1 {
          SdkCartSetQuantity(productId, newCart.value.id, quantity);
        }
        cookie := Some(CartCookie(newCart.value.id, cartCount(newCart.value.lines)));
        revalidated := revalidated + [CartTag(newCart.value.id)];
        return Pass;
      }
      var id := cart.value.id;
      var newQty := CurrentQuantity(cart.value.lines, productId) + quantity;
      SdkCartSetQuantity(productId, id, newQty);
      var updated := CartFromStore(id);
      if updated.Some? {
        cookie := Some(CartCookie(updated.value.id, cartCount(updated.value.lines)));
        revalidated := revalidated + [CartTag(updated.value.id)];
      }
      r := Pass;
    }

    /** Commerce.cartGet */
    function CartFromStore(id: CartId): (r: Option<Cart>)
      reads this
      ensures r.Some? <==> id in carts
      ensures r.Some? ==> r.value == Cart(id, carts[id])
    {
      if id in carts then Some(Cart(id, carts[id])) else None
    }

    /** commerceGPTRevalidateAction */
    method CommerceGptRevalidate()
      requires Valid()
      modifies this`revalidated
      ensures Valid()
      ensures revalidated == old(revalidated) + (if old(cookie).Some? then [CartTag(old(cookie).value.id)] else [])
    {
      if cookie.Some? {
        revalidated := revalidated + [CartTag(cookie.value.id)];
      }
    }
  }
}
