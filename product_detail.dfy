/**
 * The product detail screen: the product once loaded, the chosen size, the
 * like heart, and the add-to-cart button, which is disabled while a line with
 * the product's id is already in the cart.
 */
module ProductDetail {
  import opened Wrappers
  import opened Orders
  import opened Catalog
  import opened CartActions

  const Sizes: seq<string> := ["S", "M", "L"]
  const DefaultSize := "M"

  /** Some cart line carries this id (the array `some`). */
  function HasLineWithId(items: seq<OrderItem>, id: int): (found: bool)
    ensures found <==> exists i :: 0 <= i < |items| && items[i].id == id
  {
    if items == [] then false
    else if items[0].id == id then true
    else
      var rest := HasLineWithId(items[1..], id);
      assert rest <==> exists i :: 1 <= i < |items| && items[i].id == id by {
        forall i | 1 <= i < |items| ensures items[i] == items[1..][i - 1] { }
      }
      rest
  }

  /** `isInCart`: false while no product is loaded, otherwise whether a cart line has the product's id. */
  function IsInCart(product: Option<Product>, items: seq<OrderItem>): (r: bool)
    ensures product.None? ==> !r
    ensures product.Some? ==> (r <==> exists i :: 0 <= i < |items| && items[i].id == product.value.id)
  {
    product.Some? && HasLineWithId(items, product.value.id)
  }

  /** The line `handleAddToCart` sends: one of the product, in the chosen size, with its first image and no colour. */
  function AddPayload(p: Product, size: string): (item: OrderItem)
    ensures item.id == p.id && item.title == p.title && item.price == p.price
    ensures item.quantity == 1 && item.size == Some(size) && item.color == None
    ensures p.images != [] ==> item.image == Some(p.images[0])
    ensures p.images == [] ==> item.image == None
  {
    OrderItem(p.id, p.title, p.price, if p.images == [] then None else Some(p.images[0]), 1, Some(size), None)
  }

  /** The add button's text. */
  function ButtonLabel(inCart: bool): (text: string)
    ensures text == "Added to Cart" <==> inCart
  {
    if inCart then "Added to Cart" else "Add To Cart"
  }

  class ProductDetailScreen {
    var product: Option<Product>
    var loading: bool
    var selectedSize: string
    var isLiked: bool

    /** The selected size is always one the screen offers. */
    ghost predicate Valid()
      reads this
    {
      selectedSize in Sizes
    }

    /** Mounting: no product yet, loading, size 'M', not liked. */
    constructor ()
      ensures Valid()
      ensures product == None && loading && selectedSize == DefaultSize && !isLiked
    {
      product, loading, selectedSize, isLiked := None, true, DefaultSize, false;
    }

    /** The detail fetch settles: a fetched product is shown; a failure keeps the product shown (none on mount). Loading ends either way. */
    method ProductLoaded(result: Option<Product>)
      requires Valid()
      modifies this
      ensures Valid()
      ensures product == (if result.Some? then result else old(product))
      ensures !loading
      ensures selectedSize == old(selectedSize) && isLiked == old(isLiked)
    {
      if result.Some? {
        product := result;
      }
      loading := false;
    }

    /** Tapping one of the size boxes selects it. */
    method SelectSize(size: string)
      requires size in Sizes
      modifies this
      ensures Valid()
      ensures selectedSize == size
      ensures product == old(product) && loading == old(loading) && isLiked == old(isLiked)
    {
      selectedSize := size;
    }

    /** `toggleLike`: the heart flips; the wishlist toast shows only when it turns on. */
    method ToggleLike() returns (wishlistToast: bool)
      requires Valid()
      modifies this
      ensures Valid()
      ensures isLiked == !old(isLiked)
      ensures wishlistToast <==> !old(isLiked)
      ensures product == old(product) && loading == old(loading) && selectedSize == old(selectedSize)
    {
      wishlistToast := !isLiked;
      isLiked := !isLiked;
    }

    /**
     * A press on the add button. The button is disabled while the product is
     * in the cart, and `handleAddToCart` does nothing without a product;
     * otherwise the one-piece line in the selected size is dispatched.
     */
    method PressAdd(items: seq<OrderItem>) returns (sent: Option<CartAction>)
      requires Valid()
      ensures sent.Some? <==> product.Some? && !IsInCart(product, items)
      ensures sent.Some? ==> sent.value == AddToCart(AddPayload(product.value, selectedSize))
      ensures sent.Some? ==> forall i :: 0 <= i < |items| ==> items[i].id != sent.value.item.id
      ensures sent.Some? ==> sent.value.item.size.Some? && sent.value.item.size.value in Sizes
    {
      if IsInCart(product, items) {
        sent := None;
      } else if product.Some? {
        sent := Some(AddToCart(AddPayload(product.value, selectedSize)));
      } else {
        sent := None;
      }
    }
  }
}
