/** The customer dashboard's local state rules: the per-product quantity
    stepper and the checkout guard. Requests are represented by their outcome. */
module Dashboard {
  import opened Tables

  /** `Math.max(1, value)`: a quantity typed or stepped to is never below 1. */
  function Clamp(value: int): (q: int)
    ensures q >= 1
    ensures value >= 1 ==> q == value
    ensures value < 1 ==> q == 1
  {
    if value < 1 then 1 else value
  }

  /** `quantity[productId] || 1`: a product with no entry (or a falsy 0 entry) counts as 1. */
  function EffectiveQuantity(quantity: map<int, int>, productId: int): (q: int)
    ensures productId !in quantity || quantity[productId] == 0 ==> q == 1
    ensures productId in quantity && quantity[productId] != 0 ==> q == quantity[productId]
  {
    if productId in quantity && quantity[productId] != 0 then quantity[productId] else 1
  }

  ghost predicate AllAtLeastOne(quantity: map<int, int>) {
    forall p :: p in quantity ==> quantity[p] >= 1
  }

  /** With every stored entry at least 1, the effective quantity is at least 1
      and is the stored one whenever there is an entry. */
  lemma EffectiveAtLeastOne(quantity: map<int, int>, productId: int)
    requires AllAtLeastOne(quantity)
    ensures EffectiveQuantity(quantity, productId) >= 1
    ensures productId in quantity ==> EffectiveQuantity(quantity, productId) == quantity[productId]
  {
  }

  /** The `-` button is disabled when the effective quantity is at most 1. */
  predicate DecrementEnabled(quantity: map<int, int>, productId: int) {
    EffectiveQuantity(quantity, productId) > 1
  }

  class DashboardState {
    var quantity: map<int, int>
    var cartItems: seq<CartLine>
    var showCart: bool

    ghost predicate Valid()
      reads this
    {
      AllAtLeastOne(quantity)
    }

    constructor ()
      ensures Valid()
      ensures quantity == map[] && cartItems == [] && !showCart
    {
      quantity, cartItems, showCart := map[], [], false;
    }

    /** `handleQuantityChange`: store max(1, value) for that product only. */
    method HandleQuantityChange(productId: int, value: int)
      requires Valid()
      modifies this
      ensures Valid()
      ensures quantity == old(quantity)[productId := Clamp(value)]
      ensures quantity[productId] >= 1
      ensures forall p :: p != productId ==> (p in quantity <==> p in old(quantity))
      ensures forall p :: p != productId && p in quantity ==> quantity[p] == old(quantity)[p]
      ensures cartItems == old(cartItems) && showCart == old(showCart)
    {
      quantity := quantity[productId := Clamp(value)];
    }

    /** The `+` button. */
    method StepUp(productId: int)
      requires Valid()
      modifies this
      ensures Valid()
      ensures quantity == old(quantity)[productId := EffectiveQuantity(old(quantity), productId) + 1]
      ensures cartItems == old(cartItems) && showCart == old(showCart)
    {
      EffectiveAtLeastOne(quantity, productId);
      HandleQuantityChange(productId, EffectiveQuantity(quantity, productId) + 1);
    }

    /** The `-` button, which does nothing while disabled: stepping down never
        stores a value below 1. */
    method StepDown(productId: int)
      requires Valid()
      modifies this
      ensures Valid()
      ensures !old(DecrementEnabled(quantity, productId)) ==> quantity == old(quantity)
      ensures old(DecrementEnabled(quantity, productId)) ==>
                quantity == old(quantity)[productId := EffectiveQuantity(old(quantity), productId) - 1]
      ensures EffectiveQuantity(quantity, productId) >= 1
      ensures cartItems == old(cartItems) && showCart == old(showCart)
    {
      if DecrementEnabled(quantity, productId) {
        HandleQuantityChange(productId, EffectiveQuantity(quantity, productId) - 1);
      }
      EffectiveAtLeastOne(quantity, productId);
    }

    /** The quantity `addToCart` sends for a product: the stored one, or 1. */
    method AddToCartQuantity(productId: int) returns (qty: int)
      requires Valid()
      ensures qty >= 1
      ensures productId in quantity ==> qty == quantity[productId]
      ensures productId !in quantity ==> qty == 1
    {
      qty := EffectiveQuantity(quantity, productId);
      EffectiveAtLeastOne(quantity, productId);
    }

    /** `handleViewCart`: show the fetched lines; on failure nothing changes. */
    method HandleViewCart(fetched: Option<seq<CartLine>>)
      modifies this
      ensures fetched.Some? ==> cartItems == fetched.value && showCart
      ensures fetched.None? ==> cartItems == old(cartItems) && showCart == old(showCart)
      ensures quantity == old(quantity)
    {
      if fetched.Some? {
        cartItems := fetched.value;
        showCart := true;
      }
    }

    /** `handleCheckout`: refuse an empty local cart without a request; else
        post the checkout, and on a 200 or 201 reply empty the local cart and
        hide it. `response` is the reply's status, None when the request threw. */
    method HandleCheckout(response: Option<int>) returns (requested: bool)
      modifies this
      ensures requested <==> old(cartItems) != []
      ensures requested && (response == Some(200) || response == Some(201)) ==> cartItems == [] && !showCart
      ensures !(requested && (response == Some(200) || response == Some(201))) ==>
                cartItems == old(cartItems) && showCart == old(showCart)
      ensures quantity == old(quantity)
    {
      if |cartItems| == 0 {
        return false;
      }
      requested := true;
      if response == Some(200) || response == Some(201) {
        cartItems := [];
        showCart := false;
      }
    }
  }
}
