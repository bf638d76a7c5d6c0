/** The value types every variant of the Order shares: a product line, a
    coupon, a delivery address, and the four-field Order snapshot that the
    builders produce and the pipeline stages transform. */
module Interfaces {

  /** A field of a builder or of an Order that may not have been set yet
      (`undefined` in the original). */
  datatype Option<T> = None | Some(value: T)

  /** One line of an order. Prices and quantities are plain numbers in the
      original; they are exact reals here, so floating-point rounding is not
      modelled. */
  datatype ProductInOrder = ProductInOrder(name: string, price: real, quantity: real)

  /** A coupon. `validTill` is a timestamp that pricing never reads; it is kept
      as an opaque number. */
  datatype Coupon = Coupon(code: string, discount: real, validTill: int)

  /** A delivery address; only `state` is optional. Pricing never reads it. */
  datatype Address = Address(
    country: string,
    state: Option<string>,
    city: string,
    street: string,
    house: string,
    apartment: string)

  /** The `Order` interface: products, coupons, username and delivery address.
      Each field is an Option because a builder may be asked to build before a
      field was set, and the order then carries that field unset. */
  datatype Order = Order(
    products: Option<seq<ProductInOrder>>,
    coupons: Option<seq<Coupon>>,
    username: Option<string>,
    deliveryAddress: Option<Address>)

  /** The order with no field set: what a fresh builder holds. */
  const EMPTY_ORDER: Order := Order(None, None, None, None)

  /** The free promotional line item that the promo offer adds. */
  const SEAT: ProductInOrder := ProductInOrder("Seat", 0.0, 1.0)
}
