/** The value types shared by the cart and its persisted form. */
module Types {

  /** A catalog item. It has no identity field: two products are the same
      product exactly when name, price and image are all equal. The price is a
      whole number of currency units. */
  datatype Product = Product(name: string, price: nat, image: string)

  /** Some/None, failure-compatible so that parsers can use `:-`. */
  datatype Option<+T> = None | Some(value: T) {
    predicate IsFailure() { None? }

    function PropagateFailure<U>(): Option<U>
      requires None?
    {
      None
    }

    function Extract(): T
      requires Some?
    {
      value
    }

    function GetOr(default: T): T {
      match this
      case Some(v) => v
      case None => default
    }
  }
}
