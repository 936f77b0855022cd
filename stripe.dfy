/**
  What the gateway sends to and receives from the Stripe client
  (`WC_Stripe::create_customer`, `get_customer`, `update_customer`,
  `create_charge`). The client itself is not part of this model: each call is
  recorded in a log and answered by an abstract reply that either carries the
  returned object or the message of the exception it threw.
 */
module Stripe {

  /** A customer object; the gateway reads only its `id`. */
  datatype Customer = Customer(id: string)

  /** A card object as returned when a card is added to a customer. */
  datatype Card = Card(id: string, brand: string, last4: string, expYear: nat, expMonth: nat)

  /** A charge object; the gateway reads only its `id`. */
  datatype Charge = Charge(id: string)

  /** The answer to one call: the object, or the message of the thrown exception. */
  datatype Reply<T> = Ok(value: T) | Thrown(message: string)

  /** The answers the processor gives, one per kind of call the gateway makes.
      `addCard` answers `update_customer(<id>/cards, card)` and `setDefault`
      answers `update_customer(<id>, default_card)`. */
  datatype Replies = Replies(
    createCustomer: Reply<Customer>,
    getCustomer: Reply<Customer>,
    addCard: Reply<Card>,
    setDefault: Reply<Customer>,
    charge: Reply<Charge>)

  /** One entry of a PHP array built step by step: the key is absent, present
      with PHP's null, or present with a string. */
  datatype Entry = Absent | Null | Present(value: string)

  /** The `$stripe_charge_data` array handed to `create_charge`. */
  datatype ChargeRequest = ChargeRequest(
    amount: int,
    currency: string,
    description: string,
    card: Entry,
    customer: Entry)

  /** One call made to the processor, with the arguments the gateway passed. */
  datatype Call =
    | CreateCustomer(userId: nat, token: string, description: string)
    | GetCustomer(customerId: string)
    | UpdateCustomer(path: string, field: string, value: string)
    | CreateCharge(request: ChargeRequest)
  {
    /** Calls that create something on the processor's side. */
    predicate Creates() {
      CreateCustomer? || (UpdateCustomer? && field == "card")
    }
  }
}
