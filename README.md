# Stripe payment gateway for WooCommerce: checkout core

This project models the decision core of the plugin's gateway class
`WC_Stripe_Gateway` (`classes/class-wc_stripe_gateway.php`) and proves
properties about it:

- **Charging a checkout** (`send_to_stripe`, `process_payment`,
  `payment_failed`, `order_complete`). This is the class
  `Gateway.StripeGateway`. Its fields hold the host state the flow changes:
  - the order's status, notes and metadata;
  - the cart, the session's "awaiting payment" flag and the queued notices;
  - the current user's metadata, which holds the saved-card references;
  - a log of the calls made to the Stripe client.

  The charge preparation has a pure specification, `Gateway.ChargePlan`.
  It gives the processor calls, the card reference saved and the charge
  request, from:
  - the user and their saved cards;
  - the posted form;
  - the processor's replies.

  The methods `PrepareCharge` (the `try` block up to the charge) and
  `SendToStripe` are proved against that specification. The properties of
  the charging source are lemmas about it.

  `SendToStripe` and `Conclude` (the branch of `process_payment` on the
  result) state their effect as predicates, `Sent` and `Concluded`, over
  the host state before and after, taken as a plain value (`Gateway.Ledger`).
  `ProcessPayment` states its own effect field by field.
- **Availability** (`is_available`). This is a guard chain over the
  gateway's settings, the API keys, the WooCommerce version and SSL.
- **Validation notices** (`validation_errors`). Each error the browser
  reports becomes one error notice. Its message is built from a fixed table
  of fields and kinds.
- **The saved-card part of the payment form** (`payment_fields`). This
  covers the radio options offered for saved cards and the removal of the
  `name="..."` attributes from the card inputs' markup.

The Stripe client (`WC_Stripe::create_customer`, `get_customer`,
`update_customer`, `create_charge`) is not part of this model. Each call is
appended to a log and answered by an abstract reply (`Stripe.Replies`). A
reply either carries the returned object or the message of the exception it
threw.

PHP value semantics the code relies on are written out in module `Php`:
- `!$s` is true for `""` and `"0"` only;
- ASCII lower-casing;
- a posted string such as `"2"` reaches the integer array key `2`, while
  `"02"` or `"new"` do not.

Where the plugin's description and its code differ, the model follows the
code:
- The failure note quotes `transactionErrorMessage`. That property is
  declared null and never assigned, so the note always quotes an empty
  message.
- With the save location corrected (see "## Findings"), the new card is
  saved before the charge is attempted, so it stays saved when the charge
  is declined (`Gateway.PlanIgnoresCharge`). As written, nothing is saved.
- A guest's order gets `customer_id` written as PHP's null, because
  `$customer` is never set on the guest path (`Gateway.MetaValue.NullValue`).
- With form errors, `send_to_stripe` returns nothing rather than `false`.
  `process_payment` still takes its failure branch
  (`Gateway.SendResult.NoValue`).
- The field labels are "Credit Card Number", "Credit Card Expiration" and
  "Credit Card CVC", as the code has them.

## Model

| member | source | states |
|---|---|---|
| Php.IndexKeyRoundTrip | classes/class-wc_stripe_gateway.php:420 | the decimal text of index `n` is read back as array key `n`, and it is the only text that is |
| CardStore.AddUserMeta | classes/class-wc_stripe_gateway.php:409-416 | `add_user_meta` appends the value to the list under its key and changes no other key; under a key PHP treats as false it stores nothing |
| CardStore.SavedCardFor | classes/class-wc_stripe_gateway.php:409-416 | the stored reference carries the id of the customer returned by the default-card update, and the added card's id, type (brand), last four digits, expiry year and expiry month |
| CardStore.SaveNewCard | classes/class-wc_stripe_gateway.php:409-416 | saving a new card under the location the saved cards are read from (a key the host accepts) grows that list by exactly the new reference, and leaves every other key unchanged |
| CardStore.SaveNewCardAsWritten | classes/class-wc_stripe_gateway.php:409 | as written, the never-assigned `stripe_db_location` property is passed as the key; the host refuses that empty key, so the user's metadata is left exactly as it was |
| CardStore.NewCardLostAsWritten | classes/class-wc_stripe_gateway.php:51 | as written, the list under the configured location is unchanged by a new-card save, while the corrected save changes it |
| CardStore.NewCardLostExample | classes/class-wc_stripe_gateway.php:409 | a concrete user with one saved card under `_stripe_card` still has one entry after adding a second card |
| CardStore.ChosenCardId | classes/class-wc_stripe_gateway.php:420 | the posted choice yields a saved card's id exactly when it names an index of the list, and PHP's null otherwise, never an absent key |
| CardStore.ChosenCardRoundTrip | classes/class-wc_stripe_gateway.php:257 | the value rendered for saved card `i` selects card `i`, only that text selects it, and "new" selects no saved card |
| PaymentFields.CardLabelShowsCard | classes/class-wc_stripe_gateway.php:258 | a saved card's label (`CardLabel`) is "Card ending with ", then the card's last four digits, then its expiry month and year as " (month/year)" |
| PaymentFields.CardLabelIdentifiesCard | classes/class-wc_stripe_gateway.php:258 | two saved cards whose last-four fields have the same length get the same label only when their last four digits, expiry month and expiry year all agree |
| PaymentFields.ExpiryIdentifiesDate | classes/class-wc_stripe_gateway.php:258 | the printed " (month/year)" (`Expiry`) determines both the month and the year |
| PaymentFields.SavedCardOptions | classes/class-wc_stripe_gateway.php:251-263 | no options for a guest or a user without saved cards; otherwise one option per saved card, in order, then "Use a new credit card"; each option's posted value selects the card it shows and differs from "new" |
| PaymentFields.AttributeAt | classes/class-wc_stripe_gateway.php:314 | a match of `/name=".*?"/i` at the head of the text spans at least seven characters and stays inside the text |
| PaymentFields.ClosingQuote | classes/class-wc_stripe_gateway.php:314 | the lazy `.*?"` ends one past the first quote, and no quote or line feed comes before it |
| PaymentFields.StripNameAttributes | classes/class-wc_stripe_gateway.php:330 | stripping never makes the markup longer |
| PaymentFields.StripKeepsPlainMarkup | classes/class-wc_stripe_gateway.php:347 | markup in which no `name="..."` match starts passes through unchanged |
| PaymentFields.StripKeepsPrefix | classes/class-wc_stripe_gateway.php:314 | text before the first match is kept as it is |
| PaymentFields.StripRemovesAttribute | classes/class-wc_stripe_gateway.php:314 | a `name="value"` attribute, with "name" in any case and a value without quotes or line feeds, is removed with its value; the markup before it is kept and the markup after it is stripped in turn |
| Availability.IsAvailable | classes/class-wc_stripe_gateway.php:100-123 | the gateway is offered if and only if it is enabled, WooCommerce is recent enough, at least one key is set, and the request is over SSL or test mode is on |
| Availability.OneKeyIsEnough | classes/class-wc_stripe_gateway.php:113-115 | either key on its own makes the gateway available; a key of "0" counts as unset |
| Availability.SslNeededOutsideTestMode | classes/class-wc_stripe_gateway.php:118-120 | without SSL the gateway is available only in test mode |
| Availability.IsAvailableAsWritten | classes/class-wc_stripe_gateway.php:100-123 | the chain as written, with both keys read from the undefined `$wc_stripe`, offers the gateway only where the corrected chain does |
| Availability.NeverAvailableAsWritten | classes/class-wc_stripe_gateway.php:101 | as written, `$wc_stripe` is undefined in the method, so the gateway is never available, even for a fully configured shop over SSL |
| Validation.FieldLabel | classes/class-wc_stripe_gateway.php:635-645 | the label is non-empty exactly for the fields `number`, `expiration` and `cvc` |
| Validation.ErrorMessage | classes/class-wc_stripe_gateway.php:632-656 | every message is non-empty and ends with a full stop |
| Validation.ErrorMessageIdentifiesError | classes/class-wc_stripe_gateway.php:632-656 | two known errors with the same message are the same error |
| Validation.MessageShapes | classes/class-wc_stripe_gateway.php:648-656 | `undefined` gives "<strong>Label</strong> is a required field." and `invalid` gives "Please enter a valid <strong>Label</strong>." |
| Validation.CardNumberMessages | classes/class-wc_stripe_gateway.php:636-637 | the two card-number messages in full |
| Validation.UnknownFieldMessage | classes/class-wc_stripe_gateway.php:635-656 | any field outside the table leaves the bold label empty, for both kinds of error |
| Validation.ValidationErrors | classes/class-wc_stripe_gateway.php:631-659 | exactly one error notice per reported error, in input order, after the notices already queued |
| Gateway.PaidStatus | classes/class-wc_stripe_gateway.php:508 | an order that is pending, on hold or failed moves to processing when it needs processing and to completed otherwise; an order in any other status keeps it |
| Gateway.HolderNameShowsBilling | classes/class-wc_stripe_gateway.php:537 | the card holder's name (`HolderName`) is the billing first name, one space and the billing last name |
| Gateway.DescriptionShowsCustomer | classes/class-wc_stripe_gateway.php:374-378 | the charge description (`CustomerDescription`) of a guest is "Guest (", the billing e-mail, ") " and the holder's name; of a logged-in user it is the login, " (#", the user id in decimal, " - ", the user's e-mail, ") " and the holder's name |
| Gateway.ErrorNoticeText | classes/class-wc_stripe_gateway.php:446 | the notice for a thrown call (`ErrorNotice`) is an error reading "Error: " followed by the thrown message; the transaction error notice of line 475 is an error too |
| Gateway.SuccessNoteText | classes/class-wc_stripe_gateway.php:511-517 | the completion note (`SuccessNote`) starts with the gateway's name and quotes the transaction id at its end |
| Gateway.FailureNoteText | classes/class-wc_stripe_gateway.php:486-492 | the failure note (`FailureNote`) starts with the gateway's name and quotes the message at its end, and never equals a completion note |
| Gateway.Creations | classes/class-wc_stripe_gateway.php:390-405 | the count of creating calls is at most the number of calls, and zero exactly when no call creates anything |
| Gateway.ChargePlan | classes/class-wc_stripe_gateway.php:388-429 | the preparation makes at most three processor calls and never the charge itself |
| Gateway.ChargeSource | classes/class-wc_stripe_gateway.php:377-429 | a guest's charge carries the posted token, no customer, and no earlier call; a logged-in user's charge names the processor customer that is also recorded on the order; the amount, currency and description are the basics; a charge never names neither card nor customer; a stop happens only for a logged-in user, after a call, and saves no card |
| Gateway.NewCustomerPlan | classes/class-wc_stripe_gateway.php:390-425 | a logged-in user with no saved card: exactly one call, creating a customer from the posted token; nothing is saved; on success the charge names the created customer's id and sets no card, and that id is recorded on the order; on failure the preparation stops with the thrown message |
| Gateway.SavedCardPlan | classes/class-wc_stripe_gateway.php:395-421 | picking saved card `i` fetches the customer of the first saved card, creates and saves nothing, and charges card `i` of that customer; a choice naming no saved card sends the card as null |
| Gateway.NewCardPlan | classes/class-wc_stripe_gateway.php:398-418 | a new card is saved if and only if the fetch, the card addition and the default-card update all succeed; the saved reference is then built from the customer and card those replies return, the three calls are the fetch, the card addition with the posted token and the default-card update with the new card's id, and the charge is sent with that card and customer |
| Gateway.AtMostOneCreation | classes/class-wc_stripe_gateway.php:390-405 | at most one object is created on the processor's side, and a customer is created exactly for a logged-in user with no saved card |
| Gateway.PlanIgnoresCharge | classes/class-wc_stripe_gateway.php:409-432 | the calls before the charge and the card saved do not depend on the charge's reply, so a new card stays saved when the charge fails |
| Gateway.StripeGateway.constructor | classes/class-wc_stripe_gateway.php:28-51 | for a configured location PHP treats as true, the saved cards are those stored under it for a logged-in user, and none for a guest; no order, no transaction id, no notices or calls yet |
| Gateway.StripeGateway.Basics | classes/class-wc_stripe_gateway.php:373-384 | the charge basics carry the order's amount, the lower-cased currency and the customer description, and neither card nor customer |
| Gateway.StripeGateway.PaidMeta | classes/class-wc_stripe_gateway.php:434-441 | a successful charge adds `transaction_id` (the charge id), `auth_capture` (true exactly when capture is "yes") and `customer_id`, and keeps every other key |
| Gateway.StripeGateway.PrepareCharge | classes/class-wc_stripe_gateway.php:388-429 | the calls made, the card saved and where the preparation ends (a thrown call's message, or the charge request with the customer id to record) are those of the charge plan |
| Gateway.StripeGateway.SendToStripe | classes/class-wc_stripe_gateway.php:362-450 | (through the predicate `Sent`) with form errors it returns nothing and nothing is called, saved, written or noticed; otherwise the calls and the saved card are those of the charge plan, followed by the charge call when the plan reaches it; the result is true exactly when the charge is reached and goes through, and then the charge id and the paid metadata are recorded; otherwise the result is false, one error notice carries the thrown message and no metadata is written; the order's status, notes, cart and session flag are not touched |
| Gateway.StripeGateway.Conclude | classes/class-wc_stripe_gateway.php:463-476 | (through the predicate `Concluded`) a charge completes the order as `order_complete` does and yields the success result with the return URL; false or nothing adds one failure note and the transaction error notice and yields nothing; calls, metadata and transaction id are kept |
| Gateway.StripeGateway.PaymentFailed | classes/class-wc_stripe_gateway.php:485-493 | one failure note quoting `transactionErrorMessage` is appended |
| Gateway.StripeGateway.OrderComplete | classes/class-wc_stripe_gateway.php:501-520 | nothing changes once the order is completed; otherwise the order is paid, the cart emptied, one note carrying the transaction id appended, and the awaiting-payment flag cleared |
| Gateway.StripeGateway.ProcessPayment | classes/class-wc_stripe_gateway.php:459-477 | success with the return URL exactly when the charge call was made and went through; without form errors the calls made and the card saved are the charge plan's (plus the charge call when reached); on success the order's metadata is the paid metadata over the old one (`transaction_id`, `auth_capture`, the plan's `customer_id`, every other key kept), no notice is added, and a not-yet-completed order is paid once, with the cart emptied, one success note and the awaiting-payment flag cleared, while a completed one is left alone; otherwise status, metadata, cart, flag and transaction id are unchanged, one failure note quoting an empty message is added and the transaction error notice is the last notice; with form errors no processor call is made, no card is saved and only that notice is added |

## Left out

- The Stripe client calls are not part of this model. They are abstract replies, one per kind of call. The model assumes each kind of call is made at most once per checkout, which the code guarantees.
- `wc_stripe_order_status_completed` (the capture on completion) is left out. It is HTTP plumbing: a raw POST, basic authentication and JSON decoding.
- The amount conversion `(float) get_total() * 100` is left out because it is floating point. The order's amount is taken as an integer number of minor units.
- The WooCommerce version comparison is taken as a boolean, `wcTooOld`. `is_ssl()` is a boolean input.
- `form_errors` is taken as a boolean: whether the posted value loosely equals 1.
- `payment_complete` is modelled only as its status change, and only for the statuses the host moves on: a pending, on-hold or failed order becomes processing when it needs processing and completed otherwise, and any other status is kept. Its stock, download and hook effects belong to the host.
- Any change `create_customer` makes to the user's metadata happens inside the client, which is not part of this model.
- Gateway.StripeGateway.SendToStripe: the form holds only the posted token and card choice; the billing name and e-mail come from the order. The model's `CreateCustomer` call records only the user id, the token and the description, not the whole form array (address and card fields included) that `create_customer` receives at line 393.
- Gateway.StripeGateway.constructor: requires a stripe_db_location setting PHP treats as true. With `""` or `"0"`, `get_user_meta` at line 51 returns every metadata key of the user instead of one key's list, and the saved-card branches would then see that whole map; the model does not capture that case.
- Gateway.StripeGateway.ProcessPayment: takes the loaded order as a parameter instead of constructing `WC_Order` from an id.
- Gateway.StripeGateway.ProcessPayment: states the order's status, notes and metadata through the gateway's fields; the host's storage is not modelled.
- Admin settings and their HTML (`init_form_fields`, `admin_options`, `perform_checks`), script loading (`load_scripts`), hook registration, translation (`__()`), the AJAX envelope and output buffering of `validation_errors`, and the markup `woocommerce_form_field` produces are host glue.
- PaymentFields.SavedCardOptions: does not render the `checked` attribute or the surrounding HTML.

## Findings

| source | as written | input that shows it | evidently intended | confidence | as-written member | corrected member |
|---|---|---|---|---|---|---|
| classes/class-wc_stripe_gateway.php:113 | `is_available` reads the keys from `$wc_stripe`, which is not declared global in the method, so both read as null | an enabled gateway with both keys set, a recent WooCommerce and SSL on is reported unavailable | the keys are read from the plugin's settings, so one set key is enough | high (not executed) | Availability.NeverAvailableAsWritten | Availability.IsAvailable |
| classes/class-wc_stripe_gateway.php:409 | the new card is saved under `$this->stripe_db_location`, a property nothing assigns, so the key passed is empty and the host stores nothing | a user with one card saved under `_stripe_card` adds a second card; the list read back still has one entry | the card is saved under the configured location the saved cards are read from (line 51) | high (not executed) | CardStore.NewCardLostAsWritten | CardStore.SaveNewCard |
