/**
  Whether the gateway is offered at checkout (`is_available`): a chain of
  guard returns over the gateway's settings, the plugin's API keys, the
  WooCommerce version and whether the request came over SSL.
 */
module Availability {
  import opened Php

  /** The inputs `is_available` reads. `wcTooOld` is the outcome of the
      `$woocommerce->version < '2.1.0'` comparison; `ssl` is `is_ssl()`. */
  datatype Environment = Environment(
    enabled: string,
    testmode: string,
    wcTooOld: bool,
    publishableKey: string,
    secretKey: string,
    ssl: bool)

  /** The guard chain, with the keys read from the plugin's settings. */
  function IsAvailable(env: Environment): (available: bool)
    ensures available <==>
              && env.enabled != "no"
              && !env.wcTooOld
              && (!Falsy(env.publishableKey) || !Falsy(env.secretKey))
              && (env.ssl || env.testmode != "no")
  {
    if env.enabled == "no" then false
    else if env.wcTooOld then false
    else if Falsy(env.publishableKey) && Falsy(env.secretKey) then false
    else if !env.ssl && env.testmode == "no" then false
    else true
  }

  /** Either key on its own is enough: with the other guards passed, the
      gateway is available when only the publishable key or only the secret
      key is set, and not when neither is. */
  lemma OneKeyIsEnough(env: Environment, key: string)
    requires env.enabled != "no" && !env.wcTooOld && (env.ssl || env.testmode != "no")
    requires !Falsy(key)
    ensures IsAvailable(env.(publishableKey := key, secretKey := ""))
    ensures IsAvailable(env.(publishableKey := "", secretKey := key))
    ensures !IsAvailable(env.(publishableKey := "0", secretKey := ""))
  {
  }

  /** Test mode lifts the SSL requirement, and only test mode does. */
  lemma SslNeededOutsideTestMode(env: Environment)
    requires !env.ssl
    ensures IsAvailable(env) ==> env.testmode != "no"
    ensures env.testmode == "no" ==> !IsAvailable(env)
  {
  }

  /** The chain as written: the method reads `$wc_stripe` without declaring
      it global, so the variable is undefined inside it and both keys read
      as PHP's null, whatever the plugin's settings hold. */
  function IsAvailableAsWritten(env: Environment): (available: bool)
    ensures available ==> IsAvailable(env)
  {
    var undefinedKey := "";
    if env.enabled == "no" then false
    else if env.wcTooOld then false
    else if Falsy(undefinedKey) && Falsy(undefinedKey) then false
    else if !env.ssl && env.testmode == "no" then false
    else true
  }

  /** As written the gateway is never available, even with both keys set,
      the gateway enabled, a recent WooCommerce and SSL on. */
  lemma NeverAvailableAsWritten(env: Environment)
    ensures !IsAvailableAsWritten(env)
    ensures IsAvailable(Environment("yes", "no", false, "pk_live_1", "sk_live_1", true))
  {
  }
}
