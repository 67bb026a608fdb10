/** Vocabulary of the Dinger payment gateway that both the payment service and
    the payment-token request validator use. */
module Dinger {

  /** The thirteen providers a payment-token request may name. */
  const Providers: seq<string> := [
    "AYA Pay", "OK$", "Sai Sai Pay", "Onepay", "MPitesan", "MPT Pay", "CB Pay",
    "UAB Pay", "KBZ Pay", "Wave Pay", "Visa", "Master", "JCB"]

  /** The card providers, which need email and billing address. */
  const CardProviders: seq<string> := ["Visa", "Master", "JCB"]

  predicate IsCardProvider(provider: string) {
    provider in CardProviders
  }

  /** Gateway transaction statuses that settle a payment as failed. */
  const FailureStatuses: set<string> := {"ERROR", "CANCELLED", "TIMEOUT", "DECLINED", "SYSTEM_ERROR"}

  /** The only transaction status that settles a payment as successful. */
  const SuccessStatus: string := "SUCCESS"

  /** The response code of a successful pay call. */
  const PayOkCode: string := "000"
}
