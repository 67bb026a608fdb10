/** The exceptions the services throw on the paths the model covers, with the
    message the code gives each. */
module Errors {
  import opened Php

  datatype ServiceError =
    // thrown as ModelNotFoundException
    | ProductNotFound(productId: int)
    | OrderNotFound(id: int)
    | OrderIdNotFound(orderId: string)
    | OrderNotFoundForUser(orderId: string)
    // thrown as plain exceptions by order creation
    | ProductUnavailable(productName: string)
    | InsufficientStock(productName: string)
    // payment initiation
    | EncryptionTokenFailed
    | EncryptionFailed
    | PaymentTokenFailed
    | PayCallFailed(httpStatus: int)
    | PaymentRejected(providerMessage: string)
    // a pay reply without a `code` key: PHP's warning, raised as an ErrorException
    | PayCodeMissing
    // a payload line whose product row is gone: reading its name raises an ErrorException
    | ProductNameOnNull
    // callback reconciliation
    | MissingResultOrChecksum
    | DecryptionFailed
    | ChecksumMismatch
    | DecodeFailed
    | MissingCallbackFields
  {
    /** Whether the code throws a ModelNotFoundException (a not-found answer). */
    predicate IsNotFound() {
      ProductNotFound? || OrderNotFound? || OrderIdNotFound? || OrderNotFoundForUser?
    }

    /** The exception's message. */
    function Message(): string {
      match this
      case ProductNotFound(id) => "Product with ID " + IntToString(id) + " not found."
      case OrderNotFound(id) => "Order with ID " + IntToString(id) + " not found."
      case OrderIdNotFound(oid) => "Order with order_id " + oid + " not found."
      case OrderNotFoundForUser(oid) => "Order with order_id " + oid + " not found for this user."
      case ProductUnavailable(name) => "Product " + name + " is not available."
      case InsufficientStock(name) => "Insufficient stock for product " + name + "."
      case EncryptionTokenFailed => "Failed to fetch encryption token from Dinger auth service."
      case EncryptionFailed => "Payload encryption failed via Dinger service."
      case PaymentTokenFailed => "Failed to fetch payment token from Dinger API."
      case PayCallFailed(status) => "Dinger Pay API failed with status: " + IntToString(status)
      case PaymentRejected(message) => "Payment failed: " + message
      case PayCodeMissing => "Undefined array key \"code\""
      case ProductNameOnNull => "Attempt to read property \"name\" on null"
      case MissingResultOrChecksum => "Missing paymentResult or checksum in callback data."
      case DecryptionFailed => "Failed to decrypt payment result."
      case ChecksumMismatch => "Checksum verification failed."
      case DecodeFailed => "Failed to decode decrypted data."
      case MissingCallbackFields => "Missing required fields in callback data."
    }
  }
  /** A rejected payment's message gives back the provider's own text after
      its fixed prefix. */
  lemma RejectionMessageCarriesProviderText(text: string)
    ensures var m := PaymentRejected(text).Message();
      |m| >= 16 && m[..16] == "Payment failed: " && m[16..] == text
  {}
}
