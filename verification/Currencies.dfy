/** The currencies of the ledger: two of money, and loyalty points. */
module Currencies {

  datatype Currency = USD | KHR | PTS

  /** The currencies a payment can have. */
  type PaymentCurrency = c: Currency | c != PTS witness USD
}
