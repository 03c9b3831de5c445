/** The single mutable status of the checkout component. */
module CheckoutStatus {
  datatype Status = Pending | Success | Error
}
