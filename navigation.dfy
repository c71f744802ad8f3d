/** The pages the storefront navigates between, and what a page does when
    it is entered or an action finishes. */
module Navigation {

  datatype Route =
    | OrderRoute                     // "/order"
    | AddressRoute                   // "/checkout/address"
    | PaymentRoute                   // "/checkout/payment"
    | GatewayRoute(codQuery: bool)   // "/checkout/gateway", with "?method=cod" when codQuery
    | SuccessRoute                   // "/checkout/success"
    | MenuRoute                      // "/menu"
    | HomeRoute                      // "/"

  /** The result of an action: stay on the page, `router.push`, or
      `router.replace`. */
  datatype Nav = Stay | Push(to: Route) | Replace(to: Route)

  /** What a checkout stage does when it is rendered: show itself, or
      redirect (and render nothing). */
  datatype Entry = Show | Redirect(to: Route)
}
