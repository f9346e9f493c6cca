/** What an onboarding screen does at the end of its submit handler. */
module ScreenGate {

  /** The outcome of a submit: nothing, the missing-information alert, the save-failed alert, or a push. */
  datatype Nav = Stay | MissingInfo | RetryOrSkip(skipRoute: string) | Push(route: string)

  /**
   * The save gate of the critical screens: on a critical step whose save answered false there is
   * no navigation, only the alert whose Skip button pushes the route; otherwise the route is pushed.
   */
  function AfterSave(critical: bool, saveOk: bool, route: string): (n: Nav)
    ensures n.RetryOrSkip? <==> critical && !saveOk
    ensures n.RetryOrSkip? ==> n.skipRoute == route
    ensures !n.RetryOrSkip? ==> n == Push(route)
  {
    if critical && !saveOk then RetryOrSkip(route) else Push(route)
  }
}
