/** The customer record shared by the backend and the employee dashboard, and the "High Usage" rule
    that every backend write applies to it. */
module Customers {
  import opened Wrappers

  /** Monthly usage (kWh) above which a record carries the alert. */
  const HIGH_USAGE_THRESHOLD: int := 800
  const HIGH_USAGE_ALERT: string := "High Usage"

  /** `alert` is `None` where the record has no alert key, or holds `null` or `undefined`;
      `createdAt` is `None` on the seed records, which have no timestamp. */
  datatype Customer = Customer(
    id: int,
    name: string,
    address: string,
    monthlyUsage: int,
    alert: Option<string>,
    createdAt: Option<string>)

  /** The alert the backend stores for a given usage: `usage > 800 ? 'High Usage' : null`. */
  function AlertFor(usage: int): Option<string> {
    if usage > HIGH_USAGE_THRESHOLD then Some(HIGH_USAGE_ALERT) else None
  }

  /** The record's alert is the one its current usage calls for. */
  predicate Consistent(c: Customer) {
    c.alert == AlertFor(c.monthlyUsage)
  }

  predicate AllConsistent(cs: seq<Customer>) {
    forall i :: 0 <= i < |cs| ==> Consistent(cs[i])
  }

  /** JavaScript truthiness of `c.alert`: present and not the empty string. */
  predicate HasAlert(c: Customer) {
    c.alert.Some? && c.alert.value != ""
  }

  /** For a consistent record the dashboard shows an alert exactly when usage is over the threshold. */
  lemma ConsistentAlertIffHighUsage(c: Customer)
    requires Consistent(c)
    ensures HasAlert(c) <==> c.monthlyUsage > HIGH_USAGE_THRESHOLD
  {
  }
}
