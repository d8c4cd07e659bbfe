/**
 * The dashboard's filter record and the relation-card presets.
 */
module Filters {

  /** Which node kinds and relation categories the dashboard graph shows. */
  datatype FilterConfig = FilterConfig(
    users: bool, txs: bool, credit: bool, debit: bool,
    email: bool, phone: bool, address: bool, payment: bool,
    ip: bool, device: bool)

  /** Every category on: the dashboard's initial filter record. */
  const DefaultFilters := FilterConfig(true, true, true, true, true, true, true, true, true, true)

  /** Every key of the default record mapped to false. */
  const AllOff := FilterConfig(false, false, false, false, false, false, false, false, false, false)

  /** The number of categories switched on. */
  function OnCount(f: FilterConfig): nat
  {
    (if f.users then 1 else 0) + (if f.txs then 1 else 0) + (if f.credit then 1 else 0) +
    (if f.debit then 1 else 0) + (if f.email then 1 else 0) + (if f.phone then 1 else 0) +
    (if f.address then 1 else 0) + (if f.payment then 1 else 0) + (if f.ip then 1 else 0) +
    (if f.device then 1 else 0)
  }

  /** The card types the dashboard offers. */
  predicate IsCardType(t: string)
  {
    t in {"all", "sent", "email", "phone", "address", "payment", "ip", "device"}
  }

  /**
   * Clicking a relation card: "all" restores the default record; every other
   * known card starts from all-off and switches on the node kind(s) and the one
   * relation it names; an unknown card leaves the current record as it was.
   */
  function FilterByRelType(t: string, current: FilterConfig): (r: FilterConfig)
    ensures !IsCardType(t) ==> r == current
    ensures t == "all" ==> OnCount(r) == 10
    ensures t == "sent" ==> r.users && r.txs && r.credit && r.debit && OnCount(r) == 4
    ensures t == "email" ==> r.users && r.email && OnCount(r) == 2
    ensures t == "phone" ==> r.users && r.phone && OnCount(r) == 2
    ensures t == "address" ==> r.users && r.address && OnCount(r) == 2
    ensures t == "payment" ==> r.users && r.payment && OnCount(r) == 2
    ensures t == "ip" ==> r.txs && r.ip && OnCount(r) == 2
    ensures t == "device" ==> r.txs && r.device && OnCount(r) == 2
  {
    if t == "all" then DefaultFilters
    else if t == "sent" then AllOff.(users := true, txs := true, credit := true, debit := true)
    else if t == "email" then AllOff.(users := true, email := true)
    else if t == "phone" then AllOff.(users := true, phone := true)
    else if t == "address" then AllOff.(users := true, address := true)
    else if t == "payment" then AllOff.(users := true, payment := true)
    else if t == "ip" then AllOff.(txs := true, ip := true)
    else if t == "device" then AllOff.(txs := true, device := true)
    else current
  }
}
