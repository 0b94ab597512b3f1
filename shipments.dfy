/**
 * The shipment-delay event that work items carry, the request constraints the
 * work-item route enforces on it, and the two decision words every decision
 * rule produces.
 */
module Shipments {

  const ESCALATE: string := "ESCALATE"
  const AUTO_RESOLVE: string := "AUTO_RESOLVE"

  /** `ShipmentDelayEvent`: every field is required by the request schema, so
      a stored payload always holds all of them. */
  datatype ShipmentDelayEvent = ShipmentDelayEvent(
    shipmentId: string,
    supplierId: string,
    originalEta: string,
    updatedEta: string,
    delayDays: int,
    inventoryDaysOfSupply: int,
    orderValue: real,
    region: string,
    priorityFlag: bool)

  /** The field constraints of the request schema: day counts in [0, 365], a
      non-negative order value and identifiers of at most 50 characters. */
  predicate ValidEvent(e: ShipmentDelayEvent)
    ensures ValidEvent(e) ==> e.delayDays >= 0 && e.inventoryDaysOfSupply >= 0 && e.orderValue >= 0.0
  {
    && |e.shipmentId| <= 50
    && |e.supplierId| <= 50
    && 0 <= e.delayDays <= 365
    && 0 <= e.inventoryDaysOfSupply <= 365
    && e.orderValue >= 0.0
    && |e.region| <= 50
  }

  /** `e2` is at least as bad as `e`: later, larger, shorter on stock, and
      still a priority shipment if `e` was one. */
  predicate NoMilderThan(e: ShipmentDelayEvent, e2: ShipmentDelayEvent) {
    && e2.delayDays >= e.delayDays
    && e2.orderValue >= e.orderValue
    && e2.inventoryDaysOfSupply <= e.inventoryDaysOfSupply
    && (e.priorityFlag ==> e2.priorityFlag)
  }
}
