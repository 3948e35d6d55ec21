/** The parts of an order that both the settlement and the earnings ledger read. */
module OrderTypes {
  import opened Prelude

  /** An order line. `appliedFabric` is the external fabric product sewn into it, if any. */
  datatype Item = Item(
    id: Id,
    vendor: Id,
    totalPrice: real,
    externalFabric: real,
    appliedFabric: Option<Id>,
    customized: bool,
    rejected: bool)

  predicate ValidItem(it: Item) {
    it.totalPrice >= 0.0 && it.externalFabric >= 0.0
  }

  ghost predicate ValidItems(items: seq<Item>) {
    && (forall i :: 0 <= i < |items| ==> ValidItem(items[i]))
    && (forall i, j :: 0 <= i < j < |items| ==> items[i].id != items[j].id)
  }
}
