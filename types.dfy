/** The records the app edits and persists: fruit presets, invoice line items and
    saved invoices. Money is an integer number of đồng; weights are whole units. */
module InvoiceTypes {

  datatype Option<T> = None | Some(value: T)

  /** A named price template from the settings catalog. */
  datatype FruitPreset = FruitPreset(id: string, name: string, pricePerKg: int)

  /** One line of an invoice; `presetId` is set when the line was filled from a preset. */
  datatype InvoiceItem = InvoiceItem(
    id: string,
    presetId: Option<string>,
    name: string,
    pricePerKg: int,
    weightKg: int)

  /** A saved invoice; `totalAmount` is the snapshot taken when it was saved. */
  datatype Invoice = Invoice(
    id: string,
    createdAt: string,
    items: seq<InvoiceItem>,
    totalAmount: int,
    note: string)

  /** The day key of a timestamp, `createdAt.slice(0, 10)`: its first ten
      characters, or all of it when it is shorter. */
  function DayKey(createdAt: string): (key: string)
    ensures key <= createdAt
    ensures |key| == if |createdAt| < 10 then |createdAt| else 10
  {
    if |createdAt| <= 10 then createdAt else createdAt[..10]
  }
}
