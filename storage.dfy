/** The device's persistent store: the `invoices` and `fruitPresets` collections
    the screens read and rewrite through `invoiceStorage` and `fruitPresetStorage`.
    Their code is not part of this model; each operation has the contract
    assumed for it here: a read returns the stored list, a write replaces the
    whole list and either succeeds or changes nothing. The outcome of the device
    write is the parameter `io`. */
module Storage {
  import opened InvoiceTypes
  import opened Seqs

  /** The invoices without those carrying `id`, in order (`prev.filter(inv =>
      inv.id !== id)` on the history screen). */
  function WithoutInvoice(invoices: seq<Invoice>, id: string): (r: seq<Invoice>)
    ensures forall i :: 0 <= i < |r| ==> r[i].id != id && r[i] in invoices
    ensures forall i :: 0 <= i < |invoices| && invoices[i].id != id ==> invoices[i] in r
    ensures Subsequence(r, invoices)
    ensures (forall i :: 0 <= i < |invoices| ==> invoices[i].id != id) ==> r == invoices
    ensures forall x :: multiset(r)[x] == if x.id != id then multiset(invoices)[x] else 0
  {
    var keep := (inv: Invoice) => inv.id != id;
    FilterKeepsAll(invoices, keep);
    FilterMultiset(invoices, keep);
    Filter(invoices, keep)
  }

  /** The invoices whose day key is not `day`. */
  function WithoutDay(invoices: seq<Invoice>, day: string): (r: seq<Invoice>)
    ensures forall i :: 0 <= i < |r| ==> DayKey(r[i].createdAt) != day && r[i] in invoices
    ensures forall i :: 0 <= i < |invoices| && DayKey(invoices[i].createdAt) != day ==> invoices[i] in r
    ensures Subsequence(r, invoices)
    ensures forall x :: multiset(r)[x] == if DayKey(x.createdAt) != day then multiset(invoices)[x] else 0
  {
    var keep := (inv: Invoice) => DayKey(inv.createdAt) != day;
    FilterMultiset(invoices, keep);
    Filter(invoices, keep)
  }

  /** Deleting a day twice is deleting it once. */
  lemma WithoutDayIdempotent(invoices: seq<Invoice>, day: string)
    ensures WithoutDay(WithoutDay(invoices, day), day) == WithoutDay(invoices, day)
  {
    FilterIdempotent(invoices, (inv: Invoice) => DayKey(inv.createdAt) != day);
  }

  /** Deleting an id twice is deleting it once. */
  lemma WithoutInvoiceIdempotent(invoices: seq<Invoice>, id: string)
    ensures WithoutInvoice(WithoutInvoice(invoices, id), id) == WithoutInvoice(invoices, id)
  {
    FilterIdempotent(invoices, (inv: Invoice) => inv.id != id);
  }

  class Store {
    var invoices: seq<Invoice>
    var presets: seq<FruitPreset>

    constructor ()
      ensures invoices == [] && presets == []
    {
      invoices, presets := [], [];
    }

    /** `getInvoices()`. */
    method GetInvoices() returns (r: seq<Invoice>)
      ensures r == invoices
    {
      r := invoices;
    }

    /** `getFruitPresets()`: the stored catalog, empty when none was saved. */
    method GetFruitPresets() returns (r: seq<FruitPreset>)
      ensures r == presets
    {
      r := presets;
    }

    /** `saveFruitPresets(ps)`: replaces the whole catalog. */
    method SaveFruitPresets(ps: seq<FruitPreset>, io: bool) returns (ok: bool)
      modifies this`presets
      ensures ok == io
      ensures presets == if ok then ps else old(presets)
    {
      ok := io;
      if ok {
        presets := ps;
      }
    }

    /** The write `saveCurrentInvoice` makes: the new invoice is stored in
      front of the others, most recent first. */
    method AddInvoice(inv: Invoice, io: bool) returns (ok: bool)
      modifies this`invoices
      ensures ok == io
      ensures invoices == if ok then [inv] + old(invoices) else old(invoices)
    {
      ok := io;
      if ok {
        invoices := [inv] + invoices;
      }
    }

    /** `deleteInvoiceById(id)`. */
    method DeleteInvoiceById(id: string, io: bool) returns (ok: bool)
      modifies this`invoices
      ensures ok == io
      ensures invoices == if ok then WithoutInvoice(old(invoices), id) else old(invoices)
    {
      ok := io;
      if ok {
        invoices := WithoutInvoice(invoices, id);
      }
    }

    /** `deleteInvoicesByDate(day)`: removes every invoice of that day. */
    method DeleteInvoicesByDate(day: string, io: bool) returns (ok: bool)
      modifies this`invoices
      ensures ok == io
      ensures invoices == if ok then WithoutDay(old(invoices), day) else old(invoices)
    {
      ok := io;
      if ok {
        invoices := WithoutDay(invoices, day);
      }
    }

    /** `clearAllInvoices()`. */
    method ClearAllInvoices(io: bool) returns (ok: bool)
      modifies this`invoices
      ensures ok == io
      ensures invoices == if ok then [] else old(invoices)
    {
      ok := io;
      if ok {
        invoices := [];
      }
    }
  }
}
