/** The history screen: the list of saved invoices, with delete and clear-all. */
module History {
  import opened InvoiceTypes
  import opened Storage

  class HistoryScreen {
    const store: Store
    var invoices: seq<Invoice>

    constructor (store: Store)
      ensures this.store == store && invoices == []
    {
      this.store := store;
      invoices := [];
    }

    /** `loadInvoices()`, run on focus. */
    method LoadInvoices()
      modifies this`invoices
      ensures invoices == store.invoices
    {
      invoices := store.GetInvoices();
    }

    /** `handleDeleteInvoice(id)`, confirmed: delete in the store, then drop
        the invoice from the list on screen. */
    method DeleteInvoice(id: string, io: bool) returns (ok: bool)
      modifies this`invoices, store`invoices
      ensures ok == io
      ensures store.invoices == if ok then WithoutInvoice(old(store.invoices), id) else old(store.invoices)
      ensures invoices == if ok then WithoutInvoice(old(invoices), id) else old(invoices)
    {
      ok := store.DeleteInvoiceById(id, io);
      if ok {
        invoices := WithoutInvoice(invoices, id);
      }
    }

    /** `handleClearAll()`: an empty list returns at once without calling the
        store; otherwise, once confirmed, everything is deleted and the list
        emptied. `asked` tells whether the store was called. */
    method ClearAll(io: bool) returns (asked: bool)
      modifies this`invoices, store`invoices
      ensures asked <==> old(invoices) != []
      ensures !asked ==> invoices == old(invoices) && store.invoices == old(store.invoices)
      ensures asked ==> store.invoices == (if io then [] else old(store.invoices))
      ensures asked ==> invoices == (if io then [] else old(invoices))
    {
      if |invoices| == 0 {
        return false;
      }
      asked := true;
      var ok := store.ClearAllInvoices(io);
      if ok {
        invoices := [];
      }
    }
  }
}
