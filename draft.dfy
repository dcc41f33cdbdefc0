/** The invoice being composed (the `useInvoice` hook). Its code is not part of
    this model. Each operation carries the contract assumed for the hook: line
    ids stay unique, a preset goes onto a line only when no other line carries
    it (so no preset is ever on two lines), and a save stores
    only a non-empty draft of complete lines. Each body is the simplest one
    meeting that contract. The note is state of the home screen, not of the
    draft, so `ResetInvoice` leaves it alone, as the screen's reset does. */
module InvoiceDraft {
  import opened InvoiceTypes
  import opened Seqs
  import opened Storage

  /** A line that may be saved: a name, a positive price and a positive
      weight. The name is tested as given, without trimming. */
  predicate ItemComplete(item: InvoiceItem) {
    item.name != "" && item.pricePerKg > 0 && item.weightKg > 0
  }

  /** The index of the first line that may not be saved, or -1. */
  function FirstIncompleteItem(items: seq<InvoiceItem>): (r: int)
    ensures -1 <= r < |items|
    ensures r == -1 <==> forall i :: 0 <= i < |items| ==> ItemComplete(items[i])
    ensures 0 <= r ==> !ItemComplete(items[r]) && forall i :: 0 <= i < r ==> ItemComplete(items[i])
  {
    FindIndex(items, (item: InvoiceItem) => !ItemComplete(item))
  }

  function BlankItem(id: string): InvoiceItem {
    InvoiceItem(id, None, "", 0, 0)
  }

  function ItemId(item: InvoiceItem): string { item.id }

  /** Line total, price per kg times weight; a line that may be saved has a
      positive total. */
  function LineTotal(item: InvoiceItem): (r: int)
    ensures ItemComplete(item) ==> r > 0
    ensures item.pricePerKg == 0 || item.weightKg == 0 ==> r == 0
  {
    item.pricePerKg * item.weightKg
  }

  /** The sum of the line totals: 0 for no lines, positive for a non-empty
      list of lines that may all be saved. */
  function ItemsTotal(items: seq<InvoiceItem>): (r: int)
    ensures items == [] ==> r == 0
    ensures items != [] && (forall i :: 0 <= i < |items| ==> ItemComplete(items[i])) ==> r > 0
  {
    if items == [] then 0 else LineTotal(items[0]) + ItemsTotal(items[1..])
  }

  /** The total of two lists of lines one after the other is the sum of
      their totals, so the total does not depend on how the lines are split. */
  lemma {:induction false} ItemsTotalAppend(a: seq<InvoiceItem>, b: seq<InvoiceItem>)
    ensures ItemsTotal(a + b) == ItemsTotal(a) + ItemsTotal(b)
    decreases |a|
  {
    if a == [] {
      assert a + b == b;
    } else {
      assert (a + b)[1..] == a[1..] + b;
      ItemsTotalAppend(a[1..], b);
    }
  }

  /** Of two lines, the earlier carries no preset or one the later does not. */
  predicate DistinctPresets(a: InvoiceItem, b: InvoiceItem) {
    a.presetId.Some? ==> a.presetId != b.presetId
  }

  /** One line per preset: no preset is carried by two lines. */
  ghost predicate OneLinePerPreset(items: seq<InvoiceItem>) {
    forall i, j :: 0 <= i < j < |items| && items[i].presetId.Some? ==> items[i].presetId != items[j].presetId
  }

  /** Some line other than `itemId` already carries the preset `presetId`. */
  predicate PresetTaken(items: seq<InvoiceItem>, itemId: string, presetId: string) {
    exists i :: 0 <= i < |items| && items[i].id != itemId && items[i].presetId == Some(presetId)
  }

  /** The line(s) with id `itemId` take the preset's id, name and price. */
  function ApplyPreset(items: seq<InvoiceItem>, itemId: string, preset: FruitPreset): (r: seq<InvoiceItem>)
    ensures |r| == |items|
    ensures forall i :: 0 <= i < |items| && items[i].id == itemId ==>
      r[i] == items[i].(presetId := Some(preset.id), name := preset.name, pricePerKg := preset.pricePerKg)
    ensures forall i :: 0 <= i < |items| && items[i].id != itemId ==> r[i] == items[i]
    ensures forall i :: 0 <= i < |items| ==> r[i].id == items[i].id && r[i].weightKg == items[i].weightKg
  {
    MapWhere(items, (item: InvoiceItem) => item.id == itemId,
             (item: InvoiceItem) => item.(presetId := Some(preset.id), name := preset.name, pricePerKg := preset.pricePerKg))
  }

  /** After one line took a preset, applying the same preset to any other
      line is rejected. */
  lemma SecondApplicationRejected(items: seq<InvoiceItem>, k: nat, other: string, preset: FruitPreset)
    requires k < |items| && items[k].id != other
    ensures PresetTaken(ApplyPreset(items, items[k].id, preset), other, preset.id)
  {
    assert ApplyPreset(items, items[k].id, preset)[k].presetId == Some(preset.id);
  }

  /** Applying a preset that no other line carries keeps one line per
      preset, given unique line ids. */
  lemma ApplyKeepsOneLinePerPreset(items: seq<InvoiceItem>, itemId: string, preset: FruitPreset)
    requires UniqueBy(items, ItemId) && OneLinePerPreset(items)
    requires !PresetTaken(items, itemId, preset.id)
    ensures OneLinePerPreset(ApplyPreset(items, itemId, preset))
  {
    var r := ApplyPreset(items, itemId, preset);
    forall i, j | 0 <= i < j < |r| && r[i].presetId.Some? ensures r[i].presetId != r[j].presetId {
      assert ItemId(items[i]) != ItemId(items[j]);
    }
  }

  /** Removing a line: the lines other than `itemId`, in order. */
  function WithoutItem(items: seq<InvoiceItem>, itemId: string): (r: seq<InvoiceItem>)
    ensures forall i :: 0 <= i < |r| ==> r[i].id != itemId && r[i] in items
    ensures forall i :: 0 <= i < |items| && items[i].id != itemId ==> items[i] in r
    ensures Subsequence(r, items)
    ensures UniqueBy(items, ItemId) ==> UniqueBy(r, ItemId)
    ensures forall x :: multiset(r)[x] == if x.id != itemId then multiset(items)[x] else 0
  {
    var keep := (item: InvoiceItem) => item.id != itemId;
    var r := Filter(items, keep);
    SubsequenceUniqueBy(r, items, ItemId);
    FilterMultiset(items, keep);
    r
  }

  /** Removing a line that is there shortens the draft by exactly one. */
  lemma RemoveExistingShortens(items: seq<InvoiceItem>, k: nat)
    requires UniqueBy(items, ItemId) && k < |items|
    ensures |WithoutItem(items, items[k].id)| == |items| - 1
  {
    forall i | 0 <= i < |items| && i != k ensures items[i].id != items[k].id {
      assert ItemId(items[i]) != ItemId(items[k]);
    }
    FilterDropsOne(items, (item: InvoiceItem) => item.id != items[k].id, k);
  }

  /** A free-text numeric field: None when it does not parse. */
  datatype ItemEdit = EditName(name: string) | EditPrice(price: Option<int>) | EditWeight(weight: Option<int>)

  /** Input that does not parse or is negative becomes 0. */
  function Coerce(v: Option<int>): (n: int)
    ensures n >= 0
    ensures v.Some? && v.value >= 0 ==> n == v.value
    ensures v.None? || v.value <= 0 ==> n == 0
  {
    if v.Some? && v.value > 0 then v.value else 0
  }

  function EditItem(item: InvoiceItem, edit: ItemEdit): (r: InvoiceItem)
    ensures r.id == item.id && r.presetId == item.presetId
    ensures r.pricePerKg >= 0 || r.pricePerKg == item.pricePerKg
    ensures r.weightKg >= 0 || r.weightKg == item.weightKg
    ensures edit.EditName? ==> r == item.(name := edit.name)
    ensures edit.EditPrice? ==> r == item.(pricePerKg := Coerce(edit.price))
    ensures edit.EditWeight? ==> r == item.(weightKg := Coerce(edit.weight))
  {
    match edit
    case EditName(name) => item.(name := name)
    case EditPrice(price) => item.(pricePerKg := Coerce(price))
    case EditWeight(weight) => item.(weightKg := Coerce(weight))
  }

  /** The outcome of `saveCurrentInvoice`. */
  datatype SaveOutcome = Incomplete(index: nat) | EmptyDraft | Saved(invoice: Invoice) | StorageFailed

  /** The invoice a save builds: the lines as they are and their total, which
      is positive when the lines are complete and there is at least one. */
  function NewInvoice(id: string, createdAt: string, items: seq<InvoiceItem>, note: string): (r: Invoice)
    ensures r.id == id && r.createdAt == createdAt && r.items == items && r.note == note
    ensures r.totalAmount == ItemsTotal(items)
    ensures items != [] && (forall i :: 0 <= i < |items| ==> ItemComplete(items[i])) ==> r.totalAmount > 0
  {
    Invoice(id, createdAt, items, ItemsTotal(items), note)
  }

  class Draft {
    const store: Store
    var items: seq<InvoiceItem>
    var isSaving: bool

    /** Line ids are unique, no preset is on two lines, and no save is in
        progress between events. */
    ghost predicate Valid()
      reads this
    {
      UniqueBy(items, ItemId) && OneLinePerPreset(items) && !isSaving
    }

    /** The running total shown under the lines: 0 for an empty draft,
        positive once every line is complete. */
    function TotalAmount(): (r: int)
      reads this
      ensures items == [] ==> r == 0
      ensures items != [] && (forall i :: 0 <= i < |items| ==> ItemComplete(items[i])) ==> r > 0
    {
      ItemsTotal(items)
    }

    constructor (store: Store)
      ensures Valid() && this.store == store && items == []
    {
      this.store := store;
      items, isSaving := [], false;
    }

    /** `addItem()`: append a blank line under an id no line has. */
    method AddItem(freshId: string)
      requires Valid()
      requires forall i :: 0 <= i < |items| ==> items[i].id != freshId
      modifies this`items
      ensures Valid()
      ensures items == old(items) + [BlankItem(freshId)]
    {
      items := items + [BlankItem(freshId)];
    }

    /** `applyPresetToItem(itemId, preset)`: rejected, changing nothing, when
        another line already carries the preset. */
    method ApplyPresetToItem(itemId: string, preset: FruitPreset) returns (applied: bool)
      requires Valid()
      modifies this`items
      ensures Valid()
      ensures applied == !PresetTaken(old(items), itemId, preset.id)
      ensures items == if applied then ApplyPreset(old(items), itemId, preset) else old(items)
    {
      applied := !PresetTaken(items, itemId, preset.id);
      if applied {
        var r := ApplyPreset(items, itemId, preset);
        assert forall i :: 0 <= i < |r| ==> ItemId(r[i]) == ItemId(items[i]);
        ApplyKeepsOneLinePerPreset(items, itemId, preset);
        items := r;
      }
    }

    /** `removeItem(itemId)`. */
    method RemoveItem(itemId: string)
      requires Valid()
      modifies this`items
      ensures Valid()
      ensures items == WithoutItem(old(items), itemId)
    {
      var r := WithoutItem(items, itemId);
      SubsequencePairwise(r, items, DistinctPresets);
      items := r;
    }

    /** `updateItemField(itemId, field, value)`; the preset link is kept. */
    method UpdateItemField(itemId: string, edit: ItemEdit)
      requires Valid()
      modifies this`items
      ensures Valid()
      ensures items == MapWhere(old(items), (item: InvoiceItem) => item.id == itemId,
                                (item: InvoiceItem) => EditItem(item, edit))
    {
      var r := MapWhere(items, (item: InvoiceItem) => item.id == itemId,
                        (item: InvoiceItem) => EditItem(item, edit));
      assert forall i :: 0 <= i < |r| ==> ItemId(r[i]) == ItemId(items[i]);
      assert forall i :: 0 <= i < |r| ==> r[i].presetId == items[i].presetId;
      items := r;
    }

    /** `resetInvoice()`. */
    method ResetInvoice()
      requires Valid()
      modifies this`items
      ensures Valid() && items == []
    {
      items := [];
    }

    /** `saveCurrentInvoice(note, onSuccess)`: refuses a draft with an
        incomplete line, reporting the first, and refuses a draft with no
        lines, since a saved invoice always has at least one; otherwise stores
        the invoice and, once stored, empties the draft. A failed write leaves
        the draft as it was. */
    method SaveCurrentInvoice(note: string, invoiceId: string, createdAt: string, io: bool)
      returns (outcome: SaveOutcome)
      requires Valid()
      modifies this`items, this`isSaving, store`invoices
      ensures Valid()
      ensures FirstIncompleteItem(old(items)) != -1 ==>
        && outcome == Incomplete(FirstIncompleteItem(old(items)))
        && items == old(items) && store.invoices == old(store.invoices)
      ensures old(items) == [] ==>
        && outcome == EmptyDraft
        && items == old(items) && store.invoices == old(store.invoices)
      ensures FirstIncompleteItem(old(items)) == -1 && old(items) != [] && io ==>
        && outcome == Saved(NewInvoice(invoiceId, createdAt, old(items), note))
        && store.invoices == [outcome.invoice] + old(store.invoices)
        && items == []
      ensures FirstIncompleteItem(old(items)) == -1 && old(items) != [] && !io ==>
        && outcome == StorageFailed
        && items == old(items) && store.invoices == old(store.invoices)
      ensures outcome.Saved? ==>
        && outcome.invoice.items != []
        && (forall i :: 0 <= i < |outcome.invoice.items| ==> ItemComplete(outcome.invoice.items[i]))
        && outcome.invoice.totalAmount == old(TotalAmount()) > 0
    {
      var bad := FirstIncompleteItem(items);
      if bad != -1 {
        return Incomplete(bad);
      }
      if |items| == 0 {
        return EmptyDraft;
      }
      isSaving := true;
      var invoice := NewInvoice(invoiceId, createdAt, items, note);
      var ok := store.AddInvoice(invoice, io);
      isSaving := false;
      if ok {
        items := [];
        outcome := Saved(invoice);
      } else {
        outcome := StorageFailed;
      }
    }
  }
}
