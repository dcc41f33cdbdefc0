/** The invoice screen: the fruit picker and the save button's validation,
    over the draft of `InvoiceDraft`. */
module Home {
  import opened InvoiceTypes
  import opened Seqs
  import opened Storage
  import opened InvoiceDraft

  /** `items.findIndex(item => item.presetId === presetId)`: the line to reveal
      when a preset is refused, or -1. */
  function PresetLineIndex(items: seq<InvoiceItem>, presetId: string): (r: int)
    ensures -1 <= r < |items|
    ensures r == -1 <==> forall i :: 0 <= i < |items| ==> items[i].presetId != Some(presetId)
    ensures 0 <= r ==> items[r].presetId == Some(presetId) &&
                       forall i :: 0 <= i < r ==> items[i].presetId != Some(presetId)
  {
    FindIndex(items, (item: InvoiceItem) => item.presetId == Some(presetId))
  }

  /** A refused preset always has a line to reveal, at or before the line
      that caused the refusal; with one line per preset it is exactly that
      line, and never the target line. */
  lemma RefusalHasLine(items: seq<InvoiceItem>, itemId: string, presetId: string)
    requires PresetTaken(items, itemId, presetId)
    ensures 0 <= PresetLineIndex(items, presetId)
    ensures forall i :: 0 <= i < |items| && items[i].id != itemId && items[i].presetId == Some(presetId) ==>
      PresetLineIndex(items, presetId) <= i
    ensures OneLinePerPreset(items) ==>
      && items[PresetLineIndex(items, presetId)].id != itemId
      && forall i :: 0 <= i < |items| && items[i].id != itemId && items[i].presetId == Some(presetId) ==>
           PresetLineIndex(items, presetId) == i
  {
    var k := PresetLineIndex(items, presetId);
    if OneLinePerPreset(items) {
      var c :| 0 <= c < |items| && items[c].id != itemId && items[c].presetId == Some(presetId);
      assert k <= c && items[k].presetId == items[c].presetId;
    }
  }

  /** After one line took a preset, picking it for another line reveals the first. */
  lemma RepeatedPickRevealsFirst(items: seq<InvoiceItem>, k: nat, other: string, preset: FruitPreset)
    requires UniqueBy(items, ItemId)
    requires k < |items| && items[k].id != other
    requires !PresetTaken(items, items[k].id, preset.id)
    ensures PresetTaken(ApplyPreset(items, items[k].id, preset), other, preset.id)
    ensures PresetLineIndex(ApplyPreset(items, items[k].id, preset), preset.id) == k
  {
    SecondApplicationRejected(items, k, other, preset);
    var r := ApplyPreset(items, items[k].id, preset);
    forall i | 0 <= i < k ensures r[i].presetId != Some(preset.id) {
      assert ItemId(items[i]) != ItemId(items[k]);
    }
  }

  /** `!pickerTargetId`: no target, or the empty id. */
  predicate NoTarget(target: Option<string>) {
    target == None || target == Some("")
  }

  class HomeScreen {
    const draft: Draft
    var presets: seq<FruitPreset>
    var pickerVisible: bool
    var pickerTargetId: Option<string>
    var note: string

    constructor (draft: Draft)
      ensures this.draft == draft
      ensures presets == [] && !pickerVisible && pickerTargetId == None && note == ""
    {
      this.draft := draft;
      presets, pickerVisible, pickerTargetId, note := [], false, None, "";
    }

    /** The focus effect: reload the catalog. */
    method LoadPresets()
      modifies this`presets
      ensures presets == draft.store.presets
    {
      presets := draft.store.GetFruitPresets();
    }

    method SetNote(text: string)
      modifies this`note
      ensures note == text
    {
      note := text;
    }

    /** `openFruitPicker(id)`: with an empty catalog, report it and change
        nothing; otherwise show the picker for line `id`. */
    method OpenFruitPicker(id: string) returns (emptyCatalog: bool)
      modifies this`pickerVisible, this`pickerTargetId
      ensures emptyCatalog <==> presets == []
      ensures emptyCatalog ==> pickerVisible == old(pickerVisible) && pickerTargetId == old(pickerTargetId)
      ensures !emptyCatalog ==> pickerVisible && pickerTargetId == Some(id)
    {
      if |presets| == 0 {
        return true;
      }
      emptyCatalog := false;
      pickerTargetId := Some(id);
      pickerVisible := true;
    }

    /** `closePicker()`. */
    method ClosePicker()
      modifies this`pickerVisible, this`pickerTargetId
      ensures !pickerVisible && pickerTargetId == None
    {
      pickerVisible := false;
      pickerTargetId := None;
    }

    /** `handleSelectPresetForItem(preset)`: without a target nothing happens;
        otherwise the preset is applied to the target line, a refusal reveals
        the first line carrying the preset, and the picker closes. */
    method SelectPresetForItem(preset: FruitPreset) returns (applied: bool, revealed: int)
      requires draft.Valid()
      modifies this`pickerVisible, this`pickerTargetId, draft`items
      ensures draft.Valid()
      ensures NoTarget(old(pickerTargetId)) ==>
        && !applied && revealed == -1 && draft.items == old(draft.items)
        && pickerVisible == old(pickerVisible) && pickerTargetId == old(pickerTargetId)
      ensures !NoTarget(old(pickerTargetId)) ==>
        && applied == !PresetTaken(old(draft.items), old(pickerTargetId).value, preset.id)
        && draft.items == (if applied then ApplyPreset(old(draft.items), old(pickerTargetId).value, preset)
                           else old(draft.items))
        && revealed == (if applied then -1 else PresetLineIndex(old(draft.items), preset.id))
        && !pickerVisible && pickerTargetId == None
      ensures !NoTarget(old(pickerTargetId)) && !applied ==>
        && 0 <= revealed < |old(draft.items)|
        && old(draft.items)[revealed].id != old(pickerTargetId).value
        && old(draft.items)[revealed].presetId == Some(preset.id)
    {
      if NoTarget(pickerTargetId) {
        return false, -1;
      }
      var items := draft.items;
      applied := draft.ApplyPresetToItem(pickerTargetId.value, preset);
      revealed := -1;
      if !applied {
        RefusalHasLine(items, pickerTargetId.value, preset.id);
        revealed := PresetLineIndex(items, preset.id);
      }
      ClosePicker();
    }

    /** `handleSaveWithValidation()`: an incomplete line blocks the save,
        reported by its index, and nothing changes; otherwise, once
        confirmed, the draft is saved and, when stored, the note is cleared.
        The screen's own check lets an empty draft through; the draft's save
        then refuses it and nothing changes. */
    method SaveWithValidation(invoiceId: string, createdAt: string, io: bool) returns (invalidIndex: int)
      requires draft.Valid()
      modifies this`note, draft`items, draft`isSaving, draft.store`invoices
      ensures draft.Valid()
      ensures invalidIndex == FirstIncompleteItem(old(draft.items))
      ensures invalidIndex != -1 || old(draft.items) == [] || !io ==>
        && draft.items == old(draft.items) && draft.store.invoices == old(draft.store.invoices)
        && note == old(note)
      ensures invalidIndex == -1 && old(draft.items) != [] && io ==>
        && draft.store.invoices == [NewInvoice(invoiceId, createdAt, old(draft.items), old(note))]
                                   + old(draft.store.invoices)
        && draft.items == [] && note == ""
    {
      invalidIndex := FirstIncompleteItem(draft.items);
      if invalidIndex != -1 {
        return;
      }
      var outcome := draft.SaveCurrentInvoice(note, invoiceId, createdAt, io);
      if outcome.Saved? {
        note := "";
      }
    }
  }
}
