/** The settings screen: editing the fruit-preset catalog and saving it. */
module Settings {
  import opened InvoiceTypes
  import opened Seqs
  import opened Strings
  import opened Storage

  /** `createEmptyPreset()`, with the generated id as a parameter: a preset
      carrying that id that may not be saved until it is filled in. */
  function EmptyPreset(id: string): (r: FruitPreset)
    ensures r.id == id && r.name == "" && r.pricePerKg == 0
    ensures !PresetComplete(r)
  {
    FruitPreset(id, "", 0)
  }

  /** The catalog shown after loading: the stored list, or one blank preset
      when nothing is stored. */
  function LoadedCatalog(stored: seq<FruitPreset>, freshId: string): (r: seq<FruitPreset>)
    ensures r != []
    ensures stored != [] ==> r == stored
    ensures stored == [] ==> r == [EmptyPreset(freshId)]
  {
    if |stored| == 0 then [EmptyPreset(freshId)] else stored
  }

  /** The field an edit sets, with its input. A price is typed in thousands of
      đồng; `thousands` is the number the text parses to, None when it does not. */
  datatype PresetEdit = EditId(id: string) | EditName(name: string) | EditPrice(thousands: Option<int>)

  /** One preset after an edit: a price becomes `max(0, (parsed || 0) * 1000)`,
      any other field takes the text as it is. */
  function EditPreset(p: FruitPreset, edit: PresetEdit): (r: FruitPreset)
    ensures edit.EditId? ==> r == p.(id := edit.id)
    ensures edit.EditName? ==> r == p.(name := edit.name)
    ensures edit.EditPrice? ==> r.id == p.id && r.name == p.name && r.pricePerKg >= 0
    ensures edit.EditPrice? && edit.thousands.Some? && edit.thousands.value >= 0 ==>
      r.pricePerKg == edit.thousands.value * 1000
    ensures edit.EditPrice? && (edit.thousands.None? || edit.thousands.value <= 0) ==> r.pricePerKg == 0
  {
    match edit
    case EditId(id) => p.(id := id)
    case EditName(name) => p.(name := name)
    case EditPrice(thousands) =>
      var numeric := if thousands.Some? then thousands.value else 0;
      p.(pricePerKg := if numeric * 1000 > 0 then numeric * 1000 else 0)
  }

  /** `updatePresetField(id, field, value)`: every preset with that id is
      edited, every other stays as it is, and the list keeps its length. */
  function UpdatePresetField(presets: seq<FruitPreset>, id: string, edit: PresetEdit): (r: seq<FruitPreset>)
    ensures |r| == |presets|
    ensures forall i :: 0 <= i < |presets| && presets[i].id == id ==> r[i] == EditPreset(presets[i], edit)
    ensures forall i :: 0 <= i < |presets| && presets[i].id != id ==> r[i] == presets[i]
  {
    MapWhere(presets, (p: FruitPreset) => p.id == id, (p: FruitPreset) => EditPreset(p, edit))
  }

  /** `removePreset(id)`: the presets with another id, in their order; when
      none is left, a single blank preset instead. */
  function RemovePreset(presets: seq<FruitPreset>, id: string, freshId: string): (r: seq<FruitPreset>)
    ensures r != []
    ensures r == [EmptyPreset(freshId)] || forall i :: 0 <= i < |r| ==> r[i].id != id
    ensures (exists i :: 0 <= i < |presets| && presets[i].id != id) ==>
      && Subsequence(r, presets)
      && (forall i :: 0 <= i < |r| ==> r[i].id != id)
      && (forall i :: 0 <= i < |presets| && presets[i].id != id ==> presets[i] in r)
      && (forall x :: multiset(r)[x] == if x.id != id then multiset(presets)[x] else 0)
    ensures (forall i :: 0 <= i < |presets| ==> presets[i].id == id) ==> r == [EmptyPreset(freshId)]
  {
    var keep := (p: FruitPreset) => p.id != id;
    var filtered := Filter(presets, keep);
    FilterMultiset(presets, keep);
    if |filtered| == 0 then [EmptyPreset(freshId)] else filtered
  }

  /** A preset that may be saved: a name that is not blank once trimmed, and a
      positive price. */
  predicate PresetComplete(p: FruitPreset) {
    Trim(p.name) != "" && p.pricePerKg > 0
  }

  /** The index of the first preset that may not be saved, or -1. */
  function FirstIncompletePreset(presets: seq<FruitPreset>): (r: int)
    ensures -1 <= r < |presets|
    ensures r == -1 <==> forall i :: 0 <= i < |presets| ==> PresetComplete(presets[i])
    ensures 0 <= r ==> !PresetComplete(presets[r]) && forall i :: 0 <= i < r ==> PresetComplete(presets[i])
  {
    FindIndex(presets, (p: FruitPreset) => !PresetComplete(p))
  }

  /** A preset whose name is only whitespace, or whose price is not positive,
      blocks the save. */
  lemma BlankNameBlocksSave(presets: seq<FruitPreset>, k: nat)
    requires k < |presets|
    requires (forall j :: 0 <= j < |presets[k].name| ==> IsTrimmable(presets[k].name[j])) || presets[k].pricePerKg <= 0
    ensures 0 <= FirstIncompletePreset(presets) <= k
  {
    TrimEmptyIffBlank(presets[k].name);
  }

  /** What `handleSave` does with a catalog: refuse it at the first
      incomplete preset, or persist the complete presets. */
  datatype SavePlan = Refuse(index: nat) | Persist(cleaned: seq<FruitPreset>)

  function PlanSave(presets: seq<FruitPreset>): (plan: SavePlan)
    ensures plan.Refuse? <==> FirstIncompletePreset(presets) != -1
    ensures plan.Refuse? ==> plan.index == FirstIncompletePreset(presets)
    ensures plan.Persist? ==> plan.cleaned == presets
  {
    var invalidIndex := FirstIncompletePreset(presets);
    if invalidIndex != -1 then Refuse(invalidIndex)
    else
      var keep := (p: FruitPreset) => PresetComplete(p);
      FilterKeepsAll(presets, keep);
      Persist(Filter(presets, keep))
  }

  /** A save that goes through persists a non-empty catalog whenever the
      screen's catalog was non-empty; from an empty one it persists []. */
  lemma PersistedCatalogNonEmpty(presets: seq<FruitPreset>)
    ensures PlanSave(presets).Persist? && presets != [] ==> PlanSave(presets).cleaned != []
    ensures PlanSave([]) == Persist([])
  {
  }

  /** The screen's `presets` and `saving` state. `loaded` records that the
      initial load has completed; it is not part of the app's state. */
  class SettingsScreen {
    const store: Store
    var presets: seq<FruitPreset>
    var saving: bool
    ghost var loaded: bool

    /** Once loaded, the catalog on screen is never empty. */
    ghost predicate Valid()
      reads this
    {
      (loaded ==> presets != []) && !saving
    }

    constructor (store: Store)
      ensures Valid() && this.store == store
      ensures presets == [] && !loaded
    {
      this.store := store;
      presets, saving := [], false;
      loaded := false;
    }

    /** The initial load effect. */
    method Load(freshId: string)
      requires Valid()
      modifies this`presets, this`loaded
      ensures Valid() && loaded
      ensures presets == LoadedCatalog(store.presets, freshId)
    {
      var data := store.GetFruitPresets();
      presets := LoadedCatalog(data, freshId);
      loaded := true;
    }

    method UpdateField(id: string, edit: PresetEdit)
      requires Valid()
      modifies this`presets
      ensures Valid()
      ensures presets == UpdatePresetField(old(presets), id, edit)
    {
      presets := UpdatePresetField(presets, id, edit);
    }

    /** `addPreset()`: one blank preset at the end. */
    method AddPreset(freshId: string)
      requires Valid()
      modifies this`presets
      ensures Valid()
      ensures presets == old(presets) + [EmptyPreset(freshId)]
    {
      presets := presets + [EmptyPreset(freshId)];
    }

    /** `removePreset(id)`, once confirmed. */
    method RemovePresetById(id: string, freshId: string)
      requires Valid()
      modifies this`presets
      ensures Valid()
      ensures presets == RemovePreset(old(presets), id, freshId)
    {
      presets := RemovePreset(presets, id, freshId);
    }

    /** `handleSave()`: a refused catalog changes nothing and nothing is
        written; otherwise the cleaned catalog is written, and once written it
        is shown, or one blank preset when it is empty. */
    method HandleSave(freshId: string, io: bool) returns (plan: SavePlan, ok: bool)
      requires Valid()
      modifies this`presets, this`saving, store`presets
      ensures Valid()
      ensures plan == PlanSave(old(presets))
      ensures ok <==> plan.Persist? && io
      ensures !ok ==> presets == old(presets) && store.presets == old(store.presets)
      ensures ok ==> store.presets == old(presets)
      ensures ok && loaded ==> store.presets != []
      ensures ok ==> presets == LoadedCatalog(old(presets), freshId)
    {
      plan := PlanSave(presets);
      if plan.Refuse? {
        return plan, false;
      }
      var cleaned := plan.cleaned;
      assert cleaned == presets;
      saving := true;
      ok := store.SaveFruitPresets(cleaned, io);
      if ok {
        presets := LoadedCatalog(cleaned, freshId);
      }
      saving := false;
    }
  }
}
