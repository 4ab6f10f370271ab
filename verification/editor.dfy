/**
 * The editor as a whole: every user action the page wires to a handler that
 * changes the editor state, as one command, and the state after a sequence of
 * them starting from a fresh start-up. The dialogs' answers, the typed texts,
 * the dropped short names and the clicked item cards are part of the command;
 * the item catalog is a parameter. The search box and the category buttons
 * only change which cards are shown, and the copy button only selects the
 * JSON text, so none of them is a command.
 */
module Editor {
  import opened Wrappers
  import opened JsValues
  import opened KitModel
  import OrderedMap
  import Catalog
  import KitRegistry
  import ListStore
  import Exporter
  import Importer
  import RoundTrip

  datatype Command =
    | SelectKit(name: string)
    | NewKit(answer: Option<string>)
    | CopyKit(answer: Option<string>)
    | RenameKit(answer: Option<string>)
    | DeleteKit(confirmed: bool)
    | SelectTab(tab: Tab)
    | Drop(shortname: string)
    | Click(item: Catalog.Item)
    | RemoveItem(index: int)
    | SetAmount(index: int, val: string)
    | SetSkin(index: int, val: string)
    | SetCustomName(index: int, val: string)
    | EditSettings(permission: string, image: string, cooldown: string, max: string, description: string)
    | ClearKit(confirmed: bool)
    | Import(data: Json)

  /**
   * handleDrop: the dragged short name is looked up in the catalog; an item
   * is added to the current list, an unknown name changes nothing.
   */
  function HandleDrop(s: State, catalog: seq<Catalog.Item>, shortname: string): (r: State)
    requires Valid(s)
    ensures Valid(r)
    ensures (forall i :: 0 <= i < |catalog| ==> catalog[i].shortName != shortname) ==> r == s
    ensures s.current == "" ==> r == s
    ensures s.current != "" && (exists i :: 0 <= i < |catalog| && catalog[i].shortName == shortname) ==>
      && ListStore.OnlyListChanged(s, r, s.tab)
      && |CurrentKit(r).List(s.tab)| == |CurrentKit(s).List(s.tab)| + 1
      && CurrentKit(r).List(s.tab)[..|CurrentKit(s).List(s.tab)|] == CurrentKit(s).List(s.tab)
      && CurrentKit(r).List(s.tab)[|CurrentKit(s).List(s.tab)|].shortname == Str(shortname)
    ensures s.current != "" && Catalog.FindByShortName(catalog, shortname).Some? ==>
      CurrentKit(r).List(s.tab)
        == CurrentKit(s).List(s.tab) + [ListStore.NewEntry(Catalog.FindByShortName(catalog, shortname).value)]
    ensures Canonical(s.kits) ==> Canonical(r.kits)
  {
    match Catalog.FindByShortName(catalog, shortname)
    case None => s
    case Some(item) =>
      var r := ListStore.AddItemToKit(s, item);
      assert s.current != "" ==> CurrentKit(r).List(s.tab)[..|CurrentKit(s).List(s.tab)|] == CurrentKit(s).List(s.tab);
      r
  }

  /**
   * One user action. The kit selector only ever offers the registry's keys
   * (updateKitSelector), so a name that is not a key never reaches switchKit.
   * An update that throws aborts that event handler and leaves the state as
   * it was.
   */
  function Step(s: State, catalog: seq<Catalog.Item>, c: Command): (r: State)
    requires Valid(s)
    ensures Valid(r)
    ensures Canonical(s.kits) ==> Canonical(r.kits)
    ensures !c.SelectTab? ==> r.tab == s.tab
    ensures c.SelectTab? ==> r == s.(tab := c.tab)
    ensures c.SelectKit? ==> r.kits == s.kits && (c.name in OrderedMap.Keys(s.kits) ==> r.current == c.name)
    ensures c.Click? && s.current != "" ==>
      ListStore.OnlyListChanged(s, r, s.tab)
      && CurrentKit(r).List(s.tab) == CurrentKit(s).List(s.tab) + [ListStore.NewEntry(c.item)]
  {
    match c
    case SelectKit(name) => if name in OrderedMap.Keys(s.kits) then KitRegistry.SwitchKit(s, name) else s
    case NewKit(answer) => KitRegistry.PromptNewKit(s, answer)
    case CopyKit(answer) => KitRegistry.PromptCopyKit(s, answer)
    case RenameKit(answer) => KitRegistry.PromptRenameKit(s, answer)
    case DeleteKit(confirmed) => KitRegistry.DeleteCurrentKit(s, confirmed)
    case SelectTab(tab) => s.(tab := tab)
    case Drop(shortname) => HandleDrop(s, catalog, shortname)
    case Click(item) => ListStore.AddItemToKit(s, item)
    case RemoveItem(index) => ListStore.RemoveKitItem(s, index)
    case SetAmount(index, val) => ListStore.UpdateItemAmount(s, index, val).GetOr(s)
    case SetSkin(index, val) => ListStore.UpdateItemSkin(s, index, val).GetOr(s)
    case SetCustomName(index, val) => ListStore.UpdateItemName(s, index, val).GetOr(s)
    case EditSettings(permission, image, cooldown, max, description) =>
      ListStore.UpdateCurrentKitDataFromInputs(s, permission, image, cooldown, max, description)
    case ClearKit(confirmed) => ListStore.ClearCurrentKit(s, confirmed)
    case Import(data) => Importer.ProcessImportedData(s, data)
  }

  /** The state after a sequence of actions, applied in order. */
  function Run(s: State, catalog: seq<Catalog.Item>, cmds: seq<Command>): (r: State)
    requires Valid(s)
    ensures Valid(r)
    ensures Canonical(s.kits) ==> Canonical(r.kits)
    decreases |cmds|
  {
    if |cmds| == 0 then s else Run(Step(s, catalog, cmds[0]), catalog, cmds[1..])
  }

  /**
   * Every state the model can reach from start-up is valid and canonical, has
   * a kit, and — unless some kit is named `_kits` — survives its own export
   * and re-import.
   */
  lemma ReachableRoundTrip(catalog: seq<Catalog.Item>, cmds: seq<Command>)
    ensures var r := Run(KitRegistry.InitialState(), catalog, cmds);
      && Valid(r) && Canonical(r.kits) && |r.kits| > 0
    ensures var r := Run(KitRegistry.InitialState(), catalog, cmds);
      "_kits" !in OrderedMap.Keys(r.kits) ==>
        && Importer.ImportKits(Exporter.Export(r.kits)).Ok?
        && Exporter.Export(Importer.ImportKits(Exporter.Export(r.kits)).value) == Exporter.Export(r.kits)
  {
    var r := Run(KitRegistry.InitialState(), catalog, cmds);
    assert r.current in OrderedMap.Keys(r.kits);
    if "_kits" !in OrderedMap.Keys(r.kits) {
      RoundTrip.SelfRoundTrip(r.kits);
    }
  }

  /** Re-importing the export of a canonical state puts the same registry back, with its first kit current. */
  lemma ReimportRestoresExport(s: State)
    requires Valid(s) && Canonical(s.kits) && "_kits" !in OrderedMap.Keys(s.kits)
    ensures var t := Importer.ProcessImportedData(s, Exporter.Export(s.kits));
      && Exporter.Export(t.kits) == Exporter.Export(s.kits)
      && OrderedMap.Keys(t.kits) == OrderedMap.Keys(s.kits)
      && t.current == s.kits[0].0 && t.tab == s.tab
  {
    assert s.current in OrderedMap.Keys(s.kits);
    RoundTrip.SelfRoundTrip(s.kits);
    var kits := Importer.ImportKits(Exporter.Export(s.kits)).value;
    assert kits[0].0 == s.kits[0].0 by {
      assert OrderedMap.Keys(kits)[0] == OrderedMap.Keys(s.kits)[0];
    }
  }
}
