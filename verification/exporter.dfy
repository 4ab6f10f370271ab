/**
 * The exporter (`updateJSON` and `cleanItem`): the registry as the JSON
 * value the editor shows and the game-server plugin reads. Serialising that
 * value to text is not modelled.
 */
module Exporter {
  import opened Wrappers
  import opened JsValues
  import opened KitModel
  import OrderedMap

  /** The keys of an exported kit, in the order they are written. */
  const KitKeys: seq<string> :=
    ["name", "image", "description", "permission", "cooldown", "max", "items", "wear", "belt"]

  /** cleanItem: an entry as `{shortname, amount, skinid}`, plus `name` only for a truthy custom name. */
  function CleanItem(e: Entry): (r: Json)
    ensures r.Obj? && OrderedMap.Unique(r.fields)
    ensures OrderedMap.Keys(r.fields) ==
      ["shortname", "amount", "skinid"] + (if TruthyProp(e.customName) then ["name"] else [])
    ensures Prop(r, "shortname") == Some(e.shortname)
    ensures Prop(r, "amount") == Some(e.amount)
    ensures Prop(r, "skinid") == Some(e.skinid)
    ensures Prop(r, "name") == if TruthyProp(e.customName) then e.customName else None
  {
    if TruthyProp(e.customName) then
      NamedFieldsRead(e, e.customName.value);
      Obj(BaseFields(e) + [("name", e.customName.value)])
    else
      BaseFieldsRead(e);
      Obj(BaseFields(e))
  }

  /** The three fields every exported entry has. */
  function BaseFields(e: Entry): (fields: seq<(string, Json)>)
  {
    [("shortname", e.shortname), ("amount", e.amount), ("skinid", e.skinid)]
  }

  /** The three fields are found under their own names, and `name` is not there. */
  lemma BaseFieldsRead(e: Entry)
    ensures OrderedMap.Unique(BaseFields(e))
    ensures OrderedMap.Keys(BaseFields(e)) == ["shortname", "amount", "skinid"]
    ensures OrderedMap.Lookup(BaseFields(e), "shortname") == Some(e.shortname)
    ensures OrderedMap.Lookup(BaseFields(e), "amount") == Some(e.amount)
    ensures OrderedMap.Lookup(BaseFields(e), "skinid") == Some(e.skinid)
    ensures OrderedMap.Lookup(BaseFields(e), "name") == None
  {
    var fields := BaseFields(e);
    assert OrderedMap.Keys(fields) == ["shortname", "amount", "skinid"];
    OrderedMap.LookupAt(fields, 0);
    OrderedMap.LookupAt(fields, 1);
    OrderedMap.LookupAt(fields, 2);
  }

  /** With `name` appended, all four fields are found under their own names. */
  lemma NamedFieldsRead(e: Entry, n: Json)
    ensures OrderedMap.Unique(BaseFields(e) + [("name", n)])
    ensures OrderedMap.Keys(BaseFields(e) + [("name", n)]) == ["shortname", "amount", "skinid", "name"]
    ensures OrderedMap.Lookup(BaseFields(e) + [("name", n)], "shortname") == Some(e.shortname)
    ensures OrderedMap.Lookup(BaseFields(e) + [("name", n)], "amount") == Some(e.amount)
    ensures OrderedMap.Lookup(BaseFields(e) + [("name", n)], "skinid") == Some(e.skinid)
    ensures OrderedMap.Lookup(BaseFields(e) + [("name", n)], "name") == Some(n)
  {
    var fields := BaseFields(e) + [("name", n)];
    assert OrderedMap.Keys(fields) == ["shortname", "amount", "skinid", "name"];
    OrderedMap.LookupAt(fields, 0);
    OrderedMap.LookupAt(fields, 1);
    OrderedMap.LookupAt(fields, 2);
    OrderedMap.LookupAt(fields, 3);
  }

  /** `list.map(cleanItem)`: same length, same order. */
  function ExportList(l: seq<Entry>): (r: Json)
    ensures r.Arr? && |r.elems| == |l|
    ensures forall i :: 0 <= i < |l| ==> r.elems[i] == CleanItem(l[i])
  {
    Arr(seq(|l|, i requires 0 <= i < |l| => CleanItem(l[i])))
  }

  /** One kit of the output: its six settings and its three lists, in that order. */
  function ExportKit(k: Kit): (r: Json)
    ensures r.Obj? && OrderedMap.Unique(r.fields) && OrderedMap.Keys(r.fields) == KitKeys
  {
    var fields := [
      ("name", k.name), ("image", k.image), ("description", k.description),
      ("permission", k.permission), ("cooldown", k.cooldown), ("max", k.max),
      ("items", ExportList(k.items)), ("wear", ExportList(k.wear)), ("belt", ExportList(k.belt))];
    assert OrderedMap.Keys(fields) == KitKeys;
    Obj(fields)
  }

  /** Each setting and each list of an exported kit is found under its own name. */
  lemma ExportKitReads(k: Kit)
    ensures var r := ExportKit(k);
      && Prop(r, "name") == Some(k.name) && Prop(r, "image") == Some(k.image)
      && Prop(r, "description") == Some(k.description) && Prop(r, "permission") == Some(k.permission)
      && Prop(r, "cooldown") == Some(k.cooldown) && Prop(r, "max") == Some(k.max)
      && Prop(r, "items") == Some(ExportList(k.items))
      && Prop(r, "wear") == Some(ExportList(k.wear))
      && Prop(r, "belt") == Some(ExportList(k.belt))
  {
    var fields := ExportKit(k).fields;
    OrderedMap.LookupAt(fields, 0);
    OrderedMap.LookupAt(fields, 1);
    OrderedMap.LookupAt(fields, 2);
    OrderedMap.LookupAt(fields, 3);
    OrderedMap.LookupAt(fields, 4);
    OrderedMap.LookupAt(fields, 5);
    OrderedMap.LookupAt(fields, 6);
    OrderedMap.LookupAt(fields, 7);
    OrderedMap.LookupAt(fields, 8);
  }

  /** updateJSON: one exported kit per registry key, under that key, in registry order. */
  function Export(kits: Registry): (r: Json)
    ensures r.Obj? && |r.fields| == |kits|
    ensures OrderedMap.Keys(r.fields) == OrderedMap.Keys(kits)
    ensures forall i :: 0 <= i < |kits| ==> r.fields[i] == (kits[i].0, ExportKit(kits[i].1))
  {
    Obj(seq(|kits|, i requires 0 <= i < |kits| => (kits[i].0, ExportKit(kits[i].1))))
  }
}
