/**
 * Self round trip: importing what the exporter wrote and exporting again
 * gives the same document, for every registry whose fields are canonical
 * (truthy or the importer's default) and which has no kit named `_kits`.
 */
module RoundTrip {
  import opened Wrappers
  import opened JsValues
  import opened KitModel
  import OrderedMap
  import Exporter
  import Importer

  /** An exported entry maps back to an entry that exports the same. */
  lemma MapItemCleanItem(key: string, e: Entry)
    requires CanonicalEntry(e)
    ensures Importer.MapItem(key, Exporter.CleanItem(e)).Ok?
    ensures Exporter.CleanItem(Importer.MapItem(key, Exporter.CleanItem(e)).value) == Exporter.CleanItem(e)
  {
    var c := Exporter.CleanItem(e);
    CleanItemNoCapital(e, "Shortname");
    CleanItemNoCapital(e, "Amount");
    CleanItemNoCapital(e, "Skin");
    CleanItemNoCapital(e, "DisplayName");
    var e' := Importer.MapItem(key, c).value;
    assert e'.shortname == e.shortname by {
      FirstTruthyStable(e.shortname, Str(""));
    }
    assert e'.amount == e.amount by {
      FirstTruthyStable(e.amount, Num(1.0));
    }
    assert e'.skinid == e.skinid by {
      FirstTruthyStable(e.skinid, Num(0.0));
    }
    assert (TruthyProp(e'.customName) <==> TruthyProp(e.customName))
        && (TruthyProp(e.customName) ==> e'.customName == e.customName);
    CleanItemSame(e', e);
  }

  /** Every key `cleanItem` writes starts with a lower-case letter, so a capitalised alias is never found. */
  lemma CleanItemNoCapital(e: Entry, alias: string)
    requires |alias| > 0 && 'A' <= alias[0] <= 'Z'
    ensures Prop(Exporter.CleanItem(e), alias) == None
  {
    assert alias != "shortname" && alias != "amount" && alias != "skinid" && alias != "name" by {
      assert alias[0] != 's' && alias[0] != 'a' && alias[0] != 'n';
    }
  }

  /** Two entries that agree on what `cleanItem` writes are written the same. */
  lemma CleanItemSame(a: Entry, b: Entry)
    requires a.shortname == b.shortname && a.amount == b.amount && a.skinid == b.skinid
    requires TruthyProp(a.customName) <==> TruthyProp(b.customName)
    requires TruthyProp(a.customName) ==> a.customName == b.customName
    ensures Exporter.CleanItem(a) == Exporter.CleanItem(b)
  {
  }

  /** An exported list maps back to a list that exports the same. */
  lemma {:induction false} MapEntriesExportList(key: string, l: seq<Entry>)
    requires CanonicalList(l)
    ensures Importer.MapList(key, Exporter.ExportList(l)).Ok?
    ensures Exporter.ExportList(Importer.MapList(key, Exporter.ExportList(l)).value) == Exporter.ExportList(l)
  {
    var x := Exporter.ExportList(l);
    forall i | 0 <= i < |x.elems|
      ensures !x.elems[i].Null?
    {
    }
    var l' := Importer.MapList(key, x).value;
    forall i | 0 <= i < |l|
      ensures Exporter.CleanItem(l'[i]) == Exporter.CleanItem(l[i])
    {
      MapItemCleanItem(key, l[i]);
    }
  }

  /** Every name the exporter writes for a kit starts with a lower-case letter. */
  lemma KitKeysLowerCase()
    ensures forall key :: key in Exporter.KitKeys ==> |key| > 0 && 'a' <= key[0] <= 'z'
  {
  }

  /** A capitalised name is therefore never a property of an exported kit. */
  lemma ExportKitNoCapital(k: Kit, alias: string)
    requires |alias| > 0 && 'A' <= alias[0] <= 'Z'
    ensures Prop(Exporter.ExportKit(k), alias) == None
  {
    KitKeysLowerCase();
  }

  /** The exporter writes none of the capitalised names the importer tries first. */
  lemma ExportKitNoAliases(k: Kit)
    ensures var x := Exporter.ExportKit(k);
      && Prop(x, "Name") == None && Prop(x, "RequiredPermission") == None
      && Prop(x, "KitImage") == None && Prop(x, "Description") == None
      && Prop(x, "Cooldown") == None && Prop(x, "MaximumUses") == None
      && Prop(x, "MainItems") == None && Prop(x, "WearItems") == None && Prop(x, "BeltItems") == None
  {
    ExportKitNoCapital(k, "Name");
    ExportKitNoCapital(k, "RequiredPermission");
    ExportKitNoCapital(k, "KitImage");
    ExportKitNoCapital(k, "Description");
    ExportKitNoCapital(k, "Cooldown");
    ExportKitNoCapital(k, "MaximumUses");
    ExportKitNoCapital(k, "MainItems");
    ExportKitNoCapital(k, "WearItems");
    ExportKitNoCapital(k, "BeltItems");
  }

  /** One exported list, found under its own name and not under its alias, maps back. */
  lemma MapListFound(key: string, l: seq<Entry>, x: Json, alias: string, name: string)
    requires CanonicalList(l)
    requires Prop(x, alias) == None && Prop(x, name) == Some(Exporter.ExportList(l))
    ensures var m := Importer.MapList(key, FirstTruthy(Prop(x, alias), Prop(x, name), Arr([])));
      m.Ok? && Exporter.ExportList(m.value) == Exporter.ExportList(l)
  {
    assert FirstTruthy(Prop(x, alias), Prop(x, name), Arr([])) == Exporter.ExportList(l);
    MapEntriesExportList(key, l);
  }

  /** The three lists of an exported kit map back without a throw, to lists that export the same. */
  lemma MapKitLists(key: string, k: Kit)
    requires CanonicalList(k.items) && CanonicalList(k.wear) && CanonicalList(k.belt)
    ensures Importer.MapKit(key, Exporter.ExportKit(k)).Ok?
    ensures var k' := Importer.MapKit(key, Exporter.ExportKit(k)).value;
      && Exporter.ExportList(k'.items) == Exporter.ExportList(k.items)
      && Exporter.ExportList(k'.wear) == Exporter.ExportList(k.wear)
      && Exporter.ExportList(k'.belt) == Exporter.ExportList(k.belt)
  {
    var x := Exporter.ExportKit(k);
    ExportKitNoAliases(k);
    Exporter.ExportKitReads(k);
    Importer.MapKitReadsLists(key, x);
    MapListFound(key, k.items, x, "MainItems", "items");
    MapListFound(key, k.wear, x, "WearItems", "wear");
    MapListFound(key, k.belt, x, "BeltItems", "belt");
  }

  /** The six settings of an exported kit map back unchanged. */
  lemma MapKitSettings(key: string, k: Kit)
    requires CanonicalField(k.name, Str(key)) && CanonicalField(k.image, Str("")) && CanonicalField(k.description, Str(""))
    requires CanonicalField(k.permission, Str("")) && CanonicalField(k.cooldown, Num(0.0)) && CanonicalField(k.max, Num(0.0))
    requires Importer.MapKit(key, Exporter.ExportKit(k)).Ok?
    ensures var k' := Importer.MapKit(key, Exporter.ExportKit(k)).value;
      && k'.name == k.name && k'.image == k.image && k'.description == k.description
      && k'.permission == k.permission && k'.cooldown == k.cooldown && k'.max == k.max
  {
    Importer.MapKitReadsSettings(key, Exporter.ExportKit(k));
    ExportKitNoAliases(k);
    Exporter.ExportKitReads(k);
    FirstTruthyStable(k.name, Str(key));
    FirstTruthyStable(k.image, Str(""));
    FirstTruthyStable(k.description, Str(""));
    FirstTruthyStable(k.permission, Str(""));
    FirstTruthyStable(k.cooldown, Num(0.0));
    FirstTruthyStable(k.max, Num(0.0));
  }

  /** An exported kit maps back, under its key, to a kit that exports the same. */
  lemma MapKitExportKit(key: string, k: Kit)
    requires CanonicalKit(key, k)
    ensures Importer.MapKit(key, Exporter.ExportKit(k)).Ok?
    ensures Exporter.ExportKit(Importer.MapKit(key, Exporter.ExportKit(k)).value) == Exporter.ExportKit(k)
  {
    MapKitLists(key, k);
    MapKitSettings(key, k);
  }

  /** Two key/value lists with the same keys, in order, whose values agree under `f`. */
  predicate SameUnder<T>(f: T -> Json, a: seq<(string, T)>, b: seq<(string, T)>)
  {
    |a| == |b| && forall i :: 0 <= i < |a| ==> a[i].0 == b[i].0 && f(a[i].1) == f(b[i].1)
  }

  /** Two registries with the same keys whose kits export alike. */
  predicate SameExport(a: Registry, b: Registry)
  {
    SameUnder(Exporter.ExportKit, a, b)
  }

  /** Putting a value that agrees with the first of `b` in front of a matching rest. */
  lemma SameUnderCons<T>(f: T -> Json, r: seq<(string, T)>, acc: seq<(string, T)>, v: T, b: seq<(string, T)>)
    requires |b| > 0 && |r| == |acc| + |b|
    requires r[..|acc| + 1] == acc + [(b[0].0, v)]
    requires f(v) == f(b[0].1)
    requires SameUnder(f, r[|acc| + 1..], b[1..])
    ensures r[..|acc|] == acc && SameUnder(f, r[|acc|..], b)
  {
    assert r[..|acc|] == r[..|acc| + 1][..|acc|];
    assert r[|acc|] == r[..|acc| + 1][|acc|];
    forall i | 0 <= i < |b|
      ensures r[|acc|..][i].0 == b[i].0 && f(r[|acc|..][i].1) == f(b[i].1)
    {
      if i > 0 {
        assert r[|acc|..][i] == r[|acc| + 1..][i - 1];
        assert b[i] == b[1..][i - 1];
      }
    }
  }

  /** One step of the `forEach` over an object-typed value that maps without a throw. */
  lemma CollectStep(src: seq<(string, Json)>, acc: Registry, kit: Kit)
    requires Canonical(acc) && |src| > 0 && IsObjectType(src[0].1)
    requires Importer.MapKit(src[0].0, src[0].1) == Ok(kit)
    ensures Canonical(OrderedMap.Put(acc, src[0].0, kit))
    ensures Importer.CollectKits(src, acc) == Importer.CollectKits(src[1..], OrderedMap.Put(acc, src[0].0, kit))
  {
    Importer.PutCanonical(acc, src[0].0, kit);
  }

  /** The exported kits of a registry minus its first kit are the exported kits minus the first. */
  lemma ExportTail(kits: Registry)
    requires |kits| > 0
    ensures Exporter.Export(kits[1..]).fields == Exporter.Export(kits).fields[1..]
    ensures Exporter.Export(kits).fields[0] == (kits[0].0, Exporter.ExportKit(kits[0].1))
  {
    var a := Exporter.Export(kits[1..]).fields;
    var b := Exporter.Export(kits).fields[1..];
    assert |a| == |b|;
    forall i | 0 <= i < |a|
      ensures a[i] == b[i]
    {
      assert kits[1..][i] == kits[i + 1];
    }
  }

  /** A canonical registry without its first kit is canonical, and keeps none of that kit's key. */
  lemma CanonicalTail(kits: Registry)
    requires Canonical(kits) && |kits| > 0
    ensures Canonical(kits[1..])
    ensures forall i :: 0 <= i < |kits[1..]| ==> kits[1..][i].0 != kits[0].0
  {
    forall i | 0 <= i < |kits[1..]|
      ensures kits[1..][i].0 != kits[0].0
    {
      assert kits[1..][i] == kits[i + 1];
    }
  }

  /** The kit the first exported kit maps back to. */
  function FirstBack(kits: Registry): Kit
    requires |kits| > 0 && CanonicalKit(kits[0].0, kits[0].1)
  {
    MapKitExportKit(kits[0].0, kits[0].1);
    Importer.MapKit(kits[0].0, Exporter.ExportKit(kits[0].1)).value
  }

  /** The first exported kit is collected onto the accumulator; the rest follows from the rest of the export. */
  lemma CollectExportedHead(kits: Registry, acc: Registry)
    requires Canonical(kits) && Canonical(acc) && |kits| > 0
    requires kits[0].0 !in OrderedMap.Keys(acc)
    ensures CanonicalKit(kits[0].0, kits[0].1)
    ensures Exporter.ExportKit(FirstBack(kits)) == Exporter.ExportKit(kits[0].1)
    ensures Canonical(acc + [(kits[0].0, FirstBack(kits))])
    ensures Importer.CollectKits(Exporter.Export(kits).fields, acc)
         == Importer.CollectKits(Exporter.Export(kits[1..]).fields, acc + [(kits[0].0, FirstBack(kits))])
  {
    var key := kits[0].0;
    assert CanonicalKit(key, kits[0].1);
    MapKitExportKit(key, kits[0].1);
    var kit := FirstBack(kits);
    var src := Exporter.Export(kits).fields;
    ExportTail(kits);
    CollectStep(src, acc, kit);
    OrderedMap.PutNew(acc, key, kit);
  }

  /** The remaining keys are still absent from the accumulator once the first kit is appended. */
  lemma CollectExportedFresh(kits: Registry, acc: Registry, kit: Kit)
    requires Canonical(kits) && |kits| > 0
    requires forall i :: 0 <= i < |kits| ==> kits[i].0 !in OrderedMap.Keys(acc)
    ensures Canonical(kits[1..])
    ensures forall i :: 0 <= i < |kits[1..]| ==> kits[1..][i].0 !in OrderedMap.Keys(acc + [(kits[0].0, kit)])
  {
    OrderedMap.UniqueAppend(acc, kits[0].0, kit);
    CanonicalTail(kits);
    forall i | 0 <= i < |kits[1..]|
      ensures kits[1..][i].0 !in OrderedMap.Keys(acc + [(kits[0].0, kit)])
    {
      assert kits[1..][i] == kits[i + 1];
    }
  }

  /**
   * Collecting the exported kits after an accumulator with none of their keys
   * appends, key by key, kits that export the same.
   */
  lemma {:induction false} CollectExported(kits: Registry, acc: Registry)
    requires Canonical(kits) && Canonical(acc)
    requires forall i :: 0 <= i < |kits| ==> kits[i].0 !in OrderedMap.Keys(acc)
    ensures var r := Importer.CollectKits(Exporter.Export(kits).fields, acc);
      && r.Ok? && |r.value| == |acc| + |kits|
      && r.value[..|acc|] == acc
      && SameExport(r.value[|acc|..], kits)
    decreases |kits|
  {
    if |kits| > 0 {
      CollectExportedHead(kits, acc);
      var kit := FirstBack(kits);
      var acc' := acc + [(kits[0].0, kit)];
      CollectExportedFresh(kits, acc, kit);
      CollectExported(kits[1..], acc');
      var r := Importer.CollectKits(Exporter.Export(kits[1..]).fields, acc').value;
      SameUnderCons(Exporter.ExportKit, r, acc, kit, kits);
    } else {
      assert Importer.CollectKits(Exporter.Export(kits).fields, acc) == Ok(acc);
    }
  }

  /** Without a `_kits` key the exported document is itself the source of kits. */
  lemma ExportedSource(kits: Registry)
    requires "_kits" !in OrderedMap.Keys(kits)
    ensures Importer.OwnEntries(Importer.SourceKits(Exporter.Export(kits))) == Exporter.Export(kits).fields
  {
    var x := Exporter.Export(kits);
    assert Prop(x, "_kits") == None;
  }

  /** Registries with the same keys whose kits export alike export alike. */
  lemma SameExportExport(a: Registry, b: Registry)
    requires SameExport(a, b)
    ensures OrderedMap.Keys(a) == OrderedMap.Keys(b)
    ensures Exporter.Export(a) == Exporter.Export(b)
  {
    var x := Exporter.Export(a).fields;
    var y := Exporter.Export(b).fields;
    forall i | 0 <= i < |a|
      ensures x[i] == y[i] && OrderedMap.Keys(a)[i] == OrderedMap.Keys(b)[i]
    {
    }
  }

  /**
   * `export(import(export(R))) == export(R)` for a canonical, non-empty
   * registry without a `_kits` key; the import succeeds and keeps the keys
   * and their order.
   */
  lemma SelfRoundTrip(kits: Registry)
    requires Canonical(kits) && |kits| > 0 && "_kits" !in OrderedMap.Keys(kits)
    ensures Importer.ImportKits(Exporter.Export(kits)).Ok?
    ensures OrderedMap.Keys(Importer.ImportKits(Exporter.Export(kits)).value) == OrderedMap.Keys(kits)
    ensures Exporter.Export(Importer.ImportKits(Exporter.Export(kits)).value) == Exporter.Export(kits)
  {
    var x := Exporter.Export(kits);
    ExportedSource(kits);
    CollectExported(kits, []);
    var r := Importer.CollectKits(x.fields, []).value;
    assert r[0..] == r;
    assert Importer.ImportKits(x) == Ok(r);
    SameExportExport(r, kits);
  }

  /** Values that are not objects are skipped by the `forEach`. */
  lemma {:induction false} CollectSkips(src: seq<(string, Json)>, n: nat, acc: Registry)
    requires Canonical(acc) && n <= |src|
    requires forall j :: 0 <= j < n ==> !IsObjectType(src[j].1)
    ensures Importer.CollectKits(src, acc) == Importer.CollectKits(src[n..], acc)
    decreases n
  {
    if n > 0 {
      assert Importer.CollectKits(src, acc) == Importer.CollectKits(src[1..], acc);
      forall j | 0 <= j < n - 1
        ensures !IsObjectType(src[1..][j].1)
      {
        assert src[1..][j] == src[j + 1];
      }
      CollectSkips(src[1..], n - 1, acc);
      assert src[1..][n - 1..] == src[n..];
    }
  }

  /** An empty array read as a kit has no lists, so it maps without a throw. */
  lemma MapKitEmptyArray(key: string)
    ensures Importer.MapKit(key, Arr([])).Ok?
  {
    assert Prop(Arr([]), "MainItems") == None && Prop(Arr([]), "items") == None;
    assert Prop(Arr([]), "WearItems") == None && Prop(Arr([]), "wear") == None;
    assert Prop(Arr([]), "BeltItems") == None && Prop(Arr([]), "belt") == None;
  }

  /** The kit an empty array maps to under `key`. */
  function EmptyBack(key: string): Kit
  {
    MapKitEmptyArray(key);
    Importer.MapKit(key, Arr([])).value
  }

  /** An empty array under a fresh key is collected as one more kit, appended under that key. */
  lemma CollectEmptyArray(src: seq<(string, Json)>, acc: Registry)
    requires Canonical(acc) && |src| > 0 && src[0].1 == Arr([]) && src[0].0 !in OrderedMap.Keys(acc)
    ensures Canonical(acc + [(src[0].0, EmptyBack(src[0].0))])
    ensures OrderedMap.Keys(acc + [(src[0].0, EmptyBack(src[0].0))]) == OrderedMap.Keys(acc) + [src[0].0]
    ensures Importer.CollectKits(src, acc) == Importer.CollectKits(src[1..], acc + [(src[0].0, EmptyBack(src[0].0))])
  {
    var key := src[0].0;
    var kit := EmptyBack(key);
    CollectStep(src, acc, kit);
    OrderedMap.PutNew(acc, key, kit);
    OrderedMap.UniqueAppend(acc, key, kit);
  }

  /** Three empty arrays under fresh keys are collected as three kits under those keys. */
  lemma CollectEmptyLists(a: string, b: string, c: string)
    requires a != b && b != c && a != c
    ensures var r := Importer.CollectKits([(a, Arr([])), (b, Arr([])), (c, Arr([]))], []);
      r.Ok? && OrderedMap.Keys(r.value) == [a, b, c]
  {
    var src := [(a, Arr([])), (b, Arr([])), (c, Arr([]))];
    var r1 := [(a, EmptyBack(a))];
    var r2 := r1 + [(b, EmptyBack(b))];
    var r3 := r2 + [(c, EmptyBack(c))];
    assert Importer.CollectKits(src, []) == Importer.CollectKits(src[1..], r1) by {
      CollectEmptyArray(src, []);
      assert [] + [(a, EmptyBack(a))] == r1;
    }
    assert Canonical(r1) && OrderedMap.Keys(r1) == [a] by {
      CollectEmptyArray(src, []);
      assert [] + [(a, EmptyBack(a))] == r1;
    }
    assert Importer.CollectKits(src[1..], r1) == Importer.CollectKits(src[2..], r2) by {
      CollectEmptyArray(src[1..], r1);
      assert src[1..][1..] == src[2..];
    }
    assert Canonical(r2) && OrderedMap.Keys(r2) == [a, b] by {
      CollectEmptyArray(src[1..], r1);
    }
    assert Importer.CollectKits(src[2..], r2) == Importer.CollectKits([], r3) by {
      CollectEmptyArray(src[2..], r2);
      assert src[2..][1..] == [];
    }
    assert Canonical(r3) && OrderedMap.Keys(r3) == [a, b, c] by {
      CollectEmptyArray(src[2..], r2);
    }
  }

  /** The exported form of a new kit: six scalar settings, then three empty lists. */
  lemma ExportDefaultKit(name: string)
    ensures var f := Exporter.ExportKit(DefaultKit(name)).fields;
      && |f| == 9
      && (forall j :: 0 <= j < 6 ==> !IsObjectType(f[j].1))
      && f[6..] == [("items", Arr([])), ("wear", Arr([])), ("belt", Arr([]))]
  {
    var k := DefaultKit(name);
    assert Exporter.ExportList([]) == Arr([]);
    assert Exporter.ExportKit(k).fields == [
      ("name", k.name), ("image", k.image), ("description", k.description),
      ("permission", k.permission), ("cooldown", k.cooldown), ("max", k.max),
      ("items", Arr([])), ("wear", Arr([])), ("belt", Arr([]))];
  }

  /** A new kit's exported form, read as a source of kits, holds three: its three lists. */
  lemma CollectDefaultKit(name: string)
    ensures var r := Importer.CollectKits(Exporter.ExportKit(DefaultKit(name)).fields, []);
      r.Ok? && OrderedMap.Keys(r.value) == ["items", "wear", "belt"]
  {
    var src := Exporter.ExportKit(DefaultKit(name)).fields;
    ExportDefaultKit(name);
    CollectSkips(src, 6, []);
    CollectEmptyLists("items", "wear", "belt");
  }

  /** A registry whose only key is `_kits` exports a document whose `_kits` wrapper is that kit. */
  lemma KitsKeySource(k: Kit)
    ensures Importer.OwnEntries(Importer.SourceKits(Exporter.Export([("_kits", k)]))) == Exporter.ExportKit(k).fields
  {
    var x := Exporter.Export([("_kits", k)]);
    assert x.fields == [("_kits", Exporter.ExportKit(k))];
    OrderedMap.LookupAt(x.fields, 0);
  }

  /**
   * The `_kits` condition is needed: a kit named `_kits` is read back as the
   * wrapper, and its own list fields become three kits named after them.
   */
  lemma KitsKeyBreaksRoundTrip()
    ensures var kits := [("_kits", DefaultKit("_kits"))];
      && Canonical(kits)
      && Importer.ImportKits(Exporter.Export(kits)).Ok?
      && OrderedMap.Keys(Importer.ImportKits(Exporter.Export(kits)).value) == ["items", "wear", "belt"]
  {
    var kits := [("_kits", DefaultKit("_kits"))];
    KitsKeySource(DefaultKit("_kits"));
    CollectDefaultKit("_kits");
    assert CanonicalKit("_kits", DefaultKit("_kits"));
  }
}
