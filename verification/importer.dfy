/**
 * The importer (`processImportedData` and `mapItem`): a parsed JSON document
 * back to a registry. Each field is read as `PluginKey || lowerKey ||
 * default`; the whole document is mapped before `kits` is replaced, so a
 * document that throws leaves the editor as it was. Parsing the text is not
 * modelled: the input is the value `JSON.parse` returned.
 */
module Importer {
  import opened Wrappers
  import opened JsValues
  import opened KitModel
  import OrderedMap
  import JsNumber

  /** mapItem: one entry, reading the plugin's key first, then the editor's own. Throws on null. */
  function MapItem(key: string, i: Json): (r: Result<Entry, JsError>)
    ensures r.Err? <==> i.Null?
    ensures r.Err? ==> r.error == NullEntry(key)
    ensures r.Ok? ==> CanonicalEntry(r.value)
    ensures r.Ok? ==> r.value.displayName == None && r.value.customName.Some?
    ensures r.Ok? ==> r.value.shortname == FirstTruthy(Prop(i, "Shortname"), Prop(i, "shortname"), Str(""))
    ensures r.Ok? ==> r.value.amount == FirstTruthy(Prop(i, "Amount"), Prop(i, "amount"), Num(1.0))
    ensures r.Ok? ==> r.value.skinid == FirstTruthy(Prop(i, "Skin"), Prop(i, "skinid"), Num(0.0))
    ensures r.Ok? ==> r.value.customName == Some(FirstTruthy(Prop(i, "DisplayName"), Prop(i, "name"), Str("")))
    ensures r.Ok? ==> CanonicalField(r.value.iconUrl, Str(""))
  {
    if i.Null? then Err(NullEntry(key))
    else
      Ok(Entry(
        shortname := FirstTruthy(Prop(i, "Shortname"), Prop(i, "shortname"), Str("")),
        displayName := None,
        amount := FirstTruthy(Prop(i, "Amount"), Prop(i, "amount"), Num(1.0)),
        skinid := FirstTruthy(Prop(i, "Skin"), Prop(i, "skinid"), Num(0.0)),
        customName := Some(FirstTruthy(Prop(i, "DisplayName"), Prop(i, "name"), Str(""))),
        iconUrl := FirstTruthy(Prop(i, "iconUrl"), None, Str(""))))
  }

  /** `list.map(mapItem)`: succeeds exactly when no element is null, and keeps length and order. */
  function MapEntries(key: string, es: seq<Json>): (r: Result<seq<Entry>, JsError>)
    ensures r.Ok? <==> forall i :: 0 <= i < |es| ==> !es[i].Null?
    ensures r.Err? ==> r.error == NullEntry(key)
    ensures r.Ok? ==> |r.value| == |es| && forall i :: 0 <= i < |es| ==> MapItem(key, es[i]) == Ok(r.value[i])
    ensures r.Ok? ==> CanonicalList(r.value)
  {
    if |es| == 0 then Ok([])
    else
      match MapItem(key, es[0])
      case Err(e) => Err(e)
      case Ok(first) =>
        match MapEntries(key, es[1..])
        case Err(e) => Err(e)
        case Ok(rest) =>
          assert forall i :: 1 <= i < |es| ==> es[i] == es[1..][i - 1];
          Ok([first] + rest)
  }

  /** Whether `(v).map(mapItem)` throws: `v` has no `map` method, or it is an array holding a null. */
  predicate ListThrows(v: Json)
  {
    !v.Arr? || exists i :: 0 <= i < |v.elems| && v.elems[i].Null?
  }

  /** `(value).map(mapItem)`: anything but an array has no `map` and throws. */
  function MapList(key: string, v: Json): (r: Result<seq<Entry>, JsError>)
    ensures r.Err? <==> ListThrows(v)
    ensures r.Err? ==> r.error == (if v.Arr? then NullEntry(key) else NotAList(key))
    ensures r.Ok? ==> |r.value| == |v.elems| && forall i :: 0 <= i < |v.elems| ==> MapItem(key, v.elems[i]) == Ok(r.value[i])
    ensures r.Ok? ==> CanonicalList(r.value)
  {
    if v.Arr? then MapEntries(key, v.elems) else Err(NotAList(key))
  }

  /**
   * The kit built for `sourceKits[key]`, a value whose `typeof` is 'object':
   * null throws, as does a list that is not an array or holds a null; every
   * field that is found is truthy or the field's default.
   */
  function MapKit(key: string, k: Json): (r: Result<Kit, JsError>)
    requires IsObjectType(k)
    ensures k.Null? ==> r == Err(NullKit(key))
    ensures r.Ok? ==> CanonicalKit(key, r.value)
    ensures r.Ok? ==> r.value.name == FirstTruthy(Prop(k, "Name"), Prop(k, "name"), Str(key))
  {
    if k.Null? then Err(NullKit(key))
    else
      var items := MapList(key, FirstTruthy(Prop(k, "MainItems"), Prop(k, "items"), Arr([])));
      var wear := MapList(key, FirstTruthy(Prop(k, "WearItems"), Prop(k, "wear"), Arr([])));
      var belt := MapList(key, FirstTruthy(Prop(k, "BeltItems"), Prop(k, "belt"), Arr([])));
      if items.Err? then Err(items.error)
      else if wear.Err? then Err(wear.error)
      else if belt.Err? then Err(belt.error)
      else
        Ok(Kit(
          name := FirstTruthy(Prop(k, "Name"), Prop(k, "name"), Str(key)),
          permission := FirstTruthy(Prop(k, "RequiredPermission"), Prop(k, "permission"), Str("")),
          image := FirstTruthy(Prop(k, "KitImage"), Prop(k, "image"), Str("")),
          description := FirstTruthy(Prop(k, "Description"), Prop(k, "description"), Str("")),
          cooldown := FirstTruthy(Prop(k, "Cooldown"), Prop(k, "cooldown"), Num(0.0)),
          max := FirstTruthy(Prop(k, "MaximumUses"), Prop(k, "max"), Num(0.0)),
          items := items.value, wear := wear.value, belt := belt.value))
  }

  /**
   * A kit value throws exactly when it is null or one of its three lists,
   * read as `PluginKey || lowerKey || []`, throws in `map`.
   */
  lemma MapKitThrows(key: string, k: Json)
    requires IsObjectType(k)
    ensures MapKit(key, k).Err? <==> (
      || k.Null?
      || ListThrows(FirstTruthy(Prop(k, "MainItems"), Prop(k, "items"), Arr([])))
      || ListThrows(FirstTruthy(Prop(k, "WearItems"), Prop(k, "wear"), Arr([])))
      || ListThrows(FirstTruthy(Prop(k, "BeltItems"), Prop(k, "belt"), Arr([]))))
  {
  }

  /**
   * The six settings of a kit it maps: each is `PluginKey || lowerKey ||
   * default`, and the name defaults to the key.
   */
  lemma MapKitReadsSettings(key: string, x: Json)
    requires IsObjectType(x) && MapKit(key, x).Ok?
    ensures var k' := MapKit(key, x).value;
      && k'.name == FirstTruthy(Prop(x, "Name"), Prop(x, "name"), Str(key))
      && k'.permission == FirstTruthy(Prop(x, "RequiredPermission"), Prop(x, "permission"), Str(""))
      && k'.image == FirstTruthy(Prop(x, "KitImage"), Prop(x, "image"), Str(""))
      && k'.description == FirstTruthy(Prop(x, "Description"), Prop(x, "description"), Str(""))
      && k'.cooldown == FirstTruthy(Prop(x, "Cooldown"), Prop(x, "cooldown"), Num(0.0))
      && k'.max == FirstTruthy(Prop(x, "MaximumUses"), Prop(x, "max"), Num(0.0))
  {
  }

  /**
   * The three lists of a kit value other than null: each is `(PluginKey ||
   * lowerKey || []).map(mapItem)`, and only they can make the kit throw.
   */
  lemma MapKitReadsLists(key: string, x: Json)
    requires IsObjectType(x) && !x.Null?
    ensures var items := MapList(key, FirstTruthy(Prop(x, "MainItems"), Prop(x, "items"), Arr([])));
      var wear := MapList(key, FirstTruthy(Prop(x, "WearItems"), Prop(x, "wear"), Arr([])));
      var belt := MapList(key, FirstTruthy(Prop(x, "BeltItems"), Prop(x, "belt"), Arr([])));
      && (MapKit(key, x).Ok? <==> items.Ok? && wear.Ok? && belt.Ok?)
      && (MapKit(key, x).Ok? ==>
            && MapKit(key, x).value.items == items.value
            && MapKit(key, x).value.wear == wear.value
            && MapKit(key, x).value.belt == belt.value)
  {
  }

  /**
   * The `forEach` over the source keys: values that are not objects are
   * skipped, the others are mapped and assigned to `newKits[key]`. The first
   * throw ends the import.
   */
  function CollectKits(src: seq<(string, Json)>, acc: Registry): (r: Result<Registry, JsError>)
    requires Canonical(acc)
    ensures r.Err? <==> exists j :: 0 <= j < |src| && IsObjectType(src[j].1) && MapKit(src[j].0, src[j].1).Err?
    ensures r.Ok? ==> Canonical(r.value) && |r.value| >= |acc|
    ensures r.Ok? ==> forall key :: key in OrderedMap.Keys(r.value) <==>
      key in OrderedMap.Keys(acc) || exists j :: 0 <= j < |src| && src[j].0 == key && IsObjectType(src[j].1)
    decreases |src|
  {
    if |src| == 0 then Ok(acc)
    else
      var key := src[0].0;
      var k := src[0].1;
      assert forall j :: 1 <= j < |src| ==> src[j] == src[1..][j - 1];
      if !IsObjectType(k) then CollectKits(src[1..], acc)
      else
        match MapKit(key, k)
        case Err(e) => Err(e)
        case Ok(kit) =>
          PutCanonical(acc, key, kit);
          CollectKits(src[1..], OrderedMap.Put(acc, key, kit))
  }

  /** Assigning a canonical kit keeps the registry canonical and adds at most its key. */
  lemma PutCanonical(acc: Registry, key: string, kit: Kit)
    requires Canonical(acc) && CanonicalKit(key, kit)
    ensures Canonical(OrderedMap.Put(acc, key, kit))
    ensures |OrderedMap.Put(acc, key, kit)| >= |acc|
    ensures forall k :: k in OrderedMap.Keys(OrderedMap.Put(acc, key, kit)) <==> k in OrderedMap.Keys(acc) || k == key
  {
    if key in OrderedMap.Keys(acc) {
      var i := OrderedMap.IndexOf(acc, key);
      OrderedMap.PutExisting(acc, i, kit);
      var r := acc[i := (key, kit)];
      assert OrderedMap.Keys(r) == OrderedMap.Keys(acc);
    } else {
      OrderedMap.PutNew(acc, key, kit);
      OrderedMap.UniqueAppend(acc, key, kit);
    }
  }

  /**
   * A key the source never assigns an object-typed value to keeps the value
   * the accumulator held under it.
   */
  lemma {:induction false} CollectKitsKeeps(src: seq<(string, Json)>, acc: Registry, key: string)
    requires Canonical(acc) && CollectKits(src, acc).Ok?
    requires forall j :: 0 <= j < |src| && src[j].0 == key ==> !IsObjectType(src[j].1)
    ensures OrderedMap.Lookup(CollectKits(src, acc).value, key) == OrderedMap.Lookup(acc, key)
    decreases |src|
  {
    if |src| > 0 {
      assert forall j :: 1 <= j < |src| ==> src[j] == src[1..][j - 1];
      if IsObjectType(src[0].1) {
        var kit := MapKit(src[0].0, src[0].1).value;
        PutCanonical(acc, src[0].0, kit);
        OrderedMap.LookupPut(acc, src[0].0, kit, key);
        CollectKitsKeeps(src[1..], OrderedMap.Put(acc, src[0].0, kit), key);
      } else {
        CollectKitsKeeps(src[1..], acc, key);
      }
    }
  }

  /**
   * `newKits[key] = {...}`: the kit held under a key is the one mapped from
   * the last object-typed value the source gives for it.
   */
  lemma {:induction false} CollectKitsLast(src: seq<(string, Json)>, acc: Registry, j: nat)
    requires Canonical(acc) && CollectKits(src, acc).Ok?
    requires j < |src| && IsObjectType(src[j].1)
    requires forall k :: j < k < |src| && src[k].0 == src[j].0 ==> !IsObjectType(src[k].1)
    ensures MapKit(src[j].0, src[j].1).Ok?
    ensures OrderedMap.Lookup(CollectKits(src, acc).value, src[j].0) == Some(MapKit(src[j].0, src[j].1).value)
    decreases |src|
  {
    assert forall k :: 1 <= k < |src| ==> src[k] == src[1..][k - 1];
    if j == 0 {
      var kit := MapKit(src[0].0, src[0].1).value;
      PutCanonical(acc, src[0].0, kit);
      OrderedMap.LookupPut(acc, src[0].0, kit, src[0].0);
      CollectKitsKeeps(src[1..], OrderedMap.Put(acc, src[0].0, kit), src[0].0);
    } else if IsObjectType(src[0].1) {
      var kit := MapKit(src[0].0, src[0].1).value;
      PutCanonical(acc, src[0].0, kit);
      CollectKitsLast(src[1..], OrderedMap.Put(acc, src[0].0, kit), j - 1);
    } else {
      CollectKitsLast(src[1..], acc, j - 1);
    }
  }

  /**
   * `Object.keys(v)` with `v[key]`: an object's own properties; an array's
   * indices as decimal strings; a string's indices, each with a
   * one-character string; nothing for numbers and booleans.
   */
  function OwnEntries(v: Json): (r: seq<(string, Json)>)
    ensures v.Obj? ==> r == v.fields
    ensures v.Arr? ==> |r| == |v.elems| && forall i :: 0 <= i < |r| ==> r[i] == (JsNumber.Decimal(i), v.elems[i])
    ensures v.Str? ==> |r| == |v.s| && forall j :: 0 <= j < |r| ==> r[j] == (JsNumber.Decimal(j), Str([v.s[j]]))
    ensures v.Null? || v.Bool? || v.Num? ==> r == []
  {
    match v
    case Obj(fields) => fields
    case Arr(elems) => seq(|elems|, i requires 0 <= i < |elems| => (JsNumber.Decimal(i), elems[i]))
    case Str(s) => seq(|s|, i requires 0 <= i < |s| => (JsNumber.Decimal(i), Str([s[i]])))
    case _ => []
  }

  /** `data._kits || data`: a truthy `_kits` property wraps the kits. */
  function SourceKits(data: Json): (src: Json)
    requires !data.Null?
    ensures TruthyProp(Prop(data, "_kits")) ==> src == Prop(data, "_kits").value
    ensures !TruthyProp(Prop(data, "_kits")) ==> src == data
  {
    var w := Prop(data, "_kits");
    if TruthyProp(w) then w.value else data
  }

  /** The keys of `kits` are exactly the keys `Object.keys(src)` lists with an object-typed value. */
  ghost predicate ImportedKeys(kits: Registry, src: Json)
  {
    forall key :: key in OrderedMap.Keys(kits) <==>
      exists j :: 0 <= j < |OwnEntries(src)| && OwnEntries(src)[j].0 == key && IsObjectType(OwnEntries(src)[j].1)
  }

  /** No value `Object.keys(src)` lists is object-typed, so the `forEach` assigns nothing. */
  predicate ObjectFree(src: Json)
  {
    forall j :: 0 <= j < |OwnEntries(src)| ==> !IsObjectType(OwnEntries(src)[j].1)
  }

  /**
   * The registry `processImportedData` builds, or the error it alerts:
   * a null document, a throw while mapping, or no kit at all.
   */
  function ImportKits(data: Json): (r: Result<Registry, JsError>)
    ensures data.Null? ==> r == Err(NullDocument)
    ensures r.Ok? ==> |r.value| > 0 && Canonical(r.value)
    ensures r.Ok? && TruthyProp(Prop(data, "_kits")) ==> ImportedKeys(r.value, Prop(data, "_kits").value)
    ensures r.Ok? && !TruthyProp(Prop(data, "_kits")) ==> ImportedKeys(r.value, data)
    ensures !data.Null? && ObjectFree(SourceKits(data)) ==> r == Err(NoKitsFound)
  {
    if data.Null? then Err(NullDocument)
    else
      match CollectKits(OwnEntries(SourceKits(data)), [])
      case Err(e) => Err(e)
      case Ok(kits) =>
        assert |kits| > 0 ==> OrderedMap.Keys(kits)[0] in OrderedMap.Keys(kits);
        if |kits| == 0 then Err(NoKitsFound) else Ok(kits)
  }

  /**
   * An import fails exactly for a null document, a source of kits without an
   * object-typed value, or an object-typed value that throws when mapped;
   * every other document is imported.
   */
  lemma ImportKitsFails(data: Json)
    ensures ImportKits(data).Err? <==> (
      || data.Null?
      || ObjectFree(SourceKits(data))
      || var src := OwnEntries(SourceKits(data));
         exists j :: 0 <= j < |src| && IsObjectType(src[j].1) && MapKit(src[j].0, src[j].1).Err?)
  {
    if !data.Null? && !ObjectFree(SourceKits(data)) {
      var src := OwnEntries(SourceKits(data));
      var j :| 0 <= j < |src| && IsObjectType(src[j].1);
      var c := CollectKits(src, []);
      if c.Ok? {
        assert src[j].0 in OrderedMap.Keys(c.value);
      }
    }
  }

  /**
   * processImportedData: on success the imported registry replaces `kits`
   * and its first kit becomes current; on any error the state is untouched.
   */
  function ProcessImportedData(s: State, data: Json): (r: State)
    ensures ImportKits(data).Err? ==> r == s
    ensures ImportKits(data).Ok? ==>
      r.kits == ImportKits(data).value && r.current == r.kits[0].0 && r.tab == s.tab
    ensures ImportKits(data).Ok? ==> Valid(r) && Canonical(r.kits)
    ensures Valid(s) ==> Valid(r)
    ensures Canonical(s.kits) ==> Canonical(r.kits)
  {
    match ImportKits(data)
    case Err(_) => s
    case Ok(kits) =>
      assert OrderedMap.Keys(kits)[0] == kits[0].0;
      State(kits, kits[0].0, s.tab)
  }

  /**
   * The kit imported under a key is the one `mapItem`/the field reads build
   * from the last object-typed value the source of kits gives for it.
   */
  lemma ImportKitsValues(data: Json, j: nat)
    requires !data.Null? && ImportKits(data).Ok?
    requires var src := OwnEntries(SourceKits(data));
      && j < |src| && IsObjectType(src[j].1)
      && forall k :: j < k < |src| && src[k].0 == src[j].0 ==> !IsObjectType(src[k].1)
    ensures var src := OwnEntries(SourceKits(data));
      && MapKit(src[j].0, src[j].1).Ok?
      && OrderedMap.Lookup(ImportKits(data).value, src[j].0) == Some(MapKit(src[j].0, src[j].1).value)
  {
    CollectKitsLast(OwnEntries(SourceKits(data)), [], j);
  }
}
