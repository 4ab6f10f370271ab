/**
 * The editor's state: the registry of kits (the `kits` object), the name of
 * the current kit (`currentKitName`) and the selected entry list
 * (`currentTab`), with the invariants the editing operations keep.
 */
module KitModel {
  import opened Wrappers
  import opened JsValues
  import OrderedMap

  /** The three entry lists of a kit, as the tab buttons name them. */
  datatype Tab = Items | Wear | Belt

  /**
   * One entry of a kit list. Fields hold whatever JSON value was stored:
   * the editor writes numbers and strings, the importer copies what it finds.
   * `displayName` is written only by the catalog, `customName` only by the
   * custom-name input and the importer; None is an absent property.
   */
  datatype Entry = Entry(
    shortname: Json,
    displayName: Option<string>,
    amount: Json,
    skinid: Json,
    customName: Option<Json>,
    iconUrl: Json)

  /** One kit: its settings and its three entry lists. */
  datatype Kit = Kit(
    name: Json,
    permission: Json,
    image: Json,
    description: Json,
    cooldown: Json,
    max: Json,
    items: seq<Entry>,
    wear: seq<Entry>,
    belt: seq<Entry>)
  {
    /** `kit[tab]`. */
    function List(t: Tab): seq<Entry>
    {
      match t
      case Items => items
      case Wear => wear
      case Belt => belt
    }

    /** The kit with list `t` replaced and everything else kept. */
    function WithList(t: Tab, l: seq<Entry>): (k: Kit)
      ensures k.List(t) == l
      ensures forall u :: u != t ==> k.List(u) == List(u)
      ensures SameSettings(k, this)
    {
      match t
      case Items => this.(items := l)
      case Wear => this.(wear := l)
      case Belt => this.(belt := l)
    }
  }

  /** Two kits agree on everything but their lists. */
  predicate SameSettings(a: Kit, b: Kit)
  {
    && a.name == b.name && a.permission == b.permission && a.image == b.image
    && a.description == b.description && a.cooldown == b.cooldown && a.max == b.max
  }

  /** The `kits` object: kit names to kits, in enumeration order. */
  type Registry = seq<(string, Kit)>

  /** `kits`, `currentKitName` and `currentTab`. */
  datatype State = State(kits: Registry, current: string, tab: Tab)

  /** Why a handler or the importer threw. */
  datatype JsError =
    | NullDocument          // reading `_kits` of null
    | NullKit(key: string)  // reading a field of a null kit
    | NotAList(key: string) // `.map` on a value that is not an array
    | NullEntry(key: string) // `mapItem` reading a field of null
    | NoKitsFound           // the importer's own `throw new Error("No kits found")`
    | NoEntryAt(index: int) // assigning a field of `list[index]` when it is undefined

  /**
   * The properties every object inherits from Object.prototype. `kits[name]`
   * is truthy for these even when no kit has that name.
   */
  const ObjectPrototypeNames: set<string> := {
    "constructor", "hasOwnProperty", "isPrototypeOf", "propertyIsEnumerable",
    "toLocaleString", "toString", "valueOf", "__proto__",
    "__defineGetter__", "__defineSetter__", "__lookupGetter__", "__lookupSetter__"}

  /** `kits[name]` is truthy: a kit has that name, or Object.prototype answers to it. */
  predicate Defined(kits: Registry, name: string)
    ensures name in OrderedMap.Keys(kits) ==> Defined(kits, name)
    ensures name in ObjectPrototypeNames ==> Defined(kits, name)
    ensures kits == [] ==> (Defined(kits, name) <==> name in ObjectPrototypeNames)
  {
    name in OrderedMap.Keys(kits) || name in ObjectPrototypeNames
  }

  /** After start-up the registry is a proper object and the current name is one of its keys. */
  predicate Valid(s: State)
  {
    OrderedMap.Unique(s.kits) && s.current in OrderedMap.Keys(s.kits)
  }

  /** The position of the current kit in the registry. */
  function CurrentIndex(s: State): (i: nat)
    requires Valid(s)
    ensures i < |s.kits| && s.kits[i].0 == s.current
  {
    OrderedMap.IndexOf(s.kits, s.current)
  }

  /** `kits[currentKitName]`. */
  function CurrentKit(s: State): (k: Kit)
    requires Valid(s)
    ensures k == s.kits[CurrentIndex(s)].1
  {
    OrderedMap.Lookup(s.kits, s.current).value
  }

  /** `r` differs from `s` in the current kit at most: same names in the same order, same current kit, same tab. */
  predicate OnlyCurrentChanged(s: State, r: State)
    requires Valid(s)
  {
    var i := CurrentIndex(s);
    && r.current == s.current && r.tab == s.tab
    && |r.kits| == |s.kits| && r.kits[i].0 == s.current
    && forall j :: 0 <= j < |s.kits| && j != i ==> r.kits[j] == s.kits[j]
  }

  /** The state with the current kit replaced by `k`. */
  function WithCurrentKit(s: State, k: Kit): (r: State)
    requires Valid(s)
    ensures Valid(r) && OnlyCurrentChanged(s, r) && CurrentKit(r) == k
  {
    var i := CurrentIndex(s);
    OrderedMap.PutExisting(s.kits, i, k);
    var r := s.(kits := OrderedMap.Put(s.kits, s.current, k));
    assert OrderedMap.Keys(r.kits) == OrderedMap.Keys(s.kits);
    OrderedMap.LookupPut(s.kits, s.current, k, s.current);
    r
  }

  /** The kit `createNewKit(name)` makes when no data is given. */
  function DefaultKit(name: string): (k: Kit)
  {
    Kit(Str(name), Str("kits." + name), Str(""), Str(""), Num(0.0), Num(0.0), [], [], [])
  }

  /*
   * Canonical values: each field holds what the importer would produce for it
   * again — a truthy value or the importer's default for that field.
   */

  predicate CanonicalEntry(e: Entry)
  {
    CanonicalField(e.shortname, Str("")) && Truthy(e.amount) && CanonicalField(e.skinid, Num(0.0))
  }

  predicate CanonicalList(l: seq<Entry>)
  {
    forall i :: 0 <= i < |l| ==> CanonicalEntry(l[i])
  }

  /** A kit stored under `key`; the importer's default name is the key. */
  predicate CanonicalKit(key: string, k: Kit)
  {
    && CanonicalField(k.name, Str(key)) && CanonicalField(k.image, Str("")) && CanonicalField(k.description, Str(""))
    && CanonicalField(k.permission, Str("")) && CanonicalField(k.cooldown, Num(0.0)) && CanonicalField(k.max, Num(0.0))
    && CanonicalList(k.items) && CanonicalList(k.wear) && CanonicalList(k.belt)
  }

  predicate Canonical(kits: Registry)
  {
    OrderedMap.Unique(kits) && forall i :: 0 <= i < |kits| ==> CanonicalKit(kits[i].0, kits[i].1)
  }

  /** Replacing the current kit by a canonical one keeps the registry canonical. */
  lemma CanonicalWithCurrentKit(s: State, k: Kit)
    requires Valid(s)
    ensures Canonical(s.kits) && CanonicalKit(s.current, k) ==> Canonical(WithCurrentKit(s, k).kits)
  {
    if Canonical(s.kits) && CanonicalKit(s.current, k) {
      var r := WithCurrentKit(s, k);
      forall j | 0 <= j < |r.kits|
        ensures CanonicalKit(r.kits[j].0, r.kits[j].1)
      {
        if j == CurrentIndex(s) {
          assert r.kits[j].1 == CurrentKit(r);
        }
      }
    }
  }
}
