/**
 * The list store: the handlers that edit the entry lists and the settings of
 * the current kit. A handler whose `currentKitName` is falsy (the empty
 * name) returns at once and changes nothing.
 */
module ListStore {
  import opened Wrappers
  import opened JsValues
  import opened KitModel
  import JsNumber
  import Catalog

  /** The kit `r` holds as current keeps `s`'s settings and every list but the one of tab `t`. */
  predicate OnlyListChanged(s: State, r: State, t: Tab)
    requires Valid(s) && Valid(r)
  {
    && OnlyCurrentChanged(s, r)
    && SameSettings(CurrentKit(r), CurrentKit(s))
    && forall u :: u != t ==> CurrentKit(r).List(u) == CurrentKit(s).List(u)
  }

  /** The entry `addItemToKit` builds from a catalog item. */
  function NewEntry(item: Catalog.Item): (e: Entry)
    ensures e.shortname == Str(item.shortName) && e.displayName == item.displayName
    ensures e.amount == Num(1.0) && e.skinid == Num(0.0) && e.customName == None
    ensures Truthy(e.iconUrl) <==> Catalog.Filled(item.iconUrl)
    ensures CanonicalEntry(e)
  {
    var icon := if Catalog.Filled(item.iconUrl) then item.iconUrl.value else "";
    Entry(Str(item.shortName), item.displayName, Num(1.0), Num(0.0), None, Str(icon))
  }

  /** addItemToKit: the new entry goes last in the current tab's list of the current kit. */
  function AddItemToKit(s: State, item: Catalog.Item): (r: State)
    requires Valid(s)
    ensures Valid(r)
    ensures s.current == "" ==> r == s
    ensures s.current != "" ==> OnlyListChanged(s, r, s.tab)
    ensures s.current != "" ==> CurrentKit(r).List(s.tab) == CurrentKit(s).List(s.tab) + [NewEntry(item)]
    ensures Canonical(s.kits) ==> Canonical(r.kits)
  {
    if s.current == "" then s
    else
      var k := CurrentKit(s);
      var k' := k.WithList(s.tab, k.List(s.tab) + [NewEntry(item)]);
      assert CanonicalKit(s.current, k) ==> CanonicalKit(s.current, k');
      CanonicalWithCurrentKit(s, k');
      WithCurrentKit(s, k')
  }

  /** The position `splice(index, 1)` starts at: negative indices count from the end. */
  function SpliceStart(len: nat, index: int): (start: nat)
    ensures start <= len
    ensures 0 <= index <= len ==> start == index
    ensures -(len as int) <= index < 0 ==> start as int == len as int + index
  {
    if index < 0 then (if len + index < 0 then 0 else len + index)
    else if index > len then len
    else index
  }

  /** `l.splice(index, 1)`: drops at most one element and keeps the rest in order. */
  function SpliceOne<T>(l: seq<T>, index: int): (r: seq<T>)
    ensures 0 <= index < |l| ==> r == l[..index] + l[index + 1..]
    ensures index >= |l| ==> r == l
    ensures -|l| <= index < 0 ==> r == l[..|l| + index] + l[|l| + index + 1..]
    ensures index < -|l| && |l| > 0 ==> r == l[1..]
    ensures |r| == if |l| == 0 || index >= |l| then |l| else |l| - 1
  {
    var start := SpliceStart(|l|, index);
    if start < |l| then l[..start] + l[start + 1..] else l
  }

  /** removeKitItem(index). */
  function RemoveKitItem(s: State, index: int): (r: State)
    requires Valid(s)
    ensures Valid(r)
    ensures s.current == "" ==> r == s
    ensures s.current != "" ==> OnlyListChanged(s, r, s.tab)
    ensures s.current != "" ==> CurrentKit(r).List(s.tab) == SpliceOne(CurrentKit(s).List(s.tab), index)
    ensures Canonical(s.kits) ==> Canonical(r.kits)
  {
    if s.current == "" then s
    else
      var k := CurrentKit(s);
      var l := k.List(s.tab);
      var k' := k.WithList(s.tab, SpliceOne(l, index));
      assert CanonicalKit(s.current, k) ==> CanonicalKit(s.current, k') by {
        SpliceCanonical(l, index);
      }
      CanonicalWithCurrentKit(s, k');
      WithCurrentKit(s, k')
  }

  /** Every entry left by a splice was in the list before. */
  lemma SpliceCanonical(l: seq<Entry>, index: int)
    ensures CanonicalList(l) ==> CanonicalList(SpliceOne(l, index))
  {
    if CanonicalList(l) {
      var start := SpliceStart(|l|, index);
      var r := SpliceOne(l, index);
      forall j | 0 <= j < |r|
        ensures CanonicalEntry(r[j])
      {
        if start < |l| {
          assert r == l[..start] + l[start + 1..];
          assert r[j] == l[if j < start then j else j + 1];
        } else {
          assert r == l;
        }
      }
    }
  }

  /** Removing the entry just added restores the state. */
  lemma RemoveUndoesAdd(s: State, item: Catalog.Item)
    requires Valid(s) && s.current != ""
    ensures RemoveKitItem(AddItemToKit(s, item), |CurrentKit(s).List(s.tab)|) == s
  {
    var a := AddItemToKit(s, item);
    var r := RemoveKitItem(a, |CurrentKit(s).List(s.tab)|);
    var l := CurrentKit(s).List(s.tab);
    assert (l + [NewEntry(item)])[..|l|] == l;
    assert CurrentKit(r).List(s.tab) == l;
    assert CurrentKit(r) == CurrentKit(s);
    assert r.kits == s.kits;
  }

  /** `r`'s current kit has `e` at `index` of the current tab's list and is otherwise `s`'s. */
  predicate EntryReplaced(s: State, r: State, index: nat, e: Entry)
    requires Valid(s) && Valid(r)
    requires index < |CurrentKit(s).List(s.tab)|
  {
    OnlyListChanged(s, r, s.tab) && CurrentKit(r).List(s.tab) == CurrentKit(s).List(s.tab)[index := e]
  }

  /** Whether `list[index]` is an entry, so that assigning one of its fields does not throw. */
  predicate HasEntry(s: State, index: int)
    requires Valid(s)
  {
    0 <= index < |CurrentKit(s).List(s.tab)|
  }

  /** The state with entry `index` of the current tab's list replaced by `e`. */
  function WithEntry(s: State, index: nat, e: Entry): (r: State)
    requires Valid(s) && index < |CurrentKit(s).List(s.tab)|
    ensures Valid(r) && EntryReplaced(s, r, index, e)
    ensures Canonical(s.kits) && CanonicalEntry(e) ==> Canonical(r.kits)
  {
    var k := CurrentKit(s);
    var k' := k.WithList(s.tab, k.List(s.tab)[index := e]);
    assert CanonicalKit(s.current, k) && CanonicalEntry(e) ==> CanonicalKit(s.current, k');
    CanonicalWithCurrentKit(s, k');
    WithCurrentKit(s, k')
  }

  /** `parseInt(val) || 1` as stored: the parsed number, or 1 for NaN and 0; never falsy. */
  function AmountInput(val: string): (a: Json)
    ensures Truthy(a)
  {
    var n := JsNumber.ParseIntOr(val, 1);
    assert n != 0;
    Num(n as real)
  }

  /** `parseInt(val) || 0` as stored for skin ids, cooldowns and max uses: the parsed number, or 0 for NaN. */
  function CountInput(val: string): (c: Json)
    ensures CanonicalField(c, Num(0.0))
  {
    Num(JsNumber.ParseIntOr(val, 0) as real)
  }

  /** updateItemAmount(index, val): the amount becomes `parseInt(val) || 1`. */
  function UpdateItemAmount(s: State, index: int, val: string): (r: Result<State, JsError>)
    requires Valid(s)
    ensures r.Err? <==> s.current != "" && !HasEntry(s, index)
    ensures r.Err? ==> r.error == NoEntryAt(index)
    ensures s.current == "" ==> r == Ok(s)
    ensures r.Ok? ==> Valid(r.value)
    ensures r.Ok? && s.current != "" ==>
      var e := CurrentKit(s).List(s.tab)[index];
      EntryReplaced(s, r.value, index, e.(amount := AmountInput(val)))
    ensures r.Ok? && Canonical(s.kits) ==> Canonical(r.value.kits)
  {
    if s.current == "" then Ok(s)
    else if !HasEntry(s, index) then Err(NoEntryAt(index))
    else
      var e := CurrentKit(s).List(s.tab)[index];
      var e' := e.(amount := AmountInput(val));
      assert CanonicalEntry(e) ==> CanonicalEntry(e');
      Ok(WithEntry(s, index, e'))
  }

  /** updateItemSkin(index, val): the skin id becomes `parseInt(val) || 0`. */
  function UpdateItemSkin(s: State, index: int, val: string): (r: Result<State, JsError>)
    requires Valid(s)
    ensures r.Err? <==> s.current != "" && !HasEntry(s, index)
    ensures r.Err? ==> r.error == NoEntryAt(index)
    ensures s.current == "" ==> r == Ok(s)
    ensures r.Ok? ==> Valid(r.value)
    ensures r.Ok? && s.current != "" ==>
      var e := CurrentKit(s).List(s.tab)[index];
      EntryReplaced(s, r.value, index, e.(skinid := CountInput(val)))
    ensures r.Ok? && Canonical(s.kits) ==> Canonical(r.value.kits)
  {
    if s.current == "" then Ok(s)
    else if !HasEntry(s, index) then Err(NoEntryAt(index))
    else
      var e := CurrentKit(s).List(s.tab)[index];
      var e' := e.(skinid := CountInput(val));
      assert CanonicalEntry(e) ==> CanonicalEntry(e');
      Ok(WithEntry(s, index, e'))
  }

  /** updateItemName(index, val): the custom name becomes the text as typed. */
  function UpdateItemName(s: State, index: int, val: string): (r: Result<State, JsError>)
    requires Valid(s)
    ensures r.Err? <==> s.current != "" && !HasEntry(s, index)
    ensures r.Err? ==> r.error == NoEntryAt(index)
    ensures s.current == "" ==> r == Ok(s)
    ensures r.Ok? ==> Valid(r.value)
    ensures r.Ok? && s.current != "" ==>
      var e := CurrentKit(s).List(s.tab)[index];
      EntryReplaced(s, r.value, index, e.(customName := Some(Str(val))))
    ensures r.Ok? && Canonical(s.kits) ==> Canonical(r.value.kits)
  {
    if s.current == "" then Ok(s)
    else if !HasEntry(s, index) then Err(NoEntryAt(index))
    else
      var e := CurrentKit(s).List(s.tab)[index];
      Ok(WithEntry(s, index, e.(customName := Some(Str(val)))))
  }

  /** A kit with the five settings fields replaced. */
  function WithSettings(k: Kit, permission: string, image: string, cooldown: Json, max: Json, description: string): (k': Kit)
  {
    k.(permission := Str(permission), image := Str(image), description := Str(description),
       cooldown := cooldown, max := max)
  }

  /** Settings typed as text, and numbers that are truthy or 0, keep a canonical kit canonical. */
  lemma WithSettingsCanonical(key: string, k: Kit, permission: string, image: string, cooldown: Json, max: Json, description: string)
    requires CanonicalField(cooldown, Num(0.0)) && CanonicalField(max, Num(0.0))
    ensures CanonicalKit(key, k) ==> CanonicalKit(key, WithSettings(k, permission, image, cooldown, max, description))
  {
  }

  /**
   * updateCurrentKitDataFromInputs: the settings inputs overwrite the current
   * kit's permission, image and description as typed, and its cooldown and
   * max as `parseInt(v) || 0`. The name and the lists are left alone.
   */
  function UpdateCurrentKitDataFromInputs(
    s: State, permission: string, image: string, cooldown: string, max: string, description: string): (r: State)
    requires Valid(s)
    ensures Valid(r)
    ensures s.current == "" ==> r == s
    ensures s.current != "" ==> OnlyCurrentChanged(s, r)
    ensures s.current != "" ==>
      var k, k' := CurrentKit(s), CurrentKit(r);
      && k'.name == k.name && k'.items == k.items && k'.wear == k.wear && k'.belt == k.belt
      && k'.permission == Str(permission) && k'.image == Str(image) && k'.description == Str(description)
      && k'.cooldown == CountInput(cooldown) && k'.max == CountInput(max)
    ensures Canonical(s.kits) ==> Canonical(r.kits)
  {
    if s.current == "" then s
    else
      var k' := WithSettings(CurrentKit(s), permission, image, CountInput(cooldown), CountInput(max), description);
      WithSettingsCanonical(s.current, CurrentKit(s), permission, image, CountInput(cooldown), CountInput(max), description);
      CanonicalWithCurrentKit(s, k');
      WithCurrentKit(s, k')
  }

  /** clearCurrentKit: once confirmed, the three lists of the current kit are emptied and nothing else changes. */
  function ClearCurrentKit(s: State, confirmed: bool): (r: State)
    requires Valid(s)
    ensures Valid(r)
    ensures s.current == "" || !confirmed ==> r == s
    ensures s.current != "" && confirmed ==>
      && OnlyCurrentChanged(s, r) && SameSettings(CurrentKit(r), CurrentKit(s))
      && forall t :: CurrentKit(r).List(t) == []
    ensures Canonical(s.kits) ==> Canonical(r.kits)
  {
    if s.current == "" || !confirmed then s
    else
      var k' := CurrentKit(s).(items := [], wear := [], belt := []);
      CanonicalWithCurrentKit(s, k');
      WithCurrentKit(s, k')
  }
}
