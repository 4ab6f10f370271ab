/**
 * The kit registry: creating, switching, copying, renaming and deleting
 * kits. The answers of the `prompt` and `confirm` dialogs are parameters:
 * None is a cancelled prompt. A refused operation (a name already in use,
 * the last kit) only shows an alert, so it returns the state unchanged.
 */
module KitRegistry {
  import opened Wrappers
  import opened JsValues
  import opened KitModel
  import OrderedMap

  /**
   * createNewKit(name, data): refused when `kits[name]` is truthy; otherwise
   * the given kit, or a fresh default one, is added last and becomes current.
   * The boolean is the function's return value.
   */
  function CreateNewKit(s: State, name: string, data: Option<Kit>): (r: (State, bool))
    ensures r.1 <==> !Defined(s.kits, name)
    ensures !r.1 ==> r.0 == s
    ensures r.1 ==> r.0 == State(s.kits + [(name, data.GetOr(DefaultKit(name)))], name, s.tab)
    ensures r.1 && OrderedMap.Unique(s.kits) ==> Valid(r.0)
    ensures Valid(s) ==> Valid(r.0)
  {
    if Defined(s.kits, name) then (s, false)
    else
      var kit := data.GetOr(DefaultKit(name));
      OrderedMap.PutNew(s.kits, name, kit);
      OrderedMap.UniqueAppend(s.kits, name, kit);
      assert OrderedMap.Keys(s.kits + [(name, kit)])[|s.kits|] == name;
      (SwitchKit(s.(kits := OrderedMap.Put(s.kits, name, kit)), name), true)
  }

  /** A fresh kit: named after its key, permission "kits." + name, no cooldown, no use limit, empty lists. */
  lemma DefaultKitShape(name: string)
    ensures var k := DefaultKit(name);
      && k.name == Str(name) && k.permission == Str("kits." + name)
      && k.image == Str("") && k.description == Str("")
      && k.cooldown == Num(0.0) && k.max == Num(0.0)
      && k.items == [] && k.wear == [] && k.belt == []
      && CanonicalKit(name, k)
  {
  }

  /**
   * switchKit(name): a name `kits[name]` answers to becomes current; any other
   * name changes nothing. The kit selector offers only registry keys.
   */
  function SwitchKit(s: State, name: string): (r: State)
    ensures name in OrderedMap.Keys(s.kits) ==> r.current == name
    ensures Defined(s.kits, name) ==> r == s.(current := name)
    ensures !Defined(s.kits, name) ==> r == s
    ensures r.kits == s.kits && r.tab == s.tab
    ensures name in OrderedMap.Keys(s.kits) && OrderedMap.Unique(s.kits) ==> Valid(r)
  {
    if Defined(s.kits, name) then s.(current := name) else s
  }

  /** The state at start-up with nothing saved: `createNewKit('default')` on an empty registry. */
  function InitialState(): (s: State)
    ensures Valid(s) && Canonical(s.kits)
    ensures s.kits == [("default", DefaultKit("default"))] && s.current == "default"
  {
    // Before start-up no kit is current; the name is not read by createNewKit.
    CreateNewKit(State([], "", Items), "default", None).0
  }

  /** promptNewKit: an answered, non-empty name is passed to createNewKit. */
  function PromptNewKit(s: State, answer: Option<string>): (r: State)
    requires Valid(s)
    ensures Valid(r)
    ensures answer.None? || answer == Some("") || Defined(s.kits, answer.value) ==> r == s
    ensures answer.Some? && answer.value != "" && !Defined(s.kits, answer.value) ==>
      r == State(s.kits + [(answer.value, DefaultKit(answer.value))], answer.value, s.tab)
    ensures Canonical(s.kits) ==> Canonical(r.kits)
  {
    if answer.None? || answer.value == "" then s
    else CreateNewKit(s, answer.value, None).0
  }

  /**
   * deleteCurrentKit: with one kit or none nothing happens; otherwise, once
   * confirmed, exactly the current kit is removed, the others keep their
   * order, and the first remaining kit becomes current.
   */
  function DeleteCurrentKit(s: State, confirmed: bool): (r: State)
    requires Valid(s)
    ensures Valid(r)
    ensures |s.kits| <= 1 || !confirmed ==> r == s
    ensures |s.kits| > 1 && confirmed ==>
      var i := CurrentIndex(s);
      && r.kits == s.kits[..i] + s.kits[i + 1..]
      && r.current == r.kits[0].0 && r.tab == s.tab
    ensures Canonical(s.kits) ==> Canonical(r.kits)
  {
    if |s.kits| <= 1 || !confirmed then s
    else
      var i := CurrentIndex(s);
      OrderedMap.RemoveAt(s.kits, i);
      OrderedMap.UniqueDrop(s.kits, i);
      var kits := OrderedMap.Remove(s.kits, s.current);
      assert OrderedMap.Keys(kits)[0] == kits[0].0;
      CanonicalDrop(s.kits, i);
      SwitchKit(s.(kits := kits), kits[0].0)
  }

  /** Dropping one kit keeps the rest canonical. */
  lemma CanonicalDrop(kits: Registry, i: nat)
    requires i < |kits|
    ensures Canonical(kits) ==> Canonical(kits[..i] + kits[i + 1..])
  {
    if Canonical(kits) {
      var r := kits[..i] + kits[i + 1..];
      OrderedMap.UniqueDrop(kits, i);
      forall a | 0 <= a < |r|
        ensures CanonicalKit(r[a].0, r[a].1)
      {
        assert r[a] == kits[if a < i then a else a + 1];
      }
    }
  }

  /** The current kit under a new name: the data is unchanged but for the `name` field. */
  function Renamed(s: State, newName: string): (k: Kit)
    requires Valid(s)
    ensures SameLists(k, CurrentKit(s)) && k.name == Str(newName)
    ensures k.permission == CurrentKit(s).permission && k.image == CurrentKit(s).image
    ensures k.description == CurrentKit(s).description
    ensures k.cooldown == CurrentKit(s).cooldown && k.max == CurrentKit(s).max
  {
    CurrentKit(s).(name := Str(newName))
  }

  predicate SameLists(a: Kit, b: Kit)
  {
    a.items == b.items && a.wear == b.wear && a.belt == b.belt
  }

  /**
   * promptRenameKit: a cancelled, empty or unchanged name, or one
   * `kits[name]` already answers to, changes nothing. Otherwise the current
   * kit moves to the new key, which goes last, its `name` field follows, the
   * old key is gone and the new name is current.
   */
  function PromptRenameKit(s: State, answer: Option<string>): (r: State)
    requires Valid(s)
    ensures Valid(r)
    ensures answer.None? || answer == Some("") || answer == Some(s.current) || Defined(s.kits, answer.value) ==> r == s
    ensures answer.Some? && answer.value != "" && answer.value != s.current && !Defined(s.kits, answer.value) ==>
      var i := CurrentIndex(s);
      && r.kits == s.kits[..i] + s.kits[i + 1..] + [(answer.value, Renamed(s, answer.value))]
      && |r.kits| == |s.kits| && r.current == answer.value && r.tab == s.tab
    ensures Canonical(s.kits) ==> Canonical(r.kits)
  {
    if answer.None? || answer.value == "" || answer.value == s.current then s
    else if Defined(s.kits, answer.value) then s
    else
      var newName := answer.value;
      var kits := MoveCurrent(s, newName);
      SwitchKit(State(kits, newName, s.tab), newName)
  }

  /** `kits[newName] = kits[current]; kits[newName].name = newName; delete kits[current]`. */
  function MoveCurrent(s: State, newName: string): (kits: Registry)
    requires Valid(s) && newName !in OrderedMap.Keys(s.kits)
    ensures var i := CurrentIndex(s);
      kits == s.kits[..i] + s.kits[i + 1..] + [(newName, Renamed(s, newName))]
    ensures OrderedMap.Unique(kits) && newName in OrderedMap.Keys(kits)
    ensures Canonical(s.kits) ==> Canonical(kits)
  {
    OrderedMap.MoveKey(s.kits, CurrentIndex(s), newName, Renamed(s, newName));
    var kits := OrderedMap.Remove(OrderedMap.Put(s.kits, newName, Renamed(s, newName)), s.current);
    MoveCurrentCanonical(s, newName);
    kits
  }

  lemma MoveCurrentCanonical(s: State, newName: string)
    requires Valid(s) && newName !in OrderedMap.Keys(s.kits)
    ensures var i := CurrentIndex(s);
      Canonical(s.kits) ==> Canonical(s.kits[..i] + s.kits[i + 1..] + [(newName, Renamed(s, newName))])
  {
    if !Canonical(s.kits) { return; }
    var i := CurrentIndex(s);
    var k := Renamed(s, newName);
    var kits := s.kits[..i] + s.kits[i + 1..] + [(newName, k)];
    OrderedMap.MoveKey(s.kits, i, newName, k);
    assert CanonicalKit(s.current, CurrentKit(s));
    assert CanonicalKit(newName, k);
    forall a | 0 <= a < |kits|
      ensures CanonicalKit(kits[a].0, kits[a].1)
    {
      if a < |kits| - 1 {
        assert kits[a] == s.kits[if a < i then a else a + 1];
      }
    }
  }

  /**
   * promptCopyKit: an answered, non-empty name gets a deep copy of the
   * current kit whose only difference is its `name` field, added last and
   * made current; refused like createNewKit when the name is in use. The
   * kit copied from is left as it was.
   */
  function PromptCopyKit(s: State, answer: Option<string>): (r: State)
    requires Valid(s)
    ensures Valid(r)
    ensures answer.None? || answer == Some("") || Defined(s.kits, answer.value) ==> r == s
    ensures answer.Some? && answer.value != "" && !Defined(s.kits, answer.value) ==>
      && r.kits == s.kits + [(answer.value, Renamed(s, answer.value))]
      && r.current == answer.value && r.tab == s.tab
    ensures Canonical(s.kits) ==> Canonical(r.kits)
  {
    if answer.None? || answer.value == "" then s
    else
      // JSON.parse(JSON.stringify(kit)) is a deep copy; values here share nothing.
      CreateNewKit(s, answer.value, Some(Renamed(s, answer.value))).0
  }
}
