/**
 * The item catalog: normalisation of the records read from the catalog file,
 * the category default, the lookup used by drag-and-drop, and the predicate
 * that decides which catalog cards the search box and category buttons show.
 */
module Catalog {
  import opened Wrappers

  /** One element of the catalog file; a field the file leaves out is None. */
  datatype CatalogRecord = CatalogRecord(
    shortName: Option<string>,
    shortname: Option<string>,
    displayName: Option<string>,
    category: Option<string>,
    iconUrl: Option<string>)

  /** A catalog item after normalisation. */
  datatype Item = Item(shortName: string, displayName: Option<string>, category: string, iconUrl: Option<string>)

  /** The category buttons, in the order they are shown; "all" shows every category. */
  const CategoryKeys: seq<string> := [
    "all", "Ammunition", "Attire", "Component", "Construction", "Electrical", "Food", "Fun",
    "Items", "Medical", "Misc", "Resources", "Tool", "Traps", "Weapon"]

  /** A string property is truthy when present and non-empty. */
  predicate Filled(p: Option<string>)
  {
    p.Some? && p.value != ""
  }

  /** getCategory: the item's own category, or "Misc" when it has none. */
  function GetCategory(category: Option<string>): (c: string)
    ensures c != ""
    ensures Filled(category) <==> Some(c) == category
    ensures !Filled(category) <==> c == "Misc" && category != Some("Misc")
  {
    if Filled(category) then category.value else "Misc"
  }

  /** The normalisation `init` applies to each record of the catalog file. */
  function Normalise(r: CatalogRecord): (item: Item)
    ensures Filled(r.shortName) ==> item.shortName == r.shortName.value
    ensures !Filled(r.shortName) && Filled(r.shortname) ==> item.shortName == r.shortname.value
    ensures item.shortName == "" <==> !Filled(r.shortName) && !Filled(r.shortname)
    ensures item.category == GetCategory(r.category)
    ensures item.displayName == r.displayName && item.iconUrl == r.iconUrl
  {
    var shortName := if Filled(r.shortName) then r.shortName.value
                     else if Filled(r.shortname) then r.shortname.value
                     else "";
    Item(shortName, r.displayName, GetCategory(r.category), r.iconUrl)
  }

  /** `data.map(...)` over the whole catalog file. */
  function NormaliseCatalog(data: seq<CatalogRecord>): (items: seq<Item>)
    ensures |items| == |data|
    ensures forall i :: 0 <= i < |data| ==> items[i] == Normalise(data[i])
    ensures forall i :: 0 <= i < |items| ==> items[i].category != ""
  {
    seq(|data|, i requires 0 <= i < |data| => Normalise(data[i]))
  }

  /** `allItems.find(i => i.shortName === shortname)`: the first item with that short name. */
  function FindByShortName(items: seq<Item>, shortname: string): (r: Option<Item>)
    ensures r.None? <==> forall i :: 0 <= i < |items| ==> items[i].shortName != shortname
    ensures r.Some? ==> exists i :: 0 <= i < |items| && items[i] == r.value
                          && r.value.shortName == shortname
                          && forall j :: 0 <= j < i ==> items[j].shortName != shortname
  {
    if |items| == 0 then None
    else if items[0].shortName == shortname then Some(items[0])
    else
      var r := FindByShortName(items[1..], shortname);
      assert r.Some? ==> exists i :: 0 <= i < |items| && items[i] == r.value
                          && r.value.shortName == shortname
                          && forall j :: 0 <= j < i ==> items[j].shortName != shortname
      by {
        if r.Some? {
          var i :| 0 <= i < |items[1..]| && items[1..][i] == r.value
                   && forall j :: 0 <= j < i ==> items[1..][j].shortName != shortname;
          assert items[i + 1] == r.value;
        }
      }
      r
  }

  /** `toLowerCase` on one character; only the ASCII letters are modelled. */
  function LowerChar(c: char): char
  {
    if 'A' <= c <= 'Z' then (c as int + 32) as char else c
  }

  function Lower(s: string): (r: string)
    ensures |r| == |s|
  {
    seq(|s|, i requires 0 <= i < |s| => LowerChar(s[i]))
  }

  /** `s.includes(t)`. */
  predicate Contains(s: string, t: string)
    decreases |s|
  {
    if |t| <= |s| && s[..|t|] == t then true
    else if |s| == 0 then false
    else Contains(s[1..], t)
  }

  /** `t` occurs in `s` starting at position `i`. */
  predicate OccursAt(s: string, t: string, i: int)
  {
    0 <= i <= |s| - |t| && s[i..i + |t|] == t
  }

  /** `includes` holds exactly when `t` occurs at some position of `s`. */
  lemma {:induction false} ContainsOccurs(s: string, t: string)
    ensures Contains(s, t) <==> exists i :: OccursAt(s, t, i)
    decreases |s|
  {
    if |t| <= |s| && s[..|t|] == t {
      assert OccursAt(s, t, 0);
    } else if |s| > 0 {
      ContainsOccurs(s[1..], t);
      if exists i :: OccursAt(s, t, i) {
        var i :| OccursAt(s, t, i);
        assert OccursAt(s[1..], t, i - 1);
      }
      if exists i :: OccursAt(s[1..], t, i) {
        var i :| OccursAt(s[1..], t, i);
        assert OccursAt(s, t, i + 1);
      }
    }
  }

  /** The filter of `filterAndRenderItems`: the search term matches the display or short name, ignoring case, and the category matches. */
  predicate Matches(item: Item, term: string, category: string)
    ensures Matches(item, term, category) ==> category == "all" || item.category == category
    ensures Matches(item, term, category) ==> |term| <= |item.displayName.GetOr("")| || |term| <= |item.shortName|
    ensures term == "" ==> (Matches(item, term, category) <==> category == "all" || item.category == category)
  {
    var t := Lower(term);
    var name := Lower(item.displayName.GetOr(""));
    var sname := Lower(item.shortName);
    ContainsLength(name, t);
    ContainsLength(sname, t);
    (Contains(name, t) || Contains(sname, t)) && (category == "all" || item.category == category)
  }

  /** A string contains nothing longer than itself, and contains the empty string. */
  lemma {:induction false} ContainsLength(s: string, t: string)
    ensures Contains(s, t) ==> |t| <= |s|
    ensures |t| == 0 ==> Contains(s, t)
    decreases |s|
  {
    if !(|t| <= |s| && s[..|t|] == t) && |s| > 0 {
      ContainsLength(s[1..], t);
    }
  }

  /** The cards shown: the matching items, in catalog order. */
  function FilterItems(items: seq<Item>, term: string, category: string): (r: seq<Item>)
    ensures |r| <= |items|
    ensures forall x :: x in r <==> x in items && Matches(x, term, category)
    ensures (forall i :: 0 <= i < |items| ==> Matches(items[i], term, category)) ==> r == items
  {
    if |items| == 0 then []
    else
      var rest := FilterItems(items[1..], term, category);
      assert items == [items[0]] + items[1..];
      if Matches(items[0], term, category) then [items[0]] + rest else rest
  }

  /** Filtering keeps catalog order: the cards of two runs of items are the cards of each, in turn. */
  lemma {:induction false} FilterConcat(a: seq<Item>, b: seq<Item>, term: string, category: string)
    ensures FilterItems(a + b, term, category) == FilterItems(a, term, category) + FilterItems(b, term, category)
    decreases |a|
  {
    if |a| > 0 {
      assert (a + b)[1..] == a[1..] + b;
      FilterConcat(a[1..], b, term, category);
    } else {
      assert a + b == b;
    }
  }

  /** With an empty search box and the "all" button every catalog item is shown. */
  lemma ShowAll(items: seq<Item>)
    ensures FilterItems(items, "", "all") == items
  {
    forall i | 0 <= i < |items|
      ensures Matches(items[i], "", "all")
    {
      assert Lower(items[i].shortName)[..0] == "";
    }
  }

  /** A record without a category lands under the "Misc" button. */
  lemma MissingCategoryIsMisc(r: CatalogRecord)
    requires !Filled(r.category)
    ensures Normalise(r).category == "Misc" && "Misc" in CategoryKeys
    ensures Matches(Normalise(r), "", "Misc")
  {
    assert Lower(Normalise(r).shortName)[..0] == "";
  }
}
