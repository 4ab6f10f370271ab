# Rust kit builder: the kit-editing core in Dafny

The kit builder is a browser page for writing kit files for a Rust game
server plugin. Under its DOM handlers, `kitbuilder.js` holds a small,
sequential data model:

- a registry of named kits (the `kits` object, in key order);
- the name of the current kit (`currentKitName`);
- the selected entry list (`currentTab`: items, wear or belt).

The handlers create, copy, rename, switch and delete kits. They also append,
remove and edit list entries, and edit a kit's settings. The exporter
(`updateJSON`, `cleanItem`) writes the registry as a JSON value. The importer
(`processImportedData`, `mapItem`) reads one back, accepting the plugin's
capitalised keys as well as the editor's own. A small catalog layer
normalises the item list, supplies the category default and filters the
item cards.

This project models that core as pure functions over immutable values.

- **Values.** JSON values are a datatype with JavaScript truthiness. An
  absent property is `None`. `a || b || d` is `FirstTruthy`. A JavaScript
  object is an ordered association list: assigning a new key appends it,
  assigning an existing key keeps its position, and `delete` removes it.
- **State.** `State(kits, current, tab)`. `Valid` means the keys are unique
  and the current name is one of them. Start-up establishes it, and every
  handler keeps it.
- **Empty current name.** The empty name is falsy. With it as the current
  name, the list handlers return at once, as in the code. An import can make
  `""` current if the document's first key is `""`.
- **Guards.** `kits[name]` is truthy not only for a kit name but also for
  every property every object inherits from `Object.prototype`
  (`toString`, `constructor`, …). So creating, copying or renaming to such a
  name is refused like a duplicate. `Defined` models this.
- **Refusals and throws.** A refused operation (a name in use, deleting the
  last kit) is an alert, and the state is returned unchanged. A handler that
  throws returns `Err`; for an entry update at an index with no entry, the
  editor state is left as it was. Importing a document that throws while
  mapping, or that yields no kit, also leaves `kits` and the current name
  untouched: `kits` is only reassigned after the whole document is mapped.
- **Numeric inputs.** `parseInt(v) || 1` and `parseInt(v) || 0` are modelled
  with a `parseInt` that:
  - skips JavaScript white space;
  - takes an optional sign and a `0x` prefix;
  - reads the longest digit run.
  So "3.9" stores 3, "-5" stores -5, and "0", "" and "abc" store 1 as an
  amount.
- **Canonical registries.** A registry is *canonical* (`Canonical`) when every
  field holds a truthy value or the importer's default for that field:
  - a kit's `name` is truthy or equal to its key;
  - every amount is truthy.
  Every handler keeps a registry canonical, and start-up produces a canonical
  one.
- **Self round trip.** For every canonical, non-empty registry without a kit
  named `_kits`, exporting, importing and exporting again gives the first export
  back, with the same keys in the same order. Hence this holds in every state
  the model can reach, unless a kit is named `_kits`. In the program, a
  numeral too long for a double breaks it too (see "## Left out").
- **The `_kits` exception.** A kit named `_kits` is read back as the
  importer's `_kits` wrapper: its lists become three kits named `items`,
  `wear` and `belt`. `RoundTrip.KitsKeyBreaksRoundTrip` proves this.

Some behaviour of `kitbuilder.js` worth stating plainly, since the model
keeps it as written:

- refusals (a name in use, deleting the last kit) are an alert and leave
  the state as it was; no error value reaches the caller;
- the amount is `parseInt(v) || 1`, so a negative amount is stored as
  typed, not raised to 1;
- the importer unwraps a truthy `_kits` property and takes every value whose
  `typeof` is `'object'` as a kit, whatever fields it has;
- list entries carry no slot or position: a list is ordered by insertion only.

Modules, in dependency order:

- `Wrappers`
- `OrderedMap` (JavaScript object semantics)
- `JsValues`
- `JsNumber` (`parseInt`)
- `Catalog`
- `KitModel` (state, invariants)
- `KitRegistry`
- `ListStore`
- `Exporter`
- `Importer`
- `RoundTrip`
- `Editor` (all user actions as commands; reachability)

## Model

| member | source | states |
|---|---|---|
| Catalog.GetCategory | kitbuilder.js:57-60 | the item's own category exactly when it has a non-empty one, otherwise "Misc"; never empty |
| Catalog.Normalise | kitbuilder.js:68-72 | `shortName` is taken from `shortName`, else `shortname`, else empty (empty exactly when both are missing or empty); the category is `getCategory`'s; the other fields are kept |
| Catalog.NormaliseCatalog | kitbuilder.js:68-72 | one normalised item per catalog record, in order, each with a non-empty category |
| Catalog.FindByShortName | kitbuilder.js:326 | nothing exactly when no item has the short name; otherwise an item with that short name that no earlier item has |
| Catalog.ContainsOccurs | kitbuilder.js:135 | `includes` holds exactly when the term occurs at some position of the name |
| Catalog.Matches | kitbuilder.js:133-137 | a matching item is in the selected category (or "all" is selected), and the term is no longer than its display or short name; with an empty term exactly the category decides |
| Catalog.FilterItems | kitbuilder.js:130-140 | an item is shown exactly when it is in the catalog, its display or short name contains the lower-cased term, and the category is "all" or its own; when every item matches, all are shown |
| Catalog.FilterConcat | kitbuilder.js:132-138 | filtering keeps catalog order: filtering two consecutive runs of items is filtering each and concatenating |
| Catalog.ShowAll | kitbuilder.js:130-140 | with an empty search term and the "all" category, the whole catalog is shown |
| Catalog.MissingCategoryIsMisc | kitbuilder.js:58 | a record without a category is filed as "Misc", which is one of the category buttons, and is shown under it |
| OrderedMap.Lookup | kitbuilder.js:258 | a property is found exactly when the key is present, with the value stored at its first occurrence |
| OrderedMap.PutNew | kitbuilder.js:247 | assigning a key that is absent appends it last |
| OrderedMap.PutExisting | kitbuilder.js:419 | assigning a key that is present replaces its value in place |
| OrderedMap.RemoveAt | kitbuilder.js:286 | `delete` of a present key removes exactly that pair, keeping the others in order |
| OrderedMap.MoveKey | kitbuilder.js:297-299 | assigning a new key and deleting an old one moves the pair to the end under the new key; keys stay unique |
| OrderedMap.LookupPut | kitbuilder.js:247 | after an assignment the assigned key reads the new value and every other key reads what it read before |
| JsValues.Prop | kitbuilder.js:419-428 | a property read finds something exactly when the value is an object with that key |
| JsValues.FirstTruthy | kitbuilder.js:420-428 | `a \|\| b \|\| d`: the first operand when truthy, else the second when truthy, else the default; the result is truthy or the default |
| JsValues.FirstTruthyStable | kitbuilder.js:420-428 | a value that is truthy or already the default resolves to itself, whichever alias it is found under |
| JsNumber.TrimStart | kitbuilder.js:346 | the leading JavaScript white space is dropped, and the rest starts with no white space |
| JsNumber.DigitPrefix | kitbuilder.js:346 | the longest prefix made of digits of the radix |
| JsNumber.ParseInt | kitbuilder.js:346 | a number only when a decimal digit follows the white space and optional sign, and always then unless a `0x` prefix starts there; negative only after a minus sign, non-negative otherwise |
| JsNumber.ParseIntHex | kitbuilder.js:346 | after a `0x` or `0X` prefix, a number exactly when a hexadecimal digit follows |
| JsNumber.ParseIntOr | kitbuilder.js:346-347 | `parseInt(v) \|\| d`: the parsed integer when it is a number other than 0, else `d`; 0 only when `d` is 0 |
| JsNumber.ParseIntNumeral | kitbuilder.js:346-347 | text an input can hold — white space, an optional sign, leading zeros, a numeral, then any non-digit text (except an `x` after a lone `0`) — parses to the numeral's number, negated after a minus sign |
| JsNumber.ParseIntDecimal | kitbuilder.js:346 | `parseInt` reads the decimal numeral `String(n)` of any integer back, whatever non-digit text follows (except an `x` after a lone `0`) |
| JsNumber.ParseIntNaN | kitbuilder.js:346 | text whose first non-space character is neither a digit nor a sign is NaN |
| JsNumber.AmountTruncates | kitbuilder.js:346 | "3.9" stores amount 3 |
| JsNumber.AmountKeepsNegative | kitbuilder.js:346 | "-5" stores amount -5: the amount is not clamped |
| JsNumber.AmountZeroIsOne | kitbuilder.js:346 | "0" stores amount 1 |
| JsNumber.AmountNaNIsOne | kitbuilder.js:346 | "abc" and "" store amount 1 |
| KitModel.Defined | kitbuilder.js:246 | `kits[name]` is truthy for every kit name and for each name inherited from `Object.prototype`, whatever the registry; for an empty registry, only for those |
| KitModel.CurrentIndex | kitbuilder.js:36 | the current name sits at one position of the registry |
| KitModel.WithCurrentKit | kitbuilder.js:339 | changing the current kit in place keeps the state valid, changes no other kit, key, current name or tab, and stores exactly the new kit |
| KitModel.CanonicalWithCurrentKit | kitbuilder.js:339 | replacing the current kit by a canonical one keeps the registry canonical |
| KitRegistry.CreateNewKit | kitbuilder.js:245-255 | succeeds exactly when `kits[name]` is falsy; a refusal changes nothing; success appends the given or a default kit under the name, makes it current and keeps the state valid |
| KitRegistry.DefaultKitShape | kitbuilder.js:247-250 | a new kit is named after its key, has permission "kits." + name, empty image and description, cooldown 0, max 0, three empty lists, and is canonical |
| KitRegistry.SwitchKit | kitbuilder.js:257-259 | any name `kits[name]` answers to becomes current (for a key the state stays valid); a name it does not answer to changes nothing; the registry and tab never change |
| KitRegistry.InitialState | kitbuilder.js:81-82 | start-up with nothing saved gives the single canonical kit "default", current |
| KitRegistry.PromptNewKit | kitbuilder.js:316-319 | a cancelled or empty answer, or one in use, changes nothing; otherwise a default kit is appended under it and made current |
| KitRegistry.DeleteCurrentKit | kitbuilder.js:283-291 | with one kit, or unconfirmed, nothing changes; otherwise exactly the current kit is removed, the rest keep their order, and the first remaining key becomes current |
| KitRegistry.CanonicalDrop | kitbuilder.js:286 | removing a kit keeps the registry canonical |
| KitRegistry.Renamed | kitbuilder.js:297-298 | the renamed kit has the new name and otherwise the current kit's settings and lists |
| KitRegistry.PromptRenameKit | kitbuilder.js:293-305 | a cancelled, empty, unchanged or used name changes nothing; otherwise the current kit's data moves to the new key, last, with its `name` set, the old key is gone, the count is unchanged and the new name is current |
| KitRegistry.MoveCurrent | kitbuilder.js:297-299 | the current pair is removed and the renamed kit appended under the new key; keys stay unique |
| KitRegistry.MoveCurrentCanonical | kitbuilder.js:297-299 | moving a canonical kit under a new name keeps the registry canonical |
| KitRegistry.PromptCopyKit | kitbuilder.js:307-314 | a cancelled, empty or used name changes nothing; otherwise a copy of the current kit that differs only in `name` is appended under it and made current, and the original is untouched |
| ListStore.NewEntry | kitbuilder.js:332-338 | a new entry has the item's short and display names, amount 1, skin 0, no custom name, and a truthy icon exactly when the item has one |
| ListStore.AddItemToKit | kitbuilder.js:330-343 | with no current kit nothing changes; otherwise the new entry is appended to the current tab's list of the current kit, and nothing else changes |
| ListStore.SpliceStart | kitbuilder.js:345 | where `splice` starts: the index itself when in range, counted from the end when negative |
| ListStore.SpliceOne | kitbuilder.js:345 | `splice(index, 1)` removes exactly the entry at an index in range (negative ones counted from the end) and keeps the others in order; past the end it removes nothing |
| ListStore.RemoveKitItem | kitbuilder.js:345 | with no current kit nothing changes; otherwise only the current tab's list of the current kit changes, spliced at the index |
| ListStore.SpliceCanonical | kitbuilder.js:345 | a splice keeps a canonical list canonical |
| ListStore.RemoveUndoesAdd | kitbuilder.js:339 | removing the entry just added, at its index, restores the previous state |
| ListStore.WithEntry | kitbuilder.js:346 | replacing one entry of the current list changes only that entry |
| ListStore.AmountInput | kitbuilder.js:346 | the stored amount is always truthy |
| ListStore.CountInput | kitbuilder.js:347 | the stored skin id, cooldown or max is truthy or 0 |
| ListStore.UpdateItemAmount | kitbuilder.js:346 | throws exactly when there is a current kit and no entry at the index; otherwise only that entry's amount changes, to `parseInt(val) \|\| 1` |
| ListStore.UpdateItemSkin | kitbuilder.js:347 | throws exactly when there is a current kit and no entry at the index; otherwise only that entry's skin id changes, to `parseInt(val) \|\| 0` |
| ListStore.UpdateItemName | kitbuilder.js:348 | throws exactly when there is a current kit and no entry at the index; otherwise only that entry's custom name changes, to the text as typed |
| ListStore.UpdateCurrentKitDataFromInputs | kitbuilder.js:350-360 | with no current kit nothing changes; otherwise the current kit's permission, image and description become the texts, its cooldown and max `parseInt(v) \|\| 0`, and its name and lists stay |
| ListStore.ClearCurrentKit | kitbuilder.js:392-398 | unconfirmed or without a current kit nothing changes; otherwise the current kit's three lists become empty and nothing else changes |
| Exporter.CleanItem | kitbuilder.js:375-379 | an exported entry has exactly the keys shortname, amount, skinid, plus name only for a truthy custom name, holding the entry's values |
| Exporter.ExportList | kitbuilder.js:369 | a list is exported element by element, same length and order |
| Exporter.ExportKit | kitbuilder.js:366-369 | an exported kit has exactly the nine keys, in the written order, without repeats |
| Exporter.ExportKitReads | kitbuilder.js:366-369 | each setting and each exported list is found under its own lower-case name |
| Exporter.Export | kitbuilder.js:362-373 | one exported kit per registry key, under that key, in registry order |
| Importer.MapItem | kitbuilder.js:442-450 | throws exactly on null; shortname is `Shortname \|\| shortname \|\| ''`, amount `Amount \|\| amount \|\| 1`, skin id `Skin \|\| skinid \|\| 0`, custom name `DisplayName \|\| name \|\| ''`; the icon is truthy or empty; no display name |
| Importer.MapEntries | kitbuilder.js:426-428 | `map(mapItem)` succeeds exactly when no element is null, and maps element by element |
| Importer.MapList | kitbuilder.js:426-428 | throws exactly when the value is not an array or is an array holding a null; otherwise every element is mapped by `mapItem`, same length and order, and the list is canonical |
| Importer.MapKit | kitbuilder.js:419-428 | a kit produced is canonical for its key, named `Name \|\| name \|\| key` |
| Importer.MapKitReadsSettings | kitbuilder.js:419-424 | a mapped kit's name, permission, image, description, cooldown and max are each `PluginKey \|\| lowerKey \|\| default`, the name defaulting to the key |
| Importer.MapKitReadsLists | kitbuilder.js:426-428 | a mapped kit's items, wear and belt are `(PluginKey \|\| lowerKey \|\| []).map(mapItem)`, and it maps exactly when all three do |
| Importer.MapKitThrows | kitbuilder.js:419-428 | mapping a kit throws exactly when the value is null or one of the three resolved lists (`MainItems \|\| items \|\| []`, …) throws in `map` |
| Importer.CollectKits | kitbuilder.js:416-429 | throws exactly when some object-typed source value fails to map; otherwise the result is canonical and its keys are the accumulator's plus the object-typed source keys |
| Importer.CollectKitsLast | kitbuilder.js:416-429 | the kit held under a key is the one mapped from the last object-typed value the source gives for that key: later assignments win |
| Importer.CollectKitsKeeps | kitbuilder.js:416-429 | a key the source never assigns an object-typed value to keeps the accumulator's value |
| Importer.PutCanonical | kitbuilder.js:419 | assigning a canonical kit keeps the registry canonical and adds exactly its key |
| Importer.OwnEntries | kitbuilder.js:416-417 | `Object.keys(v)` with `v[key]`: an object's own properties, an array's indices as decimal strings, a string's indices with one-character strings |
| Importer.ImportKitsFails | kitbuilder.js:410-432 | an import fails exactly for a null document, a source of kits with no object-typed value, or an object-typed value whose mapping throws; every other document is imported |
| Importer.ImportKits | kitbuilder.js:410-432 | a null document fails; a source of kits with no object-typed value fails with "no kits"; a result has at least one kit, is canonical, and its keys are exactly the object-typed keys of `data._kits` when that is truthy, otherwise of `data` |
| Importer.ImportKitsValues | kitbuilder.js:416-429 | each imported kit is the one mapped from the last object-typed value the source of kits gives for its key |
| Importer.ProcessImportedData | kitbuilder.js:410-440 | on any failure the state is unchanged; on success the imported registry replaces `kits`, its first key is current, and the state is valid and canonical |
| RoundTrip.MapItemCleanItem | kitbuilder.js:442-450 | an exported canonical entry maps back to an entry that exports the same |
| RoundTrip.MapEntriesExportList | kitbuilder.js:426-428 | an exported canonical list maps back without a throw to a list that exports the same |
| RoundTrip.ExportKitNoAliases | kitbuilder.js:420-428 | an exported kit has none of the capitalised keys the importer reads first |
| RoundTrip.MapKitExportKit | kitbuilder.js:419-428 | an exported canonical kit maps back, under its key, to a kit that exports the same |
| RoundTrip.CollectExported | kitbuilder.js:416-429 | collecting an export after an accumulator without its keys appends, key by key and in order, kits that export the same |
| RoundTrip.SelfRoundTrip | kitbuilder.js:410-440 | for a canonical non-empty registry without a `_kits` key, import of its export succeeds, keeps the keys and their order, and exports to the same value |
| RoundTrip.CollectDefaultKit | kitbuilder.js:416-429 | a new kit's export, read as a source of kits, yields the kits `items`, `wear`, `belt` |
| RoundTrip.KitsKeyBreaksRoundTrip | kitbuilder.js:413 | the canonical registry with one kit named `_kits` re-imports as the kits `items`, `wear`, `belt` |
| Editor.HandleDrop | kitbuilder.js:322-328 | an unknown short name, or no current kit, changes nothing; otherwise the entry built from the first catalog item with that short name is appended to the current list and nothing else changes |
| Editor.Step | kitbuilder.js:214-243 | every user action that changes the editor state keeps it valid and a registry canonical; only the tab buttons change the tab; the kit selector changes only the current name; clicking an item card appends its entry to the current list |
| Editor.Run | kitbuilder.js:214-243 | any sequence of user actions keeps the state valid and a registry canonical |
| Editor.ReachableRoundTrip | kitbuilder.js:362-373 | every state reachable from start-up is valid, canonical and non-empty, and, without a `_kits` key, its export re-imports to the same export |
| Editor.ReimportRestoresExport | kitbuilder.js:410-440 | importing the export of a canonical state without a `_kits` key restores the same export and keys, with the first kit current and the tab kept |

## Left out

- DOM rendering, templating and the kit selector's markup, and the inputs
  `switchKit` fills (`renderItems`, `renderKitContent`, `renderCategories`,
  `getItemIcon`, `updateKitSelector`). The selector's only effect on the
  model is that it offers registry keys alone, so `Editor.Step` ignores
  other names.
- Drag-and-drop events, clipboard copy (`copyJSON`), `alert`, and the
  `prompt`/`confirm` dialogs. The dialogs' answers are parameters.
- `fetch` of the catalog file, `FileReader`, and the `localStorage`
  save/load. A saved state could name a missing current kit; start-up is
  modelled only for empty storage.
- The text form of JSON: `JSON.parse` syntax errors and
  `JSON.stringify` formatting. Import and export work on JSON values.
- `main.js` (server status polling, navbar styling, scroll animation), which
  holds no kit logic.
- Integer-like object keys, which JavaScript enumerates before other keys in
  ascending numeric order. The model keeps insertion order for all keys.
- The key `__proto__` in an imported document, which sets a prototype
  instead of adding a kit.
- JSON objects with a repeated key: `JSON.parse` keeps one property with the
  last value, and the model's importer visits both.
- Catalog fields that are not strings, and missing settings inputs (the
  `if (input)` checks).
- Catalog.FilterItems: lower-casing covers ASCII letters only, not
  Unicode `toLowerCase`.
- JsNumber.ParseIntOr: integers are unbounded, so the loss of precision of
  long digit strings in a double, and `Infinity`, are not modelled.
- Importer.ImportKits: states which keys the imported registry has and
  (with `Importer.ImportKitsValues`) which kit each holds, not their order
  for an arbitrary document. Order is proved for re-imported exports
  (`RoundTrip.SelfRoundTrip`).
- RoundTrip.KitsKeyBreaksRoundTrip: exhibits one registry with a `_kits`
  key, not every such registry.
- RoundTrip.SelfRoundTrip: holds for the model's unbounded integers only.
  In the program, a numeral of more than 309 digits typed into an amount,
  skin, cooldown or max input makes `parseInt` return `Infinity`.
  `JSON.stringify` writes that as `null`, and re-import reads it as 1 or 0,
  so the second export differs from the first.
- Editor.ReachableRoundTrip: the state it starts from is reachable in the
  model, where `ParseIntOr` has no `Infinity`. The program can reach a state
  holding `Infinity`, and that state's export does not survive re-import.
