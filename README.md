# HashLips HTML layers plugins, modelled in Dafny

This project models three plugins of a HashLips art-engine setup:

- **HTML layers input** (`custom/inputs/html-layers-input.ts`). It reads an
  assets directory and builds a layer catalog. Each top-level directory is a
  layer. Each file in a layer directory is an asset of the option its name
  decodes to. The files of a layer's `edge-cases` directory are grouped per
  option under the key `t#v`.
- **HTML layers attributes generator**
  (`custom/generators/html-layers-attributes-generator.ts`). For each uid of
  its range it draws one option per layer by weight and computes a DNA. A DNA
  seen before means the item is drawn again under the same uid. The item's
  assets are then resolved. An edge case whose trait has the right value
  replaces the option's own assets.
- **HTML layers renderer** (`custom/renderers/html-layers-renderer.ts`). For
  each item it keeps the assets of the generator's records and sorts them by
  z offset. It writes one page per item and returns one render record per
  item. An item without assets stops the run.

Modules and files:

| file | module | what it holds |
|---|---|---|
| `wrappers.dfy` | `Wrappers`, `Errors` | `Option`/`Result` with `:-`; the errors the plugins throw, one constructor each |
| `text.dfy` | `Text` | `split`/`join`, ECMAScript `parseInt`, `uid.toString()`, string `<`, `toUpperCase`, `path.join` |
| `dicts.dfy` | `Dicts` | a JavaScript object used as a dictionary: keys kept in insertion order, assignment, `Object.keys`/`values` |
| `stable_sort.dfy` | `StableSort` | `Array.prototype.sort` as a stable insertion sort; sortedness, permutation and stability |
| `catalog.dfy` | `Catalog` | the catalog records (`LayerAsset`, `EdgeCase`, `LayerOption`, `Layer`) and its well-formedness |
| `file_names.dfy` | `FileNames` | `getParams`, the filename mini-language |
| `html_layers_input.dfy` | `HtmlLayersInput` | `readDir`, `getOptions`, `getLayersFromFolders`, `load`: reference functions over a directory tree plus the plugin class with its loops |
| `draws.dfy` | `Draws` | a draw in `[0, 1)` scaled by the total weight |
| `html_layers_attributes_generator.dfy` | `HtmlLayersAttributesGenerator` | range check, weighted selection, DNA ordering, edge-case resolution and `generate` (class with state `data` and `rmg`) |
| `html_layers_renderer.dfy` | `HtmlLayersRenderer` | asset collection, z sort, the `render` loop (class with state `tempRenderDir` and the pages written) |

Behaviour of the code that the model keeps:

- **Catalog order.** Layers, options and edge cases keep directory-listing
  order; nothing is sorted by name. `Dicts` keeps insertion order, the listing
  is an input, and `OptionFilesKeys`, `EdgeCaseFilesKeys` and `LayerDirsKeys`
  state the key orders that result.
- **Z sort.** The generator concatenates assets in attribute order without
  sorting them (`ItemAssets`). The only z sort is the renderer's (`ZOrdered`).
- **Missing `t` or `v` tokens.** The edge-case key is the template string
  `${params.t}#${params.v}`, so a missing `t` gives `undefined#v` and a missing
  `v` gives `t#undefined`. The stored trait and value are `""` all the same
  (`EdgeCaseUid`, `OrEmpty`).
- **Weight given twice.** Any `w` token for an option whose weight is no longer
  1 is rejected, even one repeating the same value: `w2` followed by `w2` is an
  error, `w1` followed by `wn` is accepted and leaves weight n (`TwoWeightFiles`).
- **DNA and insertion order.** The DNA source is sorted by upper-cased trait
  name with a stable sort, so insertion order is forgotten except between names
  that differ only in case (`DnaIgnoresInsertionOrder`,
  `CaseVariantsKeepInsertionOrder`).
- **Which layer an edge case may name.** The trait of an edge-case key is looked
  up among all of the item's attributes, its own layer included
  (`EdgeCaseMatches`).

## Model

| member | source | states |
|---|---|---|
| `Text.Split` | custom/inputs/html-layers-input.ts:76 | the first piece of `split` is the longest prefix not containing the separator, and it ends at the end or at a separator |
| `Text.SplitJoin` | custom/inputs/html-layers-input.ts:76 | joining the pieces of `split` with the separator gives back the string |
| `Text.SplitPair` | custom/generators/html-layers-attributes-generator.ts:111-113 | splitting `a#b` where `#` occurs only between the parts gives exactly `[a, b]` |
| `Text.ParseIntNonDigitStart` | custom/inputs/html-layers-input.ts:89-92 | `parseInt` of a string starting with anything but white space, a sign or a digit is NaN |
| `Text.ParseIntToDecimal` | custom/generators/html-layers-attributes-generator.ts:137 | `parseInt` reads back the decimal text `uid.toString()` of every integer |
| `Text.ToDecimalInjective` | custom/generators/html-layers-attributes-generator.ts:137 | distinct uids get distinct item keys |
| `Text.LexLessIrreflexive` | custom/generators/html-layers-attributes-generator.ts:168-174 | no string is `<` itself |
| `Text.LexLessTransitive` | custom/generators/html-layers-attributes-generator.ts:168-174 | string `<` is transitive |
| `Text.LexLessTotal` | custom/generators/html-layers-attributes-generator.ts:168-174 | of two distinct strings one is `<` the other |
| `Text.UpperIdempotent` | custom/generators/html-layers-attributes-generator.ts:165-166 | upper-casing an upper-cased name changes nothing, so the comparator's keys are canonical |
| `Text.PathJoinSameDir` | custom/renderers/html-layers-renderer.ts:68 | under one directory, distinct names give distinct paths |
| `Text.PathJoinInjective` | custom/inputs/html-layers-input.ts:184 | for slash-free directory names the joined path determines both the directory and the name |
| `Dicts.Put` | custom/inputs/html-layers-input.ts:164-171 | assigning a key stores the value; a new key goes last and an existing key keeps its place |
| `Dicts.PutTwice` | custom/inputs/html-layers-input.ts:164-183 | assigning a key twice is assigning it once, at the place of the first assignment |
| `Dicts.LookupPairs` | custom/generators/html-layers-attributes-generator.ts:162-163 | `d[k]` is `v` exactly when `[k, v]` is among the pairs listed from `Object.keys` |
| `Dicts.ValuesPut` | custom/generators/html-layers-attributes-generator.ts:85 | after an assignment `Object.values` lists a new key's value last and replaces an existing key's value in place |
| `Dicts.LookupPut` | custom/inputs/html-layers-input.ts:164-171 | reading after `d[k] = v` gives `v` at `k` and the old value at every other key |
| `Dicts.PutKeys` | custom/inputs/html-layers-input.ts:164-171 | assignment adds the key last unless it is already a key |
| `Dicts.NewNamesSpec` | custom/inputs/html-layers-input.ts:138 | the keys a run of assignments adds are the new names, each once, ordered by first appearance |
| `Dicts.PairsSameEntries` | custom/generators/html-layers-attributes-generator.ts:162-163 | two dictionaries with the same entries yield the same pairs, reordered |
| `StableSort.Sort` | custom/generators/html-layers-attributes-generator.ts:162-177 | the sorted sequence is a permutation of the input |
| `StableSort.SortSorted` | custom/generators/html-layers-attributes-generator.ts:164-177 | with a consistent comparator the result is sorted |
| `StableSort.SortStable` | custom/renderers/html-layers-renderer.ts:66 | elements that tie keep their relative order |
| `StableSort.SortDeterminedByElements` | custom/generators/html-layers-attributes-generator.ts:162-177 | without ties the result depends only on the multiset of elements, not on their order |
| `StableSort.SortedUnique` | custom/generators/html-layers-attributes-generator.ts:164-177 | two sorted permutations of the same tie-free elements are equal |
| `FileNames.GetParams` | custom/inputs/html-layers-input.ts:75-125 | a decoded file name carries the name token, and any weight it carries is positive |
| `FileNames.Normalize` | custom/inputs/html-layers-input.ts:86-124 | validation: an accepted record keeps the name and has no weight of 0 or less |
| `FileNames.RawParamsLastWins` | custom/inputs/html-layers-input.ts:79-84 | a token is recorded under its first character, and the last token with that character wins |
| `FileNames.DecodedNameIsPrefix` | custom/inputs/html-layers-input.ts:76 | the name is the longest prefix of the file name that stops at the first dot and at the first `__` |
| `FileNames.StemChars` | custom/inputs/html-layers-input.ts:76 | `split(".")[0]` is the prefix before the first dot |
| `FileNames.GetParamsDefaults` | custom/inputs/html-layers-input.ts:86-95 | x, y and z are `parseInt` of their token or 0 without one; `w` is `parseInt` of its token or absent; `t` and `v` are verbatim |
| `FileNames.NormalizeDefaults` | custom/inputs/html-layers-input.ts:87-95 | the same defaults, stated for any token map |
| `FileNames.OffsetDefault` | custom/inputs/html-layers-input.ts:89-91 | an offset is `parseInt` of its token, or of `"0"` when the token is missing |
| `FileNames.ParseIntZero` | custom/inputs/html-layers-input.ts:89 | `parseInt("0")` is 0 |
| `FileNames.NormalizeSucceeds` | custom/inputs/html-layers-input.ts:97-122 | the token map normalizes exactly when every x, y and z token present parses and a `w` token, if present, parses to a positive number |
| `FileNames.WeightFileParams` | custom/inputs/html-layers-input.ts:86-124 | for every positive n, `a__w<n>.html` decodes to option `a` with offsets 0, weight n and no `t` or `v` |
| `FileNames.InvalidOffsetFails` | custom/inputs/html-layers-input.ts:97-113 | an unreadable x, y or z token makes decoding throw an offset error naming the file and the first failing axis in the order x, y, z |
| `FileNames.GetParamsSucceeds` | custom/inputs/html-layers-input.ts:86-124 | decoding succeeds exactly when every x, y and z token present parses and a `w` token, if present, parses to a positive number |
| `FileNames.InvalidWeightFails` | custom/inputs/html-layers-input.ts:115-122 | with valid offsets, a `w` token that is NaN or not positive makes decoding throw the weight error |
| `HtmlLayersInput.ReadDir` | custom/inputs/html-layers-input.ts:236-238 | the listing keeps exactly the entries whose name the dot-file pattern does not match |
| `HtmlLayersInput.HiddenNameWithoutSlash` | custom/inputs/html-layers-input.ts:237 | a plain name is dropped exactly when it starts with a dot followed by something other than a dot |
| `HtmlLayersInput.FindEntry` | custom/inputs/html-layers-input.ts:200-202 | `edge-cases` is found exactly when the listing holds an entry with that name |
| `HtmlLayersInput.AddOptionFileEffect` | custom/inputs/html-layers-input.ts:164-190 | one option file creates its option if needed, sets an explicit weight, and appends one asset; other options are unchanged |
| `HtmlLayersInput.OptionFilesDecode` | custom/inputs/html-layers-input.ts:156-160 | the option loop completes only when every regular file's name decodes |
| `HtmlLayersInput.OptionFilesAccumulate` | custom/inputs/html-layers-input.ts:153-191 | after the loop an option exists exactly when it existed or some file decodes to it; it gains exactly the assets of those files, in listing order |
| `HtmlLayersInput.OptionFilesWeights` | custom/inputs/html-layers-input.ts:173-181 | the loop succeeds exactly when every `w` but the last meets weight 1; each option's weight is then its last `w` |
| `HtmlLayersInput.TwoWeightFiles` | custom/inputs/html-layers-input.ts:153-191 | for any two files `a__wm.html` and `a__wn.html` of option `a`, the loop succeeds exactly when m is 1; it then holds option `a` alone, with weight n and both files' assets in listing order, and otherwise throws the weight-twice error for `a` |
| `HtmlLayersInput.EdgeCaseFilesSucceed` | custom/inputs/html-layers-input.ts:203-230 | the edge-case loop fails exactly when a file does not decode or names an undefined option; it adds no option |
| `HtmlLayersInput.AddEdgeCaseFileEffect` | custom/inputs/html-layers-input.ts:210-229 | one edge-case file creates the edge case `t#v` if needed and appends one asset; nothing else changes |
| `HtmlLayersInput.EdgeCaseFilesAccumulate` | custom/inputs/html-layers-input.ts:203-230 | each option keeps everything but its edge cases; each edge case gains the assets of all files with its key, in listing order, and a new one takes `t` and `v` from the first such file |
| `HtmlLayersInput.NoOptionFilesFails` | custom/inputs/html-layers-input.ts:193-197 | a layer directory without a visible regular file throws "no options" |
| `HtmlLayersInput.LayerDirsLastWins` | custom/inputs/html-layers-input.ts:130-145 | only directories become layers, each under its decoded name; a later directory with the same name overwrites an earlier one |
| `HtmlLayersInput.OptionFilesKeys` | custom/inputs/html-layers-input.ts:164-171 | the option keys after the loop are the earlier ones, then each new option in the order its first file is listed |
| `HtmlLayersInput.EdgeCaseFilesKeys` | custom/inputs/html-layers-input.ts:214-220 | an option's edge-case keys after the loop are the earlier ones, then each new `t#v` in the order its first file is listed |
| `HtmlLayersInput.LayerDirsKeys` | custom/inputs/html-layers-input.ts:130-145 | the layer keys after the loop are the earlier ones, then each new layer name in the order its first directory is listed |
| `HtmlLayersInput.LayerOptionsKeys` | custom/inputs/html-layers-input.ts:150-197 | `getOptions` lists options in the order their first visible file appears; this order decides which option a draw picks |
| `HtmlLayersInput.LayerEdgeCaseKeys` | custom/inputs/html-layers-input.ts:199-231 | `getOptions` lists an option's edge cases in the order the first edge-case file with each key appears; this order decides which edge case matches first |
| `HtmlLayersInput.LoadKeys` | custom/inputs/html-layers-input.ts:69-73 | the catalog lists layers in first-appearance order of their directories |
| `HtmlLayersInput.DecodePositiveWeights` | custom/inputs/html-layers-input.ts:115-122 | every weight that decoded is positive |
| `HtmlLayersInput.OptionFilesWellFormed` | custom/inputs/html-layers-input.ts:164-190 | the option loop keeps options well formed: own name, positive weight, at least one asset |
| `HtmlLayersInput.EdgeCaseFilesWellFormed` | custom/inputs/html-layers-input.ts:214-229 | the edge-case loop keeps options well formed, and every edge case has an asset |
| `HtmlLayersInput.LayerOptionsWellFormed` | custom/inputs/html-layers-input.ts:150-234 | a layer that loads has at least one option, each well formed |
| `HtmlLayersInput.DirLayerWellFormed` | custom/inputs/html-layers-input.ts:137-144 | a layer built from a directory is well formed under its name |
| `HtmlLayersInput.LayerDirsWellFormed` | custom/inputs/html-layers-input.ts:127-148 | the layer loop keeps every layer well formed under its key |
| `HtmlLayersInput.LoadWellFormed` | custom/inputs/html-layers-input.ts:69-73 | a catalog that loads is well formed and carries the base path |
| `HtmlLayersInput.HtmlLayersInput.constructor` | custom/inputs/html-layers-input.ts:63-65 | stores the assets base path |
| `HtmlLayersInput.HtmlLayersInput.Load` | custom/inputs/html-layers-input.ts:69-73 | returns the catalog of the base path's listing, or the first error |
| `HtmlLayersInput.HtmlLayersInput.GetLayersFromFolders` | custom/inputs/html-layers-input.ts:127-148 | the layer loop computes `LayerDirs` over the visible entries |
| `HtmlLayersInput.HtmlLayersInput.GetOptions` | custom/inputs/html-layers-input.ts:150-234 | computes `LayerOptions`: the options, the "no options" error, then the edge cases or the error for an `edge-cases` that is not a directory |
| `HtmlLayersInput.HtmlLayersInput.CollectOptions` | custom/inputs/html-layers-input.ts:153-191 | the option loop computes `OptionFiles` |
| `HtmlLayersInput.HtmlLayersInput.CollectEdgeCases` | custom/inputs/html-layers-input.ts:202-231 | the edge-case loop computes `EdgeCaseFiles` |
| `Draws.ScaledIsProduct` | custom/generators/html-layers-attributes-generator.ts:191 | the scaled draw is the product of the draw and the total weight |
| `Draws.ScaledBounds` | custom/generators/html-layers-attributes-generator.ts:191 | a draw in `[0, 1)` scaled by a positive total lies in `[0, total)` |
| `Draws.ScaledOnto` | custom/generators/html-layers-attributes-generator.ts:191 | every point of `[0, total)` is the scaled value of some draw |
| `HtmlLayersAttributesGenerator.RangeCheck` | custom/generators/html-layers-attributes-generator.ts:55-62 | an accepted range is non-empty and ends at 1 or above; a one-item range is accepted exactly from 1 on |
| `HtmlLayersAttributesGenerator.SumPositive` | custom/generators/html-layers-attributes-generator.ts:186-189 | the total of positive weights is positive |
| `HtmlLayersAttributesGenerator.PickIndexInterval` | custom/generators/html-layers-attributes-generator.ts:193-199 | the loop picks option `k` exactly when the random number lies in `[sum of weights before k, sum through k)` |
| `HtmlLayersAttributesGenerator.PickIndexSucceeds` | custom/generators/html-layers-attributes-generator.ts:201 | below the total weight the final throw is unreachable |
| `HtmlLayersAttributesGenerator.WellFormedDraws` | custom/generators/html-layers-attributes-generator.ts:85-89 | with a well-formed catalog and draws in `[0, 1)` the attribute loop succeeds exactly when there is a draw per layer, and otherwise fails for lack of draws |
| `HtmlLayersAttributesGenerator.SelectionSucceeds` | custom/generators/html-layers-attributes-generator.ts:185-202 | with positive weights and a draw in `[0, 1)` a key of the options is picked |
| `HtmlLayersAttributesGenerator.EveryOptionSelectable` | custom/generators/html-layers-attributes-generator.ts:185-202 | every option has a draw in `[0, 1)` that picks it |
| `HtmlLayersAttributesGenerator.SelectionPicksKey` | custom/generators/html-layers-attributes-generator.ts:193-196 | a pick is always one of the option keys |
| `HtmlLayersAttributesGenerator.TraitOrder` | custom/generators/html-layers-attributes-generator.ts:164-177 | the comparator is a strict weak order whose ties are the equal upper-cased names |
| `HtmlLayersAttributesGenerator.DnaSourceOrdered` | custom/generators/html-layers-attributes-generator.ts:162-177 | `dnaSource` is a permutation of the pairs, in non-decreasing upper-cased name, and case variants keep insertion order |
| `HtmlLayersAttributesGenerator.DnaIgnoresInsertionOrder` | custom/generators/html-layers-attributes-generator.ts:159-183 | same attributes, assigned in any order, give the same DNA source when no two names differ only in case |
| `HtmlLayersAttributesGenerator.CaseVariantsKeepInsertionOrder` | custom/generators/html-layers-attributes-generator.ts:164-177 | `a` and `A` assigned in opposite orders give different DNA sources |
| `HtmlLayersAttributesGenerator.FirstMatchIsFirst` | custom/generators/html-layers-attributes-generator.ts:110-120 | the edge case found matches and none before it does; when none is found none matches |
| `HtmlLayersAttributesGenerator.EdgeCaseUidMatches` | custom/generators/html-layers-attributes-generator.ts:111-115 | the key `name#value` matches exactly when the item's attribute `name` is `value` |
| `HtmlLayersAttributesGenerator.OptionAssetsChoice` | custom/generators/html-layers-attributes-generator.ts:110-124 | the first matching edge case with assets wins outright; with no match the option's own assets are used |
| `HtmlLayersAttributesGenerator.AssetsFromAttributes` | custom/generators/html-layers-attributes-generator.ts:104-135 | each item asset is an asset of a picked option or its edge case, under the base path, with the layer's offsets added to its own |
| `HtmlLayersAttributesGenerator.EveryAttributeHasAssets` | custom/generators/html-layers-attributes-generator.ts:122-124 | in a well-formed catalog every attribute contributes at least one asset |
| `HtmlLayersAttributesGenerator.DrawAttributesConsumes` | custom/generators/html-layers-attributes-generator.ts:85-89 | a successful attribute loop takes exactly one draw per layer |
| `HtmlLayersAttributesGenerator.DrawAttributesKeys` | custom/generators/html-layers-attributes-generator.ts:85-89 | the attribute keys are the layer names, in layer order |
| `HtmlLayersAttributesGenerator.DrawAttributesKeeps` | custom/generators/html-layers-attributes-generator.ts:85-89 | an attribute that no layer names is kept |
| `HtmlLayersAttributesGenerator.DrawAttributesValue` | custom/generators/html-layers-attributes-generator.ts:86-88 | layer `i` gets the option that draw `i` selects |
| `HtmlLayersAttributesGenerator.DrawAttributesSucceeds` | custom/generators/html-layers-attributes-generator.ts:85-89 | with positive weights and valid draws the loop succeeds exactly when there is a draw per layer, and fails with "draws exhausted" otherwise |
| `HtmlLayersAttributesGenerator.DrawAttributesErrors` | custom/generators/html-layers-attributes-generator.ts:185-202 | the attribute loop fails only for want of a draw or because nothing was picked |
| `HtmlLayersAttributesGenerator.SampledFromDraws` | custom/generators/html-layers-attributes-generator.ts:81-89 | from `{}`, the attributes name every layer in order, each with one of its option keys, using one draw per layer |
| `HtmlLayersAttributesGenerator.AddItem` | custom/generators/html-layers-attributes-generator.ts:95-101 | storing an item with a new DNA under the next uid keeps one item per uid and no DNA twice |
| `HtmlLayersAttributesGenerator.RecordsGenerated` | custom/generators/html-layers-attributes-generator.ts:137-151 | the two records of sampled attributes form a generated item carrying their DNA |
| `HtmlLayersAttributesGenerator.UidKeysStep` | custom/generators/html-layers-attributes-generator.ts:137-153 | the next uid adds a key that no earlier uid has |
| `HtmlLayersAttributesGenerator.HtmlLayersAttributesGenerator.constructor` | custom/generators/html-layers-attributes-generator.ts:46-63 | stores the data set, the range and the hash for a valid range |
| `HtmlLayersAttributesGenerator.HtmlLayersAttributesGenerator.Create` | custom/generators/html-layers-attributes-generator.ts:55-62 | construction succeeds exactly for a valid range, and otherwise throws the range error |
| `HtmlLayersAttributesGenerator.HtmlLayersAttributesGenerator.Init` | custom/generators/html-layers-attributes-generator.ts:65-73 | takes the catalog and seeds the draws with data set, class name and seed; a generator whose outputs lie in `[0, 1)` keeps every draw there |
| `HtmlLayersAttributesGenerator.HtmlLayersAttributesGenerator.SelectRandomItemByWeight` | custom/generators/html-layers-attributes-generator.ts:185-202 | consumes one draw and returns the weighted pick for it, or the error |
| `HtmlLayersAttributesGenerator.HtmlLayersAttributesGenerator.WalkWeights` | custom/generators/html-layers-attributes-generator.ts:193-201 | the subtracting loop finds the index `PickIndex` specifies |
| `HtmlLayersAttributesGenerator.HtmlLayersAttributesGenerator.SampleAttributes` | custom/generators/html-layers-attributes-generator.ts:85-89 | the attribute loop computes `DrawAttributes` over the catalog's layers |
| `HtmlLayersAttributesGenerator.HtmlLayersAttributesGenerator.SampleItemAttributes` | custom/generators/html-layers-attributes-generator.ts:81-89 | yields sampled attributes with one draw per layer, or one of the two selection errors; with a well-formed catalog and draws in `[0, 1)` the only error is running out of draws |
| `HtmlLayersAttributesGenerator.HtmlLayersAttributesGenerator.ComputeAssets` | custom/generators/html-layers-attributes-generator.ts:104-135 | the asset loop computes `ItemAssets` |
| `HtmlLayersAttributesGenerator.HtmlLayersAttributesGenerator.SelectAssets` | custom/generators/html-layers-attributes-generator.ts:107-124 | the edge-case scan with `break` and fallback computes `OptionAssets` |
| `HtmlLayersAttributesGenerator.HtmlLayersAttributesGenerator.Generate` | custom/generators/html-layers-attributes-generator.ts:75-157 | the result has exactly the keys of the uids in the range; every item is a generated item of sampled attributes; no two items share a DNA; the draws stay in `[0, 1)`; the errors are the selection errors or the endless retry of a catalog without layers, and with a well-formed catalog only running out of draws or that retry |
| `HtmlLayersAttributesGenerator.HtmlLayersAttributesGenerator.DrawItem` | custom/generators/html-layers-attributes-generator.ts:80-151 | one turn of the loop: either a generated item whose DNA is new, or a duplicate that has consumed draws, or an error as for `Generate` |
| `HtmlLayersAttributesGenerator.HtmlLayersAttributesGenerator.BuildRecords` | custom/generators/html-layers-attributes-generator.ts:103-151 | the attribute record and the assets record built from sampled attributes form a generated item carrying their DNA |
| `HtmlLayersRenderer.SupportedAssetsAppend` | custom/renderers/html-layers-renderer.ts:50-58 | collecting over two runs of records concatenates their assets |
| `HtmlLayersRenderer.SupportedAssetsFrom` | custom/renderers/html-layers-renderer.ts:50-58 | an asset is collected exactly when a supported record carries it |
| `HtmlLayersRenderer.NoSupportedRecord` | custom/renderers/html-layers-renderer.ts:52-56 | without a supported record nothing is collected |
| `HtmlLayersRenderer.ZOrder` | custom/renderers/html-layers-renderer.ts:66 | the z comparator is a strict weak order whose ties are the equal z offsets |
| `HtmlLayersRenderer.ZOrderedSpec` | custom/renderers/html-layers-renderer.ts:66 | the sorted assets are a permutation of the collected ones, in non-decreasing z, with equal z keeping their order |
| `HtmlLayersRenderer.RenderAssetsSpec` | custom/renderers/html-layers-renderer.ts:50-66 | an item fails exactly when no supported record has an asset, and the error names it; otherwise its assets are the collected ones, reordered |
| `HtmlLayersRenderer.GeneratedItemRenders` | custom/renderers/html-layers-renderer.ts:50-64 | the records the generator stores hand over exactly the item's assets, and with a well-formed catalog with a layer the item renders |
| `HtmlLayersRenderer.OutputPathInjective` | custom/renderers/html-layers-renderer.ts:68 | distinct items get distinct page paths |
| `HtmlLayersRenderer.PageAppend` | custom/renderers/html-layers-renderer.ts:88-90 | the page of two runs of assets is the first page followed by the second |
| `HtmlLayersRenderer.PagePermutation` | custom/renderers/html-layers-renderer.ts:88-90 | reordering the assets only reorders the files a page embeds |
| `HtmlLayersRenderer.PageZOrdered` | custom/renderers/html-layers-renderer.ts:66-90 | the z sort changes only the order of the page's files: every collected asset's file appears as often |
| `HtmlLayersRenderer.FirstUnrenderableSpec` | custom/renderers/html-layers-renderer.ts:60-64 | every item before the index found renders, and the item at it does not |
| `HtmlLayersRenderer.RenderFromStep` | custom/renderers/html-layers-renderer.ts:43-108 | one turn of the loop: throw for an item without assets, otherwise write its page and record it |
| `HtmlLayersRenderer.WithRecordsAt` | custom/renderers/html-layers-renderer.ts:99-107 | after recording items, a uid has a record exactly when it had one or is among them, and theirs is their render record |
| `HtmlLayersRenderer.WithPagesKeeps` | custom/renderers/html-layers-renderer.ts:95 | a path no item writes keeps its page |
| `HtmlLayersRenderer.WithPagesWrites` | custom/renderers/html-layers-renderer.ts:95 | every item written ends up with its own page at its own path |
| `HtmlLayersRenderer.RenderFromPages` | custom/renderers/html-layers-renderer.ts:43-108 | the loop leaves the pages of the items up to the first one without assets |
| `HtmlLayersRenderer.RenderFromResult` | custom/renderers/html-layers-renderer.ts:43-110 | the loop throws naming the first item without assets, and otherwise returns the records of all items |
| `HtmlLayersRenderer.AllRecords` | custom/renderers/html-layers-renderer.ts:99-107 | recording every item gives each item uid, and nothing else, its render record |
| `HtmlLayersRenderer.PrefixPages` | custom/renderers/html-layers-renderer.ts:95 | writing the first `n` items' pages writes each at its path; every other path keeps its page, and a path without a page stays without one |
| `HtmlLayersRenderer.RenderResultSpec` | custom/renderers/html-layers-renderer.ts:38-111 | `render` succeeds exactly when every item has an asset, with one record per item uid; otherwise it names the first item without one |
| `HtmlLayersRenderer.RenderPagesSpec` | custom/renderers/html-layers-renderer.ts:43-108 | each item before the first failing one has its page, in z order, even when the call throws; every other path keeps its page, and a path without a page stays without one |
| `HtmlLayersRenderer.GeneratedItemsRender` | custom/renderers/html-layers-renderer.ts:43-64 | items the generator stored for a well-formed catalog with a layer all render, one record per item |
| `HtmlLayersRenderer.HtmlLayersRenderer.constructor` | custom/renderers/html-layers-renderer.ts:31 | starts with no render directory and no pages |
| `HtmlLayersRenderer.HtmlLayersRenderer.Init` | custom/renderers/html-layers-renderer.ts:33-36 | the render directory is `temp` under the cache path |
| `HtmlLayersRenderer.HtmlLayersRenderer.Render` | custom/renderers/html-layers-renderer.ts:38-111 | the result and the pages written are those of `RenderFrom` from the first item |

## Left out

- File system calls are left out. `readdirSync`, `statSync`, `existsSync`,
  `mkdirSync`, `readFileSync` and `writeFileSync` are not modelled. The
  input receives the directory tree as a value (`DirEntry`). The renderer
  records the pages it writes in its `pages` field. A page's modification
  time comes from a function parameter.
- `console.log` is not modelled.
- The HTML text of a page is not modelled. A page is the list of the asset
  files it embeds, in order.
- The SHA-1 hash of `JSON.stringify(dnaSource)` is not modelled. The hash is
  a function supplied to the generator. The model proves what is hashed,
  that is the order of `dnaSource`, not the digest.
- The seeded generator `random-seed` is not modelled. Its output is a finite
  sequence of reals (`rmg`), produced by a function of the seed string that
  `Init` requires to yield values in `[0, 1)`, as `random()` does. Running
  out of values is the error `DrawsExhausted`. Float
  rounding in `random() * totalWeight` and in the subtractions is left out:
  the model works with exact reals.
- `HtmlLayersAttributesGenerator.HtmlLayersAttributesGenerator.Generate`:
  retries on a duplicate DNA are bounded by the remaining draws. The source
  retries without bound. A catalog without layers gives every item the same
  DNA, so the source would loop forever from the second uid on. The model
  returns `EndlessRetry` there instead.
- `HtmlLayersAttributesGenerator.HtmlLayersAttributesGenerator.Generate`
  states what every stored item is and that DNAs are distinct. It does not
  state which draws produced which item, nor that a duplicate DNA leaves the
  uid and the stored items as they were; `SampleAttributes` states the draws
  for one item.
- `HtmlLayersAttributesGenerator.HtmlLayersAttributesGenerator.SampleItemAttributes`
  is weaker than `SampleAttributes`, which it wraps. It keeps only what
  `Generate` needs.
- The range bounds and the uid are exact integers. In the source they are
  JavaScript numbers: a fractional range (start 0.5, end 2, keys "0.5" and
  "1.5"), uids past 2^53 where `uid++` stops advancing, and the exponent form
  `uid.toString()` takes from 1e21 on are not covered.
- JavaScript's enumeration of integer-like keys before other keys is not
  modelled. Neither are names inherited from `Object.prototype`. Objects
  enumerate in insertion order.
- `parseInt` is exact. Rounding of huge values to a double and `Infinity` are
  left out, so every decoded offset is finite.
- `toUpperCase` covers ASCII letters only. String `<` compares characters,
  not UTF-16 code units.
- `path.join` is plain concatenation with `/`. Its normalisation of `.` and
  `..` and of duplicate slashes is left out.
- An edge-case file naming an option that does not exist makes the source
  throw a `TypeError`. The model returns the error `UndefinedOption`.
- A record tagged `HtmlLayersGeneratorInterface@v1` whose data has no
  `assets` contributes no asset in the model. JavaScript would `flatMap`
  `undefined` into the list.
- The `attributesGetter` of the renderer is not modelled. The items are
  passed to `Render` directly, in key order.
- The exporters (`custom/exporters/`) and the engine setup (`index.ts`) are not part of this model.
