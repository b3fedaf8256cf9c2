/**
 * The HTML layers attribute generator: draws one option per layer by weight,
 * rejects duplicate DNAs, and resolves each item's assets, preferring the first
 * edge case whose trait and value the item has.
 */
module HtmlLayersAttributesGenerator {
  import opened Wrappers
  import opened Errors
  import opened Text
  import opened Dicts
  import opened StableSort
  import opened Catalog
  import opened Draws

  const ItemAttributesKind := "ItemAttributesGeneratorInterface@v1"
  const HtmlLayersKind := "HtmlLayersGeneratorInterface@v1"

  /** One asset of an item as the renderer receives it. */
  datatype ResolvedAsset = ResolvedAsset(
    path: string,
    latestModifiedTimestamp: int,
    xOffset: int,
    yOffset: int,
    zOffset: int)

  /** The data of an item record: the two kinds this generator writes, or one written by another generator. */
  datatype RecordData =
    | ItemAttributes(dna: string, attributes: Dict<string>)
    | HtmlLayers(assets: seq<ResolvedAsset>)
    | OtherData

  datatype ItemRecord = ItemRecord(kind: string, data: RecordData)

  // ---------------------------------------------------------------------------
  // Constructor range check
  // ---------------------------------------------------------------------------

  /** The constructor accepts the range unless `endIndex < startIndex` or `startIndex + endIndex < 1`. */
  predicate ValidRange(startIndex: int, endIndex: int) {
    !(endIndex < startIndex || startIndex + endIndex < 1)
  }

  /**
   * An accepted range is non-empty; a one-item range is accepted exactly from 1
   * on; a range ending at 0 or below is never accepted.
   */
  lemma RangeCheck(startIndex: int, endIndex: int)
    ensures ValidRange(startIndex, endIndex) ==> endIndex - startIndex + 1 >= 1
    ensures ValidRange(startIndex, endIndex) ==> endIndex >= 1
    ensures ValidRange(startIndex, startIndex) <==> startIndex >= 1
    ensures ValidRange(startIndex, endIndex) <==> startIndex <= endIndex && endIndex >= 1 - startIndex
  {
  }

  // ---------------------------------------------------------------------------
  // Weighted selection
  // ---------------------------------------------------------------------------

  /** The options' weights in key order (`Object.values(options)`). */
  function Weights(options: Dict<LayerOption>): (ws: seq<int>)
    ensures |ws| == |options.keys|
  {
    seq(|options.keys|, i requires 0 <= i < |options.keys| => options.entries[options.keys[i]].weight)
  }

  /** The sum of `ws` from the left, as `reduce` adds them. */
  function Sum(ws: seq<int>): int {
    if |ws| == 0 then 0 else Sum(ws[..|ws| - 1]) + ws[|ws| - 1]
  }

  /** `totalWeight` */
  function TotalWeight(options: Dict<LayerOption>): int {
    Sum(Weights(options))
  }

  /**
   * The `for` loop of `selectRandomItemByWeight` on the weights `ws`, starting
   * from `randomNumber`: the index of the first weight above what remains, after
   * subtracting the weights before it; none when the loop falls through.
   */
  function PickIndex(ws: seq<int>, randomNumber: real): (k: Option<nat>)
    ensures k.Some? ==> k.value < |ws|
  {
    if |ws| == 0 then None
    else if randomNumber < ws[0] as real then Some(0)
    else
      var rest := PickIndex(ws[1..], randomNumber - ws[0] as real);
      if rest.Some? then Some(rest.value + 1) else None
  }

  /**
   * `selectRandomItemByWeight` with the draw `u` of `rmg.random()`: the key picked
   * by `u * totalWeight`, or the error the method throws when none is.
   */
  function SelectByWeight(options: Dict<LayerOption>, u: real): Result<string, Error> {
    var k := PickIndex(Weights(options), Scaled(u, TotalWeight(options)));
    if k.Some? then Success(options.keys[k.value]) else Failure(NoOptionPicked)
  }

  /** All weights are positive (a catalog from the input guarantees it). */
  predicate PositiveWeights(ws: seq<int>) {
    forall i :: 0 <= i < |ws| ==> ws[i] > 0
  }

  lemma SumCons(w: int, ws: seq<int>)
    ensures Sum([w] + ws) == w + Sum(ws)
    decreases |ws|
  {
    if |ws| > 0 {
      var s := [w] + ws;
      assert s[..|s| - 1] == [w] + ws[..|ws| - 1];
      SumCons(w, ws[..|ws| - 1]);
    }
  }

  lemma {:induction false} SumPositive(ws: seq<int>)
    requires PositiveWeights(ws) && |ws| > 0
    ensures Sum(ws) > 0
    decreases |ws|
  {
    if |ws| > 1 {
      SumPositive(ws[..|ws| - 1]);
    }
  }

  /**
   * Selection intervals: with positive weights and a non-negative draw, the loop
   * picks index `k` exactly when the draw lies in `[Sum(ws[..k]), Sum(ws[..k+1]))`.
   */
  lemma {:induction false} PickIndexInterval(ws: seq<int>, r: real, k: nat)
    requires PositiveWeights(ws) && r >= 0.0
    ensures PickIndex(ws, r) == Some(k) <==>
      k < |ws| && Sum(ws[..k]) as real <= r < Sum(ws[..k + 1]) as real
    decreases |ws|
  {
    if |ws| == 0 {
      return;
    }
    assert ws[..1] == [ws[0]];
    SumCons(ws[0], []);
    if r < ws[0] as real {
      if 0 < k < |ws| {
        assert ws[..k] == [ws[0]] + ws[1..][..k - 1];
        SumCons(ws[0], ws[1..][..k - 1]);
        SumNonNegative(ws[1..][..k - 1]);
      }
    } else {
      var tail := ws[1..];
      assert PositiveWeights(tail);
      if k == 0 {
      } else {
        PickIndexInterval(tail, r - ws[0] as real, k - 1);
        if k < |ws| {
          assert ws[..k] == [ws[0]] + tail[..k - 1];
          assert ws[..k + 1] == [ws[0]] + tail[..k];
          SumCons(ws[0], tail[..k - 1]);
          SumCons(ws[0], tail[..k]);
        }
      }
    }
  }

  lemma {:induction false} SumNonNegative(ws: seq<int>)
    requires PositiveWeights(ws)
    ensures Sum(ws) >= 0
    decreases |ws|
  {
    if |ws| > 0 {
      SumNonNegative(ws[..|ws| - 1]);
    }
  }

  /** The throw at the end of `selectRandomItemByWeight` is unreachable for a draw below the total weight. */
  lemma {:induction false} PickIndexSucceeds(ws: seq<int>, r: real)
    requires PositiveWeights(ws) && 0.0 <= r < Sum(ws) as real
    ensures PickIndex(ws, r).Some?
    decreases |ws|
  {
    if |ws| > 0 && !(r < ws[0] as real) {
      assert ws == [ws[0]] + ws[1..];
      SumCons(ws[0], ws[1..]);
      PickIndexSucceeds(ws[1..], r - ws[0] as real);
    }
  }

  /** With positive weights and a draw in `[0, 1)`, selection picks some key of the options. */
  lemma SelectionSucceeds(options: Dict<LayerOption>, u: real)
    requires |options.keys| > 0 && PositiveWeights(Weights(options))
    requires 0.0 <= u < 1.0
    ensures SelectByWeight(options, u).Success?
    ensures SelectByWeight(options, u).value in options.entries
  {
    var ws := Weights(options);
    SumPositive(ws);
    ScaledBounds(u, Sum(ws));
    PickIndexSucceeds(ws, Scaled(u, Sum(ws)));
  }

  /**
   * Every option with positive weight is selectable: some draw in `[0, 1)`
   * scales to `Sum(ws[..k])`, which picks key `k`.
   */
  lemma EveryOptionSelectable(options: Dict<LayerOption>, k: nat)
    requires PositiveWeights(Weights(options)) && k < |options.keys|
    ensures exists u: real :: 0.0 <= u < 1.0 && SelectByWeight(options, u) == Success(options.keys[k])
  {
    var ws := Weights(options);
    var lo := Sum(ws[..k]);
    SumNonNegative(ws[..k]);
    SumPrefixBelow(ws, k);
    ScaledOnto(lo as real, Sum(ws));
    var u: real :| 0.0 <= u < 1.0 && Scaled(u, Sum(ws)) == lo as real;
    PickIndexInterval(ws, lo as real, k);
    assert SelectByWeight(options, u) == Success(options.keys[k]);
  }

  /** A prefix ending before the last weight sums to less than the whole. */
  lemma {:induction false} SumPrefixBelow(ws: seq<int>, k: nat)
    requires PositiveWeights(ws) && k < |ws|
    ensures Sum(ws[..k]) < Sum(ws[..k + 1]) <= Sum(ws)
    decreases |ws|
  {
    assert ws[..k + 1][..k] == ws[..k];
    if k + 1 < |ws| {
      SumPrefixBelow(ws[..|ws| - 1], k);
      assert ws[..|ws| - 1][..k] == ws[..k];
      assert ws[..|ws| - 1][..k + 1] == ws[..k + 1];
    } else {
      assert ws[..k + 1] == ws;
    }
  }

  // ---------------------------------------------------------------------------
  // DNA
  // ---------------------------------------------------------------------------

  /** The comparator of `calculateDna`: `a` goes first when its upper-cased trait name is smaller. */
  predicate TraitBefore(a: (string, string), b: (string, string)) {
    LexLess(Upper(a.0), Upper(b.0))
  }

  /** `dnaSource`: the attribute pairs in key order, stably sorted by upper-cased trait name. */
  function DnaSource(attributes: Dict<string>): seq<(string, string)> {
    Sort(Pairs(attributes), TraitBefore)
  }

  /** The comparator is consistent: a strict weak order whose ties are the equal upper-cased names. */
  lemma TraitOrder()
    ensures StrictWeakOrder(TraitBefore)
    ensures forall a, b :: Tie(a, b, TraitBefore) <==> Upper(a.0) == Upper(b.0)
  {
    forall a: (string, string) ensures !TraitBefore(a, a) {
      LexLessIrreflexive(Upper(a.0));
    }
    forall a: (string, string), b: (string, string), c: (string, string)
      | TraitBefore(a, b) && TraitBefore(b, c)
      ensures TraitBefore(a, c)
    {
      LexLessTransitive(Upper(a.0), Upper(b.0), Upper(c.0));
    }
    forall a: (string, string), b: (string, string), c: (string, string)
      | TraitBefore(a, c)
      ensures TraitBefore(a, b) || TraitBefore(b, c)
    {
      LexOrderSplits(Upper(a.0), Upper(b.0), Upper(c.0));
    }
    forall a: (string, string), b: (string, string)
      ensures Tie(a, b, TraitBefore) <==> Upper(a.0) == Upper(b.0)
    {
      if Upper(a.0) == Upper(b.0) {
        LexLessIrreflexive(Upper(a.0));
      } else {
        LexLessTotal(Upper(a.0), Upper(b.0));
      }
    }
  }

  /** If `a < c` then any `b` is above `a` or below `c`. */
  lemma LexOrderSplits(a: string, b: string, c: string)
    requires LexLess(a, c)
    ensures LexLess(a, b) || LexLess(b, c)
  {
    if !LexLess(a, b) && !LexLess(b, c) {
      if a != b {
        LexLessTotal(a, b);
        if b != c {
          LexLessTotal(b, c);
          LexLessTransitive(c, b, a);
          LexLessTransitive(a, c, a);
          LexLessIrreflexive(a);
        } else {
          LexLessTransitive(a, c, a);
          LexLessIrreflexive(a);
        }
      } else if b != c {
        LexLessTotal(b, c);
        LexLessTransitive(a, c, a);
        LexLessIrreflexive(a);
      }
    }
  }

  /**
   * `dnaSource` is the attribute pairs reordered (a permutation), in
   * non-decreasing order of upper-cased trait names, and traits whose
   * upper-cased names coincide keep their insertion order.
   */
  lemma DnaSourceOrdered(attributes: Dict<string>, e: (string, string))
    ensures multiset(DnaSource(attributes)) == multiset(Pairs(attributes))
    ensures forall i, j :: 0 <= i < j < |DnaSource(attributes)| ==>
      !LexLess(Upper(DnaSource(attributes)[j].0), Upper(DnaSource(attributes)[i].0))
    ensures TiesWith(DnaSource(attributes), e, TraitBefore) == TiesWith(Pairs(attributes), e, TraitBefore)
  {
    TraitOrder();
    SortSorted(Pairs(attributes), TraitBefore);
    SortStable(Pairs(attributes), e, TraitBefore);
  }

  /**
   * The DNA depends on the attributes, not on the order they were assigned in,
   * as long as no two trait names differ only in case.
   */
  lemma DnaIgnoresInsertionOrder(a1: Dict<string>, a2: Dict<string>)
    requires a1.entries == a2.entries
    requires forall i, j :: 0 <= i < j < |a1.keys| ==> Upper(a1.keys[i]) != Upper(a1.keys[j])
    ensures DnaSource(a1) == DnaSource(a2)
  {
    TraitOrder();
    PairsSameEntries(a1, a2);
    var p := Pairs(a1);
    forall i, j | 0 <= i < j < |p| ensures !Tie(p[i], p[j], TraitBefore) {
    }
    SortDeterminedByElements(p, Pairs(a2), TraitBefore);
  }

  /** Two traits that differ only in case keep their insertion order, so the DNA can tell the orders apart. */
  lemma CaseVariantsKeepInsertionOrder()
    ensures DnaSource(Put(Put(Empty(), "a", "x"), "A", "y")) == [("a", "x"), ("A", "y")]
    ensures DnaSource(Put(Put(Empty(), "A", "y"), "a", "x")) == [("A", "y"), ("a", "x")]
  {
    assert Upper("a") == "A" && Upper("A") == "A";
    LexLessIrreflexive("A");
    CaseVariantPairs("a", "x", "A", "y");
    CaseVariantPairs("A", "y", "a", "x");
  }

  /** Two traits inserted one after the other, with equal upper-cased names, stay in that order. */
  lemma CaseVariantPairs(k1: string, v1: string, k2: string, v2: string)
    requires k1 != k2 && !LexLess(Upper(k1), Upper(k2)) && !LexLess(Upper(k2), Upper(k1))
    ensures DnaSource(Put(Put(Empty(), k1, v1), k2, v2)) == [(k1, v1), (k2, v2)]
  {
    var d := Put(Put(Empty(), k1, v1), k2, v2);
    assert d.keys == [k1, k2];
    assert Pairs(d) == [(k1, v1), (k2, v2)];
    assert !TraitBefore((k2, v2), (k1, v1));
    SortTwo((k1, v1), (k2, v2), TraitBefore);
  }

  // ---------------------------------------------------------------------------
  // Edge cases and assets
  // ---------------------------------------------------------------------------

  /**
   * `const [matchingTrait, matchingValue] = edgeCaseUid.split("#")`: the trait,
   * and the value when the uid holds a separator (`undefined` otherwise).
   */
  function EdgeCaseKey(uid: string): (string, Option<string>) {
    var pieces := Split(uid, EdgeCaseUidSeparator);
    (pieces[0], if |pieces| >= 2 then Some(pieces[1]) else None)
  }

  /** `matchingValue === itemAttributes[matchingTrait]`, where two `undefined`s are equal. */
  predicate EdgeCaseMatches(uid: string, attributes: Dict<string>) {
    var key := EdgeCaseKey(uid);
    key.1 == Lookup(attributes, key.0)
  }

  /** The index of the first edge case uid, in key order, that matches the attributes. */
  function FirstMatch(uids: seq<string>, attributes: Dict<string>): (r: Option<nat>)
    ensures r.Some? ==> r.value < |uids|
  {
    if |uids| == 0 then None
    else if EdgeCaseMatches(uids[0], attributes) then Some(0)
    else
      var rest := FirstMatch(uids[1..], attributes);
      if rest.Some? then Some(rest.value + 1) else None
  }

  /** The index found matches and none before it does; when none is found, no uid matches. */
  lemma {:induction false} FirstMatchIsFirst(uids: seq<string>, attributes: Dict<string>)
    ensures var r := FirstMatch(uids, attributes);
      && (r.Some? ==> EdgeCaseMatches(uids[r.value], attributes))
      && (r.Some? ==> forall j :: 0 <= j < r.value ==> !EdgeCaseMatches(uids[j], attributes))
      && (r.None? ==> forall j :: 0 <= j < |uids| ==> !EdgeCaseMatches(uids[j], attributes))
  {
    if |uids| > 0 && !EdgeCaseMatches(uids[0], attributes) {
      FirstMatchIsFirst(uids[1..], attributes);
      forall j | 1 <= j < |uids| ensures uids[1..][j - 1] == uids[j] { }
    }
  }

  /**
   * The assets an option contributes: those of the first matching edge case,
   * unless there is none or it has no assets; then the option's own.
   */
  function OptionAssets(option: LayerOption, attributes: Dict<string>): seq<LayerAsset> {
    var m := FirstMatch(option.edgeCases.keys, attributes);
    var edge := if m.Some? then option.edgeCases.entries[option.edgeCases.keys[m.value]].assets else [];
    if |edge| == 0 then option.assets else edge
  }

  /**
   * For the uid `name#value` the input builds, with neither part holding a
   * separator, the edge case matches exactly when the item's attribute for
   * `name` is `value`; edge cases thus override only the attribute they name.
   */
  lemma EdgeCaseUidMatches(traitName: string, traitValue: string, attributes: Dict<string>)
    requires EdgeCaseUidSeparator[0] !in traitName && EdgeCaseUidSeparator[0] !in traitValue
    ensures EdgeCaseMatches(traitName + EdgeCaseUidSeparator + traitValue, attributes)
      <==> traitName in attributes.entries && attributes.entries[traitName] == traitValue
  {
    var sep := EdgeCaseUidSeparator;
    var s := traitName + sep + traitValue;
    forall j | 0 <= j && OccursAt(s, sep, j) ensures j == |traitName| {
      assert s[j..j + 1] == sep;
      assert s[j] == sep[0];
    }
    SplitPair(traitName, sep, traitValue);
  }

  /**
   * The first matching edge case in key order wins when it has assets; an
   * option without a matching edge case contributes its own assets.
   */
  lemma OptionAssetsChoice(option: LayerOption, attributes: Dict<string>)
    ensures (forall j :: 0 <= j < |option.edgeCases.keys| ==> !EdgeCaseMatches(option.edgeCases.keys[j], attributes))
      ==> OptionAssets(option, attributes) == option.assets
    ensures forall i :: (
        && 0 <= i < |option.edgeCases.keys|
        && EdgeCaseMatches(option.edgeCases.keys[i], attributes)
        && (forall j :: 0 <= j < i ==> !EdgeCaseMatches(option.edgeCases.keys[j], attributes))
        && |option.edgeCases.entries[option.edgeCases.keys[i]].assets| > 0
        ==> OptionAssets(option, attributes) == option.edgeCases.entries[option.edgeCases.keys[i]].assets)
  {
    var m := FirstMatch(option.edgeCases.keys, attributes);
    FirstMatchIsFirst(option.edgeCases.keys, attributes);
    forall i | 0 <= i < |option.edgeCases.keys|
      && EdgeCaseMatches(option.edgeCases.keys[i], attributes)
      && (forall j :: 0 <= j < i ==> !EdgeCaseMatches(option.edgeCases.keys[j], attributes))
      ensures m == Some(i)
    {
    }
  }

  /** An asset placed for the item: its path under the base path and the layer's offsets added to its own. */
  function ResolveAsset(basePath: string, layer: Layer, asset: LayerAsset): ResolvedAsset {
    ResolvedAsset(
      PathJoin(basePath, asset.path),
      asset.lastModifiedTime,
      layer.baseXOffset + asset.relativeXOffset,
      layer.baseYOffset + asset.relativeYOffset,
      layer.baseZOffset + asset.relativeZOffset)
  }

  /** `assets.map(...)` over one layer's assets. */
  function ResolveAll(basePath: string, layer: Layer, assets: seq<LayerAsset>): (r: seq<ResolvedAsset>)
    ensures |r| == |assets|
    ensures forall i :: 0 <= i < |r| ==> r[i] == ResolveAsset(basePath, layer, assets[i])
  {
    seq(|assets|, i requires 0 <= i < |assets| => ResolveAsset(basePath, layer, assets[i]))
  }

  /** Every attribute names a layer of the catalog and one of that layer's options. */
  predicate Resolvable(data: HtmlLayersInputData, attributes: Dict<string>) {
    forall name :: name in attributes.entries ==>
      name in data.layers.entries && attributes.entries[name] in data.layers.entries[name].options.entries
  }

  /** The assets one attribute contributes, resolved against its layer. */
  function AttributeAssets(data: HtmlLayersInputData, attributes: Dict<string>, name: string): seq<ResolvedAsset>
    requires Resolvable(data, attributes) && name in attributes.entries
  {
    var layer := data.layers.entries[name];
    var option := layer.options.entries[attributes.entries[name]];
    ResolveAll(data.basePath, layer, OptionAssets(option, attributes))
  }

  /** The assets of the attributes `names`, concatenated in that order. */
  function AssetsOf(data: HtmlLayersInputData, attributes: Dict<string>, names: seq<string>): seq<ResolvedAsset>
    requires Resolvable(data, attributes) && forall n :: n in names ==> n in attributes.entries
  {
    if |names| == 0 then []
    else AssetsOf(data, attributes, names[..|names| - 1]) + AttributeAssets(data, attributes, names[|names| - 1])
  }

  /** `itemAssets`: the assets of every attribute, in attribute order. */
  function ItemAssets(data: HtmlLayersInputData, attributes: Dict<string>): seq<ResolvedAsset>
    requires Resolvable(data, attributes)
  {
    AssetsOf(data, attributes, attributes.keys)
  }

  /**
   * Every asset of an item comes from one of its attributes: it is an asset of
   * the picked option or of the edge case that overrides it, placed under the
   * base path with the layer's offsets added.
   */
  lemma {:induction false} AssetsFromAttributes(data: HtmlLayersInputData, attributes: Dict<string>, names: seq<string>, a: ResolvedAsset)
    requires Resolvable(data, attributes) && forall n :: n in names ==> n in attributes.entries
    requires a in AssetsOf(data, attributes, names)
    ensures exists n, asset :: (
        && n in names
        && asset in OptionAssets(data.layers.entries[n].options.entries[attributes.entries[n]], attributes)
        && a == ResolveAsset(data.basePath, data.layers.entries[n], asset))
  {
    var last := names[|names| - 1];
    if a in AttributeAssets(data, attributes, last) {
      var layer := data.layers.entries[last];
      var assets := OptionAssets(layer.options.entries[attributes.entries[last]], attributes);
      var i :| 0 <= i < |assets| && ResolveAll(data.basePath, layer, assets)[i] == a;
      assert assets[i] in assets;
    } else {
      AssetsFromAttributes(data, attributes, names[..|names| - 1], a);
      var n, asset :| n in names[..|names| - 1]
        && asset in OptionAssets(data.layers.entries[n].options.entries[attributes.entries[n]], attributes)
        && a == ResolveAsset(data.basePath, data.layers.entries[n], asset);
      assert n in names;
    }
  }

  /** In a well-formed catalog every attribute contributes at least one asset. */
  lemma {:induction false} EveryAttributeHasAssets(data: HtmlLayersInputData, attributes: Dict<string>, names: seq<string>)
    requires WellFormed(data) && Resolvable(data, attributes)
    requires forall n :: n in names ==> n in attributes.entries
    ensures |AssetsOf(data, attributes, names)| >= |names|
  {
    if |names| > 0 {
      EveryAttributeHasAssets(data, attributes, names[..|names| - 1]);
      var name := names[|names| - 1];
      var option := data.layers.entries[name].options.entries[attributes.entries[name]];
      assert WellFormedOption(attributes.entries[name], option);
    }
  }

  // ---------------------------------------------------------------------------
  // Attributes of one item
  // ---------------------------------------------------------------------------

  /** The names of `layers`, in order. */
  function LayerNames(layers: seq<Layer>): (names: seq<string>)
    ensures |names| == |layers| && forall i :: 0 <= i < |layers| ==> names[i] == layers[i].name
  {
    seq(|layers|, i requires 0 <= i < |layers| => layers[i].name)
  }

  /** A way to pick an option key from a layer's options with one draw; `SelectByWeight` is the one `generate` uses. */
  type Selector = (Dict<LayerOption>, real) -> Result<string, Error>

  /**
   * The attribute loop of `generate`: one draw per layer, in layer order, with
   * the key `select` picks assigned under the layer's name; the draws left.
   */
  function DrawAttributes(select: Selector, layers: seq<Layer>, draws: seq<real>, attributes: Dict<string>)
    : Result<(Dict<string>, seq<real>), Error>
    decreases |layers|
  {
    if |layers| == 0 then Success((attributes, draws))
    else if |draws| == 0 then Failure(DrawsExhausted)
    else
      var picked := select(layers[0].options, draws[0]);
      if picked.Failure? then Failure(picked.error)
      else DrawAttributes(select, layers[1..], draws[1..], Put(attributes, layers[0].name, picked.value))
  }

  /** A successful selection picks one of the option keys. */
  lemma SelectionPicksKey(options: Dict<LayerOption>, u: real)
    requires SelectByWeight(options, u).Success?
    ensures SelectByWeight(options, u).value in options.entries
  {
    var k := PickIndex(Weights(options), Scaled(u, TotalWeight(options)));
    assert options.keys[k.value] in options.keys;
  }

  /** A successful attribute loop uses exactly one draw per layer. */
  lemma {:induction false} DrawAttributesConsumes(select: Selector, layers: seq<Layer>, draws: seq<real>, attributes: Dict<string>)
    requires DrawAttributes(select, layers, draws, attributes).Success?
    ensures |layers| <= |draws|
    ensures DrawAttributes(select, layers, draws, attributes).value.1 == draws[|layers|..]
    decreases |layers|
  {
    if |layers| > 0 {
      var key := select(layers[0].options, draws[0]).value;
      DrawAttributesConsumes(select, layers[1..], draws[1..], Put(attributes, layers[0].name, key));
      assert draws[1..][|layers| - 1..] == draws[|layers|..];
    }
  }

  /** Distinct layer names, none assigned yet: the names are appended to the keys in layer order. */
  ghost predicate FreshNames(layers: seq<Layer>, attributes: Dict<string>) {
    && NoDup(LayerNames(layers))
    && forall i :: 0 <= i < |layers| ==> layers[i].name !in attributes.entries
  }

  /** Fresh names stay fresh for the remaining layers after the first one is assigned. */
  lemma FreshNamesTail(layers: seq<Layer>, attributes: Dict<string>, key: string)
    requires |layers| > 0 && FreshNames(layers, attributes)
    ensures FreshNames(layers[1..], Put(attributes, layers[0].name, key))
    ensures LayerNames(layers) == [layers[0].name] + LayerNames(layers[1..])
  {
    var tail := layers[1..];
    assert LayerNames(layers) == [layers[0].name] + LayerNames(tail);
    forall i, j | 0 <= i < j < |tail| ensures LayerNames(tail)[i] != LayerNames(tail)[j] {
      assert LayerNames(layers)[i + 1] != LayerNames(layers)[j + 1];
    }
    forall i | 0 <= i < |tail| ensures tail[i].name !in Put(attributes, layers[0].name, key).entries {
      assert LayerNames(layers)[0] != LayerNames(layers)[i + 1];
    }
  }

  /** One turn of the attribute loop: the first layer's draw selects its key, the rest continue from there. */
  lemma DrawAttributesStep(select: Selector, layers: seq<Layer>, draws: seq<real>, attributes: Dict<string>)
    requires |layers| > 0 && DrawAttributes(select, layers, draws, attributes).Success?
    ensures |draws| > 0 && select(layers[0].options, draws[0]).Success?
    ensures DrawAttributes(select, layers, draws, attributes) == DrawAttributes(select, layers[1..], draws[1..],
      Put(attributes, layers[0].name, select(layers[0].options, draws[0]).value))
  {
  }

  /** A successful attribute loop over fresh layer names appends the layer names to the keys, in layer order. */
  lemma {:induction false} DrawAttributesKeys(select: Selector, layers: seq<Layer>, draws: seq<real>, attributes: Dict<string>)
    requires DrawAttributes(select, layers, draws, attributes).Success?
    requires FreshNames(layers, attributes)
    ensures DrawAttributes(select, layers, draws, attributes).value.0.keys == attributes.keys + LayerNames(layers)
    decreases |layers|
  {
    if |layers| > 0 {
      DrawAttributesStep(select, layers, draws, attributes);
      var key := select(layers[0].options, draws[0]).value;
      var next := Put(attributes, layers[0].name, key);
      FreshNamesTail(layers, attributes, key);
      DrawAttributesKeys(select, layers[1..], draws[1..], next);
      AppendShift(attributes.keys, layers[0].name, LayerNames(layers[1..]));
    }
  }

  /** Moving the first of the appended elements to the front part. */
  lemma AppendShift<T>(front: seq<T>, x: T, rest: seq<T>)
    ensures front + ([x] + rest) == (front + [x]) + rest
  {
  }

  /** A successful attribute loop keeps an attribute that no layer names. */
  lemma {:induction false} DrawAttributesKeeps(select: Selector, layers: seq<Layer>, draws: seq<real>, attributes: Dict<string>, k: string)
    requires DrawAttributes(select, layers, draws, attributes).Success?
    requires k in attributes.entries && forall j :: 0 <= j < |layers| ==> layers[j].name != k
    ensures k in DrawAttributes(select, layers, draws, attributes).value.0.entries
    ensures DrawAttributes(select, layers, draws, attributes).value.0.entries[k] == attributes.entries[k]
    decreases |layers|
  {
    if |layers| > 0 {
      DrawAttributesStep(select, layers, draws, attributes);
      var key := select(layers[0].options, draws[0]).value;
      var tail := layers[1..];
      forall j | 0 <= j < |tail| ensures tail[j].name != k {
        assert tail[j] == layers[j + 1];
      }
      DrawAttributesKeeps(select, tail, draws[1..], Put(attributes, layers[0].name, key), k);
    }
  }

  /** Layer `i`, when no later layer has its name, is assigned the option that draw `i` selects. */
  lemma {:induction false} DrawAttributesValue(select: Selector, layers: seq<Layer>, draws: seq<real>, attributes: Dict<string>, i: nat)
    requires DrawAttributes(select, layers, draws, attributes).Success?
    requires i < |layers| && forall j :: i < j < |layers| ==> layers[j].name != layers[i].name
    ensures i < |draws| && select(layers[i].options, draws[i]).Success?
    ensures layers[i].name in DrawAttributes(select, layers, draws, attributes).value.0.entries
    ensures DrawAttributes(select, layers, draws, attributes).value.0.entries[layers[i].name]
      == select(layers[i].options, draws[i]).value
    decreases |layers|
  {
    DrawAttributesStep(select, layers, draws, attributes);
    var key := select(layers[0].options, draws[0]).value;
    var next := Put(attributes, layers[0].name, key);
    var tail := layers[1..];
    if i == 0 {
      forall j | 0 <= j < |tail| ensures tail[j].name != layers[0].name {
        assert tail[j] == layers[j + 1];
      }
      DrawAttributesKeeps(select, tail, draws[1..], next, layers[0].name);
    } else {
      forall j | i - 1 < j < |tail| ensures tail[j].name != tail[i - 1].name {
        assert tail[j] == layers[j + 1];
      }
      DrawAttributesValue(select, tail, draws[1..], next, i - 1);
      assert tail[i - 1] == layers[i] && draws[1..][i - 1] == draws[i];
    }
  }

  /**
   * With one draw in `[0, 1)` per layer and positive weights, the attribute
   * loop cannot fail; it fails with `DrawsExhausted` when draws are missing.
   */
  lemma {:induction false} DrawAttributesSucceeds(layers: seq<Layer>, draws: seq<real>, attributes: Dict<string>)
    requires forall i :: 0 <= i < |layers| ==>
      |layers[i].options.keys| > 0 && PositiveWeights(Weights(layers[i].options))
    requires forall i :: 0 <= i < |draws| ==> 0.0 <= draws[i] < 1.0
    ensures DrawAttributes(SelectByWeight, layers, draws, attributes).Success? <==> |layers| <= |draws|
    ensures |draws| < |layers| ==> DrawAttributes(SelectByWeight, layers, draws, attributes) == Failure(DrawsExhausted)
    decreases |layers|
  {
    if |layers| > 0 && |draws| > 0 {
      SelectionSucceeds(layers[0].options, draws[0]);
      var key := SelectByWeight(layers[0].options, draws[0]).value;
      DrawAttributesSucceeds(layers[1..], draws[1..], Put(attributes, layers[0].name, key));
    }
  }

  /** An item's attributes name every layer, in layer order, each with one of that layer's option keys. */
  ghost predicate Sampled(data: HtmlLayersInputData, attributes: Dict<string>) {
    && attributes.keys == data.layers.keys
    && forall name :: name in attributes.entries ==>
         name in data.layers.entries && attributes.entries[name] in data.layers.entries[name].options.entries
  }

  /** Starting from `{}`, the attribute loop over the catalog's layers yields sampled attributes. */
  lemma SampledFromDraws(data: HtmlLayersInputData, draws: seq<real>)
    requires NamesMatchKeys(data.layers)
    requires DrawAttributes(SelectByWeight, Values(data.layers), draws, Empty()).Success?
    ensures Sampled(data, DrawAttributes(SelectByWeight, Values(data.layers), draws, Empty()).value.0)
    ensures |data.layers.keys| <= |draws|
    ensures DrawAttributes(SelectByWeight, Values(data.layers), draws, Empty()).value.1 == draws[|data.layers.keys|..]
  {
    var layers := Values(data.layers);
    CatalogLayerNames(data.layers);
    DrawAttributesConsumes(SelectByWeight, layers, draws, Empty());
    DrawAttributesKeys(SelectByWeight, layers, draws, Empty());
    var attributes := DrawAttributes(SelectByWeight, layers, draws, Empty()).value.0;
    assert attributes.keys == data.layers.keys;
    forall name | name in attributes.entries
      ensures name in data.layers.entries && attributes.entries[name] in data.layers.entries[name].options.entries
    {
      var i :| 0 <= i < |data.layers.keys| && data.layers.keys[i] == name;
      CatalogLayerAt(data.layers, i);
      DrawAttributesValue(SelectByWeight, layers, draws, Empty(), i);
      SelectionPicksKey(layers[i].options, draws[i]);
    }
  }

  /** The catalog's layers, in key order, carry the keys as distinct names. */
  lemma CatalogLayerNames(layers: Dict<Layer>)
    requires NamesMatchKeys(layers)
    ensures LayerNames(Values(layers)) == layers.keys
    ensures FreshNames(Values(layers), Empty())
  {
    assert LayerNames(Values(layers)) == layers.keys;
  }

  /** The catalog's layer at position `i` is the one under key `i`, and no later layer has its name. */
  lemma CatalogLayerAt(layers: Dict<Layer>, i: nat)
    requires NamesMatchKeys(layers) && i < |layers.keys|
    ensures Values(layers)[i] == layers.entries[layers.keys[i]] && Values(layers)[i].name == layers.keys[i]
    ensures forall j :: i < j < |layers.keys| ==> Values(layers)[j].name != Values(layers)[i].name
  {
  }


  /** Every draw lies in `[0, 1)`, as `random()` of a seeded generator returns. */
  ghost predicate UnitDraws(draws: seq<real>) {
    forall i :: 0 <= i < |draws| ==> 0.0 <= draws[i] < 1.0
  }

  /**
   * With a well-formed catalog and draws in `[0, 1)`, one item's attribute
   * loop fails only when the draws run out: it takes one draw per layer.
   */
  lemma WellFormedDraws(data: HtmlLayersInputData, draws: seq<real>)
    requires WellFormed(data) && UnitDraws(draws)
    ensures DrawAttributes(SelectByWeight, Values(data.layers), draws, Empty()).Success? <==> |data.layers.keys| <= |draws|
    ensures DrawAttributes(SelectByWeight, Values(data.layers), draws, Empty()).Failure? ==>
      DrawAttributes(SelectByWeight, Values(data.layers), draws, Empty()).error == DrawsExhausted
  {
    var layers := Values(data.layers);
    forall i | 0 <= i < |layers| ensures |layers[i].options.keys| > 0 && PositiveWeights(Weights(layers[i].options)) {
      var key := data.layers.keys[i];
      assert key in data.layers.entries;
      assert WellFormedLayer(key, layers[i]);
      forall j | 0 <= j < |layers[i].options.keys| ensures Weights(layers[i].options)[j] > 0 {
        var optionKey := layers[i].options.keys[j];
        assert optionKey in layers[i].options.entries;
        assert WellFormedOption(optionKey, layers[i].options.entries[optionKey]);
      }
    }
    DrawAttributesSucceeds(layers, draws, Empty());
  }

  // ---------------------------------------------------------------------------
  // Items
  // ---------------------------------------------------------------------------

  /** The two records of an item: its attributes with their DNA, then its assets. */
  function ItemRecords(data: HtmlLayersInputData, hash: seq<(string, string)> -> string, attributes: Dict<string>)
    : seq<ItemRecord>
    requires Resolvable(data, attributes)
  {
    [ ItemRecord(ItemAttributesKind, ItemAttributes(hash(DnaSource(attributes)), attributes)),
      ItemRecord(HtmlLayersKind, HtmlLayers(ItemAssets(data, attributes))) ]
  }

  /** `records` is what `generate` stores for an item: the records of sampled attributes. */
  ghost predicate GeneratedItem(data: HtmlLayersInputData, hash: seq<(string, string)> -> string, records: seq<ItemRecord>) {
    && |records| == 2
    && records[0].data.ItemAttributes?
    && Sampled(data, records[0].data.attributes)
    && records == ItemRecords(data, hash, records[0].data.attributes)
  }

  /** The DNA an item's records carry (empty when they carry none). */
  function RecordDna(records: seq<ItemRecord>): string {
    if |records| > 0 && records[0].data.ItemAttributes? then records[0].data.dna else ""
  }

  /** No two items carry the same DNA. */
  ghost predicate DistinctDnas(items: map<string, seq<ItemRecord>>) {
    forall k1, k2 :: k1 in items && k2 in items && k1 != k2 ==> RecordDna(items[k1]) != RecordDna(items[k2])
  }

  /** The keys `uid.toString()` of the uids from `first` up to, not including, `last`. */
  ghost function UidKeys(first: int, last: int): set<string> {
    set uid | first <= uid < last :: ToDecimal(uid)
  }

  /** `this.constructor.name`, part of the seed of the random generator. */
  const GeneratorName := "HtmlLayersAttributesGenerator"

  class HtmlLayersAttributesGenerator {
    const dataSet: string
    const startIndex: int
    const endIndex: int
    /** `sha1(JSON.stringify(dnaSource))` in hexadecimal, supplied by the caller. */
    const hash: seq<(string, string)> -> string
    var data: HtmlLayersInputData
    /** The values `rmg.random()` returns from now on, in order. */
    var rmg: seq<real>

    /** The range is one the constructor accepts, and every draw left lies in `[0, 1)`. */
    ghost predicate Valid()
      reads this
    {
      ValidRange(startIndex, endIndex) && UnitDraws(rmg)
    }

    constructor (dataSet: string, startIndex: int, endIndex: int, hash: seq<(string, string)> -> string)
      requires ValidRange(startIndex, endIndex)
      ensures Valid()
      ensures this.dataSet == dataSet && this.startIndex == startIndex && this.endIndex == endIndex
      ensures this.hash == hash && data == HtmlLayersInputData("", Empty()) && rmg == []
    {
      this.dataSet := dataSet;
      this.startIndex := startIndex;
      this.endIndex := endIndex;
      this.hash := hash;
      data := HtmlLayersInputData("", Empty());
      rmg := [];
    }

    /** `new HtmlLayersAttributesGenerator(...)`, which throws unless the range is valid. */
    static method Create(dataSet: string, startIndex: int, endIndex: int, hash: seq<(string, string)> -> string)
      returns (r: Result<HtmlLayersAttributesGenerator, Error>)
      ensures r.Success? <==> ValidRange(startIndex, endIndex)
      ensures r.Failure? ==> r.error == InvalidRange(startIndex, endIndex)
      ensures r.Success? ==> fresh(r.value) && r.value.Valid()
      ensures r.Success? ==> (
        && r.value.dataSet == dataSet && r.value.startIndex == startIndex
        && r.value.endIndex == endIndex && r.value.hash == hash)
    {
      if endIndex < startIndex || startIndex + endIndex < 1 {
        return Failure(InvalidRange(startIndex, endIndex));
      }
      var g := new HtmlLayersAttributesGenerator(dataSet, startIndex, endIndex, hash);
      return Success(g);
    }

    /**
     * `init`: takes the catalog of the data set and seeds the random generator
     * with the data set, the class name and the seed; `prng` gives the values a
     * generator seeded with a string returns, each in `[0, 1)`.
     */
    method Init(data: HtmlLayersInputData, seed: string, prng: string -> seq<real>)
      requires Valid()
      requires forall s :: UnitDraws(prng(s))
      modifies this
      ensures Valid()
      ensures this.data == data
      ensures rmg == prng(dataSet + GeneratorName + seed)
    {
      this.data := data;
      rmg := prng(dataSet + GeneratorName + seed);
    }

    /** `calculateDna`: the hash of the sorted attribute pairs. */
    function Dna(attributes: Dict<string>): string {
      hash(DnaSource(attributes))
    }

    /**
     * `selectRandomItemByWeight`: takes the next draw, scales it by the total
     * weight and picks the option the weights put it under.
     */
    method SelectRandomItemByWeight(options: Dict<LayerOption>) returns (r: Result<string, Error>)
      modifies this
      ensures data == old(data)
      ensures old(rmg) == [] ==> r == Failure(DrawsExhausted) && rmg == old(rmg)
      ensures old(rmg) != [] ==> r == SelectByWeight(options, old(rmg)[0]) && rmg == old(rmg)[1..]
    {
      if |rmg| == 0 {
        return Failure(DrawsExhausted);
      }
      var u := rmg[0];
      rmg := rmg[1..];
      var k := WalkWeights(options, Scaled(u, TotalWeight(options)));
      if k.Some? {
        return Success(options.keys[k.value]);
      }
      return Failure(NoOptionPicked);
    }

    /**
     * The loop of `selectRandomItemByWeight`: walks the options, subtracting
     * each weight until the random number falls below one.
     */
    static method WalkWeights(options: Dict<LayerOption>, randomNumber: real) returns (k: Option<nat>)
      ensures k == PickIndex(Weights(options), randomNumber)
    {
      var remaining := randomNumber;
      for i := 0 to |options.keys|
        invariant PickIndex(Weights(options), randomNumber) == Shifted(PickIndex(Weights(options)[i..], remaining), i)
      {
        var weight := options.entries[options.keys[i]].weight;
        WeightAt(options, i);
        WalkStep(Weights(options), i, randomNumber, remaining, weight);
        if remaining < weight as real {
          return Some(i);
        }
        remaining := remaining - weight as real;
      }
      WalkEnd(options, randomNumber, remaining);
      return None;
    }

    /** The attribute loop of `generate`: one weighted draw per layer, in layer order. */
    method SampleAttributes() returns (r: Result<Dict<string>, Error>)
      modifies this
      ensures data == old(data)
      ensures r.Success? <==> DrawAttributes(SelectByWeight, Values(data.layers), old(rmg), Empty()).Success?
      ensures r.Success? ==> (r.value, rmg) == DrawAttributes(SelectByWeight, Values(data.layers), old(rmg), Empty()).value
      ensures r.Failure? ==> r.error == DrawAttributes(SelectByWeight, Values(data.layers), old(rmg), Empty()).error
      ensures IsSuffix(rmg, old(rmg))
    {
      ghost var layers := Values(data.layers);
      var itemAttributes := Empty();
      for i := 0 to |data.layers.keys|
        invariant data == old(data)
        invariant IsSuffix(rmg, old(rmg))
        invariant DrawAttributes(SelectByWeight, layers, old(rmg), Empty())
          == DrawAttributes(SelectByWeight, layers[i..], rmg, itemAttributes)
      {
        var layer := data.layers.entries[data.layers.keys[i]];
        DrawAttributesUnfold(SelectByWeight, layers, i, rmg, itemAttributes);
        var key :- SelectRandomItemByWeight(layer.options);
        itemAttributes := Put(itemAttributes, layer.name, key);
      }
      assert layers[|data.layers.keys|..] == [];
      return Success(itemAttributes);
    }

    /**
     * One pass of the attribute loop of `generate`, stated by what it yields:
     * an attribute per layer drawn from that layer's options, one draw used
     * per layer; otherwise the draws ran out or a draw picked nothing.
     */
    method SampleItemAttributes() returns (r: Result<Dict<string>, Error>)
      requires NamesMatchKeys(data.layers)
      modifies this
      ensures data == old(data)
      ensures IsSuffix(rmg, old(rmg))
      ensures r.Success? ==> Sampled(data, r.value) && |rmg| + |data.layers.keys| == |old(rmg)|
      ensures r.Failure? ==> r.error in {DrawsExhausted, NoOptionPicked}
      ensures r.Failure? && WellFormed(data) && UnitDraws(old(rmg)) ==> r.error == DrawsExhausted
    {
      ghost var drawsBefore := rmg;
      DrawAttributesErrors(Values(data.layers), rmg, Empty());
      if WellFormed(data) && UnitDraws(rmg) {
        WellFormedDraws(data, rmg);
      }
      r := SampleAttributes();
      if r.Success? {
        SampledFromDraws(data, drawsBefore);
      }
    }

    /**
     * The asset loop of `generate`: for each attribute, the assets of the first
     * edge case whose trait has the edge case's value, else the option's own,
     * placed under the base path with the layer's offsets.
     */
    method ComputeAssets(itemAttributes: Dict<string>) returns (itemAssets: seq<ResolvedAsset>)
      requires Resolvable(data, itemAttributes)
      ensures itemAssets == ItemAssets(data, itemAttributes)
    {
      itemAssets := [];
      for i := 0 to |itemAttributes.keys|
        invariant itemAssets == AssetsOf(data, itemAttributes, itemAttributes.keys[..i])
      {
        var attributeName := itemAttributes.keys[i];
        var layer := data.layers.entries[attributeName];
        var option := layer.options.entries[itemAttributes.entries[attributeName]];
        var assets := SelectAssets(option, itemAttributes);
        assert itemAttributes.keys[..i + 1][..i] == itemAttributes.keys[..i];
        itemAssets := itemAssets + ResolveAll(data.basePath, layer, assets);
      }
      assert itemAttributes.keys[..|itemAttributes.keys|] == itemAttributes.keys;
    }

    /**
     * The assets one option contributes: the first edge case, in key order,
     * whose trait has the edge case's value wins; the option's own assets when
     * none does or its assets are empty.
     */
    method SelectAssets(option: LayerOption, itemAttributes: Dict<string>) returns (assets: seq<LayerAsset>)
      ensures assets == OptionAssets(option, itemAttributes)
    {
      assets := [];
      ghost var first := FirstMatch(option.edgeCases.keys, itemAttributes);
      var j := 0;
      while j < |option.edgeCases.keys|
        invariant j <= |option.edgeCases.keys|
        invariant assets == []
        invariant first == Shifted(FirstMatch(option.edgeCases.keys[j..], itemAttributes), j)
      {
        var edgeCaseUid := option.edgeCases.keys[j];
        MatchStep(option.edgeCases.keys, j, itemAttributes, first);
        var key := EdgeCaseKey(edgeCaseUid);
        if key.1 == Lookup(itemAttributes, key.0) {
          assets := assets + option.edgeCases.entries[edgeCaseUid].assets;
          break;
        }
        j := j + 1;
      }
      if j == |option.edgeCases.keys| {
        MatchEnd(option.edgeCases.keys, itemAttributes, first);
      }
      if |assets| == 0 {
        assets := assets + option.assets;
      }
    }

    /** The two records `generate` stores for sampled attributes: their DNA, then their assets. */
    method BuildRecords(itemAttributes: Dict<string>, itemDna: string) returns (records: seq<ItemRecord>)
      requires Sampled(data, itemAttributes) && itemDna == Dna(itemAttributes)
      ensures GeneratedItem(data, hash, records) && RecordDna(records) == itemDna
    {
      var itemAssets := ComputeAssets(itemAttributes);
      records := [
        ItemRecord(ItemAttributesKind, ItemAttributes(itemDna, itemAttributes)),
        ItemRecord(HtmlLayersKind, HtmlLayers(itemAssets))];
      RecordsGenerated(data, hash, itemAttributes, itemDna, itemAssets);
    }

    /**
     * `generate`: fills every uid from `startIndex` to `endIndex` with the
     * records of freshly drawn attributes, drawing again without advancing the
     * uid whenever the DNA is one an earlier item already has.
     */
    method Generate() returns (r: Result<map<string, seq<ItemRecord>>, Error>)
      requires Valid() && NamesMatchKeys(data.layers)
      modifies this
      ensures data == old(data)
      ensures IsSuffix(rmg, old(rmg))
      ensures r.Success? ==> r.value.Keys == UidKeys(startIndex, endIndex + 1)
      ensures r.Success? ==> AllGenerated(data, hash, r.value)
      ensures r.Success? ==> DistinctDnas(r.value)
      ensures Valid()
      ensures r.Failure? ==> r.error in {DrawsExhausted, NoOptionPicked, EndlessRetry}
      ensures r.Failure? && WellFormed(data) ==> r.error in {DrawsExhausted, EndlessRetry}
      ensures r == Failure(EndlessRetry) ==> |data.layers.keys| == 0
    {
      var items: map<string, seq<ItemRecord>> := map[];
      var dnas: set<string> := {};
      var uid := startIndex;
      while uid <= endIndex
        invariant startIndex <= uid <= endIndex + 1
        invariant data == old(data)
        invariant IsSuffix(rmg, old(rmg)) && Valid()
        invariant Filled(items, dnas, startIndex, uid)
        invariant AllGenerated(data, hash, items)
        decreases |rmg|, endIndex - uid
      {
        ghost var drawsBefore := rmg;
        var next :- DrawItem(dnas);
        SuffixOfSuffix(rmg, drawsBefore, old(rmg));
        if next.Some? {
          var records := next.value;
          AddItem(items, dnas, startIndex, uid, records);
          AddGenerated(data, hash, items, ToDecimal(uid), records);
          items := items[ToDecimal(uid) := records];
          dnas := dnas + {RecordDna(records)};
          uid := uid + 1;
        }
      }
      return Success(items);
    }

    /**
     * One turn of the loop of `generate`: draws an item's attributes and, when
     * their DNA is new, the records to store; none when the DNA is one of
     * `dnas`, which with no layer at all means retrying for ever.
     */
    method DrawItem(dnas: set<string>) returns (r: Result<Option<seq<ItemRecord>>, Error>)
      requires Valid() && NamesMatchKeys(data.layers)
      modifies this
      ensures data == old(data)
      ensures IsSuffix(rmg, old(rmg)) && Valid()
      ensures r.Success? && r.value.Some? ==> GeneratedItem(data, hash, r.value.value) && RecordDna(r.value.value) !in dnas
      ensures r.Success? && r.value.None? ==> |rmg| < |old(rmg)|
      ensures r.Failure? ==> r.error in {DrawsExhausted, NoOptionPicked, EndlessRetry}
      ensures r.Failure? && WellFormed(data) ==> r.error in {DrawsExhausted, EndlessRetry}
      ensures r == Failure(EndlessRetry) ==> |data.layers.keys| == 0
    {
      ghost var drawsBefore := rmg;
      var itemAttributes :- SampleItemAttributes();
      SuffixUnitDraws(rmg, drawsBefore);
      var itemDna := Dna(itemAttributes);
      if itemDna in dnas {
        if |data.layers.keys| == 0 {
          return Failure(EndlessRetry);
        }
        return Success(None);
      }
      var records := BuildRecords(itemAttributes, itemDna);
      return Success(Some(records));
    }
  }

  /**
   * The bookkeeping of `generate` once the uids from `first` up to `next` are
   * filled: one item per uid, `dnas` holding their DNAs, no DNA twice.
   */
  ghost predicate Filled(items: map<string, seq<ItemRecord>>, dnas: set<string>, first: int, next: int) {
    && items.Keys == UidKeys(first, next)
    && dnas == (set k | k in items :: RecordDna(items[k]))
    && DistinctDnas(items)
  }

  /** Storing an item with a new DNA under the next uid keeps the bookkeeping. */
  lemma AddItem(items: map<string, seq<ItemRecord>>, dnas: set<string>, first: int, uid: int, records: seq<ItemRecord>)
    requires first <= uid && Filled(items, dnas, first, uid)
    requires RecordDna(records) !in dnas
    ensures ToDecimal(uid) !in items
    ensures Filled(items[ToDecimal(uid) := records], dnas + {RecordDna(records)}, first, uid + 1)
  {
    UidKeysStep(first, uid);
    var added := items[ToDecimal(uid) := records];
    assert added.Keys == items.Keys + {ToDecimal(uid)};
    assert (set k | k in added :: RecordDna(added[k])) == dnas + {RecordDna(records)} by {
      forall k | k in items ensures added[k] == items[k] { }
    }
    forall k1, k2 | k1 in added && k2 in added && k1 != k2 ensures RecordDna(added[k1]) != RecordDna(added[k2]) {
      if k1 != ToDecimal(uid) && k2 != ToDecimal(uid) {
        assert added[k1] == items[k1] && added[k2] == items[k2];
      } else if k1 == ToDecimal(uid) {
        assert RecordDna(added[k2]) in dnas;
      } else {
        assert RecordDna(added[k1]) in dnas;
      }
    }
  }

  /** `s` is what is left of `t` after taking some values from its front. */
  ghost predicate IsSuffix<T>(s: seq<T>, t: seq<T>) {
    |s| <= |t| && s == t[|t| - |s|..]
  }

  /** What is left of draws in `[0, 1)` lies in `[0, 1)`. */
  lemma SuffixUnitDraws(s: seq<real>, t: seq<real>)
    requires IsSuffix(s, t) && UnitDraws(t)
    ensures UnitDraws(s)
  {
    forall i | 0 <= i < |s| ensures 0.0 <= s[i] < 1.0 {
      assert s[i] == t[|t| - |s| + i];
    }
  }

  lemma SuffixOfSuffix<T>(s: seq<T>, t: seq<T>, u: seq<T>)
    requires IsSuffix(s, t) && IsSuffix(t, u)
    ensures IsSuffix(s, u)
  {
    assert u[|u| - |t|..][|t| - |s|..] == u[|u| - |s|..];
  }

  /** The two records `generate` stores for sampled attributes form a generated item carrying their DNA. */
  lemma RecordsGenerated(data: HtmlLayersInputData, hash: seq<(string, string)> -> string,
    attributes: Dict<string>, dna: string, assets: seq<ResolvedAsset>)
    requires Sampled(data, attributes) && dna == hash(DnaSource(attributes))
    requires Resolvable(data, attributes) && assets == ItemAssets(data, attributes)
    ensures var records := [
        ItemRecord(ItemAttributesKind, ItemAttributes(dna, attributes)),
        ItemRecord(HtmlLayersKind, HtmlLayers(assets))];
      GeneratedItem(data, hash, records) && RecordDna(records) == dna
  {
  }

  /** Every stored item is a generated item. */
  ghost predicate AllGenerated(data: HtmlLayersInputData, hash: seq<(string, string)> -> string,
    items: map<string, seq<ItemRecord>>)
  {
    forall k :: k in items ==> GeneratedItem(data, hash, items[k])
  }

  lemma AddGenerated(data: HtmlLayersInputData, hash: seq<(string, string)> -> string,
    items: map<string, seq<ItemRecord>>, key: string, records: seq<ItemRecord>)
    requires AllGenerated(data, hash, items) && GeneratedItem(data, hash, records)
    ensures AllGenerated(data, hash, items[key := records])
  {
  }

  /** The next uid adds its own key, which no earlier uid has. */
  lemma UidKeysStep(first: int, uid: int)
    requires first <= uid
    ensures ToDecimal(uid) !in UidKeys(first, uid)
    ensures UidKeys(first, uid + 1) == UidKeys(first, uid) + {ToDecimal(uid)}
  {
    if ToDecimal(uid) in UidKeys(first, uid) {
      var other :| first <= other < uid && ToDecimal(other) == ToDecimal(uid);
      ToDecimalInjective(other, uid);
    }
  }

  /** The attribute loop fails only for want of a draw or because a selection found no option. */
  lemma {:induction false} DrawAttributesErrors(layers: seq<Layer>, draws: seq<real>, attributes: Dict<string>)
    ensures DrawAttributes(SelectByWeight, layers, draws, attributes).Failure? ==>
      DrawAttributes(SelectByWeight, layers, draws, attributes).error in {DrawsExhausted, NoOptionPicked}
    decreases |layers|
  {
    if |layers| > 0 && |draws| > 0 && SelectByWeight(layers[0].options, draws[0]).Success? {
      var key := SelectByWeight(layers[0].options, draws[0]).value;
      DrawAttributesErrors(layers[1..], draws[1..], Put(attributes, layers[0].name, key));
    }
  }

  /** One turn of the attribute loop, at layer `i`. */
  lemma DrawAttributesUnfold(select: Selector, layers: seq<Layer>, i: nat, draws: seq<real>, attributes: Dict<string>)
    requires i < |layers|
    ensures DrawAttributes(select, layers[i..], draws, attributes) ==
      if |draws| == 0 then Failure(DrawsExhausted)
      else if select(layers[i].options, draws[0]).Failure? then Failure(select(layers[i].options, draws[0]).error)
      else DrawAttributes(select, layers[i + 1..], draws[1..],
        Put(attributes, layers[i].name, select(layers[i].options, draws[0]).value))
  {
    assert layers[i..][0] == layers[i] && layers[i..][1..] == layers[i + 1..];
  }

  /** One turn of the edge case loop, at uid `j`. */
  lemma FirstMatchStep(uids: seq<string>, j: nat, attributes: Dict<string>)
    requires j < |uids|
    ensures FirstMatch(uids[j..], attributes) == if EdgeCaseMatches(uids[j], attributes) then Some(0)
      else Shifted(FirstMatch(uids[j + 1..], attributes), 1)
  {
    assert uids[j..][0] == uids[j] && uids[j..][1..] == uids[j + 1..];
  }

  /** One turn of the edge case loop, stated on the loop's own variables. */
  lemma MatchStep(uids: seq<string>, j: nat, attributes: Dict<string>, first: Option<nat>)
    requires j < |uids| && first == Shifted(FirstMatch(uids[j..], attributes), j)
    ensures var key := EdgeCaseKey(uids[j]);
      && (key.1 == Lookup(attributes, key.0) ==> first == Some(j))
      && (key.1 != Lookup(attributes, key.0) ==> first == Shifted(FirstMatch(uids[j + 1..], attributes), j + 1))
  {
    FirstMatchStep(uids, j, attributes);
  }

  /** The edge case loop ends without a match when it runs out of uids. */
  lemma MatchEnd(uids: seq<string>, attributes: Dict<string>, first: Option<nat>)
    requires first == Shifted(FirstMatch(uids[|uids|..], attributes), |uids|)
    ensures first == None
  {
    assert uids[|uids|..] == [];
  }

  /** One turn of the selection loop: below weight `i` it stops there, otherwise it goes on with the rest. */
  lemma PickIndexStep(ws: seq<int>, i: nat, randomNumber: real)
    requires i < |ws|
    ensures PickIndex(ws[i..], randomNumber) == if randomNumber < ws[i] as real then Some(0)
      else Shifted(PickIndex(ws[i + 1..], randomNumber - ws[i] as real), 1)
  {
    assert ws[i..][0] == ws[i] && ws[i..][1..] == ws[i + 1..];
  }

  /** One turn of the selection loop, stated on the loop's own variables. */
  lemma WalkStep(ws: seq<int>, i: nat, randomNumber: real, remaining: real, weight: int)
    requires i < |ws| && weight == ws[i]
    requires PickIndex(ws, randomNumber) == Shifted(PickIndex(ws[i..], remaining), i)
    ensures remaining < weight as real ==> PickIndex(ws, randomNumber) == Some(i)
    ensures !(remaining < weight as real) ==>
      PickIndex(ws, randomNumber) == Shifted(PickIndex(ws[i + 1..], remaining - weight as real), i + 1)
  {
    PickIndexStep(ws, i, remaining);
  }

  /** The weight of the option at position `i`. */
  lemma WeightAt(options: Dict<LayerOption>, i: nat)
    requires i < |options.keys|
    ensures Weights(options)[i] == options.entries[options.keys[i]].weight
  {
  }

  /** The selection loop falls through when no weight was above what remained. */
  lemma WalkEnd(options: Dict<LayerOption>, randomNumber: real, remaining: real)
    requires PickIndex(Weights(options), randomNumber)
      == Shifted(PickIndex(Weights(options)[|options.keys|..], remaining), |options.keys|)
    ensures PickIndex(Weights(options), randomNumber) == None
  {
    assert Weights(options)[|options.keys|..] == [];
  }

  /** An index found in a suffix starting at `i`, as an index of the whole sequence. */
  function Shifted(k: Option<nat>, i: nat): Option<nat> {
    if k.Some? then Some(k.value + i) else None
  }
}
