/**
 * The HTML layers renderer: for every item it keeps the assets of the records
 * the HTML layers generator wrote, orders them by z offset, and writes one
 * HTML page per item under the temporary render directory.
 */
module HtmlLayersRenderer {
  import opened Wrappers
  import opened Errors
  import opened Text
  import opened Dicts
  import opened StableSort
  import opened Catalog
  import opened HtmlLayersAttributesGenerator

  /** `TEMP_CACHE_DIR` */
  const TempCacheDir := "temp"

  const RenderKind := "HtmlLayeredImagesRendererInterface@v1"

  /** `HtmlLayeredImagesRendererInterface`: the page written and its modification time. */
  datatype RenderData = RenderData(path: string, latestModifiedTimestamp: int)

  datatype RenderRecord = RenderRecord(kind: string, data: RenderData)

  // ---------------------------------------------------------------------------
  // Asset selection
  // ---------------------------------------------------------------------------

  /** Whether a record is one the renderer supports: tagged by the HTML layers generator and carrying assets. */
  predicate Supported(record: ItemRecord) {
    record.kind == HtmlLayersKind && record.data.HtmlLayers?
  }

  /** `filter` on the kind, then `flatMap` to the assets: the supported records' assets in record order. */
  function SupportedAssets(records: seq<ItemRecord>): seq<ResolvedAsset> {
    if |records| == 0 then []
    else (if Supported(records[0]) then records[0].data.assets else []) + SupportedAssets(records[1..])
  }

  /** Collecting the assets of two runs of records is collecting each and concatenating. */
  lemma {:induction false} SupportedAssetsAppend(a: seq<ItemRecord>, b: seq<ItemRecord>)
    ensures SupportedAssets(a + b) == SupportedAssets(a) + SupportedAssets(b)
  {
    if |a| == 0 {
      assert a + b == b;
    } else {
      assert (a + b)[0] == a[0] && (a + b)[1..] == a[1..] + b;
      SupportedAssetsAppend(a[1..], b);
      var head := if Supported(a[0]) then a[0].data.assets else [];
      assert SupportedAssets(a + b) == head + (SupportedAssets(a[1..]) + SupportedAssets(b));
    }
  }

  /** An asset is collected exactly when some supported record carries it. */
  lemma {:induction false} SupportedAssetsFrom(records: seq<ItemRecord>, x: ResolvedAsset)
    ensures x in SupportedAssets(records) <==>
      exists i :: 0 <= i < |records| && Supported(records[i]) && x in records[i].data.assets
  {
    if |records| > 0 {
      SupportedAssetsFrom(records[1..], x);
      if x in SupportedAssets(records[1..]) {
        var i :| 0 <= i < |records[1..]| && Supported(records[1..][i]) && x in records[1..][i].data.assets;
        assert records[i + 1] == records[1..][i];
      }
      if exists i :: 0 <= i < |records| && Supported(records[i]) && x in records[i].data.assets {
        var i :| 0 <= i < |records| && Supported(records[i]) && x in records[i].data.assets;
        if i > 0 {
          assert records[1..][i - 1] == records[i];
        }
      }
    }
  }

  /** Without a supported record nothing is collected. */
  lemma {:induction false} NoSupportedRecord(records: seq<ItemRecord>)
    requires forall i :: 0 <= i < |records| ==> !Supported(records[i])
    ensures SupportedAssets(records) == []
  {
    if |records| > 0 {
      assert forall i :: 0 <= i < |records[1..]| ==> records[1..][i] == records[i + 1];
      NoSupportedRecord(records[1..]);
    }
  }

  /** The comparator `(a, b) => a.zOffset - b.zOffset`: `a` goes first when the difference is negative. */
  predicate ZBefore(a: ResolvedAsset, b: ResolvedAsset) {
    a.zOffset - b.zOffset < 0
  }

  /** The comparator is consistent, and two assets tie exactly when their z offsets are equal. */
  lemma ZOrder()
    ensures StrictWeakOrder(ZBefore)
    ensures forall a, b :: Tie(a, b, ZBefore) <==> a.zOffset == b.zOffset
  {
  }

  /** `supportedAssets.sort(...)`: the assets stably sorted by z offset. */
  function ZOrdered(assets: seq<ResolvedAsset>): seq<ResolvedAsset> {
    Sort(assets, ZBefore)
  }

  /**
   * The sorted assets are the collected ones reordered, in non-decreasing z
   * offset, and assets with the same z offset keep their order.
   */
  lemma ZOrderedSpec(assets: seq<ResolvedAsset>, e: ResolvedAsset)
    ensures multiset(ZOrdered(assets)) == multiset(assets)
    ensures forall i, j :: 0 <= i < j < |ZOrdered(assets)| ==> ZOrdered(assets)[i].zOffset <= ZOrdered(assets)[j].zOffset
    ensures TiesWith(ZOrdered(assets), e, ZBefore) == TiesWith(assets, e, ZBefore)
    ensures forall a :: Tie(a, e, ZBefore) <==> a.zOffset == e.zOffset
  {
    ZOrder();
    SortSorted(assets, ZBefore);
    SortStable(assets, e, ZBefore);
  }

  /** The assets of one item in page order, or the error `render` throws for an item without any. */
  function RenderAssets(itemUid: string, records: seq<ItemRecord>): Result<seq<ResolvedAsset>, Error> {
    var supportedAssets := SupportedAssets(records);
    if |supportedAssets| < 1 then Failure(NoSupportedAssets(itemUid))
    else Success(ZOrdered(supportedAssets))
  }

  /**
   * An item fails exactly when no supported record carries an asset, and the
   * error names it; otherwise its page holds the collected assets, reordered.
   */
  lemma RenderAssetsSpec(itemUid: string, records: seq<ItemRecord>)
    ensures RenderAssets(itemUid, records).Failure? <==>
      forall i :: 0 <= i < |records| && Supported(records[i]) ==> records[i].data.assets == []
    ensures RenderAssets(itemUid, records).Failure? ==> RenderAssets(itemUid, records).error == NoSupportedAssets(itemUid)
    ensures RenderAssets(itemUid, records).Success? ==>
      multiset(RenderAssets(itemUid, records).value) == multiset(SupportedAssets(records))
  {
    var supported := SupportedAssets(records);
    if |supported| > 0 {
      SupportedAssetsFrom(records, supported[0]);
    } else {
      forall i | 0 <= i < |records| && Supported(records[i]) ensures records[i].data.assets == [] {
        if records[i].data.assets != [] {
          SupportedAssetsFrom(records, records[i].data.assets[0]);
        }
      }
    }
  }

  /**
   * The records the generator writes for an item hand the renderer exactly the
   * item's assets in layer order; in a well-formed catalog with a layer there
   * is at least one, so the item renders, with those assets reordered.
   */
  lemma GeneratedItemRenders(data: HtmlLayersInputData, hash: seq<(string, string)> -> string,
                             records: seq<ItemRecord>, itemUid: string)
    requires GeneratedItem(data, hash, records)
    ensures SupportedAssets(records) == ItemAssets(data, records[0].data.attributes)
    ensures WellFormed(data) && |data.layers.keys| > 0 ==> RenderAssets(itemUid, records).Success?
    ensures RenderAssets(itemUid, records).Success? ==>
      multiset(RenderAssets(itemUid, records).value) == multiset(ItemAssets(data, records[0].data.attributes))
  {
    var attributes := records[0].data.attributes;
    SupportedOfTwo(records);
    assert records[1].data.assets == ItemAssets(data, attributes);
    if WellFormed(data) && |data.layers.keys| > 0 {
      EveryAttributeHasAssets(data, attributes, attributes.keys);
    }
  }

  /** The records of a generated item: the attributes record is not supported, the assets record is. */
  lemma SupportedOfTwo(records: seq<ItemRecord>)
    requires |records| == 2 && records[0].kind == ItemAttributesKind && records[1].kind == HtmlLayersKind
    requires records[1].data.HtmlLayers?
    ensures SupportedAssets(records) == records[1].data.assets
  {
    assert records[1..][1..] == [];
    assert SupportedAssets(records[1..][1..]) == [];
  }

  // ---------------------------------------------------------------------------
  // Pages and render records
  // ---------------------------------------------------------------------------

  /** `path.join(tempRenderDir, `${itemUid}.html`)` */
  function OutputPath(tempRenderDir: string, itemUid: string): string {
    PathJoin(tempRenderDir, itemUid + ".html")
  }

  /** Distinct items are written to distinct pages. */
  lemma OutputPathInjective(tempRenderDir: string, u1: string, u2: string)
    requires OutputPath(tempRenderDir, u1) == OutputPath(tempRenderDir, u2)
    ensures u1 == u2
  {
    var p := OutputPath(tempRenderDir, u1);
    assert p[|tempRenderDir| + 1..] == u1 + ".html" == u2 + ".html";
    assert u1 == (u1 + ".html")[..|u1|];
    assert u2 == (u2 + ".html")[..|u2|];
  }

  /** A page as the files it embeds: the assets' paths, read in page order. */
  function Page(assets: seq<ResolvedAsset>): (files: seq<string>)
    ensures |files| == |assets| && forall i :: 0 <= i < |assets| ==> files[i] == assets[i].path
  {
    seq(|assets|, i requires 0 <= i < |assets| => assets[i].path)
  }

  /** The page of two runs of assets is the page of the first followed by the page of the second. */
  lemma PageAppend(a: seq<ResolvedAsset>, b: seq<ResolvedAsset>)
    ensures Page(a + b) == Page(a) + Page(b)
  {
  }

  /** Reordering the assets only reorders the files a page embeds. */
  lemma {:induction false} PagePermutation(a: seq<ResolvedAsset>, b: seq<ResolvedAsset>)
    requires multiset(a) == multiset(b)
    ensures multiset(Page(a)) == multiset(Page(b))
    decreases |a|
  {
    if |a| == 0 {
      assert |b| == |multiset(b)| == 0;
      return;
    }
    var x := a[0];
    assert x in multiset(b);
    var j :| 0 <= j < |b| && b[j] == x;
    var rest := b[..j] + b[j + 1..];
    assert b == b[..j] + [x] + b[j + 1..];
    assert a == [x] + a[1..];
    calc {
      multiset(a[1..]);
      multiset(a) - multiset{x};
      multiset(b) - multiset{x};
      multiset(b[..j]) + multiset{x} + multiset(b[j + 1..]) - multiset{x};
      multiset(rest);
    }
    PagePermutation(a[1..], rest);
    PageAppend([x], a[1..]);
    PageAppend(b[..j] + [x], b[j + 1..]);
    PageAppend(b[..j], [x]);
    PageAppend(b[..j], b[j + 1..]);
  }

  /** The z sort changes the order of a page's files and nothing else: each collected asset's file appears as often. */
  lemma PageZOrdered(assets: seq<ResolvedAsset>)
    ensures multiset(Page(ZOrdered(assets))) == multiset(Page(assets))
  {
    PagePermutation(ZOrdered(assets), assets);
  }

  /** The single render record of an item: its page, stamped with the page's modification time. */
  function RenderRecords(tempRenderDir: string, itemUid: string, mtime: string -> int): seq<RenderRecord> {
    var outputPath := OutputPath(tempRenderDir, itemUid);
    [RenderRecord(RenderKind, RenderData(outputPath, mtime(outputPath)))]
  }

  /** What `render` returns or throws, and the pages it has written by then. */
  datatype Outcome = Outcome(result: Result<map<string, seq<RenderRecord>>, Error>, pages: map<string, seq<string>>)

  /** The loop of `render` from item `i` on, with the records and pages so far. */
  function RenderFrom(tempRenderDir: string, items: Dict<seq<ItemRecord>>, i: nat, mtime: string -> int,
                      renders: map<string, seq<RenderRecord>>, pages: map<string, seq<string>>): Outcome
    requires i <= |items.keys|
    decreases |items.keys| - i
  {
    if i == |items.keys| then Outcome(Success(renders), pages)
    else
      var itemUid := items.keys[i];
      var assets := RenderAssets(itemUid, items.entries[itemUid]);
      if assets.Failure? then Outcome(Failure(assets.error), pages)
      else RenderFrom(tempRenderDir, items, i + 1, mtime,
                      renders[itemUid := RenderRecords(tempRenderDir, itemUid, mtime)],
                      pages[OutputPath(tempRenderDir, itemUid) := Page(assets.value)])
  }

  /** Whether item `j` has an asset to render. */
  predicate Renderable(items: Dict<seq<ItemRecord>>, j: nat)
    requires j < |items.keys|
  {
    |SupportedAssets(items.entries[items.keys[j]])| > 0
  }

  /** The index of the first item from `i` on without an asset to render; the item count when there is none. */
  function FirstUnrenderable(items: Dict<seq<ItemRecord>>, i: nat): (n: nat)
    requires i <= |items.keys|
    ensures i <= n <= |items.keys|
    decreases |items.keys| - i
  {
    if i == |items.keys| || !Renderable(items, i) then i else FirstUnrenderable(items, i + 1)
  }

  /** The items from `i` up to the first failing one all render; the one it stops at does not. */
  lemma {:induction false} FirstUnrenderableSpec(items: Dict<seq<ItemRecord>>, i: nat)
    requires i <= |items.keys|
    ensures forall j :: i <= j < FirstUnrenderable(items, i) ==> Renderable(items, j)
    ensures FirstUnrenderable(items, i) < |items.keys| ==> !Renderable(items, FirstUnrenderable(items, i))
    decreases |items.keys| - i
  {
    if i < |items.keys| && Renderable(items, i) {
      FirstUnrenderableSpec(items, i + 1);
    }
  }

  /** The page of an item: the files of its supported assets in z order (none for an unknown uid). */
  function ItemPage(items: Dict<seq<ItemRecord>>, itemUid: string): seq<string> {
    if itemUid in items.entries then Page(ZOrdered(SupportedAssets(items.entries[itemUid]))) else []
  }

  /** One turn of the loop of `render`, at item `i`. */
  lemma RenderFromStep(tempRenderDir: string, items: Dict<seq<ItemRecord>>, i: nat, mtime: string -> int,
                       renders: map<string, seq<RenderRecord>>, pages: map<string, seq<string>>)
    requires i < |items.keys|
    ensures var itemUid := items.keys[i];
      RenderFrom(tempRenderDir, items, i, mtime, renders, pages) ==
        if !Renderable(items, i) then Outcome(Failure(NoSupportedAssets(itemUid)), pages)
        else RenderFrom(tempRenderDir, items, i + 1, mtime,
                        renders[itemUid := RenderRecords(tempRenderDir, itemUid, mtime)],
                        pages[OutputPath(tempRenderDir, itemUid) := ItemPage(items, itemUid)])
  {
    assert items.keys[i] in items.entries;
  }

  /** The render records of the items `uids`, recorded one after the other on top of `renders`. */
  function WithRecords(tempRenderDir: string, uids: seq<string>, mtime: string -> int,
                       renders: map<string, seq<RenderRecord>>): map<string, seq<RenderRecord>>
    decreases |uids|
  {
    if |uids| == 0 then renders
    else WithRecords(tempRenderDir, uids[1..], mtime, renders[uids[0] := RenderRecords(tempRenderDir, uids[0], mtime)])
  }

  /** After recording `uids`, a uid has a record exactly when it had one or is among them; theirs is their render record. */
  lemma {:induction false} WithRecordsAt(tempRenderDir: string, uids: seq<string>, mtime: string -> int,
                                         renders: map<string, seq<RenderRecord>>, u: string)
    ensures u in WithRecords(tempRenderDir, uids, mtime, renders) <==> u in renders || u in uids
    ensures u in WithRecords(tempRenderDir, uids, mtime, renders) ==>
      WithRecords(tempRenderDir, uids, mtime, renders)[u]
        == if u in uids then RenderRecords(tempRenderDir, u, mtime) else renders[u]
    decreases |uids|
  {
    if |uids| > 0 {
      WithRecordsAt(tempRenderDir, uids[1..], mtime, renders[uids[0] := RenderRecords(tempRenderDir, uids[0], mtime)], u);
      assert u in uids <==> u == uids[0] || u in uids[1..];
    }
  }

  /** The pages of the items `uids`, written one after the other on top of `pages`. */
  function WithPages(tempRenderDir: string, items: Dict<seq<ItemRecord>>, uids: seq<string>,
                     pages: map<string, seq<string>>): map<string, seq<string>>
    decreases |uids|
  {
    if |uids| == 0 then pages
    else WithPages(tempRenderDir, items, uids[1..], pages[OutputPath(tempRenderDir, uids[0]) := ItemPage(items, uids[0])])
  }

  /** A path none of `uids` is written to keeps what it had, or stays absent. */
  lemma {:induction false} WithPagesKeeps(tempRenderDir: string, items: Dict<seq<ItemRecord>>, uids: seq<string>,
                                          pages: map<string, seq<string>>, p: string)
    requires forall u :: u in uids ==> OutputPath(tempRenderDir, u) != p
    ensures p in WithPages(tempRenderDir, items, uids, pages) <==> p in pages
    ensures p in pages ==> WithPages(tempRenderDir, items, uids, pages)[p] == pages[p]
    decreases |uids|
  {
    if |uids| > 0 {
      assert uids[0] in uids;
      WithPagesKeeps(tempRenderDir, items, uids[1..],
                     pages[OutputPath(tempRenderDir, uids[0]) := ItemPage(items, uids[0])], p);
    }
  }

  /** Each of `uids` ends up with its own page at its own path. */
  lemma {:induction false} WithPagesWrites(tempRenderDir: string, items: Dict<seq<ItemRecord>>, uids: seq<string>,
                                           pages: map<string, seq<string>>, u: string)
    requires u in uids
    ensures OutputPath(tempRenderDir, u) in WithPages(tempRenderDir, items, uids, pages)
    ensures WithPages(tempRenderDir, items, uids, pages)[OutputPath(tempRenderDir, u)] == ItemPage(items, u)
    decreases |uids|
  {
    var next := pages[OutputPath(tempRenderDir, uids[0]) := ItemPage(items, uids[0])];
    if u in uids[1..] {
      WithPagesWrites(tempRenderDir, items, uids[1..], next, u);
    } else {
      assert u == uids[0];
      forall v | v in uids[1..] ensures OutputPath(tempRenderDir, v) != OutputPath(tempRenderDir, u) {
        if OutputPath(tempRenderDir, v) == OutputPath(tempRenderDir, u) {
          OutputPathInjective(tempRenderDir, v, u);
        }
      }
      WithPagesKeeps(tempRenderDir, items, uids[1..], next, OutputPath(tempRenderDir, u));
    }
  }

  /** A non-empty slice is its first element followed by the rest of the slice. */
  lemma SliceHead<T>(s: seq<T>, i: nat, n: nat)
    requires i < n <= |s|
    ensures s[i..n] == [s[i]] + s[i + 1..n]
  {
  }

  /**
   * The pages the loop of `render` leaves, in closed form: those of the items
   * from `i` up to the first one without an asset to render.
   */
  lemma {:induction false} RenderFromPages(tempRenderDir: string, items: Dict<seq<ItemRecord>>, i: nat, mtime: string -> int,
                                           renders: map<string, seq<RenderRecord>>, pages: map<string, seq<string>>)
    requires i <= |items.keys|
    ensures RenderFrom(tempRenderDir, items, i, mtime, renders, pages).pages
         == WithPages(tempRenderDir, items, items.keys[i..FirstUnrenderable(items, i)], pages)
    decreases |items.keys| - i
  {
    if i < |items.keys| {
      RenderFromStep(tempRenderDir, items, i, mtime, renders, pages);
      if Renderable(items, i) {
        var itemUid := items.keys[i];
        var next := pages[OutputPath(tempRenderDir, itemUid) := ItemPage(items, itemUid)];
        RenderFromPages(tempRenderDir, items, i + 1, mtime,
                        renders[itemUid := RenderRecords(tempRenderDir, itemUid, mtime)], next);
        var n := FirstUnrenderable(items, i);
        SliceHead(items.keys, i, n);
        var written := items.keys[i..n];
        assert written[0] == itemUid && written[1..] == items.keys[i + 1..n];
        assert WithPages(tempRenderDir, items, written, pages) == WithPages(tempRenderDir, items, items.keys[i + 1..n], next);
      } else {
        assert items.keys[i..i] == [];
      }
    } else {
      assert items.keys[i..i] == [];
    }
  }

  /**
   * What the loop of `render` returns, in closed form: it throws naming the
   * first item from `i` on without an asset to render; when there is none it
   * returns the records of all the items from `i` on.
   */
  lemma {:induction false} RenderFromResult(tempRenderDir: string, items: Dict<seq<ItemRecord>>, i: nat, mtime: string -> int,
                                            renders: map<string, seq<RenderRecord>>, pages: map<string, seq<string>>)
    requires i <= |items.keys|
    ensures var n := FirstUnrenderable(items, i);
      RenderFrom(tempRenderDir, items, i, mtime, renders, pages).result
        == if n < |items.keys| then Failure(NoSupportedAssets(items.keys[n]))
           else Success(WithRecords(tempRenderDir, items.keys[i..], mtime, renders))
    decreases |items.keys| - i
  {
    if i < |items.keys| {
      RenderFromStep(tempRenderDir, items, i, mtime, renders, pages);
      if Renderable(items, i) {
        var itemUid := items.keys[i];
        var next := renders[itemUid := RenderRecords(tempRenderDir, itemUid, mtime)];
        RenderFromResult(tempRenderDir, items, i + 1, mtime, next,
                         pages[OutputPath(tempRenderDir, itemUid) := ItemPage(items, itemUid)]);
        SliceHead(items.keys, i, |items.keys|);
        var rest := items.keys[i..];
        assert rest[0] == itemUid && rest[1..] == items.keys[i + 1..];
        assert WithRecords(tempRenderDir, rest, mtime, renders) == WithRecords(tempRenderDir, items.keys[i + 1..], mtime, next);
      }
    }
  }

  class HtmlLayersRenderer {
    var tempRenderDir: string
    /** The pages written so far: each path with the asset files it embeds, in page order. */
    var pages: map<string, seq<string>>

    constructor ()
      ensures tempRenderDir == "" && pages == map[]
    {
      tempRenderDir := "";
      pages := map[];
    }

    /** `init`: renders go to the `temp` directory under the cache path. */
    method Init(cachePath: string)
      modifies this
      ensures tempRenderDir == PathJoin(cachePath, TempCacheDir)
      ensures pages == old(pages)
    {
      tempRenderDir := PathJoin(cachePath, TempCacheDir);
    }

    /**
     * `render`: for each item in order, collects and z-sorts its supported
     * assets, writes its page and records it; throws at the first item
     * without a supported asset, keeping the pages already written.
     * `mtime` gives the modification time of a page once written.
     */
    method Render(items: Dict<seq<ItemRecord>>, mtime: string -> int) returns (r: Result<map<string, seq<RenderRecord>>, Error>)
      modifies this
      ensures tempRenderDir == old(tempRenderDir)
      ensures Outcome(r, pages) == RenderFrom(tempRenderDir, items, 0, mtime, map[], old(pages))
    {
      var renders: map<string, seq<RenderRecord>> := map[];
      for i := 0 to |items.keys|
        invariant tempRenderDir == old(tempRenderDir)
        invariant RenderFrom(tempRenderDir, items, 0, mtime, map[], old(pages))
          == RenderFrom(tempRenderDir, items, i, mtime, renders, pages)
      {
        var itemUid := items.keys[i];
        var supportedAssets := SupportedAssets(items.entries[itemUid]);
        if |supportedAssets| < 1 {
          return Failure(NoSupportedAssets(itemUid));
        }
        var assets := ZOrdered(supportedAssets);
        var outputPath := OutputPath(tempRenderDir, itemUid);
        pages := pages[outputPath := Page(assets)];
        renders := renders[itemUid := RenderRecords(tempRenderDir, itemUid, mtime)];
      }
      return Success(renders);
    }
  }

  /** Recording every item gives each item uid, and nothing else, its render record. */
  lemma AllRecords(tempRenderDir: string, items: Dict<seq<ItemRecord>>, mtime: string -> int)
    ensures WithRecords(tempRenderDir, items.keys, mtime, map[]).Keys == items.entries.Keys
    ensures forall u :: u in items.entries ==>
      WithRecords(tempRenderDir, items.keys, mtime, map[])[u] == RenderRecords(tempRenderDir, u, mtime)
  {
    forall u ensures u in WithRecords(tempRenderDir, items.keys, mtime, map[]) <==> u in items.entries {
      WithRecordsAt(tempRenderDir, items.keys, mtime, map[], u);
    }
    forall u | u in items.entries
      ensures WithRecords(tempRenderDir, items.keys, mtime, map[])[u] == RenderRecords(tempRenderDir, u, mtime)
    {
      WithRecordsAt(tempRenderDir, items.keys, mtime, map[], u);
    }
  }

  /** Writing the pages of the first `n` items writes each of theirs at its path and leaves every other path alone, absent ones absent. */
  lemma PrefixPages(tempRenderDir: string, items: Dict<seq<ItemRecord>>, n: nat, pages: map<string, seq<string>>)
    requires n <= |items.keys|
    ensures forall j :: 0 <= j < n ==>
      && OutputPath(tempRenderDir, items.keys[j]) in WithPages(tempRenderDir, items, items.keys[..n], pages)
      && WithPages(tempRenderDir, items, items.keys[..n], pages)[OutputPath(tempRenderDir, items.keys[j])]
         == ItemPage(items, items.keys[j])
    ensures forall p :: (forall j :: 0 <= j < n ==> OutputPath(tempRenderDir, items.keys[j]) != p) ==>
      && (p in WithPages(tempRenderDir, items, items.keys[..n], pages) <==> p in pages)
      && (p in pages ==> WithPages(tempRenderDir, items, items.keys[..n], pages)[p] == pages[p])
  {
    var written := items.keys[..n];
    forall j | 0 <= j < n
      ensures OutputPath(tempRenderDir, items.keys[j]) in WithPages(tempRenderDir, items, written, pages)
      ensures WithPages(tempRenderDir, items, written, pages)[OutputPath(tempRenderDir, items.keys[j])]
              == ItemPage(items, items.keys[j])
    {
      assert items.keys[j] == written[j];
      WithPagesWrites(tempRenderDir, items, written, pages, items.keys[j]);
    }
    forall p | forall j :: 0 <= j < n ==> OutputPath(tempRenderDir, items.keys[j]) != p
      ensures p in WithPages(tempRenderDir, items, written, pages) <==> p in pages
      ensures p in pages ==> WithPages(tempRenderDir, items, written, pages)[p] == pages[p]
    {
      forall u | u in written ensures OutputPath(tempRenderDir, u) != p {
        var j :| 0 <= j < n && written[j] == u;
      }
      WithPagesKeeps(tempRenderDir, items, written, pages, p);
    }
  }

  /**
   * What a call of `render` returns: it succeeds exactly when every item has
   * an asset to render, with one render record per item uid; otherwise it
   * throws naming the first item without one.
   */
  lemma RenderResultSpec(tempRenderDir: string, items: Dict<seq<ItemRecord>>, mtime: string -> int, pages: map<string, seq<string>>)
    ensures var r := RenderFrom(tempRenderDir, items, 0, mtime, map[], pages).result;
      var n := FirstUnrenderable(items, 0);
      && (r.Success? <==> forall j :: 0 <= j < |items.keys| ==> Renderable(items, j))
      && (r.Failure? ==> n < |items.keys| && !Renderable(items, n) && r.error == NoSupportedAssets(items.keys[n]))
      && (r.Success? ==> r.value.Keys == items.entries.Keys)
      && (r.Success? ==> forall u :: u in items.entries ==> r.value[u] == RenderRecords(tempRenderDir, u, mtime))
  {
    FirstUnrenderableSpec(items, 0);
    RenderFromResult(tempRenderDir, items, 0, mtime, map[], pages);
    assert items.keys[0..] == items.keys;
    AllRecords(tempRenderDir, items, mtime);
  }

  /**
   * The pages a call of `render` leaves: each item before the first one
   * without an asset to render has its page, in z order, whether or not the
   * call throws, and every other path is left as it was: the same page, or
   * still no page at all.
   */
  lemma RenderPagesSpec(tempRenderDir: string, items: Dict<seq<ItemRecord>>, mtime: string -> int, pages: map<string, seq<string>>)
    ensures var written := RenderFrom(tempRenderDir, items, 0, mtime, map[], pages).pages;
      var n := FirstUnrenderable(items, 0);
      && (forall j :: 0 <= j < n ==>
            && OutputPath(tempRenderDir, items.keys[j]) in written
            && written[OutputPath(tempRenderDir, items.keys[j])] == ItemPage(items, items.keys[j]))
      && (forall p :: (forall j :: 0 <= j < n ==> OutputPath(tempRenderDir, items.keys[j]) != p) ==>
            && (p in written <==> p in pages)
            && (p in pages ==> written[p] == pages[p]))
  {
    var n := FirstUnrenderable(items, 0);
    RenderFromPages(tempRenderDir, items, 0, mtime, map[], pages);
    assert items.keys[0..n] == items.keys[..n];
    PrefixPages(tempRenderDir, items, n, pages);
  }

  /**
   * The generator and the renderer fit together: when every item handed to
   * `render` is one `generate` stored, for a well-formed catalog with at least
   * one layer, the call succeeds with a record for every item.
   */
  lemma GeneratedItemsRender(tempRenderDir: string, data: HtmlLayersInputData, hash: seq<(string, string)> -> string,
                             items: Dict<seq<ItemRecord>>, mtime: string -> int, pages: map<string, seq<string>>)
    requires WellFormed(data) && |data.layers.keys| > 0
    requires forall u :: u in items.entries ==> GeneratedItem(data, hash, items.entries[u])
    ensures RenderFrom(tempRenderDir, items, 0, mtime, map[], pages).result.Success?
    ensures RenderFrom(tempRenderDir, items, 0, mtime, map[], pages).result.value.Keys == items.entries.Keys
  {
    forall j | 0 <= j < |items.keys| ensures Renderable(items, j) {
      assert items.keys[j] in items.entries;
      GeneratedItemRenderable(data, hash, items, j);
    }
    RenderResultSpec(tempRenderDir, items, mtime, pages);
  }

  /** A generated item of a well-formed catalog with a layer has an asset to render. */
  lemma GeneratedItemRenderable(data: HtmlLayersInputData, hash: seq<(string, string)> -> string,
                                items: Dict<seq<ItemRecord>>, j: nat)
    requires WellFormed(data) && |data.layers.keys| > 0
    requires j < |items.keys| && GeneratedItem(data, hash, items.entries[items.keys[j]])
    ensures Renderable(items, j)
  {
    var u := items.keys[j];
    GeneratedItemRenders(data, hash, items.entries[u], u);
  }
}
