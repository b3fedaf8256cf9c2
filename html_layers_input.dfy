/**
 * The HTML layers input: folds the directory listings under the assets base
 * path into the layer catalog. Each top-level directory is a layer, each file
 * in it an asset of the option its name decodes to, and the files of a layer's
 * `edge-cases` directory are grouped per option under the key `t#v`.
 */
module HtmlLayersInput {
  import opened Wrappers
  import opened Errors
  import opened Text
  import opened Dicts
  import opened FileNames
  import opened Catalog

  /** What `fs.statSync` reports about a directory entry; a directory carries its own listing. */
  datatype FsNode = File(mtime: int, size: int) | Directory(entries: seq<DirEntry>) | Other
  datatype DirEntry = DirEntry(name: string, node: FsNode)

  const EdgeCasesDirName := "edge-cases"

  /** The regular expression `/(^|\/)\.[^\/\.]/` matches `name` at `i`: a dot at the start or after a slash, followed by neither slash nor dot. */
  predicate HiddenAt(name: string, i: int) {
    && 0 <= i < |name| - 1
    && (i == 0 || name[i - 1] == '/')
    && name[i] == '.' && name[i + 1] != '/' && name[i + 1] != '.'
  }

  /** The `readDir` filter drops `name`. */
  predicate IsHidden(name: string) {
    exists i | 0 <= i < |name| :: HiddenAt(name, i)
  }

  /** `readDir`: the listing without hidden entries, in listing order. */
  function ReadDir(entries: seq<DirEntry>): (visible: seq<DirEntry>)
    ensures forall e :: e in visible <==> e in entries && !IsHidden(e.name)
    ensures |visible| <= |entries|
  {
    if |entries| == 0 then []
    else (if IsHidden(entries[0].name) then [] else [entries[0]]) + ReadDir(entries[1..])
  }

  /** `fs.existsSync(path.join(dir, name))`: the first entry of the unfiltered listing with that name. */
  function FindEntry(entries: seq<DirEntry>, name: string): (found: Option<FsNode>)
    ensures found.Some? <==> exists e :: e in entries && e.name == name
    ensures found.Some? ==> DirEntry(name, found.value) in entries
  {
    if |entries| == 0 then None
    else if entries[0].name == name then Some(entries[0].node)
    else FindEntry(entries[1..], name)
  }

  /** A listing entry together with the outcome of `getParams` on its name. */
  datatype Decoded = Decoded(entry: DirEntry, params: Result<FileNameParams, Error>)

  /** Each entry of a listing paired with `getParams` of its name. */
  function Decode(entries: seq<DirEntry>): (decoded: seq<Decoded>)
    ensures |decoded| == |entries|
    ensures forall i :: 0 <= i < |entries| ==> decoded[i] == Decoded(entries[i], GetParams(entries[i].name))
  {
    seq(|entries|, i requires 0 <= i < |entries| => Decoded(entries[i], GetParams(entries[i].name)))
  }

  /** A decoded regular file: the only entries the option and edge-case loops use. */
  predicate IsDecodedFile(file: Decoded) {
    file.entry.node.File? && file.params.Success?
  }

  /** The asset a decoded file contributes: path `dir/fileName`, its own offsets and its stats. */
  function AssetAt(dir: string, file: Decoded): LayerAsset
    requires IsDecodedFile(file)
  {
    var params := file.params.value;
    LayerAsset(PathJoin(dir, file.entry.name), file.entry.node.size, params.x, params.y, params.z, file.entry.node.mtime)
  }

  /** A fresh option: weight 1, no assets, no edge cases. */
  function NewOption(name: string): LayerOption {
    LayerOption(name, 1, [], Empty())
  }

  /** The option stored under `name`, or a fresh one. */
  function OptionOrNew(options: Dict<LayerOption>, name: string): LayerOption {
    if name in options.entries then options.entries[name] else NewOption(name)
  }

  /** One iteration of the option loop of `getOptions`, for a regular file of the layer directory. */
  function AddOptionFile(options: Dict<LayerOption>, layerName: string, file: Decoded): Result<Dict<LayerOption>, Error>
    requires file.entry.node.File?
  {
    var params :- file.params;
    var option := OptionOrNew(options, params.name);
    if params.w.Some? && option.weight != 1 then
      Failure(WeightSpecifiedTwice(params.name, layerName))
    else
      var weight := if params.w.Some? then params.w.value else option.weight;
      Success(Put(options, params.name, option.(weight := weight, assets := option.assets + [AssetAt(layerName, file)])))
  }

  /** The option loop of `getOptions` from `options` on: entries that are not regular files are skipped. */
  function OptionFiles(options: Dict<LayerOption>, layerName: string, files: seq<Decoded>): Result<Dict<LayerOption>, Error>
    decreases |files|
  {
    if |files| == 0 then Success(options)
    else if !files[0].entry.node.File? then OptionFiles(options, layerName, files[1..])
    else
      var next :- AddOptionFile(options, layerName, files[0]);
      OptionFiles(next, layerName, files[1..])
  }

  /** The template literal `${value}`: an absent token prints as `undefined`. */
  function TemplateText(value: Option<string>): string {
    if value.Some? then value.value else "undefined"
  }

  /** `${params.t}#${params.v}` */
  function EdgeCaseUid(params: FileNameParams): string {
    TemplateText(params.t) + EdgeCaseUidSeparator + TemplateText(params.v)
  }

  /** `value ?? ""` */
  function OrEmpty(value: Option<string>): string {
    if value.Some? then value.value else ""
  }

  /** The directory of a layer's edge-case files, relative to the assets base path. */
  function EdgeCasesPath(layerName: string): string {
    PathJoin(layerName, EdgeCasesDirName)
  }

  /** One iteration of the edge-case loop of `getOptions`, for a regular file of `edge-cases`. */
  function AddEdgeCaseFile(options: Dict<LayerOption>, layerName: string, file: Decoded): Result<Dict<LayerOption>, Error>
    requires file.entry.node.File?
  {
    var params :- file.params;
    if params.name !in options.entries then Failure(UndefinedOption(params.name))
    else
      var option := options.entries[params.name];
      var uid := EdgeCaseUid(params);
      var edgeCase := if uid in option.edgeCases.entries then option.edgeCases.entries[uid]
                      else EdgeCase(OrEmpty(params.t), OrEmpty(params.v), []);
      var edgeCases := Put(option.edgeCases, uid, edgeCase.(assets := edgeCase.assets + [AssetAt(EdgeCasesPath(layerName), file)]));
      Success(Put(options, params.name, option.(edgeCases := edgeCases)))
  }

  /** The edge-case loop of `getOptions` from `options` on. */
  function EdgeCaseFiles(options: Dict<LayerOption>, layerName: string, files: seq<Decoded>): Result<Dict<LayerOption>, Error>
    decreases |files|
  {
    if |files| == 0 then Success(options)
    else if !files[0].entry.node.File? then EdgeCaseFiles(options, layerName, files[1..])
    else
      var next :- AddEdgeCaseFile(options, layerName, files[0]);
      EdgeCaseFiles(next, layerName, files[1..])
  }

  /**
   * `getOptions`: the options of the layer directory `layerName` with listing `listing`.
   * Fails when no option was found, and when `edge-cases` exists but is not a directory
   * (`readdirSync` on it throws).
   */
  function LayerOptions(layerName: string, listing: seq<DirEntry>): Result<Dict<LayerOption>, Error> {
    var options :- OptionFiles(Empty(), layerName, Decode(ReadDir(listing)));
    if |options.keys| < 1 then Failure(NoOptions(layerName))
    else
      match FindEntry(listing, EdgeCasesDirName)
      case None => Success(options)
      case Some(node) =>
        if node.Directory? then EdgeCaseFiles(options, layerName, Decode(ReadDir(node.entries)))
        else Failure(NotADirectory(EdgeCasesPath(layerName)))
  }

  /** The layer a top-level directory becomes: name and base offsets from its name, options from its listing. */
  function DirLayer(dir: Decoded): Result<Layer, Error>
    requires dir.entry.node.Directory?
  {
    var params :- dir.params;
    var options :- LayerOptions(dir.entry.name, dir.entry.node.entries);
    Success(Layer(params.name, params.x, params.y, params.z, options))
  }

  /** The `forEach` of `getLayersFromFolders` from `layers` on: non-directories are skipped, a layer is stored under its name. */
  function LayerDirs(layers: Dict<Layer>, entries: seq<Decoded>): Result<Dict<Layer>, Error>
    decreases |entries|
  {
    if |entries| == 0 then Success(layers)
    else if !entries[0].entry.node.Directory? then LayerDirs(layers, entries[1..])
    else
      var layer :- DirLayer(entries[0]);
      LayerDirs(Put(layers, layer.name, layer), entries[1..])
  }

  /** `load`: the catalog of the assets base path whose listing is `listing`. */
  function LoadSpec(basePath: string, listing: seq<DirEntry>): Result<HtmlLayersInputData, Error> {
    var layers :- LayerDirs(Empty(), Decode(ReadDir(listing)));
    Success(HtmlLayersInputData(basePath, layers))
  }

  /** One step of the option loop. */
  lemma OptionFilesStep(options: Dict<LayerOption>, layerName: string, files: seq<Decoded>, i: nat)
    requires i < |files|
    ensures OptionFiles(options, layerName, files[i..]) ==
      if !files[i].entry.node.File? then OptionFiles(options, layerName, files[i + 1..])
      else match AddOptionFile(options, layerName, files[i])
        case Failure(e) => Failure(e)
        case Success(next) => OptionFiles(next, layerName, files[i + 1..])
  {
    assert files[i..][1..] == files[i + 1..];
  }

  /** One step of the edge-case loop. */
  lemma EdgeCaseFilesStep(options: Dict<LayerOption>, layerName: string, files: seq<Decoded>, i: nat)
    requires i < |files|
    ensures EdgeCaseFiles(options, layerName, files[i..]) ==
      if !files[i].entry.node.File? then EdgeCaseFiles(options, layerName, files[i + 1..])
      else match AddEdgeCaseFile(options, layerName, files[i])
        case Failure(e) => Failure(e)
        case Success(next) => EdgeCaseFiles(next, layerName, files[i + 1..])
  {
    assert files[i..][1..] == files[i + 1..];
  }

  /** One step of the layer loop. */
  lemma LayerDirsStep(layers: Dict<Layer>, entries: seq<Decoded>, i: nat)
    requires i < |entries|
    ensures LayerDirs(layers, entries[i..]) ==
      if !entries[i].entry.node.Directory? then LayerDirs(layers, entries[i + 1..])
      else if DirLayer(entries[i]).Failure? then Failure(DirLayer(entries[i]).error)
      else LayerDirs(Put(layers, DirLayer(entries[i]).value.name, DirLayer(entries[i]).value), entries[i + 1..])
  {
    assert entries[i..][1..] == entries[i + 1..];
  }

  /** A name without a slash is hidden exactly when it starts with a dot followed by something other than a dot. */
  lemma HiddenNameWithoutSlash(name: string)
    requires forall i :: 0 <= i < |name| ==> name[i] != '/'
    ensures IsHidden(name) <==> |name| >= 2 && name[0] == '.' && name[1] != '.'
  {
    if |name| >= 2 && name[0] == '.' && name[1] != '.' {
      assert HiddenAt(name, 0);
    }
  }

  // ----- option files -----

  /** The decoded parameters of a regular file whose name decodes. */
  function FileParams(file: Decoded): Option<FileNameParams> {
    if IsDecodedFile(file) then Some(file.params.value) else None
  }

  /** Every regular file of `files` has a name that decodes. */
  predicate FilesDecode(files: seq<Decoded>) {
    forall i :: 0 <= i < |files| && files[i].entry.node.File? ==> files[i].params.Success?
  }

  /** The option names the regular files of `files` decode to, in listing order. */
  function OptionNames(files: seq<Decoded>): seq<string> {
    if |files| == 0 then []
    else (if IsDecodedFile(files[0]) then [files[0].params.value.name] else []) + OptionNames(files[1..])
  }

  /** The assets the files of `files` that decode to option `name` contribute, in listing order. */
  function AssetsNamed(layerName: string, files: seq<Decoded>, name: string): seq<LayerAsset> {
    if |files| == 0 then []
    else
      (if IsDecodedFile(files[0]) && files[0].params.value.name == name then [AssetAt(layerName, files[0])] else [])
      + AssetsNamed(layerName, files[1..], name)
  }

  /** The first file's share of `AssetsNamed`. */
  lemma AssetsNamedCons(layerName: string, files: seq<Decoded>, name: string)
    requires |files| > 0 && IsDecodedFile(files[0])
    ensures AssetsNamed(layerName, files, name) ==
      (if files[0].params.value.name == name then [AssetAt(layerName, files[0])] else []) + AssetsNamed(layerName, files[1..], name)
  {
  }

  /** The explicit `w` values of the files of `files` that decode to option `name`, in listing order. */
  function WeightsNamed(files: seq<Decoded>, name: string): seq<int> {
    if |files| == 0 then []
    else
      var fp := FileParams(files[0]);
      (if fp.Some? && fp.value.name == name && fp.value.w.Some? then [fp.value.w.value] else [])
      + WeightsNamed(files[1..], name)
  }

  lemma FilesDecodeTail(files: seq<Decoded>)
    requires |files| > 0 && FilesDecode(files)
    ensures FilesDecode(files[1..])
  {
    forall i | 0 <= i < |files[1..]| && files[1..][i].entry.node.File? ensures files[1..][i].params.Success? {
      assert files[1..][i] == files[i + 1];
    }
  }

  /** The loop only returns when every regular file's name decodes. */
  lemma {:induction false} OptionFilesDecode(options: Dict<LayerOption>, layerName: string, files: seq<Decoded>)
    requires OptionFiles(options, layerName, files).Success?
    ensures FilesDecode(files)
    decreases |files|
  {
    if |files| > 0 {
      if files[0].entry.node.File? {
        OptionFilesDecode(AddOptionFile(options, layerName, files[0]).value, layerName, files[1..]);
      } else {
        OptionFilesDecode(options, layerName, files[1..]);
      }
      forall i | 0 <= i < |files| && files[i].entry.node.File? ensures files[i].params.Success? {
        if i > 0 {
          assert files[i] == files[1..][i - 1];
        }
      }
    }
  }

  /** What one option file does to the option named `name`. */
  lemma AddOptionFileEffect(options: Dict<LayerOption>, layerName: string, file: Decoded, name: string)
    requires file.entry.node.File? && AddOptionFile(options, layerName, file).Success?
    ensures var next, params, before := AddOptionFile(options, layerName, file).value, file.params.value, OptionOrNew(options, name);
      && (name in next.entries <==> name in options.entries || name == params.name)
      && OptionOrNew(next, name) ==
           if name == params.name then
             before.(weight := if params.w.Some? then params.w.value else before.weight,
                     assets := before.assets + [AssetAt(layerName, file)])
           else before
  {
  }

  /**
   * Option accumulation: the options after the loop are those before it plus one
   * per decoded name; each keeps its name and edge cases and gains exactly the
   * assets of the files decoding to it, in listing order.
   */
  lemma OptionFilesAccumulate(options: Dict<LayerOption>, layerName: string, files: seq<Decoded>, name: string)
    requires OptionFiles(options, layerName, files).Success?
    ensures var r, before := OptionFiles(options, layerName, files).value, OptionOrNew(options, name);
      && (name in r.entries <==> name in options.entries || name in OptionNames(files))
      && (name in r.entries ==>
            && r.entries[name].name == before.name
            && r.entries[name].edgeCases == before.edgeCases
            && r.entries[name].assets == before.assets + AssetsNamed(layerName, files, name))
  {
    OptionFilesMembers(options, layerName, files, name);
    OptionFilesOption(options, layerName, files, name);
  }

  /** After the loop an option exists exactly when it existed or some file decodes to it. */
  lemma {:induction false} OptionFilesMembers(options: Dict<LayerOption>, layerName: string, files: seq<Decoded>, name: string)
    requires OptionFiles(options, layerName, files).Success?
    ensures name in OptionFiles(options, layerName, files).value.entries <==> name in options.entries || name in OptionNames(files)
    decreases |files|
  {
    if |files| == 0 {
    } else if !files[0].entry.node.File? {
      OptionFilesMembers(options, layerName, files[1..], name);
    } else {
      var next := AddOptionFile(options, layerName, files[0]).value;
      assert OptionNames(files) == [files[0].params.value.name] + OptionNames(files[1..]);
      assert name in next.entries <==> name in options.entries || name == files[0].params.value.name;
      OptionFilesMembers(next, layerName, files[1..], name);
    }
  }

  /** After the loop the option `name` keeps its name and edge cases and gains the assets of its files. */
  lemma {:induction false} OptionFilesOption(options: Dict<LayerOption>, layerName: string, files: seq<Decoded>, name: string)
    requires OptionFiles(options, layerName, files).Success?
    ensures var r, before := OptionFiles(options, layerName, files).value, OptionOrNew(options, name);
      && OptionOrNew(r, name).name == before.name
      && OptionOrNew(r, name).edgeCases == before.edgeCases
      && OptionOrNew(r, name).assets == before.assets + AssetsNamed(layerName, files, name)
    decreases |files|
  {
    if |files| == 0 {
    } else if !files[0].entry.node.File? {
      assert AssetsNamed(layerName, files, name) == [] + AssetsNamed(layerName, files[1..], name);
      OptionFilesOption(options, layerName, files[1..], name);
    } else {
      OptionFileStep(options, layerName, files, name);
      OptionFilesOption(AddOptionFile(options, layerName, files[0]).value, layerName, files[1..], name);
    }
  }

  /** One option file moves its asset from the files still to come into the option `name`, if it is that option's. */
  lemma OptionFileStep(options: Dict<LayerOption>, layerName: string, files: seq<Decoded>, name: string)
    requires |files| > 0 && files[0].entry.node.File? && AddOptionFile(options, layerName, files[0]).Success?
    ensures var next, before := AddOptionFile(options, layerName, files[0]).value, OptionOrNew(options, name);
      && OptionOrNew(next, name).name == before.name
      && OptionOrNew(next, name).edgeCases == before.edgeCases
      && OptionOrNew(next, name).assets + AssetsNamed(layerName, files[1..], name) == before.assets + AssetsNamed(layerName, files, name)
  {
    var file := files[0];
    var before, after := OptionOrNew(options, name), OptionOrNew(AddOptionFile(options, layerName, file).value, name);
    var hit := file.params.value.name == name;
    AssetsNamedCons(layerName, files, name);
    AddOptionFileEffect(options, layerName, file, name);
    ShiftAsset(before.assets, after.assets, AssetsNamed(layerName, files[1..], name), AssetsNamed(layerName, files, name), AssetAt(layerName, file), hit);
  }

  /** Moving an asset from the head of the files still to come to the end of an option's assets keeps their concatenation. */
  lemma ShiftAsset(before: seq<LayerAsset>, after: seq<LayerAsset>, rest: seq<LayerAsset>, whole: seq<LayerAsset>, asset: LayerAsset, hit: bool)
    requires whole == (if hit then [asset] else []) + rest
    requires after == if hit then before + [asset] else before
    ensures after + rest == before + whole
  {
    if hit {
      assert before + [asset] + rest == before + ([asset] + rest);
    } else {
      assert whole == rest;
    }
  }

  /** `getOptions` accepts the weights of an option when its weight is still 1 at every `w` token but the last. */
  predicate WeightsAgree(base: int, weights: seq<int>) {
    |weights| == 0 || (base == 1 && forall i :: 0 <= i < |weights| - 1 ==> weights[i] == 1)
  }

  /** The weight after the explicit `weights`: the last one, or `base` when there is none. */
  function FinalWeight(base: int, weights: seq<int>): int {
    if |weights| == 0 then base else weights[|weights| - 1]
  }

  lemma WeightsAgreeCons(w: int, weights: seq<int>)
    ensures WeightsAgree(1, [w] + weights) <==> WeightsAgree(w, weights)
    ensures FinalWeight(1, [w] + weights) == FinalWeight(w, weights)
  {
    var ws := [w] + weights;
    if WeightsAgree(w, weights) && |weights| > 0 {
      forall i | 0 <= i < |ws| - 1 ensures ws[i] == 1 {
        if i > 0 {
          assert ws[i] == weights[i - 1];
        }
      }
    }
    if WeightsAgree(1, ws) && |weights| > 0 {
      assert ws[0] == w;
      forall i | 0 <= i < |weights| - 1 ensures weights[i] == 1 {
        assert weights[i] == ws[i + 1];
      }
    }
  }

  /**
   * Weight re-specification: with every file decoding, the loop succeeds exactly
   * when no `w` token meets an option whose weight is no longer 1, and then each
   * option's weight is the last `w` given for it (or what it was).
   */
  lemma {:induction false} OptionFilesWeights(options: Dict<LayerOption>, layerName: string, files: seq<Decoded>)
    requires FilesDecode(files)
    ensures OptionFiles(options, layerName, files).Success? <==>
      forall name :: WeightsAgree(OptionOrNew(options, name).weight, WeightsNamed(files, name))
    ensures OptionFiles(options, layerName, files).Success? ==>
      var r := OptionFiles(options, layerName, files).value;
      forall name :: name in r.entries ==>
        r.entries[name].weight == FinalWeight(OptionOrNew(options, name).weight, WeightsNamed(files, name))
    decreases |files|
  {
    if |files| == 0 {
      return;
    }
    FilesDecodeTail(files);
    if !files[0].entry.node.File? {
      OptionFilesWeights(options, layerName, files[1..]);
      assert forall name :: WeightsNamed(files, name) == WeightsNamed(files[1..], name);
      return;
    }
    var params := files[0].params.value;
    var option := OptionOrNew(options, params.name);
    if params.w.Some? && option.weight != 1 {
      assert WeightsNamed(files, params.name) == [params.w.value] + WeightsNamed(files[1..], params.name);
      assert !WeightsAgree(option.weight, WeightsNamed(files, params.name));
      return;
    }
    var next := AddOptionFile(options, layerName, files[0]).value;
    OptionFilesWeights(next, layerName, files[1..]);
    forall name
      ensures WeightsAgree(OptionOrNew(options, name).weight, WeightsNamed(files, name)) ==
              WeightsAgree(OptionOrNew(next, name).weight, WeightsNamed(files[1..], name))
      ensures FinalWeight(OptionOrNew(options, name).weight, WeightsNamed(files, name)) ==
              FinalWeight(OptionOrNew(next, name).weight, WeightsNamed(files[1..], name))
    {
      AddOptionFileEffect(options, layerName, files[0], name);
      if name == params.name && params.w.Some? {
        assert WeightsNamed(files, name) == [params.w.value] + WeightsNamed(files[1..], name);
        assert OptionOrNew(options, name).weight == 1;
        assert OptionOrNew(next, name).weight == params.w.value;
        WeightsAgreeCons(params.w.value, WeightsNamed(files[1..], name));
      } else {
        assert WeightsNamed(files, name) == WeightsNamed(files[1..], name);
        assert OptionOrNew(next, name).weight == OptionOrNew(options, name).weight;
      }
    }
  }

  /**
   * A layer directory listing `a__w<m>.html` then `a__w<n>.html`, both with
   * positive weights: the loop accepts it exactly when the first weight is 1,
   * leaving option `a` with weight `n` and both files as assets in that order;
   * otherwise it throws that the weight of `a` was given twice.
   */
  lemma TwoWeightFiles(layerName: string, m: nat, n: nat, first: FsNode, second: FsNode)
    requires m > 0 && n > 0 && first.File? && second.File?
    ensures var files := Decode([DirEntry("a__w" + ToDecimal(m) + ".html", first), DirEntry("a__w" + ToDecimal(n) + ".html", second)]);
      var r := OptionFiles(Empty(), layerName, files);
      && (r.Success? <==> m == 1)
      && (m == 1 ==> && r.value.keys == ["a"] && r.value.entries["a"].weight == n
                     && r.value.entries["a"].assets == [
                          LayerAsset(PathJoin(layerName, files[0].entry.name), first.size, 0, 0, 0, first.mtime),
                          LayerAsset(PathJoin(layerName, files[1].entry.name), second.size, 0, 0, 0, second.mtime)])
      && (m != 1 ==> r == Failure(WeightSpecifiedTwice("a", layerName)))
  {
    var e1, e2 := DirEntry("a__w" + ToDecimal(m) + ".html", first), DirEntry("a__w" + ToDecimal(n) + ".html", second);
    DecodeTwo(e1, e2);
    WeightFileParams(m);
    WeightFileParams(n);
    TwoWeightedFiles(layerName, m, n, Decoded(e1, GetParams(e1.name)), Decoded(e2, GetParams(e2.name)));
  }

  /** `Decode` of a two-entry listing. */
  lemma DecodeTwo(e1: DirEntry, e2: DirEntry)
    ensures Decode([e1, e2]) == [Decoded(e1, GetParams(e1.name)), Decoded(e2, GetParams(e2.name))]
  {
    var decoded := Decode([e1, e2]);
    assert decoded[0] == Decoded(e1, GetParams(e1.name));
    assert decoded[1] == Decoded(e2, GetParams(e2.name));
    assert decoded == [decoded[0], decoded[1]];
  }

  /** `TwoWeightFiles` for any two regular files that decode to option `a` with the weights `m` and `n`. */
  lemma TwoWeightedFiles(layerName: string, m: nat, n: nat, d1: Decoded, d2: Decoded)
    requires m > 0 && n > 0 && d1.entry.node.File? && d2.entry.node.File?
    requires d1.params == Success(FileNameParams("a", 0, 0, 0, Some(m), None, None))
    requires d2.params == Success(FileNameParams("a", 0, 0, 0, Some(n), None, None))
    ensures var r := OptionFiles(Empty(), layerName, [d1, d2]);
      && (r.Success? <==> m == 1)
      && (m == 1 ==> && r.value.keys == ["a"] && r.value.entries["a"].weight == n
                     && r.value.entries["a"].assets == [AssetAt(layerName, d1), AssetAt(layerName, d2)])
      && (m != 1 ==> r == Failure(WeightSpecifiedTwice("a", layerName)))
  {
    var files := [d1, d2];
    var once := AddOptionFile(Empty(), layerName, d1);
    assert once.Success? && once.value.keys == ["a"];
    assert once.value.entries["a"] == LayerOption("a", m, [AssetAt(layerName, d1)], Empty());
    assert OptionFiles(Empty(), layerName, files) == OptionFiles(once.value, layerName, files[1..]);
    assert files[1..][1..] == [];
  }

  // ----- edge-case files -----

  /** Every regular file of `files` decodes to the name of an option in `options`. */
  predicate EdgeFilesResolve(options: Dict<LayerOption>, files: seq<Decoded>) {
    forall i :: 0 <= i < |files| && files[i].entry.node.File? ==>
      files[i].params.Success? && files[i].params.value.name in options.entries
  }

  /** The edge-case loop fails exactly when a file does not decode or names an option that does not exist; it adds no option. */
  lemma {:induction false} EdgeCaseFilesSucceed(options: Dict<LayerOption>, layerName: string, files: seq<Decoded>)
    ensures EdgeCaseFiles(options, layerName, files).Success? <==> EdgeFilesResolve(options, files)
    ensures EdgeCaseFiles(options, layerName, files).Success? ==> EdgeCaseFiles(options, layerName, files).value.keys == options.keys
    decreases |files|
  {
    if |files| == 0 {
      return;
    }
    var next := options;
    if files[0].entry.node.File? {
      var added := AddEdgeCaseFile(options, layerName, files[0]);
      if added.Failure? {
        assert !EdgeFilesResolve(options, files) by {
          assert !(files[0].params.Success? && files[0].params.value.name in options.entries);
        }
        return;
      }
      next := added.value;
    }
    assert next.keys == options.keys;
    assert forall name :: name in next.entries <==> name in options.entries;
    EdgeCaseFilesSucceed(next, layerName, files[1..]);
    if EdgeFilesResolve(next, files[1..]) {
      forall i | 0 <= i < |files| && files[i].entry.node.File?
        ensures files[i].params.Success? && files[i].params.value.name in options.entries
      {
        if i > 0 {
          assert files[i] == files[1..][i - 1];
        }
      }
    }
    if EdgeFilesResolve(options, files) {
      forall i | 0 <= i < |files[1..]| && files[1..][i].entry.node.File?
        ensures files[1..][i].params.Success? && files[1..][i].params.value.name in next.entries
      {
        assert files[1..][i] == files[i + 1];
      }
    }
  }

  /** The parameters of a decoded regular file for option `name`. */
  function EdgeFileParams(file: Decoded, name: string): Option<FileNameParams> {
    if IsDecodedFile(file) && file.params.value.name == name then Some(file.params.value) else None
  }

  /** The assets the files of `files` for option `name` and key `uid` contribute, in listing order. */
  function EdgeAssetsNamed(layerName: string, files: seq<Decoded>, name: string, uid: string): seq<LayerAsset> {
    if |files| == 0 then []
    else
      var ep := EdgeFileParams(files[0], name);
      (if ep.Some? && EdgeCaseUid(ep.value) == uid then [AssetAt(EdgeCasesPath(layerName), files[0])] else [])
      + EdgeAssetsNamed(layerName, files[1..], name, uid)
  }

  /** The parameters of the first file of `files` for option `name` and key `uid`. */
  function FirstEdgeParams(files: seq<Decoded>, name: string, uid: string): Option<FileNameParams> {
    if |files| == 0 then None
    else
      var ep := EdgeFileParams(files[0], name);
      if ep.Some? && EdgeCaseUid(ep.value) == uid then ep else FirstEdgeParams(files[1..], name, uid)
  }

  /** The edge case `uid` of `option`, or a fresh one made from the parameters `first`. */
  function EdgeCaseOrNew(option: LayerOption, uid: string, first: FileNameParams): EdgeCase {
    if uid in option.edgeCases.entries then option.edgeCases.entries[uid]
    else EdgeCase(OrEmpty(first.t), OrEmpty(first.v), [])
  }

  /** What one edge-case file does to option `name`'s edge case `uid`. */
  lemma AddEdgeCaseFileEffect(options: Dict<LayerOption>, layerName: string, file: Decoded, name: string, uid: string)
    requires file.entry.node.File? && AddEdgeCaseFile(options, layerName, file).Success?
    requires name in options.entries
    ensures var next, params, before := AddEdgeCaseFile(options, layerName, file).value, file.params.value, options.entries[name];
      && name in next.entries
      && var after := next.entries[name];
      && after == before.(edgeCases := after.edgeCases)
      && (uid in after.edgeCases.entries <==> uid in before.edgeCases.entries || (name == params.name && uid == EdgeCaseUid(params)))
      && (uid in after.edgeCases.entries ==>
            after.edgeCases.entries[uid] ==
              if name == params.name && uid == EdgeCaseUid(params) then
                var e := EdgeCaseOrNew(before, uid, params);
                e.(assets := e.assets + [AssetAt(EdgeCasesPath(layerName), file)])
              else before.edgeCases.entries[uid])
  {
  }

  /**
   * The edge case `uid` of option `option` once the files of `files` for it are
   * grouped: the existing one or, failing that, one made from the first file
   * carrying the key (absent `t` and `v` stored as ""), extended by the assets of
   * all files carrying the key, in listing order; none when neither exists.
   */
  function GroupedEdgeCase(layerName: string, option: LayerOption, files: seq<Decoded>, name: string, uid: string): Option<EdgeCase> {
    var added := EdgeAssetsNamed(layerName, files, name, uid);
    if uid in option.edgeCases.entries then
      var e := option.edgeCases.entries[uid];
      Some(e.(assets := e.assets + added))
    else
      var first := FirstEdgeParams(files, name, uid);
      if first.Some? then Some(EdgeCase(OrEmpty(first.value.t), OrEmpty(first.value.v), added)) else None
  }

  /**
   * Edge-case grouping: each option keeps everything but its edge cases, and its
   * edge case under every key `uid` is the grouped one.
   */
  lemma {:induction false} EdgeCaseFilesAccumulate(options: Dict<LayerOption>, layerName: string, files: seq<Decoded>, name: string, uid: string)
    requires EdgeCaseFiles(options, layerName, files).Success?
    requires name in options.entries
    ensures var r, before := EdgeCaseFiles(options, layerName, files).value, options.entries[name];
      && name in r.entries
      && r.entries[name] == before.(edgeCases := r.entries[name].edgeCases)
      && var grouped := GroupedEdgeCase(layerName, before, files, name, uid);
      && (uid in r.entries[name].edgeCases.entries <==> grouped.Some?)
      && (grouped.Some? ==> r.entries[name].edgeCases.entries[uid] == grouped.value)
    decreases |files|
  {
    if |files| == 0 {
      var before := options.entries[name];
      if uid in before.edgeCases.entries {
        var e := before.edgeCases.entries[uid];
        assert e.assets + [] == e.assets;
      }
    } else if !files[0].entry.node.File? {
      EdgeCaseFilesAccumulate(options, layerName, files[1..], name, uid);
      assert EdgeAssetsNamed(layerName, files, name, uid) == EdgeAssetsNamed(layerName, files[1..], name, uid);
      assert FirstEdgeParams(files, name, uid) == FirstEdgeParams(files[1..], name, uid);
    } else {
      var next := AddEdgeCaseFile(options, layerName, files[0]).value;
      AddEdgeCaseFileEffect(options, layerName, files[0], name, uid);
      EdgeCaseFilesAccumulate(next, layerName, files[1..], name, uid);
      GroupedEdgeCaseStep(layerName, options.entries[name], next.entries[name], files, name, uid);
    }
  }

  /** Grouping after the first file is grouping from the option that file produced. */
  lemma GroupedEdgeCaseStep(layerName: string, before: LayerOption, mid: LayerOption, files: seq<Decoded>, name: string, uid: string)
    requires |files| > 0 && IsDecodedFile(files[0])
    requires var params := files[0].params.value;
      var matches := params.name == name && EdgeCaseUid(params) == uid;
      && (uid in mid.edgeCases.entries <==> uid in before.edgeCases.entries || matches)
      && (uid in mid.edgeCases.entries ==>
            mid.edgeCases.entries[uid] ==
              if matches then
                var e := EdgeCaseOrNew(before, uid, params);
                e.(assets := e.assets + [AssetAt(EdgeCasesPath(layerName), files[0])])
              else before.edgeCases.entries[uid])
    ensures GroupedEdgeCase(layerName, mid, files[1..], name, uid) == GroupedEdgeCase(layerName, before, files, name, uid)
  {
    var params := files[0].params.value;
    var rest := EdgeAssetsNamed(layerName, files[1..], name, uid);
    if params.name == name && EdgeCaseUid(params) == uid {
      var asset := AssetAt(EdgeCasesPath(layerName), files[0]);
      assert EdgeAssetsNamed(layerName, files, name, uid) == [asset] + rest;
      assert FirstEdgeParams(files, name, uid) == Some(params);
      var e := EdgeCaseOrNew(before, uid, params);
      if uid in before.edgeCases.entries {
        assert e.assets + [asset] + rest == e.assets + ([asset] + rest);
      } else {
        assert e.assets + [asset] == [asset];
      }
    } else {
      assert EdgeAssetsNamed(layerName, files, name, uid) == rest;
      assert FirstEdgeParams(files, name, uid) == FirstEdgeParams(files[1..], name, uid);
    }
  }

  // ----- layers -----

  /** A layer directory without a visible regular file is an error. */
  lemma NoOptionFilesFails(layerName: string, listing: seq<DirEntry>)
    requires forall e :: e in ReadDir(listing) ==> !e.node.File?
    ensures LayerOptions(layerName, listing) == Failure(NoOptions(layerName))
  {
    var files := Decode(ReadDir(listing));
    assert forall d :: d in files ==> !d.entry.node.File?;
    NoFilesNoOptions(Empty(), layerName, files);
  }

  lemma {:induction false} NoFilesNoOptions(options: Dict<LayerOption>, layerName: string, files: seq<Decoded>)
    requires forall d :: d in files ==> !d.entry.node.File?
    ensures OptionFiles(options, layerName, files) == Success(options)
    decreases |files|
  {
    if |files| > 0 {
      assert files[0] in files;
      assert forall d :: d in files[1..] ==> d in files;
      NoFilesNoOptions(options, layerName, files[1..]);
    }
  }

  /** The last directory of `entries` that becomes a layer named `name`. */
  function LastDirNamed(entries: seq<Decoded>, name: string): Option<Decoded> {
    if |entries| == 0 then None
    else
      var later := LastDirNamed(entries[1..], name);
      if later.Some? then later
      else if entries[0].entry.node.Directory? && DirLayer(entries[0]).Success? && DirLayer(entries[0]).value.name == name
      then Some(entries[0])
      else None
  }

  /**
   * Layers: only directories become layers, each under its decoded name; a later
   * directory with the same decoded name overwrites the earlier one.
   */
  lemma {:induction false} LayerDirsLastWins(layers: Dict<Layer>, entries: seq<Decoded>, name: string)
    requires LayerDirs(layers, entries).Success?
    ensures var r, last := LayerDirs(layers, entries).value, LastDirNamed(entries, name);
      if last.Some? then
        last.value.entry.node.Directory? && name in r.entries && Success(r.entries[name]) == DirLayer(last.value)
      else
        (name in r.entries <==> name in layers.entries) && (name in r.entries ==> r.entries[name] == layers.entries[name])
    decreases |entries|
  {
    if |entries| == 0 {
    } else if !entries[0].entry.node.Directory? {
      LayerDirsLastWins(layers, entries[1..], name);
    } else {
      var layer := DirLayer(entries[0]).value;
      LayerDirsLastWins(Put(layers, layer.name, layer), entries[1..], name);
    }
  }

  // ----- key order -----

  /**
   * Option order: the option keys after the loop are those before it, then each
   * new option name in the order its first file appears in the listing.
   */
  lemma {:induction false} OptionFilesKeys(options: Dict<LayerOption>, layerName: string, files: seq<Decoded>)
    requires OptionFiles(options, layerName, files).Success?
    ensures OptionFiles(options, layerName, files).value.keys == options.keys + NewNames(options.keys, OptionNames(files))
    decreases |files|
  {
    if |files| == 0 {
      assert options.keys + [] == options.keys;
    } else if !files[0].entry.node.File? {
      OptionFilesKeys(options, layerName, files[1..]);
      assert OptionNames(files) == OptionNames(files[1..]);
    } else {
      var params := files[0].params.value;
      var next := AddOptionFile(options, layerName, files[0]).value;
      assert next.keys == if params.name in options.keys then options.keys else options.keys + [params.name];
      OptionFilesKeys(next, layerName, files[1..]);
      assert OptionNames(files) == [params.name] + OptionNames(files[1..]);
      NewNamesCons(options.keys, params.name, OptionNames(files[1..]));
    }
  }

  /** The edge-case keys `t#v` the files of `files` for option `name` carry, in listing order. */
  function EdgeUidsNamed(files: seq<Decoded>, name: string): seq<string> {
    if |files| == 0 then []
    else
      var ep := EdgeFileParams(files[0], name);
      (if ep.Some? then [EdgeCaseUid(ep.value)] else []) + EdgeUidsNamed(files[1..], name)
  }

  /**
   * Edge-case order: the edge-case keys of option `name` after the loop are those
   * before it, then each new key in the order its first file appears.
   */
  lemma {:induction false} EdgeCaseFilesKeys(options: Dict<LayerOption>, layerName: string, files: seq<Decoded>, name: string)
    requires EdgeCaseFiles(options, layerName, files).Success?
    requires name in options.entries
    ensures var r, before := EdgeCaseFiles(options, layerName, files).value, options.entries[name].edgeCases;
      name in r.entries && r.entries[name].edgeCases.keys == before.keys + NewNames(before.keys, EdgeUidsNamed(files, name))
    decreases |files|
  {
    var before := options.entries[name].edgeCases;
    if |files| == 0 {
      assert before.keys + [] == before.keys;
    } else if !files[0].entry.node.File? {
      EdgeCaseFilesKeys(options, layerName, files[1..], name);
      assert EdgeUidsNamed(files, name) == EdgeUidsNamed(files[1..], name);
    } else {
      var params := files[0].params.value;
      var next := AddEdgeCaseFile(options, layerName, files[0]).value;
      assert name in next.entries;
      var after := next.entries[name].edgeCases;
      EdgeCaseFilesKeys(next, layerName, files[1..], name);
      if params.name == name {
        var uid := EdgeCaseUid(params);
        assert after.keys == if uid in before.keys then before.keys else before.keys + [uid];
        assert EdgeUidsNamed(files, name) == [uid] + EdgeUidsNamed(files[1..], name);
        NewNamesCons(before.keys, uid, EdgeUidsNamed(files[1..], name));
      } else {
        assert after == before;
        assert EdgeUidsNamed(files, name) == EdgeUidsNamed(files[1..], name);
      }
    }
  }

  /** The names of the layers the directories of `entries` become, in listing order. */
  function LayerDirNames(entries: seq<Decoded>): seq<string> {
    if |entries| == 0 then []
    else
      (if entries[0].entry.node.Directory? && DirLayer(entries[0]).Success? then [DirLayer(entries[0]).value.name] else [])
      + LayerDirNames(entries[1..])
  }

  /**
   * Layer order: the layer keys after the loop are those before it, then each
   * new layer name in the order its first directory appears in the listing.
   */
  lemma {:induction false} LayerDirsKeys(layers: Dict<Layer>, entries: seq<Decoded>)
    requires LayerDirs(layers, entries).Success?
    ensures LayerDirs(layers, entries).value.keys == layers.keys + NewNames(layers.keys, LayerDirNames(entries))
    decreases |entries|
  {
    if |entries| == 0 {
      assert layers.keys + [] == layers.keys;
    } else if !entries[0].entry.node.Directory? {
      LayerDirsKeys(layers, entries[1..]);
      assert LayerDirNames(entries) == LayerDirNames(entries[1..]);
    } else {
      var built := DirLayer(entries[0]);
      assert built.Success?;
      var layer := built.value;
      var next := Put(layers, layer.name, layer);
      assert LayerDirs(layers, entries) == LayerDirs(next, entries[1..]);
      LayerDirsKeys(next, entries[1..]);
      assert next.keys == if layer.name in layers.keys then layers.keys else layers.keys + [layer.name];
      assert LayerDirNames(entries) == [layer.name] + LayerDirNames(entries[1..]);
      NewNamesCons(layers.keys, layer.name, LayerDirNames(entries[1..]));
    }
  }

  /** The decoded listing of a layer's `edge-cases` directory; empty when there is none. */
  function EdgeCaseListing(listing: seq<DirEntry>): seq<Decoded> {
    match FindEntry(listing, EdgeCasesDirName)
    case Some(node) => if node.Directory? then Decode(ReadDir(node.entries)) else []
    case None => []
  }

  /**
   * `getOptions` option order: the options in the order the first visible file
   * of each appears. This order decides which option a draw selects.
   */
  lemma LayerOptionsKeys(layerName: string, listing: seq<DirEntry>)
    requires LayerOptions(layerName, listing).Success?
    ensures LayerOptions(layerName, listing).value.keys == NewNames([], OptionNames(Decode(ReadDir(listing))))
  {
    var files := Decode(ReadDir(listing));
    var options := OptionFiles(Empty(), layerName, files).value;
    OptionFilesKeys(Empty(), layerName, files);
    assert [] + NewNames([], OptionNames(files)) == NewNames([], OptionNames(files));
    var edge := FindEntry(listing, EdgeCasesDirName);
    if edge.Some? && edge.value.Directory? {
      EdgeCaseFilesSucceed(options, layerName, Decode(ReadDir(edge.value.entries)));
    }
  }

  /**
   * `getOptions` edge-case order: the edge cases of option `name` in the order
   * the first edge-case file carrying each key appears. This order decides which
   * edge case matches first.
   */
  lemma LayerEdgeCaseKeys(layerName: string, listing: seq<DirEntry>, name: string)
    requires LayerOptions(layerName, listing).Success?
    requires name in LayerOptions(layerName, listing).value.entries
    ensures LayerOptions(layerName, listing).value.entries[name].edgeCases.keys
         == NewNames([], EdgeUidsNamed(EdgeCaseListing(listing), name))
  {
    var files := Decode(ReadDir(listing));
    var options := OptionFiles(Empty(), layerName, files).value;
    var edge := FindEntry(listing, EdgeCasesDirName);
    var edgeFiles := EdgeCaseListing(listing);
    if edge.Some? && edge.value.Directory? {
      EdgeCaseFilesSucceed(options, layerName, edgeFiles);
    }
    assert name in options.entries;
    OptionFilesAccumulate(Empty(), layerName, files, name);
    assert options.entries[name].edgeCases.keys == [];
    if edge.Some? && edge.value.Directory? {
      EdgeCaseFilesKeys(options, layerName, edgeFiles, name);
      assert [] + NewNames([], EdgeUidsNamed(edgeFiles, name)) == NewNames([], EdgeUidsNamed(edgeFiles, name));
    }
  }

  /** `load` key order: the layers in the order the first visible directory of each appears. */
  lemma LoadKeys(basePath: string, listing: seq<DirEntry>)
    requires LoadSpec(basePath, listing).Success?
    ensures LoadSpec(basePath, listing).value.layers.keys == NewNames([], LayerDirNames(Decode(ReadDir(listing))))
  {
    var entries := Decode(ReadDir(listing));
    LayerDirsKeys(Empty(), entries);
    assert [] + NewNames([], LayerDirNames(entries)) == NewNames([], LayerDirNames(entries));
  }

  // ----- well-formedness -----

  /** Every `w` that decoded is positive, as `getParams` guarantees. */
  predicate PositiveWeights(files: seq<Decoded>) {
    forall i :: 0 <= i < |files| && files[i].params.Success? && files[i].params.value.w.Some? ==> files[i].params.value.w.value > 0
  }

  lemma DecodePositiveWeights(entries: seq<DirEntry>)
    ensures PositiveWeights(Decode(entries))
  {
  }

  lemma {:induction false} OptionFilesWellFormed(options: Dict<LayerOption>, layerName: string, files: seq<Decoded>)
    requires WellFormedOptions(options) && PositiveWeights(files)
    requires OptionFiles(options, layerName, files).Success?
    ensures WellFormedOptions(OptionFiles(options, layerName, files).value)
    decreases |files|
  {
    if |files| > 0 {
      assert PositiveWeights(files[1..]) by {
        forall i | 0 <= i < |files[1..]| ensures files[1..][i] == files[i + 1] { }
      }
      if !files[0].entry.node.File? {
        OptionFilesWellFormed(options, layerName, files[1..]);
      } else {
        assert files[0].params.Success? ==> files[0].params.value.w.Some? ==> files[0].params.value.w.value > 0;
        OptionFilesWellFormed(AddOptionFile(options, layerName, files[0]).value, layerName, files[1..]);
      }
    }
  }

  lemma {:induction false} EdgeCaseFilesWellFormed(options: Dict<LayerOption>, layerName: string, files: seq<Decoded>)
    requires WellFormedOptions(options)
    requires EdgeCaseFiles(options, layerName, files).Success?
    ensures WellFormedOptions(EdgeCaseFiles(options, layerName, files).value)
    decreases |files|
  {
    if |files| == 0 {
    } else if !files[0].entry.node.File? {
      EdgeCaseFilesWellFormed(options, layerName, files[1..]);
    } else {
      EdgeCaseFilesWellFormed(AddEdgeCaseFile(options, layerName, files[0]).value, layerName, files[1..]);
    }
  }

  /** The options of a layer that loads: at least one, each well formed. */
  lemma LayerOptionsWellFormed(layerName: string, listing: seq<DirEntry>)
    requires LayerOptions(layerName, listing).Success?
    ensures var options := LayerOptions(layerName, listing).value;
      |options.keys| > 0 && WellFormedOptions(options)
  {
    var files := Decode(ReadDir(listing));
    DecodePositiveWeights(ReadDir(listing));
    OptionFilesWellFormed(Empty(), layerName, files);
    var options := OptionFiles(Empty(), layerName, files).value;
    var edge := FindEntry(listing, EdgeCasesDirName);
    if edge.Some? && edge.value.Directory? {
      EdgeCaseDirWellFormed(options, layerName, Decode(ReadDir(edge.value.entries)));
    }
  }

  /** The edge-case directory keeps well-formed options well formed, and keeps their keys. */
  lemma EdgeCaseDirWellFormed(options: Dict<LayerOption>, layerName: string, edgeFiles: seq<Decoded>)
    requires WellFormedOptions(options)
    requires EdgeCaseFiles(options, layerName, edgeFiles).Success?
    ensures EdgeCaseFiles(options, layerName, edgeFiles).value.keys == options.keys
    ensures WellFormedOptions(EdgeCaseFiles(options, layerName, edgeFiles).value)
  {
    EdgeCaseFilesSucceed(options, layerName, edgeFiles);
    EdgeCaseFilesWellFormed(options, layerName, edgeFiles);
  }

  lemma DirLayerWellFormed(dir: Decoded)
    requires dir.entry.node.Directory? && DirLayer(dir).Success?
    ensures WellFormedLayer(DirLayer(dir).value.name, DirLayer(dir).value)
  {
    LayerOptionsWellFormed(dir.entry.name, dir.entry.node.entries);
  }

  lemma {:induction false} LayerDirsWellFormed(layers: Dict<Layer>, entries: seq<Decoded>)
    requires forall key :: key in layers.entries ==> WellFormedLayer(key, layers.entries[key])
    requires LayerDirs(layers, entries).Success?
    ensures var r := LayerDirs(layers, entries).value;
      forall key :: key in r.entries ==> WellFormedLayer(key, r.entries[key])
    decreases |entries|
  {
    if |entries| == 0 {
    } else if !entries[0].entry.node.Directory? {
      LayerDirsWellFormed(layers, entries[1..]);
    } else {
      var layer := DirLayer(entries[0]).value;
      DirLayerWellFormed(entries[0]);
      LayerDirsWellFormed(Put(layers, layer.name, layer), entries[1..]);
    }
  }

  /** A catalog that loads is well formed. */
  lemma LoadWellFormed(basePath: string, listing: seq<DirEntry>)
    requires LoadSpec(basePath, listing).Success?
    ensures WellFormed(LoadSpec(basePath, listing).value)
    ensures LoadSpec(basePath, listing).value.basePath == basePath
  {
    LayerDirsWellFormed(Empty(), Decode(ReadDir(listing)));
  }

  /** The input plugin: the listing of `assetsBasePath` is passed to `Load` in place of the filesystem. */
  class HtmlLayersInput {
    const assetsBasePath: string

    constructor(assetsBasePath: string)
      ensures this.assetsBasePath == assetsBasePath
    {
      this.assetsBasePath := assetsBasePath;
    }

    method Load(listing: seq<DirEntry>) returns (r: Result<HtmlLayersInputData, Error>)
      ensures r == LoadSpec(assetsBasePath, listing)
    {
      var layers :- GetLayersFromFolders(listing);
      return Success(HtmlLayersInputData(assetsBasePath, layers));
    }

    method GetLayersFromFolders(listing: seq<DirEntry>) returns (r: Result<Dict<Layer>, Error>)
      ensures r == LayerDirs(Empty(), Decode(ReadDir(listing)))
    {
      var layers: Dict<Layer> := Empty();
      var entries := ReadDir(listing);
      ghost var decoded := Decode(entries);
      for i := 0 to |entries|
        invariant LayerDirs(Empty(), decoded) == LayerDirs(layers, decoded[i..])
      {
        LayerDirsStep(layers, decoded, i);
        var entry := entries[i];
        if !entry.node.Directory? {
          continue;
        }
        var params :- GetParams(entry.name);
        var options :- GetOptions(entry.name, entry.node.entries);
        layers := Put(layers, params.name, Layer(params.name, params.x, params.y, params.z, options));
      }
      assert decoded[|entries|..] == [];
      return Success(layers);
    }

    method GetOptions(layerName: string, listing: seq<DirEntry>) returns (r: Result<Dict<LayerOption>, Error>)
      ensures r == LayerOptions(layerName, listing)
    {
      var options :- CollectOptions(layerName, ReadDir(listing));
      if |options.keys| < 1 {
        return Failure(NoOptions(layerName));
      }
      var edgeCasesDir := FindEntry(listing, EdgeCasesDirName);
      if edgeCasesDir.None? {
        return Success(options);
      }
      if !edgeCasesDir.value.Directory? {
        return Failure(NotADirectory(EdgeCasesPath(layerName)));
      }
      r := CollectEdgeCases(options, layerName, ReadDir(edgeCasesDir.value.entries));
    }

    /** The option loop of `getOptions` over the visible entries `files` of the layer directory. */
    method CollectOptions(layerName: string, files: seq<DirEntry>) returns (r: Result<Dict<LayerOption>, Error>)
      ensures r == OptionFiles(Empty(), layerName, Decode(files))
    {
      var options: Dict<LayerOption> := Empty();
      ghost var decoded := Decode(files);
      for i := 0 to |files|
        invariant OptionFiles(Empty(), layerName, decoded) == OptionFiles(options, layerName, decoded[i..])
      {
        OptionFilesStep(options, layerName, decoded, i);
        var file := files[i];
        if !file.node.File? {
          continue;
        }
        ghost var before := options;
        assert decoded[i] == Decoded(file, GetParams(file.name));
        var params :- GetParams(file.name);
        if params.name !in options.entries {
          options := Put(options, params.name, NewOption(params.name));
        }
        var option := options.entries[params.name];
        assert option == OptionOrNew(before, params.name);
        if params.w.Some? {
          if option.weight != 1 {
            return Failure(WeightSpecifiedTwice(params.name, layerName));
          }
          option := option.(weight := params.w.value);
        }
        var asset := LayerAsset(PathJoin(layerName, file.name), file.node.size, params.x, params.y, params.z, file.node.mtime);
        option := option.(assets := option.assets + [asset]);
        options := Put(options, params.name, option);
        assert options == Put(before, params.name, option) by {
          if params.name !in before.entries {
            PutTwice(before, params.name, NewOption(params.name), option);
          }
        }
        assert AddOptionFile(before, layerName, decoded[i]) == Success(options);
      }
      assert decoded[|files|..] == [];
      return Success(options);
    }

    /** The edge-case loop of `getOptions` over the visible entries `files` of `edge-cases`. */
    method CollectEdgeCases(found: Dict<LayerOption>, layerName: string, files: seq<DirEntry>) returns (r: Result<Dict<LayerOption>, Error>)
      ensures r == EdgeCaseFiles(found, layerName, Decode(files))
    {
      var options := found;
      ghost var decoded := Decode(files);
      for i := 0 to |files|
        invariant EdgeCaseFiles(found, layerName, decoded) == EdgeCaseFiles(options, layerName, decoded[i..])
      {
        EdgeCaseFilesStep(options, layerName, decoded, i);
        var file := files[i];
        if !file.node.File? {
          continue;
        }
        var params :- GetParams(file.name);
        if params.name !in options.entries {
          return Failure(UndefinedOption(params.name));
        }
        var option := options.entries[params.name];
        ghost var current := option;
        var uid := EdgeCaseUid(params);
        if uid !in option.edgeCases.entries {
          option := option.(edgeCases := Put(option.edgeCases, uid, EdgeCase(OrEmpty(params.t), OrEmpty(params.v), [])));
        }
        var edgeCase := option.edgeCases.entries[uid];
        var asset := LayerAsset(PathJoin(PathJoin(layerName, EdgeCasesDirName), file.name), file.node.size, params.x, params.y, params.z, file.node.mtime);
        option := option.(edgeCases := Put(option.edgeCases, uid, edgeCase.(assets := edgeCase.assets + [asset])));
        assert option.edgeCases == Put(current.edgeCases, uid, edgeCase.(assets := edgeCase.assets + [asset])) by {
          if uid !in current.edgeCases.entries {
            PutTwice(current.edgeCases, uid, EdgeCase(OrEmpty(params.t), OrEmpty(params.v), []), edgeCase.(assets := edgeCase.assets + [asset]));
          }
        }
        options := Put(options, params.name, option);
      }
      assert decoded[|files|..] == [];
      return Success(options);
    }
  }
}
