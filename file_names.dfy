/**
 * The filename mini-language of the HTML layers input: `getParams` decodes
 * `name__x<int>__y<int>__z<int>__w<int>__t<text>__v<text>.ext`.
 */
module FileNames {
  import opened Wrappers
  import opened Errors
  import opened Text

  datatype FileNameParams = FileNameParams(
    name: string,
    x: int,
    y: int,
    z: int,
    w: Option<int>,
    t: Option<string>,
    v: Option<string>)

  const ParamsSeparator := "__"

  /** `fileName.split(".")[0]`: the text before the first dot. */
  function Stem(fileName: string): string {
    Split(fileName, ".")[0]
  }

  /** `Stem(fileName).split("__")`: the name followed by the raw parameter tokens. */
  function Tokens(fileName: string): (tokens: seq<string>)
    ensures |tokens| >= 1
  {
    Split(Stem(fileName), ParamsSeparator)
  }

  function DecodedName(fileName: string): string {
    Tokens(fileName)[0]
  }

  /** `param.charAt(0)`: the empty string for an empty token. */
  function TokenKey(param: string): string {
    if |param| == 0 then "" else [param[0]]
  }

  /** `param.slice(1)` */
  function TokenValue(param: string): string {
    if |param| == 0 then "" else param[1..]
  }

  /** The `rawParamsMap` loop: each token keyed by its first character, a later token overwriting. */
  function RawParams(params: seq<string>): map<string, string> {
    if |params| == 0 then map[]
    else
      var last := params[|params| - 1];
      RawParams(params[..|params| - 1])[TokenKey(last) := TokenValue(last)]
  }

  function RawParamsOf(fileName: string): map<string, string> {
    RawParams(Tokens(fileName)[1..])
  }

  function Lookup(raw: map<string, string>, key: string): Option<string> {
    if key in raw then Some(raw[key]) else None
  }

  /** `parseInt(rawParamsMap.get(key) ?? "0")`, with `parseInt("0")` written as its value 0 (see `OffsetDefault`). */
  function Offset(raw: map<string, string>, key: string): Option<int> {
    if key in raw then ParseInt(raw[key]) else Some(0)
  }

  /** `getParams`: decode, then reject a non-numeric offset or a weight that is NaN or not positive. */
  function GetParams(fileName: string): (r: Result<FileNameParams, Error>)
    ensures r.Success? ==> r.value.name == DecodedName(fileName)
    ensures r.Success? && r.value.w.Some? ==> r.value.w.value > 0
  {
    Normalize(fileName, DecodedName(fileName), RawParamsOf(fileName))
  }

  /** The `normalizedParams` record and its validation, given the raw token map. */
  function Normalize(fileName: string, name: string, raw: map<string, string>): (r: Result<FileNameParams, Error>)
    ensures r.Success? ==> r.value.name == name
    ensures r.Success? && r.value.w.Some? ==> r.value.w.value > 0
  {
    var x, y, z := Offset(raw, "x"), Offset(raw, "y"), Offset(raw, "z");
    var w := if "w" in raw then Some(ParseInt(raw["w"])) else None;
    if x.None? then Failure(InvalidOffset(X, fileName))
    else if y.None? then Failure(InvalidOffset(Y, fileName))
    else if z.None? then Failure(InvalidOffset(Z, fileName))
    else if w.Some? && (w.value.None? || w.value.value <= 0) then Failure(InvalidWeight(fileName))
    else
      Success(FileNameParams(name, x.value, y.value, z.value,
                             if w.Some? then Some(w.value.value) else None,
                             Lookup(raw, "t"), Lookup(raw, "v")))
  }

  /** A token is recorded under its first character, and the last token with that character wins. */
  lemma {:induction false} RawParamsLastWins(params: seq<string>, key: string)
    ensures key in RawParams(params) <==> exists i :: 0 <= i < |params| && TokenKey(params[i]) == key
    ensures forall i :: 0 <= i < |params| && TokenKey(params[i]) == key &&
                        (forall j :: i < j < |params| ==> TokenKey(params[j]) != key)
                    ==> RawParams(params)[key] == TokenValue(params[i])
  {
    if |params| > 0 {
      var init := params[..|params| - 1];
      RawParamsLastWins(init, key);
      forall i | 0 <= i < |init| ensures init[i] == params[i] { }
      if key in RawParams(params) && TokenKey(params[|params| - 1]) != key {
        var i :| 0 <= i < |init| && TokenKey(init[i]) == key;
        assert TokenKey(params[i]) == key;
      }
    }
  }

  /**
   * The decoded name is the longest prefix of the file name that stops at the
   * first dot and at the first `__`.
   */
  lemma DecodedNameIsPrefix(fileName: string)
    ensures var n := DecodedName(fileName);
      && |n| <= |fileName| && n == fileName[..|n|]
      && (forall j :: 0 <= j < |n| ==> fileName[j] != '.' && !OccursAt(fileName, ParamsSeparator, j))
      && (|n| == |fileName| || fileName[|n|] == '.' || OccursAt(fileName, ParamsSeparator, |n|))
  {
    var stem := Stem(fileName);
    var n := DecodedName(fileName);
    StemChars(fileName);
    assert n == Split(stem, ParamsSeparator)[0];
    forall j | 0 <= j < |n| ensures !OccursAt(fileName, ParamsSeparator, j) {
      if j + 2 <= |stem| {
        OccursAtPrefix(stem, fileName, ParamsSeparator, j);
      } else {
        StemEndsSeparator(fileName, j);
      }
    }
    if |n| < |stem| {
      OccursAtPrefix(stem, fileName, ParamsSeparator, |n|);
    }
  }

  /** No `__` starts at the last character of the stem: the dot follows it. */
  lemma StemEndsSeparator(fileName: string, j: nat)
    requires j < |Stem(fileName)| < j + 2
    ensures !OccursAt(fileName, ParamsSeparator, j)
  {
    StemChars(fileName);
    if j + 2 <= |fileName| {
      assert fileName[j..j + 2][1] == fileName[j + 1] == '.';
    }
  }

  /** The stem is the prefix of the file name before its first dot, character by character. */
  lemma StemChars(fileName: string)
    ensures var stem := Stem(fileName);
      && |stem| <= |fileName| && stem == fileName[..|stem|]
      && (forall j :: 0 <= j < |stem| ==> fileName[j] != '.')
      && (|stem| == |fileName| || fileName[|stem|] == '.')
  {
    var stem := Stem(fileName);
    forall j | 0 <= j < |stem| ensures fileName[j] != '.' {
      assert !OccursAt(fileName, ".", j);
      assert fileName[j..j + 1] == [fileName[j]];
    }
    if |stem| < |fileName| {
      assert OccursAt(fileName, ".", |stem|);
      assert fileName[|stem|..|stem| + 1] == [fileName[|stem|]];
    }
  }

  /** What `getParams` promises when it returns: defaults, weight and verbatim trait tokens. */
  lemma GetParamsDefaults(fileName: string)
    requires GetParams(fileName).Success?
    ensures var p, raw := GetParams(fileName).value, RawParamsOf(fileName);
      && (if "x" in raw then Some(p.x) == ParseInt(raw["x"]) else p.x == 0)
      && (if "y" in raw then Some(p.y) == ParseInt(raw["y"]) else p.y == 0)
      && (if "z" in raw then Some(p.z) == ParseInt(raw["z"]) else p.z == 0)
      && (if "w" in raw then p.w == ParseInt(raw["w"]) else p.w.None?)
      && p.t == Lookup(raw, "t") && p.v == Lookup(raw, "v")
  {
    NormalizeDefaults(fileName, DecodedName(fileName), RawParamsOf(fileName));
  }

  lemma NormalizeDefaults(fileName: string, name: string, raw: map<string, string>)
    requires Normalize(fileName, name, raw).Success?
    ensures var p := Normalize(fileName, name, raw).value;
      && (if "x" in raw then Some(p.x) == ParseInt(raw["x"]) else p.x == 0)
      && (if "y" in raw then Some(p.y) == ParseInt(raw["y"]) else p.y == 0)
      && (if "z" in raw then Some(p.z) == ParseInt(raw["z"]) else p.z == 0)
      && (if "w" in raw then p.w == ParseInt(raw["w"]) else p.w.None?)
      && p.t == Lookup(raw, "t") && p.v == Lookup(raw, "v")
  {
  }

  /** `Offset` is `parseInt` of the token, or of `"0"` when the token is missing. */
  lemma OffsetDefault(raw: map<string, string>, key: string)
    ensures Offset(raw, key) == ParseInt(if key in raw then raw[key] else "0")
  {
    ParseIntZero();
  }

  lemma ParseIntZero()
    ensures ParseInt("0") == Some(0)
  {
    assert TrimStart("0") == "0";
    assert DigitPrefix("0", 10) == "0";
    assert DigitsValue("0", 10) == 0;
  }

  /**
   * An x, y or z token that `parseInt` cannot read fails the decoding, naming
   * the file and the first such axis in the order x, y, z.
   */
  lemma InvalidOffsetFails(fileName: string)
    requires var raw := RawParamsOf(fileName);
      ("x" in raw && ParseInt(raw["x"]).None?) ||
      ("y" in raw && ParseInt(raw["y"]).None?) ||
      ("z" in raw && ParseInt(raw["z"]).None?)
    ensures var raw := RawParamsOf(fileName);
      GetParams(fileName) == Failure(InvalidOffset(
        if "x" in raw && ParseInt(raw["x"]).None? then X
        else if "y" in raw && ParseInt(raw["y"]).None? then Y
        else Z,
        fileName))
  {
  }

  /**
   * The converse: decoding succeeds exactly when every x, y and z token present
   * parses and a `w` token, when present, parses to a positive number.
   */
  lemma GetParamsSucceeds(fileName: string)
    ensures var raw := RawParamsOf(fileName);
      GetParams(fileName).Success? <==>
        && ("x" in raw ==> ParseInt(raw["x"]).Some?)
        && ("y" in raw ==> ParseInt(raw["y"]).Some?)
        && ("z" in raw ==> ParseInt(raw["z"]).Some?)
        && ("w" in raw ==> ParseInt(raw["w"]).Some? && ParseInt(raw["w"]).value > 0)
  {
    NormalizeSucceeds(fileName, DecodedName(fileName), RawParamsOf(fileName));
  }

  /** `GetParamsSucceeds` for any name and token map. */
  lemma NormalizeSucceeds(fileName: string, name: string, raw: map<string, string>)
    ensures Normalize(fileName, name, raw).Success? <==>
        && ("x" in raw ==> ParseInt(raw["x"]).Some?)
        && ("y" in raw ==> ParseInt(raw["y"]).Some?)
        && ("z" in raw ==> ParseInt(raw["z"]).Some?)
        && ("w" in raw ==> ParseInt(raw["w"]).Some? && ParseInt(raw["w"]).value > 0)
  {
  }

  /** With valid offsets, a present `w` token that is NaN or not positive fails the decoding. */
  lemma InvalidWeightFails(fileName: string)
    requires var raw := RawParamsOf(fileName);
      && Offset(raw, "x").Some? && Offset(raw, "y").Some? && Offset(raw, "z").Some?
      && "w" in raw && (ParseInt(raw["w"]).None? || ParseInt(raw["w"]).value <= 0)
    ensures GetParams(fileName) == Failure(InvalidWeight(fileName))
  {
  }

  /** `a__w<n>.html`, for a positive decimal `n`, decodes to option `a` with weight `n`, offsets 0 and no trait. */
  lemma WeightFileParams(n: nat)
    requires n > 0
    ensures GetParams("a__w" + ToDecimal(n) + ".html") == Success(FileNameParams("a", 0, 0, 0, Some(n), None, None))
  {
    WeightFileRaw(n);
    NormalizeWeightOnly("a__w" + ToDecimal(n) + ".html", "a", n);
  }

  /** A token map holding only a positive decimal weight: offsets 0, that weight, no trait. */
  lemma NormalizeWeightOnly(fileName: string, name: string, n: nat)
    requires n > 0
    ensures Normalize(fileName, name, map["w" := ToDecimal(n)]) == Success(FileNameParams(name, 0, 0, 0, Some(n), None, None))
  {
    var raw := map["w" := ToDecimal(n)];
    ParseIntToDecimal(n);
    assert "x" !in raw && "y" !in raw && "z" !in raw && "t" !in raw && "v" !in raw;
    NormalizeSucceeds(fileName, name, raw);
    NormalizeDefaults(fileName, name, raw);
  }

  lemma WeightFileRaw(n: nat)
    ensures DecodedName("a__w" + ToDecimal(n) + ".html") == "a"
    ensures RawParamsOf("a__w" + ToDecimal(n) + ".html") == map["w" := ToDecimal(n)]
  {
    var f := "a__w" + ToDecimal(n) + ".html";
    var token := "w" + ToDecimal(n);
    WeightFileTokens(n);
    assert Tokens(f)[1..] == [token];
    assert TokenKey(token) == "w" && TokenValue(token) == ToDecimal(n);
    assert RawParams([token]) == RawParams([])["w" := ToDecimal(n)];
  }

  lemma WeightFileStem(n: nat)
    ensures Stem("a__w" + ToDecimal(n) + ".html") == "a" + ParamsSeparator + ("w" + ToDecimal(n))
  {
    var digits := ToDecimal(n);
    var f := "a__w" + digits + ".html";
    var stem := Stem(f);
    StemChars(f);
    assert f[4 + |digits|] == '.';
    assert forall j :: 0 <= j < 4 + |digits| ==> f[j] != '.' by {
      forall j | 4 <= j < 4 + |digits| ensures f[j] != '.' {
        assert f[j] == digits[j - 4];
      }
    }
    assert |stem| == 4 + |digits|;
    assert stem == f[..4 + |digits|];
  }

  lemma WeightFileTokens(n: nat)
    ensures Tokens("a__w" + ToDecimal(n) + ".html") == ["a", "w" + ToDecimal(n)]
  {
    WeightFileStem(n);
    var digits := ToDecimal(n);
    var stem := "a" + ParamsSeparator + ("w" + digits);
    forall j | 0 <= j && j != 1 && j + 2 <= |stem| ensures stem[j] != '_' || stem[j + 1] != '_' {
      if j >= 4 {
        assert stem[j] == digits[j - 4];
      }
    }
    forall j | 0 <= j ensures !OccursAt(stem, ParamsSeparator, j) || j == 1 {
      if j != 1 && j + 2 <= |stem| {
        assert stem[j..j + 2][0] == stem[j] && stem[j..j + 2][1] == stem[j + 1];
      }
    }
    SplitPair("a", ParamsSeparator, "w" + digits);
  }
}
