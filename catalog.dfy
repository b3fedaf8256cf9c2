/**
 * The layer catalog that the HTML layers input produces and the attribute
 * generator consumes: layers, their options, the options' assets and edge cases.
 */
module Catalog {
  import opened Dicts

  /** One file of an option or of an edge case, with its offsets relative to the layer. */
  datatype LayerAsset = LayerAsset(
    path: string,
    size: int,
    relativeXOffset: int,
    relativeYOffset: int,
    relativeZOffset: int,
    lastModifiedTime: int)

  /** Assets that replace an option's own when another layer has the matching value. */
  datatype EdgeCase = EdgeCase(matchingTrait: string, matchingValue: string, assets: seq<LayerAsset>)

  datatype LayerOption = LayerOption(
    name: string,
    weight: int,
    assets: seq<LayerAsset>,
    edgeCases: Dict<EdgeCase>)

  datatype Layer = Layer(
    name: string,
    baseXOffset: int,
    baseYOffset: int,
    baseZOffset: int,
    options: Dict<LayerOption>)

  /** `HtmlLayersInputInterface` */
  datatype HtmlLayersInputData = HtmlLayersInputData(basePath: string, layers: Dict<Layer>)

  /** `EDGE_CASE_UID_SEPARATOR` */
  const EdgeCaseUidSeparator := "#"

  ghost predicate WellFormedOption(key: string, option: LayerOption) {
    && option.name == key
    && option.weight > 0
    && |option.assets| > 0
    && forall uid :: uid in option.edgeCases.entries ==> |option.edgeCases.entries[uid].assets| > 0
  }

  ghost predicate WellFormedOptions(options: Dict<LayerOption>) {
    forall key :: key in options.entries ==> WellFormedOption(key, options.entries[key])
  }

  ghost predicate WellFormedLayer(key: string, layer: Layer) {
    layer.name == key && |layer.options.keys| > 0 && WellFormedOptions(layer.options)
  }

  /**
   * What a parsed catalog guarantees: every layer and option is stored under its
   * own name, every layer has an option, every weight is positive and every
   * option and edge case has at least one asset.
   */
  ghost predicate WellFormed(data: HtmlLayersInputData) {
    forall key :: key in data.layers.entries ==> WellFormedLayer(key, data.layers.entries[key])
  }

  /** Layers and options are stored under their own names (all the generator relies on). */
  ghost predicate NamesMatchKeys(layers: Dict<Layer>) {
    forall key :: key in layers.entries ==> layers.entries[key].name == key
  }
}
