/** Option and Result, the failure-compatible wrappers used throughout the model. */
module Wrappers {

  datatype Option<+T> = None | Some(value: T)

  /** A thrown JavaScript error becomes a Failure carrying what the message names. */
  datatype Result<+T, +E> = Success(value: T) | Failure(error: E) {
    predicate IsFailure() {
      Failure?
    }

    function PropagateFailure<U>(): Result<U, E>
      requires Failure?
    {
      Failure(error)
    }

    function Extract(): T
      requires Success?
    {
      value
    }
  }
}

/** Every error the modelled code can throw, with the values its message names. */
module Errors {

  datatype Axis = X | Y | Z

  datatype Error =
    // getParams: `parseInt` of an x/y/z token is NaN
    | InvalidOffset(axis: Axis, fileName: string)
    // getParams: a `w` token that is NaN or not positive
    | InvalidWeight(fileName: string)
    // getOptions: a second explicit weight on an option whose weight is no longer 1
    | WeightSpecifiedTwice(optionName: string, layerName: string)
    // getOptions: a layer directory without option files
    | NoOptions(layerName: string)
    // getOptions: an edge-case file naming an option that does not exist (a TypeError in the source)
    | UndefinedOption(optionName: string)
    // readdirSync on an `edge-cases` entry that is not a directory (ENOTDIR)
    | NotADirectory(path: string)
    // HtmlLayersAttributesGenerator constructor
    | InvalidRange(startIndex: int, endIndex: int)
    // selectRandomItemByWeight: "Couldn't pick any random option..."
    | NoOptionPicked
    // generate: the supplied draws ran out before every uid was filled
    | DrawsExhausted
    // generate: a duplicate DNA with no layer to draw for; the source retries forever
    | EndlessRetry
    // render: an item without any supported asset
    | NoSupportedAssets(itemUid: string)
}
