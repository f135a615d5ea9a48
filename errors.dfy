/** Option and Result wrappers and the error values the exporter produces. */
module Errors {

  datatype Option<+T> = None | Some(value: T)

  datatype Result<+T> = Success(value: T) | Failure(error: Error)

  /** The errors the exporter's core returns, one constructor per `fmt.Errorf`
      or propagated library error. */
  datatype Error =
    | UnknownMapType          // MapAssets on a value that is neither array nor object
    | MissingTypeField        // an asset object without a "type" key
    | LabelValueNotString     // a free-form asset label whose value is not a string
    | DecodeMismatch          // json.Unmarshal met a value of the wrong JSON type
    | EmptyAllocations        // the allocation response has no data element
    | FetchFailed(reason: string)  // transport or body-decoding failure of the API client
}
