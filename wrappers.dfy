/** Optional values, and the results and errors of the client's operations. */
module Wrappers {
  import opened Json

  datatype Option<+T> = None | Some(value: T)

  /** Every error the client returns, by where it arises. */
  datatype Error =
    | Network(cause: string)            // the transport could not complete the exchange
    | Status(text: string)              // the server answered with a status other than 200 and 201
    | NilBody                           // an accepted response that has no body
    | BadUrl(url: string)               // a URL that the URL parser rejects
    | BadJson                           // bytes the JSON decoder rejects, or a JSON value of the wrong shape
    | NextNotMap                        // a followed page whose result is not an object
    | NextHasNoValues                   // a followed page without `values`
    | NextValuesNotList                 // a followed page whose `values` is not a list
    | Domain(fields: map<string, Json>) // the server's error envelope, made into an error
    | Mapping                           // the structural mapper could not build the record
    | Panic(what: string)               // a failed type assertion: a run-time panic that unwinds every caller

  /** A value or an error, usable with `:-`. */
  datatype Result<+T> = Ok(value: T) | Err(error: Error) {
    predicate IsFailure() {
      Err?
    }

    function PropagateFailure<U>(): Result<U>
      requires Err?
    {
      Err(error)
    }

    function Extract(): T
      requires Ok?
    {
      value
    }
  }
}
