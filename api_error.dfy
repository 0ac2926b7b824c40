/** How the front end turns a failed Facebook request into a message
    (frontend/src/utils/apiError.ts). The thrown value is a datatype: an
    axios error that may carry a response whose body may carry a `detail`
    of some JSON type, or anything else. */
module ApiError {
  import opened Wrappers

  const InvalidTimeRangeDetail := "since must be less than or equal to until in time_range"
  const InvalidTimeRangeKey := "facebookInvalidTimeRange"

  /** The JSON value found at `response.data.detail`. */
  datatype Detail = Missing | Text(s: string) | OtherJson

  datatype Thrown =
    | AxiosError(response: Option<Detail>)  // None: no response at all
    | OtherError

  /** The detail string of an axios error whose body carries one. */
  function DetailText(e: Thrown): Option<string> {
    if e.AxiosError? && e.response.Some? && e.response.value.Text? then Some(e.response.value.s) else None
  }

  function ResolveFacebookErrorMessage(error: Thrown, fallback: string, t: string -> string): (r: string)
  {
    match error
    case AxiosError(response) =>
      if response.Some? && response.value.Text? && response.value.s == InvalidTimeRangeDetail
      then t(InvalidTimeRangeKey)
      else fallback
    case OtherError => fallback
  }

  /** The translated message is chosen exactly for an axios error whose
      detail is the string for an inverted time range; every other failure
      yields the fallback unchanged. The translator is consulted only with
      the one key, so two translators that agree on it give the same
      answer. */
  lemma ResolveSpec(error: Thrown, fallback: string, t: string -> string, t': string -> string)
    requires t(InvalidTimeRangeKey) == t'(InvalidTimeRangeKey)
    ensures var r := ResolveFacebookErrorMessage(error, fallback, t);
      && (DetailText(error) == Some(InvalidTimeRangeDetail) ==> r == t(InvalidTimeRangeKey))
      && (DetailText(error) != Some(InvalidTimeRangeDetail) ==> r == fallback)
      && r == ResolveFacebookErrorMessage(error, fallback, t')
  {
  }
}
