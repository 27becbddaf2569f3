/**
 * The shape of what the weather provider's 36-hour forecast endpoint
 * (dataset F-C0032-001) hands back, and the three ways the HTTP call can end.
 * The call itself is not modelled: its outcome is an input of the handler.
 */
module Upstream {

  /** One time-indexed value of a weather element (`time[i].parameter`). */
  datatype Parameter = Parameter(parameterName: string)

  /** One entry of an element's `time` array. */
  datatype TimeSlot = TimeSlot(startTime: string, endTime: string, parameter: Parameter)

  /** A named time series such as "Wx", "PoP", "MinT", "MaxT" or "CI". */
  datatype WeatherElement = WeatherElement(elementName: string, time: seq<TimeSlot>)

  /** One entry of `records.location`. */
  datatype Location = Location(locationName: string, weatherElement: seq<WeatherElement>)

  /** The `records` object of a successful response. */
  datatype Records = Records(datasetDescription: string, location: seq<Location>)

  /**
   * The body of an upstream error response: its `message` field ("" when it
   * is absent or empty, both falsy in the source) and everything else in it.
   */
  datatype ErrorBody = ErrorBody(message: string, rest: string)

  /**
   * How the request to the provider ended: a response with data, an HTTP
   * error carrying a response (`error.response`), or any failure without one.
   */
  datatype FetchOutcome =
    | Fetched(records: Records)
    | HttpError(status: int, body: ErrorBody)
    | OtherError
}
