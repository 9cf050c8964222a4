/** Values shared by the order record, the query interpreter and the registry. */
module Common {

  /** Python's `None` or a value, as used for the optional location argument. */
  datatype Option<+T> = None | Some(value: T)

  /** A point in time (`datetime`), counted in seconds. The clock itself
      (`datetime.now()`) is not modelled: every operation that reads it takes
      the current time as a parameter. */
  type Time = int

  const SecondsPerDay: int := 24 * 60 * 60

  /** `timedelta(days=5)`: the gap between an order's date and its estimated delivery. */
  const DeliveryWindow: int := 5 * SecondsPerDay

  /** Python truthiness of an optional string: neither `None` nor `""`. */
  predicate Truthy(s: Option<string>)
  {
    s.Some? && s.value != ""
  }
}
