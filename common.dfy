/** Types shared by the record types and the store. */
module Common {

  /** A record identifier (a UUID in the app). The model only compares identifiers
      for equality; where they come from is up to the caller. */
  type Id(==, !new)

  /** A point in time, as a timestamp. Calendar questions (same day, one month ago)
      are asked of a calendar that callers pass in. */
  type Date = int

  /** A resource locator attached to a celebration. */
  type Url = string

  datatype Option<+T> = None | Some(value: T)
}
