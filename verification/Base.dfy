/** What every part of the model shares: identifiers, time and optional values. */
module Base {

  datatype Option<+T> = None | Some(value: T)

  /** Rows are named by the UUIDs the database generates, users by the subject their login gives. */
  type Uuid = nat
  type TenantId = Uuid
  type PeerId = Uuid
  type UserId = nat

  /** One database session's transaction. */
  type TxnId = nat

  /** Instants and durations are nanoseconds, as Go's time package counts them. */
  const SECOND: int := 1_000_000_000
}
