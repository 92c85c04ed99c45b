/** The boundary to the PocketBase client library.
    Nothing in this module is the application's own logic: it fixes the
    shapes of the values the application receives from the library (records,
    thrown values, the outcome of a network call) and models the client's
    auth store as an object whose validity flag and record can be read and
    cleared. How the store decides validity from its token is not modelled:
    the flag is simply stored. */
module PocketBaseClient {

  datatype Option<+T> = None | Some(value: T)

  /** A record property that JavaScript may leave `undefined`. */
  type Field = Option<string>

  /** A user record as the backend returns it. Only the properties the
      application reads are kept. */
  datatype AuthRecord = AuthRecord(
    id: Field,
    email: Field,
    name: Field,
    displayName: Field,
    userUid: Field)

  /** A value caught by a `catch` clause: an `Error` instance carries a
      message, anything else thrown does not. */
  datatype Thrown = ErrorValue(message: string) | NonErrorValue

  /** The outcome of a library call that returns nothing of interest. */
  datatype Attempt = Succeeds | Throws(thrown: Thrown)

  /** The outcome of `authWithPassword` or `create`: the value the handler's
      `await` resolves to, or what was thrown. The handlers read that value's
      properties as a user record, so it is modelled by the properties they
      read, each possibly `undefined`. With the JavaScript SDK,
      `authWithPassword` resolves to a `{token, record}` wrapper, on which
      `id`, `email` and `displayName` are `undefined`; `create` resolves to
      the created record. */
  datatype AuthResponse = Authenticated(record: AuthRecord) | Rejected(thrown: Thrown)

  /** What the auth store reports: `authStore.isValid` and `authStore.record`. */
  datatype StoreState = StoreState(isValid: bool, record: Option<AuthRecord>)

  /** The auth store after `authStore.clear()`. */
  const EmptyStore := StoreState(false, None)

  /** A constructed client; its auth store is the only part that the
      application mutates. */
  class Client {
    var isValid: bool
    var record: Option<AuthRecord>

    function Store(): StoreState
      reads this
    {
      StoreState(isValid, record)
    }

    /** A client whose store was loaded from the persisted session. */
    constructor (persisted: StoreState)
      ensures Store() == persisted
    {
      isValid := persisted.isValid;
      record := persisted.record;
    }

    /** `authStore.clear()`: forgets the token and the record. */
    method ClearAuthStore()
      modifies this
      ensures Store() == EmptyStore
    {
      isValid := false;
      record := None;
    }
  }
}
