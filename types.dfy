/** Record shapes shared by the client (src/types.ts), plus the shape of a
    backend call's outcome, which every handler receives as a parameter. */
module Types {

  datatype Option<+T> = None | Some(value: T)

  /** The value the backend sends for `apiCalls`. The interface declares a
      number, but the auth store checks it with `typeof`, so a record whose
      field is missing or not a number must be representable. */
  datatype CallCount = Count(n: int) | NonNumeric

  /** A user record. The seven declared fields, and `otherFields` for any
      further properties a backend JSON object may carry along with them. */
  datatype User = User(
    id: string,
    email: string,
    name: string,
    isAdmin: bool,
    apiCalls: CallCount,
    createdAt: string,
    lastActive: string,
    otherFields: map<string, string>)

  datatype LoginData = LoginData(email: string, password: string)

  datatype RegisterData = RegisterData(email: string, password: string, name: string)

  /** One row of the endpoint statistics (`method` in the source; a keyword here). */
  datatype EndpointStat = EndpointStat(httpMethod: string, endpoint: string, requestCount: int)

  /** True when two records agree on the seven declared fields. */
  predicate SameDeclaredFields(a: User, b: User)
  {
    && a.id == b.id && a.email == b.email && a.name == b.name
    && a.isAdmin == b.isAdmin && a.apiCalls == b.apiCalls
    && a.createdAt == b.createdAt && a.lastActive == b.lastActive
  }

  /** A value thrown by a backend call or a helper. */
  datatype Thrown =
    | AxiosError(status: Option<int>)  // an HTTP failure reported by axios; the status when a response arrived
    | PlainError(message: string)      // any other instance of `Error`
    | NonError                         // a thrown value that is not an `Error` at all

  /** JavaScript's `x instanceof Error` for a thrown value. */
  predicate IsErrorInstance(t: Thrown)
  {
    !t.NonError?
  }

  /** The result of one awaited backend call: the data it resolved to, or
      the value it rejected with. */
  datatype Outcome<+T> = Success(data: T) | Failure(thrown: Thrown)
}
