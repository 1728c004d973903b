/** Values shared by every page: optional values, the settled outcome of a backend
    call, JavaScript numbers as the forms produce them, and the browser's key/value
    storage with the session token read from it. */
module Common {

  datatype Option<+T> = None | Some(value: T)

  /** How one backend call settled: the response body, or a rejection (a network
      error or an HTTP error status; the pages treat both alike). */
  datatype Outcome<+T> = Success(data: T) | Failure

  /** A JavaScript number as a form stores it: a real value, or NaN when parseFloat
      found no number. Rounding and binary floating point are not modelled. */
  datatype Num = Real(value: real) | NaN

  /** The number parseFloat returns for a string, given the parse result as an input
      (None when parseFloat yields NaN). */
  function FromParse(parsed: Option<real>): Num
  {
    match parsed
    case Some(x) => Real(x)
    case None => NaN
  }

  /** Promise.all over three calls: it resolves with the three bodies only when every
      call succeeds, and rejects as soon as any one of them fails. */
  function All3<A, B, C>(a: Outcome<A>, b: Outcome<B>, c: Outcome<C>): Outcome<(A, B, C)>
  {
    if a.Success? && b.Success? && c.Success? then Success((a.data, b.data, c.data)) else Failure
  }

  /** The browser's localStorage, as a map from key to stored string. */
  type Storage = map<string, string>

  const TokenKey: string := "token"
  const UserKey: string := "user"

  /** localStorage.getItem(key) tested for JavaScript truthiness: a missing key
      (null) and the empty string are both falsy. */
  function TruthyItem(s: Storage, key: string): Option<string>
  {
    if key in s && s[key] != "" then Some(s[key]) else None
  }

  /** The session token, when one is stored and non-empty. */
  function Token(s: Storage): Option<string>
  {
    TruthyItem(s, TokenKey)
  }
}
