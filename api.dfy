/**
 * Values shared by the pages of the bank-transfer front-end: the transaction
 * record the server returns, its three-colour status, and the outcome of one
 * HTTP exchange, which every page receives as an input instead of performing I/O.
 */
module Api {
  import Decimal

  datatype Option<+T> = None | Some(value: T)

  /** The status annotation of a transaction; the UI shows it as a colour. */
  datatype Status = Red | Yellow | Green

  /** A transaction as the server sends it. Amounts and dates are display-only here. */
  datatype Transaction = Transaction(
    id: nat,
    date: string,
    fromAccount: string,
    toAccount: string,
    amount: real,
    status: Status)

  /**
   * What one `fetch` call came to: an OK status with its decoded body, a
   * non-OK status with the `detail` field of its error body (None when the body
   * had none or was not JSON), or a rejection with its error message.
   */
  datatype Response<+T> = Ok(body: T) | NotOk(detail: Option<string>) | Throws(message: string)

  /** The wire name of a status, as used in request bodies and the select options. */
  function StatusName(s: Status): string {
    match s
    case Red => "red"
    case Yellow => "yellow"
    case Green => "green"
  }

  /** Reads a wire status name back; anything else is not a status. */
  function ParseStatus(name: string): (r: Option<Status>)
    ensures r.Some? ==> StatusName(r.value) == name
  {
    if name == "red" then Some(Red)
    else if name == "yellow" then Some(Yellow)
    else if name == "green" then Some(Green)
    else None
  }

  lemma StatusNameRoundTrip(s: Status)
    ensures ParseStatus(StatusName(s)) == Some(s)
  {
  }

  /** The resource path of one transaction: `/transactions/<id>`. */
  function TransactionPath(id: nat): (p: string)
    ensures |p| > |"/transactions/"| && p[..|"/transactions/"|] == "/transactions/"
    ensures Decimal.AllDigits(p[|"/transactions/"|..]) && Decimal.Value(p[|"/transactions/"|..]) == id
  {
    var digits := Decimal.ToString(id);
    Decimal.ValueOfToString(id);
    assert ("/transactions/" + digits)[|"/transactions/"|..] == digits;
    "/transactions/" + digits
  }

  /** The body of a login or registration request; the confirmation field is never sent. */
  datatype Credentials = Credentials(username: string, password: string)

  /** A client-side navigation: the target path, and whether it replaces the history entry. */
  datatype Navigation = Navigation(to: string, replace: bool)

  /**
   * The error a failed login or registration shows: the server's `detail` when
   * it is present and non-empty, otherwise the page's own fallback text.
   */
  function FailureMessage(detail: Option<string>, fallback: string): (m: string)
    ensures detail.Some? && detail.value != "" ==> m == detail.value
    ensures detail.None? || detail.value == "" ==> m == fallback
    ensures fallback != "" ==> m != ""
  {
    if detail.Some? && detail.value != "" then detail.value else fallback
  }
}
