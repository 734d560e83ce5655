/**
 * The detail page of one transaction: which transaction it loads (read from
 * the `transaction_id` search parameter), the status selector, and the status
 * update that replaces the shown transaction with the server's copy.
 */
module TransactionDetails {
  import opened Api
  import Decimal
  import HomePage

  /** The choices of the status selector, in the order it lists them. */
  const StatusOptions: seq<Status> := [Red, Yellow, Green]

  lemma StatusOptionsComplete()
    ensures forall s: Status :: s in StatusOptions
    ensures forall i, j :: 0 <= i < j < |StatusOptions| ==> StatusOptions[i] != StatusOptions[j]
  {
    forall s: Status
      ensures s in StatusOptions
    {
      match s
      case Red => assert StatusOptions[0] == s;
      case Yellow => assert StatusOptions[1] == s;
      case Green => assert StatusOptions[2] == s;
    }
  }

  // ---------------------------------------------------------------------------
  // Reading the search string

  /** `s` cut at its first `c`: the text before it, and the text after it if `c` occurs. */
  function SplitFirst(s: string, c: char): (r: (string, Option<string>))
    ensures c !in r.0
    ensures r.1.None? ==> r.0 == s
    ensures r.1.Some? ==> s == r.0 + [c] + r.1.value
  {
    if s == [] then ([], None)
    else if s[0] == c then ([], Some(s[1..]))
    else
      var (before, after) := SplitFirst(s[1..], c);
      assert after.Some? ==> s == [s[0]] + before + [c] + after.value;
      ([s[0]] + before, after)
  }

  lemma SplitFirstAbsent(s: string, c: char)
    requires c !in s
    ensures SplitFirst(s, c) == (s, None)
  {
  }

  /** Cutting at the first `c` finds the first `c`. */
  lemma {:induction false} SplitFirstAt(before: string, c: char, after: string)
    requires c !in before
    ensures SplitFirst(before + [c] + after, c) == (before, Some(after))
  {
    var s := before + [c] + after;
    if before != [] {
      assert s[1..] == before[1..] + [c] + after;
      SplitFirstAt(before[1..], c, after);
      assert [before[0]] + before[1..] == before;
    } else {
      assert s[1..] == after;
    }
  }

  /** The value of the first `name=value` pair of an `&`-separated list (a pair without `=` has value ""). */
  function FirstValue(pairs: string, name: string): Option<string>
    decreases |pairs|
  {
    var (pair, rest) := SplitFirst(pairs, '&');
    var (key, value) := SplitFirst(pair, '=');
    if key == name then Some(if value.Some? then value.value else "")
    else if rest.None? then None
    else FirstValue(rest.value, name)
  }

  /** `new URLSearchParams(search).get(name)`, with percent-decoding left out. */
  function SearchParam(search: string, name: string): Option<string> {
    FirstValue(if search != [] && search[0] == '?' then search[1..] else search, name)
  }

  /** A location string cut into its pathname and its search part (which keeps its `?`). */
  function SplitLocation(location: string): (string, string) {
    var (path, query) := SplitFirst(location, '?');
    (path, if query.Some? then "?" + query.value else "")
  }

  /** The path the page loads: `/transactions/<transaction_id>`, with a missing id rendered as "null". */
  function LoadPathFor(transactionId: Option<string>): string {
    "/transactions/" + if transactionId.Some? then transactionId.value else "null"
  }

  /** The search part of a list item's link hands its digits to the detail page unchanged. */
  lemma SearchCarriesDigits(digits: string)
    requires Decimal.AllDigits(digits)
    ensures SearchParam("?transaction_id=" + digits, "transaction_id") == Some(digits)
  {
    var name := "transaction_id";
    var pair := name + "=" + digits;
    assert ("?transaction_id=" + digits)[1..] == pair;
    assert '&' !in name && '=' !in name;
    forall i | 0 <= i < |pair|
      ensures pair[i] != '&'
    {
      if i > |name| { assert pair[i] == digits[i - |name| - 1]; }
    }
    SplitFirstAbsent(pair, '&');
    SplitFirstAt(name, '=', digits);
    assert FirstValue(pair, name) == Some(digits);
  }

  lemma SplitLocationAt(path: string, query: string)
    requires '?' !in path
    ensures SplitLocation(path + ['?'] + query) == (path, "?" + query)
  {
    SplitFirstAt(path, '?', query);
  }

  lemma LocationOfLink(id: nat)
    ensures SplitLocation(HomePage.DetailsLink(id)) == ("/details", "?transaction_id=" + Decimal.ToString(id))
  {
    var digits := Decimal.ToString(id);
    var link, path, query := HomePage.DetailsLink(id), "/details", "transaction_id=" + digits;
    assert link == path + ['?'] + query;
    assert '?' !in path;
    SplitLocationAt(path, query);
    assert SplitLocation(link) == (path, "?" + query);
    calc {
      "?" + query;
      "?" + ("transaction_id=" + digits);
      ("?" + "transaction_id=") + digits;
      "?transaction_id=" + digits;
    }
  }

  /**
   * Following a list item's link opens the detail page on `/details`, and that
   * page loads exactly the transaction the item showed.
   */
  lemma DetailsLinkLoadsItsTransaction(id: nat)
    ensures SplitLocation(HomePage.DetailsLink(id)).0 == "/details"
    ensures LoadPathFor(SearchParam(SplitLocation(HomePage.DetailsLink(id)).1, "transaction_id"))
         == TransactionPath(id)
  {
    var digits := Decimal.ToString(id);
    LocationOfLink(id);
    SearchCarriesDigits(digits);
  }

  // ---------------------------------------------------------------------------
  // The page state

  /** The body of the status update: PUT to `path` with `{status}`. */
  datatype StatusUpdate = StatusUpdate(path: string, status: Status)

  /** The alerts the status update raises. */
  datatype Notice = StatusUpdated | StatusUpdateFailed

  datatype DetailsView = LoadingText | Details(transaction: Transaction, selected: Status, options: seq<Status>)

  /** The page shows only the loading text until a transaction has been loaded. */
  function View(transaction: Option<Transaction>, selected: Status): (v: DetailsView)
    ensures v == LoadingText <==> transaction.None?
    ensures v.Details? ==> v.transaction == transaction.value && v.selected == selected && v.options == StatusOptions
  {
    if transaction.None? then LoadingText else Details(transaction.value, selected, StatusOptions)
  }

  class DetailsPage {
    const transactionId: Option<string>
    var transaction: Option<Transaction>
    var selectedStatus: Status

    /** The page as mounted on a location whose search part is `search`: nothing loaded, status red. */
    constructor (search: string)
      ensures transactionId == SearchParam(search, "transaction_id")
      ensures transaction == None && selectedStatus == Red
      ensures Shown() == LoadingText
    {
      transactionId := SearchParam(search, "transaction_id");
      transaction, selectedStatus := None, Red;
    }

    /**
     * The mount effect up to its `await`: one GET of the transaction named by
     * the search string. A page opened from a list item's link asks for exactly
     * that item's transaction. Nothing changes.
     */
    method LoadStart() returns (path: string)
      ensures path == LoadPathFor(transactionId)
      ensures forall id: nat :: transactionId == Some(Decimal.ToString(id)) ==> path == TransactionPath(id)
    {
      path := LoadPathFor(transactionId);
    }

    function Shown(): DetailsView
      reads this
    {
      View(transaction, selectedStatus)
    }

    /**
     * The load settled: an OK response shows the transaction and selects its
     * status; a non-OK or rejected one leaves the page as it was, and nothing
     * loads it again.
     */
    method Loaded(response: Response<Transaction>)
      modifies this
      ensures response.Ok? ==> transaction == Some(response.body) && selectedStatus == response.body.status
      ensures response.Ok? ==> Shown() == Details(response.body, response.body.status, StatusOptions)
      ensures !response.Ok? ==> transaction == old(transaction) && selectedStatus == old(selectedStatus)
    {
      if response.Ok? {
        transaction := Some(response.body);
        selectedStatus := response.body.status;
      }
    }

    /**
     * The status selector, rendered only once a transaction is loaded: its
     * value is the wire name of one of the options, and only the pending
     * status changes, to the status of that name.
     */
    method SelectStatus(value: string)
      requires transaction.Some?
      requires exists i :: 0 <= i < |StatusOptions| && StatusName(StatusOptions[i]) == value
      modifies this
      ensures StatusName(selectedStatus) == value && selectedStatus in StatusOptions
      ensures transaction == old(transaction)
    {
      var i :| 0 <= i < |StatusOptions| && StatusName(StatusOptions[i]) == value;
      StatusNameRoundTrip(StatusOptions[i]);
      selectedStatus := ParseStatus(value).value;
    }

    /**
     * The save button up to its `await`: with nothing loaded it does nothing;
     * otherwise it sends the pending status to the shown transaction's path.
     * Nothing changes.
     */
    method SaveStart() returns (request: Option<StatusUpdate>)
      ensures transaction.None? ==> request == None
      ensures transaction.Some? ==> request == Some(StatusUpdate(TransactionPath(transaction.value.id), selectedStatus))
    {
      if transaction.None? {
        return None;
      }
      request := Some(StatusUpdate(TransactionPath(transaction.value.id), selectedStatus));
    }

    /**
     * A save settled: an OK response replaces the shown transaction with the
     * server's copy and raises the success alert, a non-OK one keeps it and
     * raises the failure alert, and a rejected request changes nothing. The
     * pending status is never touched.
     */
    method SaveFinish(response: Response<Transaction>) returns (notice: Option<Notice>)
      modifies this
      ensures selectedStatus == old(selectedStatus)
      ensures transaction == if response.Ok? then Some(response.body) else old(transaction)
      ensures notice == match response
        case Ok(_) => Some(StatusUpdated)
        case NotOk(_) => Some(StatusUpdateFailed)
        case Throws(_) => None
    {
      match response {
        case Ok(updated) =>
          transaction := Some(updated);
          notice := Some(StatusUpdated);
        case NotOk(_) =>
          notice := Some(StatusUpdateFailed);
        case Throws(_) =>
          notice := None;
      }
    }
  }

  /**
   * Two saves in flight settle in the order their responses arrive: save
   * yellow, select green, save again, and let the first reply arrive last.
   * Both requests go out, the second one with green, yet the page ends showing
   * the first reply.
   */
  method OverlappingSaves(page: DetailsPage, first: Transaction, second: Transaction)
    returns (requests: seq<StatusUpdate>)
    requires page.transaction.Some?
    modifies page
    ensures |requests| == 2
    ensures requests[0].status == Yellow && requests[1].status == Green
    ensures page.transaction == Some(first) && page.selectedStatus == Green
  {
    assert StatusName(StatusOptions[1]) == "yellow" && StatusName(StatusOptions[2]) == "green";
    page.SelectStatus("yellow");
    var r1 := page.SaveStart();
    page.SelectStatus("green");
    var r2 := page.SaveStart();
    var n2 := page.SaveFinish(Ok(second));
    var n1 := page.SaveFinish(Ok(first));
    requests := [r1.value, r2.value];
  }
}
