/**
 * The transaction list on the home page: the query the list request carries,
 * the controller state that one list fetch updates, and the choice between the
 * loading text, the empty text and the list of links.
 */
module HomePage {
  import opened Api
  import Decimal
  import TransactionForm

  datatype SortKey = ByDate | ByAmount | ByContractor
  datatype SortOrder = Asc | Desc

  function SortKeyName(k: SortKey): string {
    match k
    case ByDate => "date"
    case ByAmount => "amount"
    case ByContractor => "contractor"
  }

  function OrderName(o: SortOrder): string {
    match o
    case Asc => "asc"
    case Desc => "desc"
  }

  /** One `key=value` pair of the list request's query string. */
  type Param = (string, string)

  /** The value of the first pair whose key is `key`, as `URLSearchParams.get` returns it. */
  function Lookup(ps: seq<Param>, key: string): (r: Option<string>)
    ensures r.Some? <==> exists i :: 0 <= i < |ps| && ps[i].0 == key
  {
    if ps == [] then None
    else if ps[0].0 == key then Some(ps[0].1)
    else
      var r := Lookup(ps[1..], key);
      assert forall i :: 1 <= i < |ps| ==> ps[i] == ps[1..][i - 1];
      r
  }

  /** The keys the list request may carry, in the order it carries them. */
  function KeyRank(key: string): nat {
    if key == "sort_by" then 0
    else if key == "order" then 1
    else if key == "contractor" then 2
    else 3
  }

  /**
   * The query of the list request: `sort_by` and `order` always, first and in
   * that order; then `contractor` exactly when the search text is non-empty and
   * `date` exactly when a date filter is set, each carrying that text unchanged.
   */
  function QueryParams(sortBy: SortKey, order: SortOrder, q: string, filterDate: string): (ps: seq<Param>)
    ensures 2 <= |ps| <= 4
    ensures ps[0] == ("sort_by", SortKeyName(sortBy)) && ps[1] == ("order", OrderName(order))
    ensures Lookup(ps, "contractor") == if q != "" then Some(q) else None
    ensures Lookup(ps, "date") == if filterDate != "" then Some(filterDate) else None
    ensures forall i, j :: 0 <= i < j < |ps| ==> KeyRank(ps[i].0) < KeyRank(ps[j].0)
    ensures |ps| == 2 + (if q != "" then 1 else 0) + (if filterDate != "" then 1 else 0)
    ensures forall i :: 2 <= i < |ps| ==> ps[i].0 == "contractor" || ps[i].0 == "date"
  {
    var base := [("sort_by", SortKeyName(sortBy)), ("order", OrderName(order))];
    var withContractor := if q != "" then base + [("contractor", q)] else base;
    var ps := if filterDate != "" then withContractor + [("date", filterDate)] else withContractor;
    var tail := ps[2..];
    assert ps[1..][1..] == tail;
    assert Lookup(ps, "contractor") == Lookup(tail, "contractor");
    assert Lookup(ps, "date") == Lookup(tail, "date");
    assert q != "" ==> Lookup(tail, "date") == Lookup(tail[1..], "date");
    ps
  }

  // ---------------------------------------------------------------------------
  // What the list area shows

  /** The target of a list item: `/details?transaction_id=<id>`. */
  function DetailsLink(id: nat): string {
    "/details?transaction_id=" + Decimal.ToString(id)
  }

  /** Distinct transactions link to distinct detail pages. */
  lemma DetailsLinkInjective(a: nat, b: nat)
    requires DetailsLink(a) == DetailsLink(b)
    ensures a == b
  {
    var n := |"/details?transaction_id="|;
    assert DetailsLink(a)[n..] == Decimal.ToString(a);
    assert DetailsLink(b)[n..] == Decimal.ToString(b);
    Decimal.ToStringInjective(a, b);
  }

  /** One list item: its link, its status dot and its contractor. */
  datatype Item = Item(link: string, status: Status, contractor: string)

  datatype ListView = LoadingText | NoTransactions | Items(items: seq<Item>)

  function ItemOf(tx: Transaction): Item {
    Item(DetailsLink(tx.id), tx.status, tx.toAccount)
  }

  /**
   * The list area: the loading text while a fetch runs; otherwise the empty
   * text for an empty list, else one item per transaction in the server's
   * order, each linking to that transaction's detail page.
   */
  function View(loading: bool, transactions: seq<Transaction>): (v: ListView)
    ensures v == LoadingText <==> loading
    ensures v == NoTransactions <==> !loading && transactions == []
    ensures v.Items? ==> |v.items| == |transactions|
    ensures v.Items? ==> forall i :: 0 <= i < |transactions| ==>
      && v.items[i].link == DetailsLink(transactions[i].id)
      && v.items[i].status == transactions[i].status
      && v.items[i].contractor == transactions[i].toAccount
  {
    if loading then LoadingText
    else if |transactions| == 0 then NoTransactions
    else Items(seq(|transactions|, i requires 0 <= i < |transactions| => ItemOf(transactions[i])))
  }

  /** Two items of a shown list link to the same page only if their transactions share an id. */
  lemma ViewLinksDistinct(transactions: seq<Transaction>, i: nat, j: nat)
    requires i < |transactions| && j < |transactions|
    requires transactions[i].id != transactions[j].id
    ensures View(false, transactions).Items?
    ensures View(false, transactions).items[i].link != View(false, transactions).items[j].link
  {
    var v := View(false, transactions);
    if v.items[i].link == v.items[j].link {
      DetailsLinkInjective(transactions[i].id, transactions[j].id);
    }
  }

  // ---------------------------------------------------------------------------
  // The list controller

  /**
   * The home page's list state. A list fetch is split at its `await`:
   * FetchStart runs up to the request, FetchFinish is its continuation.
   * The create form's success callback on this page is the list fetch of the
   * moment the form was submitted (CreateSubmit, CreateSettled).
   */
  class TransactionList {
    var transactions: seq<Transaction>
    var loading: bool
    var sortBy: SortKey
    var order: SortOrder
    var q: string
    var filterDate: string

    /** The initial state; mounting then runs FetchStart once. */
    constructor ()
      ensures transactions == [] && !loading
      ensures sortBy == ByDate && order == Asc && q == "" && filterDate == ""
      ensures Shown() == NoTransactions
    {
      transactions, loading := [], false;
      sortBy, order, q, filterDate := ByDate, Asc, "", "";
    }

    function Query(): seq<Param>
      reads this
    {
      QueryParams(sortBy, order, q, filterDate)
    }

    function Shown(): ListView
      reads this
    {
      View(loading, transactions)
    }

    /** Sets `loading` and issues the list request for the current filters. */
    method FetchStart() returns (query: seq<Param>)
      modifies this
      ensures loading && query == Query() && Shown() == LoadingText
      ensures transactions == old(transactions)
      ensures sortBy == old(sortBy) && order == old(order) && q == old(q) && filterDate == old(filterDate)
    {
      loading := true;
      query := Query();
    }

    /**
     * The list request settled: an OK response replaces the list with the
     * server's array as it is; a non-OK or rejected one keeps the list. Either
     * way `loading` ends false.
     */
    method FetchFinish(response: Response<seq<Transaction>>)
      modifies this
      ensures !loading
      ensures transactions == if response.Ok? then response.body else old(transactions)
      ensures Shown() == View(false, transactions)
      ensures sortBy == old(sortBy) && order == old(order) && q == old(q) && filterDate == old(filterDate)
    {
      if response.Ok? {
        transactions := response.body;
      }
      loading := false;
    }

    /** The sort select: a new key refetches with it; the same key changes nothing. */
    method ChangeSortBy(k: SortKey) returns (query: Option<seq<Param>>)
      modifies this
      ensures sortBy == k && order == old(order) && q == old(q) && filterDate == old(filterDate)
      ensures transactions == old(transactions)
      ensures query.Some? <==> k != old(sortBy)
      ensures query.Some? ==> loading && query.value == Query()
      ensures query.None? ==> loading == old(loading)
    {
      if k == sortBy {
        query := None;
      } else {
        sortBy := k;
        var params := FetchStart();
        query := Some(params);
      }
    }

    /** The order select: a new order refetches with it; the same order changes nothing. */
    method ChangeOrder(o: SortOrder) returns (query: Option<seq<Param>>)
      modifies this
      ensures order == o && sortBy == old(sortBy) && q == old(q) && filterDate == old(filterDate)
      ensures transactions == old(transactions)
      ensures query.Some? <==> o != old(order)
      ensures query.Some? ==> loading && query.value == Query()
      ensures query.None? ==> loading == old(loading)
    {
      if o == order {
        query := None;
      } else {
        order := o;
        var params := FetchStart();
        query := Some(params);
      }
    }

    /** The contractor search box: new text refetches with it; the same text changes nothing. */
    method ChangeSearch(text: string) returns (query: Option<seq<Param>>)
      modifies this
      ensures q == text && sortBy == old(sortBy) && order == old(order) && filterDate == old(filterDate)
      ensures transactions == old(transactions)
      ensures query.Some? <==> text != old(q)
      ensures query.Some? ==> loading && query.value == Query()
      ensures query.None? ==> loading == old(loading)
    {
      if text == q {
        query := None;
      } else {
        q := text;
        var params := FetchStart();
        query := Some(params);
      }
    }

    /** The date input: a new date refetches with it; the same date changes nothing. */
    method ChangeDate(date: string) returns (query: Option<seq<Param>>)
      modifies this
      ensures filterDate == date && sortBy == old(sortBy) && order == old(order) && q == old(q)
      ensures transactions == old(transactions)
      ensures query.Some? <==> date != old(filterDate)
      ensures query.Some? ==> loading && query.value == Query()
      ensures query.None? ==> loading == old(loading)
    {
      if date == filterDate {
        query := None;
      } else {
        filterDate := date;
        var params := FetchStart();
        query := Some(params);
      }
    }

    /**
     * The create form beside the list is submitted. The form runs its checks
     * as its own submit step says; the success callback it will call later is
     * the list fetch of this moment, so the query that fetch will send is the
     * query of the filters as they are now.
     */
    method CreateSubmit(form: TransactionForm.Form) returns (request: Option<TransactionForm.CreateRequest>, submitted: seq<Param>)
      requires form.Valid()
      modifies form
      ensures form.Valid()
      ensures submitted == Query()
      ensures form.fromAccount == old(form.fromAccount) && form.toAccount == old(form.toAccount)
      ensures form.amount == old(form.amount)
      ensures match TransactionForm.Validate(form.fromAccount, form.toAccount, form.amount)
        case Reject(message) => request == None && form.error == Some(message)
        case Accept(parsed) =>
          request == Some(TransactionForm.CreateRequest(form.fromAccount, form.toAccount, parsed)) && form.error == None
    {
      request := form.Submit();
      submitted := Query();
    }

    /**
     * The create form's POST settled. The form reacts as its own continuation
     * says, with a success callback supplied; the callback is the list fetch
     * captured at submit time, so a list fetch with the `submitted` query
     * starts iff the request was not rejected, whatever the filters are now.
     */
    method CreateSettled(form: TransactionForm.Form, outcome: Response<()>, submitted: seq<Param>)
      returns (query: Option<seq<Param>>)
      requires form.Valid()
      modifies this, form
      ensures form.Valid()
      ensures query.Some? <==> !outcome.Throws?
      ensures query.Some? ==> loading && query.value == submitted
      ensures query.None? ==> loading == old(loading)
      ensures transactions == old(transactions)
      ensures sortBy == old(sortBy) && order == old(order) && q == old(q) && filterDate == old(filterDate)
      ensures outcome.Throws? ==>
        && form.error == Some(TransactionForm.CreateFailed)
        && form.fromAccount == old(form.fromAccount) && form.toAccount == old(form.toAccount)
        && form.amount == old(form.amount)
      ensures !outcome.Throws? ==>
        form.fromAccount == "" && form.toAccount == "" && form.amount == "" && form.error == old(form.error)
    {
      var called := form.Complete(outcome, true);
      if called {
        loading := true;
        query := Some(submitted);
      } else {
        query := None;
      }
    }
  }

  /**
   * A sort change while a create is in flight: a valid transfer is submitted
   * while the list is sorted by date, the sort switches to amount, and then the
   * POST succeeds. The refetch the create triggers still asks for the date
   * order, while the controls show amount.
   */
  method SortChangeDuringCreate(list: TransactionList, form: TransactionForm.Form)
    returns (request: Option<TransactionForm.CreateRequest>, refetch: Option<seq<Param>>)
    requires form.Valid() && TransactionForm.Validate(form.fromAccount, form.toAccount, form.amount).Accept?
    requires list.sortBy == ByDate
    modifies list, form
    ensures request.Some?
    ensures list.sortBy == ByAmount
    ensures refetch == Some(QueryParams(ByDate, list.order, list.q, list.filterDate))
    ensures list.Query() == QueryParams(ByAmount, list.order, list.q, list.filterDate)
  {
    var submitted;
    request, submitted := list.CreateSubmit(form);
    var sortFetch := list.ChangeSortBy(ByAmount);
    refetch := list.CreateSettled(form, Ok(()), submitted);
  }
}
