/** The admin order list: one page of ten orders at a time, optionally
    narrowed to one status, with a selector on each row that changes the
    order's status. */
module OrderManagement {
  import opened Common
  import opened Toasts
  import opened Orders

  const PagePrefix := "/orders?page="
  const LimitPart := "&limit=10"
  const StatusKey := "&status="
  const FetchFailedMessage := "Failed to fetch orders"
  const UpdateFailedMessage := "Failed to update order status"
  const UpdatedPrefix := "Order status updated to "
  const NoNumber := "ORD"
  const Guest := "Guest"

  /** The statuses the filter and each row's selector offer. */
  const StatusChoices: seq<string> := ["pending", "confirmed", "processing", "shipped", "delivered", "cancelled"]

  const GreyClass := "bg-gray-100 text-gray-800 border-gray-200"

  /** The badge classes of the known statuses. */
  const StatusColors: map<string, string> := map[
    "pending" := "bg-yellow-100 text-yellow-800 border-yellow-200",
    "confirmed" := "bg-blue-100 text-blue-800 border-blue-200",
    "processing" := "bg-indigo-100 text-indigo-800 border-indigo-200",
    "shipped" := "bg-purple-100 text-purple-800 border-purple-200",
    "delivered" := "bg-green-100 text-green-800 border-green-200",
    "cancelled" := "bg-red-100 text-red-800 border-red-200"
  ]

  /** `getStatusColor`: the status's own classes, grey for anything else. */
  function StatusColor(status: string): string
  {
    if status in StatusColors then StatusColors[status] else GreyClass
  }

  /** The badge classes of the statuses on offer, in the same order. */
  const ChoiceColors: seq<string> := [
    "bg-yellow-100 text-yellow-800 border-yellow-200",
    "bg-blue-100 text-blue-800 border-blue-200",
    "bg-indigo-100 text-indigo-800 border-indigo-200",
    "bg-purple-100 text-purple-800 border-purple-200",
    "bg-green-100 text-green-800 border-green-200",
    "bg-red-100 text-red-800 border-red-200"]

  /** Each status on offer gets its own classes from the table. */
  lemma StatusColorsOfChoices()
    ensures forall i :: 0 <= i < |StatusChoices| ==> StatusColor(StatusChoices[i]) == ChoiceColors[i]
  {
    forall i | 0 <= i < |StatusChoices|
      ensures StatusColor(StatusChoices[i]) == ChoiceColors[i]
    {
      assert StatusChoices[i] in StatusColors;
    }
  }

  /** The classes on offer are all different, and none is the grey one:
      their colour words differ. */
  lemma ChoiceColorsDistinct()
    ensures forall i, j :: 0 <= i < j < |ChoiceColors| ==> ChoiceColors[i] != ChoiceColors[j]
    ensures forall i :: 0 <= i < |ChoiceColors| ==> ChoiceColors[i] != GreyClass
  {
    var keys := [ChoiceColors[0][3], ChoiceColors[1][3], ChoiceColors[2][3],
                 ChoiceColors[3][3], ChoiceColors[4][3], ChoiceColors[5][3]];
    assert keys == ['y', 'b', 'i', 'p', 'g', 'r'];
    assert ChoiceColors[4][5] != GreyClass[5];
  }

  /** Every status on offer has a badge of its own, different from the
      others and from the grey one; every other value is grey; and the
      progress statuses of the order pages are all on offer. */
  lemma StatusColorsDistinct()
    ensures forall i, j :: 0 <= i < j < |StatusChoices| ==>
      StatusColor(StatusChoices[i]) != StatusColor(StatusChoices[j])
    ensures forall i :: 0 <= i < |StatusChoices| ==> StatusColor(StatusChoices[i]) != GreyClass
    ensures forall s :: s !in StatusChoices ==> StatusColor(s) == GreyClass
    ensures forall s :: s in StatusSequence ==> s in StatusChoices
  {
    StatusColorsOfChoices();
    ChoiceColorsDistinct();
    forall s | s !in StatusChoices
      ensures StatusColor(s) == GreyClass
    {
      assert s !in StatusColors;
    }
  }

  // ------------------------------------------------------------ request

  /** The status part of the query: present only for a non-empty filter. */
  function StatusPart(statusFilter: string): string
  {
    if statusFilter != "" then StatusKey + statusFilter else ""
  }

  /** The list request for a page and a status filter. */
  function RequestPath(page: int, statusFilter: string): string
  {
    PagePrefix + IntText(page) + LimitPart + StatusPart(statusFilter)
  }

  /** The text before the first `c` (all of `s` when it has none). */
  function BeforeFirst(s: string, c: char): (r: string)
    ensures r <= s && c !in r
    ensures |r| < |s| ==> s[|r|] == c
  {
    if s == [] || s[0] == c then [] else [s[0]] + BeforeFirst(s[1..], c)
  }

  /** Text free of `c` followed by text starting with `c` splits at the join. */
  lemma {:induction false} BeforeFirstJoin(a: string, b: string, c: char)
    requires c !in a && |b| > 0 && b[0] == c
    ensures BeforeFirst(a + b, c) == a
  {
    if a == [] {
      assert a + b == b;
    } else {
      assert a[0] in a;
      assert (a + b)[0] == a[0];
      assert (a + b)[1..] == a[1..] + b;
      assert forall x :: x in a[1..] ==> x in a;
      BeforeFirstJoin(a[1..], b, c);
      assert [a[0]] + a[1..] == a;
    }
  }

  lemma NoAmpersandInNumber(i: int)
    ensures '&' !in IntText(i)
  {
    var t := IntText(i);
    if i < 0 {
      assert t == "-" + Decimal(-i);
      assert forall k :: 0 <= k < |t| ==> t[k] == '-' || IsDigit(t[k]);
    } else {
      assert forall k :: 0 <= k < |t| ==> IsDigit(t[k]);
    }
  }

  /** The query after the page key is the page number, the limit and the
      status part. */
  lemma RequestPathTail(page: int, statusFilter: string)
    ensures var path := RequestPath(page, statusFilter);
      |PagePrefix| <= |path| && path[..|PagePrefix|] == PagePrefix
      && path[|PagePrefix|..] == IntText(page) + (LimitPart + StatusPart(statusFilter))
  {
    var n := IntText(page);
    var tail := LimitPart + StatusPart(statusFilter);
    assert RequestPath(page, statusFilter) == PagePrefix + (n + tail);
  }

  /** Splitting a query at its first '&': a number free of '&' comes back
      whole, and what follows it is the limit and the status part. */
  lemma QueryReadsBack(n: string, statusFilter: string)
    requires '&' !in n
    ensures var rest := n + (LimitPart + StatusPart(statusFilter));
      var number := BeforeFirst(rest, '&');
      && number == n
      && rest[|number|..|number| + |LimitPart|] == LimitPart
      && (statusFilter == "" <==> |rest| == |number| + |LimitPart|)
      && (statusFilter != "" ==> rest[|number| + |LimitPart|..] == StatusKey + statusFilter)
  {
    var tail := LimitPart + StatusPart(statusFilter);
    var rest := n + tail;
    BeforeFirstJoin(n, tail, '&');
    assert rest[|n|..] == tail;
    assert tail[..|LimitPart|] == LimitPart;
    assert tail[|LimitPart|..] == StatusPart(statusFilter);
  }

  /** Reading the request back: after the page key comes the page number up
      to the first '&', which `Number` reads as the page; then the limit of
      ten; then the status filter, exactly when one is set. */
  lemma RequestPathReadsBack(page: int, statusFilter: string)
    ensures var path := RequestPath(page, statusFilter);
      var rest := path[|PagePrefix|..];
      var number := BeforeFirst(rest, '&');
      && path[..|PagePrefix|] == PagePrefix
      && NumberValue(number) == Some(page)
      && |number| + |LimitPart| <= |rest|
      && rest[|number|..|number| + |LimitPart|] == LimitPart
      && (statusFilter == "" <==> |rest| == |number| + |LimitPart|)
      && (statusFilter != "" ==> rest[|number| + |LimitPart|..] == StatusKey + statusFilter)
  {
    RequestPathTail(page, statusFilter);
    NoAmpersandInNumber(page);
    QueryReadsBack(IntText(page), statusFilter);
    NumberValueOfIntText(page);
  }

  /** Different pages or filters never share a request. */
  lemma RequestPathInjective(p1: int, f1: string, p2: int, f2: string)
    requires RequestPath(p1, f1) == RequestPath(p2, f2)
    ensures p1 == p2 && f1 == f2
  {
    RequestPathReadsBack(p1, f1);
    RequestPathReadsBack(p2, f2);
    var rest := RequestPath(p1, f1)[|PagePrefix|..];
    var number := BeforeFirst(rest, '&');
    if f1 != "" && f2 != "" {
      var s := rest[|number| + |LimitPart|..];
      assert f1 == s[|StatusKey|..] == f2;
    }
  }

  // ------------------------------------------------------------- paging

  function PrevPage(page: int): int
  {
    Max(1, page - 1)
  }

  /** The next page as the button computes it. */
  function NextPageAsWritten(page: int, totalPages: int): int
  {
    Min(totalPages, page + 1)
  }

  /** The next page kept at one or above, as the page numbering intends. */
  function NextPage(page: int, totalPages: int): int
  {
    Max(1, Min(totalPages, page + 1))
  }

  predicate PrevDisabled(page: int)
  {
    page == 1
  }

  predicate NextDisabled(page: int, totalPages: int)
  {
    page == totalPages
  }

  /** Within a non-empty listing the two buttons step by one and never
      leave the pages there are. */
  lemma PagingStaysInRange(page: int, totalPages: int)
    requires 1 <= page <= totalPages
    ensures 1 <= PrevPage(page) <= totalPages && 1 <= NextPageAsWritten(page, totalPages) <= totalPages
    ensures !PrevDisabled(page) ==> PrevPage(page) == page - 1
    ensures !NextDisabled(page, totalPages) ==> NextPageAsWritten(page, totalPages) == page + 1
  {
  }

  /** With no orders the backend reports zero pages: the next button is
      still enabled on page 1, and pressing it asks for page 0. */
  lemma EmptyListingNextGoesToPageZero()
    ensures !NextDisabled(1, 0) && NextPageAsWritten(1, 0) == 0
    ensures RequestPath(NextPageAsWritten(1, 0), "") == "/orders?page=0&limit=10"
  {
    assert IntText(0) == "0";
  }

  /** The clamped next page never goes below one, and it is the button's
      own result whenever there is at least one page. */
  lemma NextPageAtLeastOne(page: int, totalPages: int)
    requires page >= 1
    ensures NextPage(page, totalPages) >= 1
    ensures totalPages >= 1 ==> NextPage(page, totalPages) == NextPageAsWritten(page, totalPages)
    ensures totalPages < 1 ==> NextPage(page, totalPages) == 1
  {
  }

  // --------------------------------------------------------------- rows

  /** The short badge of a row: the last four characters of the order
      number, or "ORD" when there is none. */
  function ShortNumber(order: PlacedOrder): (badge: string)
    ensures order.orderNumber == "" ==> badge == NoNumber
    ensures order.orderNumber != "" ==>
      |badge| == Min(4, |order.orderNumber|) && badge == order.orderNumber[|order.orderNumber| - |badge|..]
  {
    var tail := Last(order.orderNumber, 4);
    assert order.orderNumber != "" ==> tail != "";
    OrElse(tail, NoNumber)
  }

  /** The customer column: the shipping name, or "Guest". */
  function CustomerName(order: PlacedOrder): (name: string)
    ensures name != ""
    ensures order.shippingFullName != "" ==> name == order.shippingFullName
  {
    OrElse(order.shippingFullName, Guest)
  }

  // --------------------------------------------------------------- page

  datatype OrdersPayload = OrdersPayload(orders: seq<PlacedOrder>, pages: int)

  datatype AdminCall = FetchOrdersCall(path: string) | UpdateStatusCall(orderId: string, status: string)

  class OrderManagementPage {
    var orders: seq<PlacedOrder>
    var loading: bool
    var page: int
    var totalPages: int
    var statusFilter: string
    var calls: seq<AdminCall>
    var notices: seq<Notice>

    /** The page opens on page one of all statuses, with its first fetch
        under way. */
    constructor ()
      ensures orders == [] && loading && page == 1 && totalPages == 1 && statusFilter == ""
      ensures calls == [FetchOrdersCall(RequestPath(1, ""))] && notices == []
      ensures Valid()
    {
      orders := [];
      loading := true;
      page := 1;
      totalPages := 1;
      statusFilter := "";
      calls := [FetchOrdersCall(RequestPath(1, ""))];
      notices := [];
    }

    /** The page number never drops below one. */
    predicate Valid()
      reads this
    {
      page >= 1
    }

    /** The full-page loader shows only while nothing has been listed yet. */
    predicate ShowsLoader()
      reads this
    {
      loading && orders == []
    }

    /** Starts `fetchOrders` for the current page and filter. */
    method BeginFetch()
      modifies this
      ensures loading && calls == old(calls) + [FetchOrdersCall(RequestPath(page, statusFilter))]
      ensures orders == old(orders) && page == old(page) && totalPages == old(totalPages)
      ensures statusFilter == old(statusFilter) && notices == old(notices)
    {
      loading := true;
      calls := calls + [FetchOrdersCall(RequestPath(page, statusFilter))];
    }

    /** The answer to a fetch: a success replaces the orders and the page
        count, a failure keeps both and reports it; either way loading ends. */
    method FinishFetch(reply: Reply<OrdersPayload>)
      modifies this
      ensures !loading
      ensures reply.Ok? ==>
        orders == reply.payload.orders && totalPages == reply.payload.pages && notices == old(notices)
      ensures reply.Err? ==>
        orders == old(orders) && totalPages == old(totalPages)
        && notices == old(notices) + [Notice(Error, FetchFailedMessage)]
      ensures page == old(page) && statusFilter == old(statusFilter) && calls == old(calls)
    {
      if reply.Ok? {
        orders := reply.payload.orders;
        totalPages := reply.payload.pages;
      } else {
        notices := notices + [Notice(Error, FetchFailedMessage)];
      }
      loading := false;
    }

    /** Choosing a status in the filter refetches with it; the page number
        is kept. */
    method ChangeFilter(value: string)
      modifies this
      ensures statusFilter == value && page == old(page)
      ensures value != old(statusFilter) ==>
        loading && calls == old(calls) + [FetchOrdersCall(RequestPath(page, value))]
      ensures value == old(statusFilter) ==> loading == old(loading) && calls == old(calls)
      ensures orders == old(orders) && totalPages == old(totalPages) && notices == old(notices)
    {
      if value != statusFilter {
        statusFilter := value;
        BeginFetch();
      }
    }

    /** Moves to `target`; the list is refetched only when the page number
        actually changes. */
    method GoTo(target: int)
      modifies this
      ensures page == target
      ensures target != old(page) ==>
        loading && calls == old(calls) + [FetchOrdersCall(RequestPath(target, statusFilter))]
      ensures target == old(page) ==> loading == old(loading) && calls == old(calls)
      ensures orders == old(orders) && totalPages == old(totalPages)
      ensures statusFilter == old(statusFilter) && notices == old(notices)
    {
      if target != page {
        page := target;
        BeginFetch();
      }
    }

    /** The previous-page button, inert on page one. It goes one page back
        from a later page, and to page one from the page zero the next
        button as written can reach. */
    method PrevClicked()
      modifies this
      ensures old(Valid()) ==> Valid()
      ensures PrevDisabled(old(page)) ==> page == old(page) && calls == old(calls)
      ensures old(page) > 1 ==> page == old(page) - 1
      ensures old(page) < 1 ==> page == 1
      ensures page != old(page) ==>
        loading && calls == old(calls) + [FetchOrdersCall(RequestPath(page, statusFilter))]
      ensures page == old(page) ==> loading == old(loading) && calls == old(calls)
      ensures orders == old(orders) && totalPages == old(totalPages)
      ensures statusFilter == old(statusFilter) && notices == old(notices)
    {
      if !PrevDisabled(page) {
        GoTo(PrevPage(page));
      }
    }

    /** The next-page button as written: with zero pages reported it
        leaves page one for page zero. */
    method NextClickedAsWritten()
      modifies this
      ensures NextDisabled(old(page), old(totalPages)) ==> page == old(page) && calls == old(calls)
      ensures !NextDisabled(old(page), old(totalPages)) ==> page == NextPageAsWritten(old(page), totalPages)
      ensures page != old(page) ==>
        loading && calls == old(calls) + [FetchOrdersCall(RequestPath(page, statusFilter))]
      ensures page == old(page) ==> loading == old(loading) && calls == old(calls)
      ensures orders == old(orders) && totalPages == old(totalPages)
      ensures statusFilter == old(statusFilter) && notices == old(notices)
    {
      if !NextDisabled(page, totalPages) {
        GoTo(NextPageAsWritten(page, totalPages));
      }
    }

    /** The next-page button with the page kept at one or above; it steps
        forward by one whenever a later page exists. */
    method NextClicked()
      requires Valid()
      modifies this
      ensures Valid()
      ensures NextDisabled(old(page), old(totalPages)) ==> page == old(page) && calls == old(calls)
      ensures !NextDisabled(old(page), old(totalPages)) ==> page == NextPage(old(page), totalPages)
      ensures old(page) < totalPages ==> page == old(page) + 1
      ensures page != old(page) ==>
        loading && calls == old(calls) + [FetchOrdersCall(RequestPath(page, statusFilter))]
      ensures page == old(page) ==> loading == old(loading) && calls == old(calls)
      ensures orders == old(orders) && totalPages == old(totalPages)
      ensures statusFilter == old(statusFilter) && notices == old(notices)
    {
      if !NextDisabled(page, totalPages) {
        GoTo(NextPage(page, totalPages));
      }
    }

    /** `handleStatusUpdate`: a success reports the new status and refetches
        the list; a failure only reports it. */
    method UpdateStatus(orderId: string, newStatus: string, reply: Reply<()>)
      modifies this
      ensures reply.Ok? ==>
        notices == old(notices) + [Notice(Success, UpdatedPrefix + newStatus)] && loading
        && calls == old(calls) + [UpdateStatusCall(orderId, newStatus), FetchOrdersCall(RequestPath(page, statusFilter))]
      ensures reply.Err? ==>
        notices == old(notices) + [Notice(Error, UpdateFailedMessage)] && loading == old(loading)
        && calls == old(calls) + [UpdateStatusCall(orderId, newStatus)]
      ensures orders == old(orders) && page == old(page) && totalPages == old(totalPages)
      ensures statusFilter == old(statusFilter)
    {
      calls := calls + [UpdateStatusCall(orderId, newStatus)];
      if reply.Ok? {
        notices := notices + [Notice(Success, UpdatedPrefix + newStatus)];
        BeginFetch();
      } else {
        notices := notices + [Notice(Error, UpdateFailedMessage)];
      }
    }
  }

  /** On a listing that came back empty, the button as written leaves the
      page numbering, while the clamped one stays on page one. */
  lemma NextOnEmptyListing()
    ensures NextPageAsWritten(1, 0) < 1
    ensures NextPage(1, 0) == 1
  {
  }
}
