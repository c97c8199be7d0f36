/** The admin orders page: the customer lookup table and the newest-first order list it loads,
    the search and status filter, the status options, and the status update. */
module AdminOrders {
  import opened Types
  import opened Text
  import opened Lists

  // ===========================================================================
  // Customer lookup

  /** What the page keeps of a user. */
  datatype UserSummary = UserSummary(name: Option<string>, email: string)

  function SummaryOf(u: User): UserSummary {
    UserSummary(u.name, u.email)
  }

  /** The map `loadOrders` builds: each user's id to that user's name and email, a later user
      with the same id replacing an earlier one. */
  function UserMapOf(users: seq<User>): map<string, UserSummary> {
    if users == [] then map[]
    else
      var last := users[|users| - 1];
      UserMapOf(users[..|users| - 1])[last.id := SummaryOf(last)]
  }

  /** `usersData.forEach(user => userMap.set(user.id, { name, email }))`. */
  method BuildUserMap(users: seq<User>) returns (m: map<string, UserSummary>)
    ensures m == UserMapOf(users)
  {
    m := map[];
    for k := 0 to |users|
      invariant m == UserMapOf(users[..k])
    {
      assert users[..k + 1][..k] == users[..k];
      m := m[users[k].id := SummaryOf(users[k])];
    }
    assert users[..|users|] == users;
  }

  /** An id is in the map exactly when some user has it. */
  lemma {:induction false} UserMapDomain(users: seq<User>, id: string)
    ensures id in UserMapOf(users) <==> exists j :: 0 <= j < |users| && users[j].id == id
  {
    if users != [] {
      var init := users[..|users| - 1];
      UserMapDomain(init, id);
      if id in UserMapOf(init) {
        var j :| 0 <= j < |init| && init[j].id == id;
        assert users[j].id == id;
      }
      if exists j :: 0 <= j < |users| && users[j].id == id {
        var j :| 0 <= j < |users| && users[j].id == id;
        if j < |init| {
          assert init[j].id == id;
        }
      }
    }
  }

  /** The id of a user maps to that user's summary when no later user has the same id. */
  lemma {:induction false} UserMapLastWins(users: seq<User>, j: nat)
    requires j < |users|
    requires forall k :: j < k < |users| ==> users[k].id != users[j].id
    ensures users[j].id in UserMapOf(users) && UserMapOf(users)[users[j].id] == SummaryOf(users[j])
  {
    if j < |users| - 1 {
      var init := users[..|users| - 1];
      assert init[j] == users[j];
      forall k | j < k < |init| ensures init[k].id != init[j].id {
        assert init[k] == users[k];
      }
      UserMapLastWins(init, j);
    }
  }

  // ===========================================================================
  // Newest-first order list

  /** `[...ordersData].sort((a, b) => b.createdAt - a.createdAt)`: the fetched orders, copied and
      sorted in place from the newest to the oldest. */
  method SortOrdersNewestFirst(fetched: seq<Order>) returns (sorted: seq<Order>)
    ensures NewestFirst(sorted, OrderCreatedAt)
    ensures multiset(sorted) == multiset(fetched)
  {
    var a := new Order[|fetched|](k requires 0 <= k < |fetched| => fetched[k]);
    assert a[..] == fetched;
    for i := 0 to a.Length
      invariant multiset(a[..]) == multiset(fetched)
      invariant NewestFirstUpTo(a[..], i)
    {
      InsertNewest(a, i);
    }
    sorted := a[..];
  }

  /** The first `n` orders run from the newest to the oldest. */
  predicate NewestFirstUpTo(s: seq<Order>, n: nat)
    requires n <= |s|
  {
    forall p, q :: 0 <= p < q < n ==> s[p].createdAt >= s[q].createdAt
  }

  /** The first `i + 1` orders are newest first, except that the order at `j` may be newer than
      those before it. */
  predicate NewestFirstExcept(s: seq<Order>, i: nat, j: nat)
    requires i < |s|
  {
    forall p, q :: 0 <= p < q <= i && q != j ==> s[p].createdAt >= s[q].createdAt
  }

  /** One pass of the insertion: the order at `i` moves left past every older order, so the
      first `i + 1` orders are newest first and the array holds the same orders. */
  method InsertNewest(a: array<Order>, i: nat)
    requires i < a.Length && NewestFirstUpTo(a[..], i)
    modifies a
    ensures NewestFirstUpTo(a[..], i + 1)
    ensures multiset(a[..]) == multiset(old(a[..]))
  {
    var j := i;
    while j > 0 && a[j - 1].createdAt < a[j].createdAt
      invariant 0 <= j <= i
      invariant multiset(a[..]) == multiset(old(a[..]))
      invariant NewestFirstExcept(a[..], i, j)
    {
      var before := a[..];
      SwapTowardsFront(before, i, j);
      a[j - 1], a[j] := a[j], a[j - 1];
      assert a[..] == before[j - 1 := before[j]][j := before[j - 1]];
      j := j - 1;
    }
    InsertionDone(a[..], i, j);
  }

  /** Moving a newer order one place towards the front keeps the rest in order and the orders
      the same. */
  lemma SwapTowardsFront(s: seq<Order>, i: nat, j: nat)
    requires 0 < j <= i < |s| && NewestFirstExcept(s, i, j)
    requires s[j - 1].createdAt < s[j].createdAt
    ensures var t := s[j - 1 := s[j]][j := s[j - 1]];
            NewestFirstExcept(t, i, j - 1) && multiset(t) == multiset(s)
  {
    SwapKeepsMultiset(s, j - 1, j);
  }

  /** The order at `j` is no newer than the one before it, so the first `i + 1` are in order. */
  lemma InsertionDone(s: seq<Order>, i: nat, j: nat)
    requires j <= i < |s| && NewestFirstExcept(s, i, j)
    requires j == 0 || s[j - 1].createdAt >= s[j].createdAt
    ensures NewestFirstUpTo(s, i + 1)
  {
  }

  /** Exchanging two neighbouring entries keeps the same entries. */
  lemma SwapKeepsMultiset(s: seq<Order>, i: nat, j: nat)
    requires i < j < |s| && j == i + 1
    ensures multiset(s[i := s[j]][j := s[i]]) == multiset(s)
  {
    var t := s[i := s[j]][j := s[i]];
    assert s == s[..i] + [s[i], s[j]] + s[j + 1..];
    assert t == s[..i] + [s[j], s[i]] + s[j + 1..];
  }

  // ===========================================================================
  // Search and status filter

  datatype StatusFilter = AllStatuses | OnlyStatus(status: OrderStatus)

  /** The search matches the order id, or the email or name of the order's customer when the
      customer is in the lookup table, ignoring case. */
  predicate OrderSearchMatches(o: Order, users: map<string, UserSummary>, search: string) {
    || MatchesSearch(o.id, search)
    || (o.userId in users && MatchesSearch(users[o.userId].email, search))
    || (o.userId in users && users[o.userId].name.Some? && MatchesSearch(users[o.userId].name.value, search))
  }

  predicate StatusMatches(o: Order, filter: StatusFilter) {
    filter.AllStatuses? || o.status == filter.status
  }

  predicate OrderMatches(o: Order, users: map<string, UserSummary>, search: string, filter: StatusFilter) {
    OrderSearchMatches(o, users, search) && StatusMatches(o, filter)
  }

  /** `filteredOrders`. */
  function FilteredOrders(orders: seq<Order>, users: map<string, UserSummary>, search: string,
                          filter: StatusFilter): seq<Order>
  {
    Filter(orders, (o: Order) => OrderMatches(o, users, search, filter))
  }

  /** The listed orders are exactly those matching both the search and the status filter, each
      as often as the list holds it, in list order; an empty search with every status lists them all. */
  lemma FilteredOrdersSpec(orders: seq<Order>, users: map<string, UserSummary>, search: string,
                           filter: StatusFilter)
    ensures var r := FilteredOrders(orders, users, search, filter);
            && (forall i :: 0 <= i < |r| ==> r[i] in orders && OrderSearchMatches(r[i], users, search)
                                             && StatusMatches(r[i], filter))
            && (forall i :: (0 <= i < |orders| && OrderSearchMatches(orders[i], users, search)
                             && StatusMatches(orders[i], filter)) ==> orders[i] in r)
            && IsSubsequence(r, orders)
    ensures forall x :: multiset(FilteredOrders(orders, users, search, filter))[x]
                        == if OrderMatches(x, users, search, filter) then multiset(orders)[x] else 0
    ensures search == [] && filter == AllStatuses ==> FilteredOrders(orders, users, search, filter) == orders
  {
    FilterIsSubsequence(orders, (o: Order) => OrderMatches(o, users, search, filter));
    if search == [] && filter == AllStatuses {
      forall i | 0 <= i < |orders|
        ensures OrderMatches(orders[i], users, search, filter)
      {
        EmptySearchMatches(orders[i].id);
      }
      FilterKeepsAll(orders, (o: Order) => OrderMatches(o, users, search, filter));
    }
  }

  /** An order whose customer is not in the lookup table matches the search by its id only. */
  lemma UnknownCustomerMatchesById(o: Order, users: map<string, UserSummary>, search: string)
    requires o.userId !in users
    ensures OrderSearchMatches(o, users, search) <==> MatchesSearch(o.id, search)
  {
  }

  // ===========================================================================
  // Status options

  datatype StatusOption = StatusOption(value: OrderStatus, caption: string)

  const StatusOptions: seq<StatusOption> := [
    StatusOption(Pending, "Pending"),
    StatusOption(Processing, "Processing"),
    StatusOption(Shipped, "Shipped"),
    StatusOption(Delivered, "Delivered"),
    StatusOption(Cancelled, "Cancelled")
  ]

  /** `statusOptions.find(s => s.value === status)`. */
  function FindStatusOption(status: OrderStatus): (r: Option<StatusOption>)
    ensures r.Some? ==> r.value in StatusOptions && r.value.value == status
  {
    FindOption(StatusOptions, status)
  }

  function FindOption(options: seq<StatusOption>, status: OrderStatus): (r: Option<StatusOption>)
    ensures r.Some? ==> r.value in options && r.value.value == status
    ensures r.None? ==> forall i :: 0 <= i < |options| ==> options[i].value != status
  {
    if options == [] then None
    else if options[0].value == status then Some(options[0])
    else FindOption(options[1..], status)
  }

  /** Every order status appears in the options exactly once, so every status is found and has
      its label. */
  lemma StatusOptionsComplete(status: OrderStatus)
    ensures exists i :: 0 <= i < |StatusOptions| && StatusOptions[i].value == status
    ensures forall i, j :: 0 <= i < j < |StatusOptions| ==> StatusOptions[i].value != StatusOptions[j].value
    ensures FindStatusOption(status).Some?
  {
    match status
    case Pending => assert StatusOptions[0].value == status;
    case Processing => assert StatusOptions[1].value == status;
    case Shipped => assert StatusOptions[2].value == status;
    case Delivered => assert StatusOptions[3].value == status;
    case Cancelled => assert StatusOptions[4].value == status;
  }

  /** The label shown for a status. */
  function StatusLabel(status: OrderStatus): string {
    StatusOptionsComplete(status);
    FindStatusOption(status).value.caption
  }

  /** An option the status menu of an order offers: every status except the order's current one,
      which is disabled. */
  predicate Selectable(o: Order, option: StatusOption) {
    o.status != option.value
  }

  /** Each order's menu offers exactly four other statuses. */
  lemma FourStatusesSelectable(o: Order)
    ensures |Filter(StatusOptions, (opt: StatusOption) => Selectable(o, opt))| == 4
  {
    StatusOptionsComplete(o.status);
    var k :| 0 <= k < |StatusOptions| && StatusOptions[k].value == o.status;
    AllButOneSelectable(StatusOptions, o, k);
  }

  /** When the order's status is the value of exactly one option, at `k`, the menu offers all
      the other options. */
  lemma {:induction false} AllButOneSelectable(options: seq<StatusOption>, o: Order, k: nat)
    requires k < |options| && options[k].value == o.status
    requires forall i :: 0 <= i < |options| && i != k ==> options[i].value != o.status
    ensures |Filter(options, (opt: StatusOption) => Selectable(o, opt))| == |options| - 1
  {
    if k == 0 {
      AllSelectable(options[1..], o);
    } else {
      AllButOneSelectable(options[1..], o, k - 1);
    }
  }

  lemma {:induction false} AllSelectable(options: seq<StatusOption>, o: Order)
    requires forall i :: 0 <= i < |options| ==> options[i].value != o.status
    ensures |Filter(options, (opt: StatusOption) => Selectable(o, opt))| == |options|
  {
    if options != [] {
      AllSelectable(options[1..], o);
    }
  }

  // ===========================================================================
  // Row contents

  /** `#` + `order.id.slice(-8).toUpperCase()`. */
  function ShortOrderId(id: string): string {
    ShortId(id, 8)
  }

  /** `user?.name || 'Guest'`. */
  function CustomerName(users: map<string, UserSummary>, userId: string): (r: string)
    ensures userId !in users ==> r == "Guest"
    ensures userId in users ==> r == OrElse(users[userId].name, "Guest")
  {
    if userId in users then OrElse(users[userId].name, "Guest") else "Guest"
  }

  /** `user?.email || 'No email'`. */
  function CustomerEmail(users: map<string, UserSummary>, userId: string): (r: string)
    ensures userId in users && users[userId].email != "" ==> r == users[userId].email
    ensures userId !in users || users[userId].email == "" ==> r == "No email"
  {
    if userId in users && users[userId].email != "" then users[userId].email else "No email"
  }

  /** `order.items?.length || 0`. */
  function ItemCount(o: Order): (n: nat)
    ensures o.items.None? ==> n == 0
    ensures o.items.Some? ==> n == |o.items.value|
  {
    if o.items.Some? then |o.items.value| else 0
  }

  // ===========================================================================
  // The page

  datatype Toast = SuccessToast(text: string) | ErrorToast(text: string)

  /** `api.orders.updateStatus(orderId, newStatus)`. */
  datatype StatusUpdate = StatusUpdate(orderId: string, status: OrderStatus)

  class OrdersPage {
    var orders: seq<Order>
    var users: map<string, UserSummary>
    var loading: bool
    var search: string
    var statusFilter: StatusFilter
    var openDropdown: Option<string>

    constructor ()
      ensures orders == [] && users == map[] && loading && search == ""
      ensures statusFilter == AllStatuses && openDropdown == None
    {
      orders := [];
      users := map[];
      loading := true;
      search := "";
      statusFilter := AllStatuses;
      openDropdown := None;
    }

    /** The rows the page shows. */
    function Listed(): seq<Order>
      reads this
    {
      FilteredOrders(orders, users, search, statusFilter)
    }

    /** `loadOrders` settles: after fetching both lists the lookup table is rebuilt and the list
        is the fetched orders newest first; a failed fetch keeps both; the spinner stops either
        way. */
    method OrdersLoaded(fetched: Option<(seq<Order>, seq<User>)>)
      modifies this`orders, this`users, this`loading
      ensures !loading
      ensures fetched.Some? ==> users == UserMapOf(fetched.value.1)
      ensures fetched.Some? ==> NewestFirst(orders, OrderCreatedAt) && multiset(orders) == multiset(fetched.value.0)
      ensures fetched.None? ==> orders == old(orders) && users == old(users)
    {
      if fetched.Some? {
        var userMap := BuildUserMap(fetched.value.1);
        users := userMap;
        var sorted := SortOrdersNewestFirst(fetched.value.0);
        orders := sorted;
      }
      loading := false;
    }

    method SearchChanged(value: string)
      modifies this`search
      ensures search == value
    {
      search := value;
    }

    method StatusFilterChosen(filter: StatusFilter)
      modifies this`statusFilter
      ensures statusFilter == filter
    {
      statusFilter := filter;
    }

    /** The status menu of an order opens or closes; at most one menu is open. */
    method DropdownOpenChange(orderId: string, open: bool)
      modifies this`openDropdown
      ensures openDropdown == if open then Some(orderId) else None
    {
      openDropdown := if open then Some(orderId) else None;
    }

    /** `updateOrderStatus` up to its request: choosing a status in an order's menu (where the
        order's own status is disabled) asks to set that order's status to one of the four
        others. */
    method UpdateStatusStart(o: Order, newStatus: OrderStatus) returns (request: StatusUpdate)
      requires o.status != newStatus
      ensures request.orderId == o.id && request.status == newStatus
      ensures exists k :: 0 <= k < |StatusOptions| && StatusOptions[k].value == request.status
                          && Selectable(o, StatusOptions[k])
    {
      StatusOptionsComplete(newStatus);
      request := StatusUpdate(o.id, newStatus);
    }

    /** `updateOrderStatus` settles: success announces the new status by its label and reloads
        the list, failure reports the error; the menu is closed on both paths. */
    method UpdateStatusSettled(newStatus: OrderStatus, ok: bool) returns (toast: Toast, reload: bool)
      modifies this`openDropdown
      ensures openDropdown == None
      ensures reload == ok
      ensures ok ==> toast == SuccessToast("Order status updated to " + StatusLabel(newStatus))
      ensures !ok ==> toast == ErrorToast("Failed to update order status")
    {
      if ok {
        toast := SuccessToast("Order status updated to " + StatusLabel(newStatus));
      } else {
        toast := ErrorToast("Failed to update order status");
      }
      reload := ok;
      openDropdown := None;
    }
  }
}
