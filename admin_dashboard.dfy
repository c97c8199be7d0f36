/** The admin dashboard: the four statistics, the five most recent orders with their customers,
    the low-stock list and its colours. */
module AdminDashboard {
  import opened Types
  import opened Text
  import opened Lists
  import AdminProducts
  import AdminOrders

  // ===========================================================================
  // Statistics

  /** The sum of the order totals, in cents. */
  function Revenue(orders: seq<Order>): int {
    if orders == [] then 0 else orders[0].totalCents + Revenue(orders[1..])
  }

  /** The revenue of two lists run one after the other is the sum of their revenues, so adding
      the totals from the left, as `reduce` does, gives the same sum. */
  lemma {:induction false} RevenueAppend(a: seq<Order>, b: seq<Order>)
    ensures Revenue(a + b) == Revenue(a) + Revenue(b)
  {
    if a == [] {
      assert a + b == b;
    } else {
      assert (a + b)[1..] == a[1..] + b;
      RevenueAppend(a[1..], b);
    }
  }

  /** No order total is negative, so neither is the revenue, and it is at least every total. */
  lemma {:induction false} RevenueBounds(orders: seq<Order>)
    requires forall i :: 0 <= i < |orders| ==> orders[i].totalCents >= 0
    ensures Revenue(orders) >= 0
    ensures forall i :: 0 <= i < |orders| ==> orders[i].totalCents <= Revenue(orders)
  {
    if orders != [] {
      RevenueBounds(orders[1..]);
      forall i | 1 <= i < |orders| ensures orders[i].totalCents <= Revenue(orders) {
        assert orders[1..][i - 1] == orders[i];
      }
    }
  }

  lemma {:induction false} RevenueOfInsert(x: Order, s: seq<Order>)
    ensures Revenue(Insert(x, s, OrderCreatedAt)) == x.totalCents + Revenue(s)
  {
    if s != [] && x.createdAt < s[0].createdAt {
      RevenueOfInsert(x, s[1..]);
      var r := Insert(x, s, OrderCreatedAt);
      assert r[1..] == Insert(x, s[1..], OrderCreatedAt);
    } else {
      assert ([x] + s)[1..] == s;
    }
  }

  /** Sorting the orders does not change the revenue. */
  lemma {:induction false} RevenueOfSorted(orders: seq<Order>)
    ensures Revenue(SortNewestFirst(orders, OrderCreatedAt)) == Revenue(orders)
  {
    if orders != [] {
      RevenueOfSorted(orders[1..]);
      RevenueOfInsert(orders[0], SortNewestFirst(orders[1..], OrderCreatedAt));
    }
  }

  datatype Stats = Stats(products: nat, orders: nat, users: nat, revenueCents: int)

  /** The statistics cards: the number of products, orders and users fetched and the revenue. */
  function DashboardStats(products: seq<Product>, orders: seq<Order>, users: seq<User>): Stats {
    Stats(|products|, |orders|, |users|, Revenue(orders))
  }

  // ===========================================================================
  // Recent orders

  /** The position of the first user with the id, or the number of users when none has it. */
  function FirstUserIndex(users: seq<User>, userId: string): (k: nat)
    ensures k <= |users|
    ensures forall j :: 0 <= j < k ==> users[j].id != userId
    ensures k < |users| ==> users[k].id == userId
  {
    if users == [] then 0 else if users[0].id == userId then 0 else 1 + FirstUserIndex(users[1..], userId)
  }

  /** `users.find(u => u.id === userId)`: the first user with the id, if any. */
  function FindUser(users: seq<User>, userId: string): (r: Option<User>)
    ensures r.None? <==> forall i :: 0 <= i < |users| ==> users[i].id != userId
    ensures r.Some? ==> r.value.id == userId
  {
    var k := FirstUserIndex(users, userId);
    if k < |users| then Some(users[k]) else None
  }

  /** A recent-orders row: the order's fields and its customer. */
  datatype RecentOrder = RecentOrder(
    id: string,
    userId: string,
    status: OrderStatus,
    totalCents: int,
    createdAt: int,
    updatedAt: int,
    user: Option<User>)

  function RecentOf(o: Order, users: seq<User>): RecentOrder {
    RecentOrder(o.id, o.userId, o.status, o.totalCents, o.createdAt, o.updatedAt, FindUser(users, o.userId))
  }

  /** The five newest orders: the orders sorted newest first, cut to five. */
  function NewestFive(orders: seq<Order>): seq<Order> {
    Take(SortNewestFirst(orders, OrderCreatedAt), 5)
  }

  /** The recent-orders panel. */
  function RecentOrders(orders: seq<Order>, users: seq<User>): (r: seq<RecentOrder>)
    ensures |r| == |NewestFive(orders)|
    ensures forall i :: 0 <= i < |r| ==> r[i] == RecentOf(NewestFive(orders)[i], users)
  {
    var top := NewestFive(orders);
    seq(|top|, i requires 0 <= i < |top| => RecentOf(top[i], users))
  }

  /** At most five orders are shown, five when there are that many; they are newest first, each
      is one of the fetched orders, and no order left out is newer than any order shown. */
  lemma RecentOrdersAreNewest(orders: seq<Order>, users: seq<User>)
    ensures var r := RecentOrders(orders, users);
            && |r| == (if |orders| <= 5 then |orders| else 5)
            && (forall i, j :: 0 <= i < j < |r| ==> r[i].createdAt >= r[j].createdAt)
    ensures multiset(NewestFive(orders)) <= multiset(orders)
    ensures forall x, y :: x in multiset(orders) - multiset(NewestFive(orders)) && y in NewestFive(orders)
                           ==> x.createdAt <= y.createdAt
  {
    TakeNewestIsNewest(orders, SortNewestFirst(orders, OrderCreatedAt), 5, OrderCreatedAt);
    var top := NewestFive(orders);
    var r := RecentOrders(orders, users);
    forall i, j | 0 <= i < j < |r| ensures r[i].createdAt >= r[j].createdAt {
      assert r[i].createdAt == top[i].createdAt && r[j].createdAt == top[j].createdAt;
      assert OrderCreatedAt(top[i]) >= OrderCreatedAt(top[j]);
    }
  }

  /** Each row's customer is the first fetched user with the order's user id, or none when no
      user has it. */
  lemma RecentOrderCustomer(orders: seq<Order>, users: seq<User>, i: nat)
    requires i < |RecentOrders(orders, users)|
    ensures var row := RecentOrders(orders, users)[i];
            && (row.user.None? <==> forall k :: 0 <= k < |users| ==> users[k].id != row.userId)
            && (row.user.Some? ==> exists j :: 0 <= j < |users| && users[j] == row.user.value
                                              && users[j].id == row.userId
                                              && forall k :: 0 <= k < j ==> users[k].id != row.userId)
  {
    var row := RecentOrders(orders, users)[i];
    var j := FirstUserIndex(users, row.userId);
    if row.user.Some? {
      assert users[j] == row.user.value;
    }
  }

  /** `order.user?.name || order.user?.email || 'Guest'`. */
  function CustomerLabel(user: Option<User>): (r: string)
    ensures user.None? ==> r == "Guest"
    ensures user.Some? && user.value.name.Some? && user.value.name.value != "" ==> r == user.value.name.value
    ensures user.Some? && (user.value.name.None? || user.value.name.value == "") ==>
              r == (if user.value.email != "" then user.value.email else "Guest")
  {
    if user.None? then "Guest"
    else OrElse(user.value.name, if user.value.email != "" then user.value.email else "Guest")
  }

  /** `order.id.slice(-6).toUpperCase()`. */
  function DashboardShortId(id: string): string {
    ShortId(id, 6)
  }

  /** The dashboard's six-character order id is the tail of the orders page's eight-character
      one. */
  lemma DashboardIdIsTailOfOrdersId(id: string)
    ensures var d, o := DashboardShortId(id), AdminOrders.ShortOrderId(id);
            |d| <= |o| && d == o[|o| - |d|..]
  {
    ShortIdSuffix(id, 6, 8);
  }

  /** The dashboard finds the first user with an id while the orders page's table keeps the last;
      both know the same ids, and they agree on the customer when no two users share an id. */
  lemma CustomerLookupsAgree(users: seq<User>, userId: string)
    ensures FindUser(users, userId).Some? <==> userId in AdminOrders.UserMapOf(users)
    ensures (forall i, j :: 0 <= i < j < |users| ==> users[i].id != users[j].id) && FindUser(users, userId).Some?
            ==> AdminOrders.UserMapOf(users)[userId] == AdminOrders.SummaryOf(FindUser(users, userId).value)
  {
    AdminOrders.UserMapDomain(users, userId);
    var r := FindUser(users, userId);
    if r.Some? && forall i, j :: 0 <= i < j < |users| ==> users[i].id != users[j].id {
      AdminOrders.UserMapLastWins(users, FirstUserIndex(users, userId));
    }
  }

  // ===========================================================================
  // Low stock

  /** `products.filter(p => p.stock < 10).slice(0, 5)`. */
  function LowStock(products: seq<Product>): (r: seq<Product>)
    ensures |r| <= 5
    ensures r <= Filter(products, (p: Product) => p.stock < 10)
    ensures forall i :: 0 <= i < |r| ==> r[i] in products && r[i].stock < 10
  {
    Take(Filter(products, (p: Product) => p.stock < 10), 5)
  }

  /** The panel shows the first five low-stock products in catalogue order, and all of them when
      there are fewer than five. */
  lemma LowStockSpec(products: seq<Product>)
    ensures var all := Filter(products, (p: Product) => p.stock < 10);
            && IsSubsequence(all, products)
            && LowStock(products) == (if |all| <= 5 then all else all[..5])
            && (forall i :: 0 <= i < |products| && products[i].stock < 10 && |all| <= 5 ==> products[i] in LowStock(products))
  {
    FilterIsSubsequence(products, (p: Product) => p.stock < 10);
  }

  /** The colour of a low-stock figure: red when out of stock, amber below five, muted otherwise. */
  function LowStockTone(stock: int): AdminProducts.Tone {
    if stock == 0 then AdminProducts.Red else if stock < 5 then AdminProducts.Amber else AdminProducts.Muted
  }

  /** On the low-stock panel (stock below ten) the dashboard's colour agrees with the products
      page's for stock zero to four; for five to nine the products page shows amber and the
      dashboard a muted figure. */
  lemma LowStockToneVersusProductsPage(stock: int)
    requires 0 <= stock < 10
    ensures stock < 5 ==> AdminProducts.StockTones(stock) == {LowStockTone(stock)}
    ensures 5 <= stock ==> AdminProducts.StockTones(stock) == {AdminProducts.Amber}
                           && LowStockTone(stock) == AdminProducts.Muted
  {
    AdminProducts.StockToneUnique(stock);
  }

  // ===========================================================================
  // The page

  class DashboardPage {
    var stats: Stats
    var recentOrders: seq<RecentOrder>
    var lowStockProducts: seq<Product>
    var loading: bool

    constructor ()
      ensures stats == Stats(0, 0, 0, 0) && recentOrders == [] && lowStockProducts == [] && loading
    {
      stats := Stats(0, 0, 0, 0);
      recentOrders := [];
      lowStockProducts := [];
      loading := true;
    }

    /** `loadDashboardData` settles: after fetching products, orders and users the three panels
        are filled from them; a failed fetch leaves the panels as they were; the spinner stops
        either way. */
    method DataLoaded(fetched: Option<(seq<Product>, seq<Order>, seq<User>)>)
      modifies this`stats, this`recentOrders, this`lowStockProducts, this`loading
      ensures !loading
      ensures fetched.Some? ==>
        var (products, orders, users) := fetched.value;
        && stats == DashboardStats(products, orders, users)
        && recentOrders == RecentOrders(orders, users)
        && lowStockProducts == LowStock(products)
      ensures fetched.None? ==>
        stats == old(stats) && recentOrders == old(recentOrders) && lowStockProducts == old(lowStockProducts)
    {
      if fetched.Some? {
        var (products, orders, users) := fetched.value;
        stats := DashboardStats(products, orders, users);
        recentOrders := RecentOrders(orders, users);
        lowStockProducts := LowStock(products);
      }
      loading := false;
    }
  }
}
