/** The dashboard statistics of the server (`getDashboardStats` in
    server/storage.ts): totals and revenue over all orders, today's orders,
    a seven-day order histogram, a six-month revenue trend and a keyword
    breakdown of the ordered items.

    The clock is fixed: the midnights of the eight days that bound the
    histogram and the first instants of the seven months that bound the trend
    are given as instants (milliseconds). Amounts are counted in cents. */
module Storage {
  import opened JsValues
  import opened Text
  import opened Seqs
  import Money

  // ---------------------------------------------------------------- records

  /** One element of an array-valued `items` field: a string, or any other
      value, which the classifier sees through `JSON.stringify` (kept opaque here). */
  datatype Item = StringItem(s: string) | ObjectItem(json: string)

  /** The `items` field: an array, or anything else (a plain string among them). */
  datatype Items = Array(elems: seq<Item>) | NotArray

  /** An order record as the aggregation reads it. */
  datatype Order = Order(
    createdAt: Option<int>,  // `new Date(createdAt)`; None when that is an invalid date
    total: Option<Num>,      // the numeric `total` field; None when absent
    amount: string,          // the decimal-string `amount` field; "" when absent
    parsedAmount: Num,       // `parseFloat(amount)`, in cents; NaN for a string with no number
    items: Items)

  /** The two clock-derived sets of boundaries. `dayStarts[k]` is the midnight
      that opens the k-th histogram day (k = 6 is today, k = 7 tomorrow);
      `monthStarts[k]` opens the k-th trend month (k = 5 is this month). */
  datatype Clock = Clock(dayStarts: seq<int>, monthStarts: seq<int>)

  predicate WellFormedClock(clock: Clock) {
    |clock.dayStarts| == 8 && |clock.monthStarts| == 7
  }

  /** What calendar arithmetic guarantees of a list of boundaries. */
  predicate Ascending(bounds: seq<int>) {
    forall i, j :: 0 <= i <= j < |bounds| ==> bounds[i] <= bounds[j]
  }

  // ---------------------------------------------------------------- amounts

  /** The `reduce` step of the revenue sum: add `total` when it is truthy,
      otherwise add the parsed `amount` when `amount` is a non-empty string,
      otherwise keep the sum. */
  function AddOrder(sum: Num, o: Order): Num {
    if o.total.Some? && Truthy(o.total.value) then Add(sum, o.total.value)
    else if o.amount != "" then Add(sum, o.parsedAmount)
    else sum
  }

  /** The amount an order resolves to. */
  function Amount(o: Order): Num {
    if o.total.Some? && Truthy(o.total.value) then o.total.value
    else if o.amount != "" then o.parsedAmount
    else Finite(0)
  }

  /** Every `reduce` step adds the resolved amount of its order. */
  lemma AddOrderAddsAmount(sum: Num, o: Order)
    ensures AddOrder(sum, o) == Add(sum, Amount(o))
  {
  }

  /** `orders.reduce(AddOrder, 0)`. */
  function Revenue(orders: seq<Order>): Num {
    if orders == [] then Finite(0)
    else AddOrder(Revenue(orders[..|orders| - 1]), orders[|orders| - 1])
  }

  /** The revenue of two lists of orders together is the sum of their revenues. */
  lemma {:induction false} RevenueAppend(a: seq<Order>, b: seq<Order>)
    ensures Revenue(a + b) == Add(Revenue(a), Revenue(b))
    decreases |b|
  {
    if b == [] {
      assert a + b == a;
    } else {
      var n := |b|;
      assert (a + b)[..|a + b| - 1] == a + b[..n - 1];
      RevenueAppend(a, b[..n - 1]);
      AddOrderAddsAmount(Revenue(a + b[..n - 1]), b[n - 1]);
      AddOrderAddsAmount(Revenue(b[..n - 1]), b[n - 1]);
      AddAssociative(Revenue(a), Revenue(b[..n - 1]), Amount(b[n - 1]));
    }
  }

  lemma RevenueSingle(x: Order)
    ensures Revenue([x]) == Amount(x)
  {
    assert [x][..0] == [];
    AddOrderAddsAmount(Finite(0), x);
  }

  /** Moving the last of three summands into the middle. */
  lemma AddSwapLast(a: Num, b: Num, c: Num)
    ensures Add(Add(a, b), c) == Add(Add(a, c), b)
  {
    AddAssociative(a, b, c);
    AddCommutative(b, c);
    AddAssociative(a, c, b);
  }

  /** Taking one order out of a list takes its amount out of the revenue. */
  lemma RevenueWithout(p: seq<Order>, x: Order, q: seq<Order>)
    ensures Revenue(p + [x] + q) == Add(Revenue(p + q), Amount(x))
  {
    RevenueAppend(p + [x], q);
    RevenueAppend(p, [x]);
    RevenueAppend(p, q);
    RevenueSingle(x);
    AddSwapLast(Revenue(p), Amount(x), Revenue(q));
  }

  /** The last order of `a` sits at some position of a permutation `b`. */
  lemma LastInPermutation(a: seq<Order>, b: seq<Order>) returns (i: nat)
    requires multiset(a) == multiset(b) && a != []
    ensures i < |b| && b[i] == a[|a| - 1]
  {
    assert a[|a| - 1] in multiset(a);
    i :| 0 <= i < |b| && b[i] == a[|a| - 1];
  }

  /** Removing the same element from two permutations of each other leaves
      permutations of each other: without that order, the rest of `a` is a
      permutation of the rest of `b`. */
  lemma MultisetWithout(a: seq<Order>, b: seq<Order>, i: int)
    requires multiset(a) == multiset(b) && a != [] && 0 <= i < |b| && b[i] == a[|a| - 1]
    ensures multiset(a[..|a| - 1]) == multiset(b[..i] + b[i + 1..])
  {
    var n := |a|;
    var x := a[n - 1];
    SplitAt(b, i);
    assert a == a[..n - 1] + [x];
    assert multiset(b) == multiset(b[..i]) + multiset{x} + multiset(b[i + 1..]);
    assert multiset(a) == multiset(a[..n - 1]) + multiset{x};
    assert multiset(b[..i] + b[i + 1..]) == multiset(b[..i]) + multiset(b[i + 1..]);
    assert multiset(a[..n - 1]) == multiset(a) - multiset{x};
    assert multiset(b[..i] + b[i + 1..]) == multiset(b) - multiset{x};
  }

  /** The revenue does not depend on the order in which the records are read. */
  lemma {:induction false} RevenuePermutation(a: seq<Order>, b: seq<Order>)
    requires multiset(a) == multiset(b)
    ensures Revenue(a) == Revenue(b)
    decreases |a|
  {
    if a != [] {
      var n := |a|;
      var x := a[n - 1];
      var i := LastInPermutation(a, b);
      MultisetWithout(a, b, i);
      RevenuePermutation(a[..n - 1], b[..i] + b[i + 1..]);
      SplitAt(b, i);
      RevenueWithout(b[..i], x, b[i + 1..]);
      AddOrderAddsAmount(Revenue(a[..n - 1]), x);
    }
  }

  /** The revenue is NaN exactly when some order resolves to NaN: a single
      unparsable `amount` spoils the whole sum. */
  lemma {:induction false} RevenueNaN(orders: seq<Order>)
    ensures Revenue(orders).NaN? <==> exists i :: 0 <= i < |orders| && Amount(orders[i]).NaN?
    decreases |orders|
  {
    if orders != [] {
      var n := |orders|;
      var p := orders[..n - 1];
      RevenueNaN(p);
      AddOrderAddsAmount(Revenue(p), orders[n - 1]);
      if exists i :: 0 <= i < |p| && Amount(p[i]).NaN? {
        var i :| 0 <= i < |p| && Amount(p[i]).NaN?;
        assert Amount(orders[i]).NaN?;
      }
      if exists i :: 0 <= i < n && Amount(orders[i]).NaN? {
        var i :| 0 <= i < n && Amount(orders[i]).NaN?;
        if i < n - 1 {
          assert Amount(p[i]).NaN?;
        }
      }
    }
  }

  /** `Math.round` of an amount of cents, giving dollars; NaN stays NaN. */
  function RoundToDollars(x: Num): (r: Num)
    ensures r.NaN? <==> x.NaN?
    ensures r.Finite? ==> 100 * r.v - 50 <= x.v < 100 * r.v + 50
  {
    match x
    case NaN => NaN
    case Finite(c) => Finite((c + 50) / 100)
  }

  // ---------------------------------------------------------------- windows

  /** The order's date lies in the half-open window `[lo, hi)`. */
  predicate InWindow(o: Order, lo: int, hi: int) {
    o.createdAt.Some? && lo <= o.createdAt.value < hi
  }

  /** `orders.filter(o => o.createdAt >= lo && o.createdAt < hi)`. */
  function OrdersIn(orders: seq<Order>, lo: int, hi: int): seq<Order> {
    Filter(orders, o => InWindow(o, lo, hi))
  }

  /** `orders.filter(o => o.createdAt >= since)`: no upper bound. */
  function OrdersSince(orders: seq<Order>, since: int): seq<Order> {
    Filter(orders, (o: Order) => o.createdAt.Some? && o.createdAt.value >= since)
  }

  /** Splitting a window at an inner point splits its orders. */
  lemma {:induction false} WindowSplitCount(orders: seq<Order>, lo: int, mid: int, hi: int)
    requires lo <= mid <= hi
    ensures |OrdersIn(orders, lo, mid)| + |OrdersIn(orders, mid, hi)| == |OrdersIn(orders, lo, hi)|
    decreases |orders|
  {
    if orders != [] {
      WindowSplitCount(orders[1..], lo, mid, hi);
    }
  }

  /** The same split, for the orders themselves (as a multiset). */
  lemma {:induction false} WindowSplitOrders(orders: seq<Order>, lo: int, mid: int, hi: int)
    requires lo <= mid <= hi
    ensures multiset(OrdersIn(orders, lo, mid) + OrdersIn(orders, mid, hi)) == multiset(OrdersIn(orders, lo, hi))
    decreases |orders|
  {
    if orders != [] {
      WindowSplitOrders(orders[1..], lo, mid, hi);
    }
  }

  /** An order in a window that starts at or after `since` is counted from
      `since` on. The source reads the clock for `today` before it reads it
      again for the day windows, so today's midnight is never later than the
      last window's start, and `todayOrders` is at least `ordersPerDay[6]`
      even when midnight passes in between. */
  lemma {:induction false} SinceCoversWindow(orders: seq<Order>, since: int, lo: int, hi: int)
    requires since <= lo
    ensures |OrdersIn(orders, lo, hi)| <= |OrdersSince(orders, since)|
    decreases |orders|
  {
    if orders != [] {
      SinceCoversWindow(orders[1..], since, lo, hi);
    }
  }

  /** Today's count is today's bucket plus every order dated from tomorrow on. */
  lemma {:induction false} SinceSplitCount(orders: seq<Order>, today: int, tomorrow: int)
    requires today <= tomorrow
    ensures |OrdersSince(orders, today)| == |OrdersIn(orders, today, tomorrow)| + |OrdersSince(orders, tomorrow)|
    decreases |orders|
  {
    if orders != [] {
      SinceSplitCount(orders[1..], today, tomorrow);
    }
  }

  // ---------------------------------------------------------------- day histogram

  /** The number of orders on histogram day k. */
  function DayCount(orders: seq<Order>, dayStarts: seq<int>, k: int): nat
    requires |dayStarts| == 8 && 0 <= k < 7
  {
    |OrdersIn(orders, dayStarts[k], dayStarts[k + 1])|
  }

  /** The seven day counts, oldest day first. */
  function DayCounts(orders: seq<Order>, dayStarts: seq<int>): seq<nat>
    requires |dayStarts| == 8
  {
    seq(7, k requires 0 <= k < 7 => DayCount(orders, dayStarts, k))
  }

  /** The loop that builds `ordersPerDay`, i running from 6 down to 0:
      seven entries, oldest day first. */
  method OrdersPerDay(orders: seq<Order>, dayStarts: seq<int>) returns (perDay: seq<nat>)
    requires |dayStarts| == 8
    ensures |perDay| == 7
    ensures forall k :: 0 <= k < 7 ==> perDay[k] == DayCount(orders, dayStarts, k)
  {
    perDay := [];
    var i := 6;
    while i >= 0
      invariant -1 <= i <= 6
      invariant |perDay| == 6 - i
      invariant forall k :: 0 <= k < |perDay| ==> perDay[k] == DayCount(orders, dayStarts, k)
    {
      var day := dayStarts[6 - i];
      var nextDay := dayStarts[7 - i];
      var dayOrders := |OrdersIn(orders, day, nextDay)|;
      perDay := perDay + [dayOrders];
      i := i - 1;
    }
  }

  /** No order lies in two different day buckets. */
  lemma DayBucketsDisjoint(o: Order, dayStarts: seq<int>, j: int, k: int)
    requires |dayStarts| == 8 && Ascending(dayStarts)
    requires 0 <= j < k < 7
    ensures !(InWindow(o, dayStarts[j], dayStarts[j + 1]) && InWindow(o, dayStarts[k], dayStarts[k + 1]))
  {
    assert dayStarts[j + 1] <= dayStarts[k];
  }

  function SumOf(s: seq<nat>): nat {
    if s == [] then 0 else SumOf(s[..|s| - 1]) + s[|s| - 1]
  }

  /** The first k day buckets together count the orders of the window they span. */
  lemma {:induction false} DayPrefixSum(orders: seq<Order>, dayStarts: seq<int>, k: nat)
    requires |dayStarts| == 8 && Ascending(dayStarts) && k <= 7
    ensures SumOf(seq(k, j requires 0 <= j < k => DayCount(orders, dayStarts, j)))
            == |OrdersIn(orders, dayStarts[0], dayStarts[k])|
  {
    var s := seq(k, j requires 0 <= j < k => DayCount(orders, dayStarts, j));
    if k == 0 {
      assert |OrdersIn(orders, dayStarts[0], dayStarts[0])| == 0 by {
        WindowSplitCount(orders, dayStarts[0], dayStarts[0], dayStarts[0]);
      }
    } else {
      DayPrefixSum(orders, dayStarts, k - 1);
      assert s[..k - 1] == seq(k - 1, j requires 0 <= j < k - 1 => DayCount(orders, dayStarts, j));
      WindowSplitCount(orders, dayStarts[0], dayStarts[k - 1], dayStarts[k]);
    }
  }

  /** The histogram counts exactly the orders of the seven-day window, so it
      never counts more orders than there are. */
  lemma HistogramSum(orders: seq<Order>, dayStarts: seq<int>, perDay: seq<nat>)
    requires |dayStarts| == 8 && Ascending(dayStarts)
    requires |perDay| == 7 && forall k :: 0 <= k < 7 ==> perDay[k] == DayCount(orders, dayStarts, k)
    ensures SumOf(perDay) == |OrdersIn(orders, dayStarts[0], dayStarts[7])|
    ensures SumOf(perDay) <= |orders|
  {
    DayPrefixSum(orders, dayStarts, 7);
    assert perDay == seq(7, j requires 0 <= j < 7 => DayCount(orders, dayStarts, j));
  }

  // ---------------------------------------------------------------- month trend

  /** The unrounded revenue of trend month k. */
  function MonthRevenue(orders: seq<Order>, monthStarts: seq<int>, k: int): Num
    requires |monthStarts| == 7 && 0 <= k < 6
  {
    Revenue(OrdersIn(orders, monthStarts[k], monthStarts[k + 1]))
  }

  /** The six month totals, oldest month first. */
  function MonthTotals(orders: seq<Order>, monthStarts: seq<int>): seq<Num>
    requires |monthStarts| == 7
  {
    seq(6, k requires 0 <= k < 6 => RoundToDollars(MonthRevenue(orders, monthStarts, k)))
  }

  /** The loop that builds `salesTrend`, i running from 5 down to 0: six
      entries, oldest month first, each the month's revenue rounded to dollars. */
  method SalesTrend(orders: seq<Order>, monthStarts: seq<int>) returns (trend: seq<Num>)
    requires |monthStarts| == 7
    ensures |trend| == 6
    ensures forall k :: 0 <= k < 6 ==> trend[k] == RoundToDollars(MonthRevenue(orders, monthStarts, k))
  {
    trend := [];
    var i := 5;
    while i >= 0
      invariant -1 <= i <= 5
      invariant |trend| == 5 - i
      invariant forall k :: 0 <= k < |trend| ==> trend[k] == RoundToDollars(MonthRevenue(orders, monthStarts, k))
    {
      var month := monthStarts[5 - i];
      var nextMonth := monthStarts[6 - i];
      var monthRevenue := Revenue(OrdersIn(orders, month, nextMonth));
      trend := trend + [RoundToDollars(monthRevenue)];
      i := i - 1;
    }
  }

  /** Before rounding, two adjacent months add up to the revenue of the window they span. */
  lemma MonthsAdd(orders: seq<Order>, lo: int, mid: int, hi: int)
    requires lo <= mid <= hi
    ensures Add(Revenue(OrdersIn(orders, lo, mid)), Revenue(OrdersIn(orders, mid, hi)))
            == Revenue(OrdersIn(orders, lo, hi))
  {
    WindowSplitOrders(orders, lo, mid, hi);
    RevenueAppend(OrdersIn(orders, lo, mid), OrdersIn(orders, mid, hi));
    RevenuePermutation(OrdersIn(orders, lo, mid) + OrdersIn(orders, mid, hi), OrdersIn(orders, lo, hi));
  }

  // ---------------------------------------------------------------- categories

  datatype Category = Electronics | Food | Clothing | Other

  /** The key under which a category is counted. */
  function CategoryName(c: Category): string {
    match c
    case Electronics => "Electronics"
    case Food => "Food"
    case Clothing => "Clothing"
    case Other => "Other"
  }

  /** The string the classifier looks at. */
  function ItemText(item: Item): string {
    match item
    case StringItem(s) => s
    case ObjectItem(json) => json
  }

  /** The keyword rules, tried in order on the lower-cased item; the first match wins. */
  function Classify(itemStr: string): Category {
    var l := Lower(itemStr);
    if Contains(l, "phone") || Contains(l, "electronic") then Electronics
    else if Contains(l, "food") || Contains(l, "drink") then Food
    else if Contains(l, "cloth") || Contains(l, "shirt") then Clothing
    else Other
  }

  /** Upper and lower case make no difference to the classifier. */
  lemma ClassifyIgnoresCase(itemStr: string)
    ensures Classify(itemStr) == Classify(Lower(itemStr))
  {
    LowerIdempotent(itemStr);
  }

  /** The rules' priority: an item that names a phone or electronics is
      Electronics whatever other keywords it holds; food or drink beats
      clothing; and only an item with none of the six keywords is Other. */
  lemma ClassifyPriority(itemStr: string)
    ensures var l := Lower(itemStr);
      && (Classify(itemStr) == Electronics <==> Contains(l, "phone") || Contains(l, "electronic"))
      && (Classify(itemStr) == Food <==>
            !(Contains(l, "phone") || Contains(l, "electronic")) && (Contains(l, "food") || Contains(l, "drink")))
      && (Classify(itemStr) == Other <==>
            !Contains(l, "phone") && !Contains(l, "electronic") && !Contains(l, "food")
            && !Contains(l, "drink") && !Contains(l, "cloth") && !Contains(l, "shirt"))
  {
  }

  /** The categories of one order's items, in item order; an order whose
      `items` is not an array contributes none. */
  function OrderCategories(o: Order): (r: seq<Category>)
    ensures o.items.NotArray? ==> r == []
    ensures o.items.Array? ==> |r| == |o.items.elems|
  {
    match o.items
    case NotArray => []
    case Array(elems) => seq(|elems|, k requires 0 <= k < |elems| => Classify(ItemText(elems[k])))
  }

  /** The categories of all items of all orders, in the order the nested `forEach` visits them. */
  function ItemCategories(orders: seq<Order>): seq<Category> {
    if orders == [] then []
    else ItemCategories(orders[..|orders| - 1]) + OrderCategories(orders[|orders| - 1])
  }

  /** When no order has an array of items, nothing is classified. */
  lemma {:induction false} NoArraysNoCategories(orders: seq<Order>)
    requires forall i :: 0 <= i < |orders| ==> orders[i].items.NotArray?
    ensures ItemCategories(orders) == []
    decreases |orders|
  {
    if orders != [] {
      NoArraysNoCategories(orders[..|orders| - 1]);
    }
  }

  predicate NoDuplicates(s: seq<Category>) {
    forall i, j :: 0 <= i < j < |s| ==> s[i] != s[j]
  }

  /** The distinct categories of `s`, by first occurrence: the key order of
      the `categoryCount` object. */
  function FirstSeen(s: seq<Category>): (r: seq<Category>)
    ensures forall c :: c in r <==> c in s
    ensures NoDuplicates(r)
  {
    if s == [] then []
    else
      var seen := FirstSeen(s[..|s| - 1]);
      var c := s[|s| - 1];
      assert forall d :: d in s <==> d in s[..|s| - 1] || d == c by {
        assert s == s[..|s| - 1] + [c];
      }
      if c in seen then seen else seen + [c]
  }

  /** One more category adds it to the first-seen list only if it is new. */
  lemma FirstSeenStep(s: seq<Category>, i: nat)
    requires i < |s|
    ensures FirstSeen(s[..i + 1])
      == if s[i] in FirstSeen(s[..i]) then FirstSeen(s[..i]) else FirstSeen(s[..i]) + [s[i]]
  {
    assert s[..i + 1][..i] == s[..i];
  }

  /** The position of the first occurrence of `c` in `s`. */
  function FirstIndex(s: seq<Category>, c: Category): (i: nat)
    requires c in s
    ensures i < |s| && s[i] == c && c !in s[..i]
  {
    if s[0] == c then 0 else 1 + FirstIndex(s[1..], c)
  }

  lemma {:induction false} FirstIndexOfPrefix(s: seq<Category>, t: seq<Category>, c: Category)
    requires c in s
    ensures FirstIndex(s + t, c) == FirstIndex(s, c)
    decreases |s|
  {
    if s[0] != c {
      assert (s + t)[1..] == s[1..] + t;
      FirstIndexOfPrefix(s[1..], t, c);
    }
  }

  /** Categories are listed in the order of their first occurrence. */
  lemma {:induction false} FirstSeenOrder(s: seq<Category>, i: int, j: int)
    requires 0 <= i < j < |FirstSeen(s)|
    ensures FirstIndex(s, FirstSeen(s)[i]) < FirstIndex(s, FirstSeen(s)[j])
    decreases |s|
  {
    var n := |s|;
    var p := s[..n - 1];
    var c := s[n - 1];
    var seen := FirstSeen(p);
    assert s == p + [c];
    var x, y := FirstSeen(s)[i], FirstSeen(s)[j];
    FirstIndexOfPrefix(p, [c], x);
    if c in seen || j < |seen| {
      FirstSeenOrder(p, i, j);
      FirstIndexOfPrefix(p, [c], y);
    } else {
      assert y == c && c !in p;
      assert s[..n - 1] == p;
      assert FirstIndex(s, y) == n - 1;
    }
  }

  /** The number of items counted under each category. */
  function CountMap(s: seq<Category>): (m: map<Category, nat>)
    ensures forall c :: c in m <==> c in s
  {
    map c | c in s :: multiset(s)[c]
  }

  lemma CountMapSnoc(s: seq<Category>, c: Category)
    ensures CountMap(s + [c]) == CountMap(s)[c := if c in s then CountMap(s)[c] + 1 else 1]
  {
    var m := CountMap(s)[c := if c in s then CountMap(s)[c] + 1 else 1];
    assert multiset(s + [c]) == multiset(s) + multiset{c};
    assert forall d :: d in s + [c] <==> d in s || d == c;
    assert forall d :: d in CountMap(s + [c]) ==> CountMap(s + [c])[d] == m[d];
  }

  /** The dictionary `categoryCount` when the nested loops have visited `s`. */
  predicate Tallied(names: seq<Category>, counts: map<Category, nat>, s: seq<Category>) {
    names == FirstSeen(s) && counts == CountMap(s)
  }

  /** One `categoryCount[c] = (categoryCount[c] || 0) + 1`: a new key goes
      to the end of the key order. */
  lemma TallyStep(names: seq<Category>, counts: map<Category, nat>, s: seq<Category>, c: Category)
    requires Tallied(names, counts, s)
    ensures c in counts <==> c in s
    ensures c in counts ==> Tallied(names, counts[c := counts[c] + 1], s + [c])
    ensures c !in counts ==> Tallied(names + [c], counts[c := 1], s + [c])
  {
    CountMapSnoc(s, c);
    assert (s + [c])[..|s|] == s;
  }

  /** `categoryCount[c] = (categoryCount[c] || 0) + 1`: a new key goes to the
      end of the key order with count 1, a known key's count goes up by 1. */
  method CountOne(names0: seq<Category>, counts0: map<Category, nat>, ghost seen: seq<Category>, c: Category)
    returns (names: seq<Category>, counts: map<Category, nat>)
    requires Tallied(names0, counts0, seen)
    ensures Tallied(names, counts, seen + [c])
  {
    TallyStep(names0, counts0, seen, c);
    if c in counts0 {
      names, counts := names0, counts0[c := counts0[c] + 1];
    } else {
      names, counts := names0 + [c], counts0[c := 1];
    }
  }

  lemma ExtendPrefix(before: seq<Category>, oc: seq<Category>, j: int)
    requires 0 <= j < |oc|
    ensures before + oc[..j] + [oc[j]] == before + oc[..j + 1]
  {
    assert oc[..j] + [oc[j]] == oc[..j + 1];
  }

  /** The inner `forEach` over the items of one order: it adds their
      categories to a dictionary that holds the categories met before. */
  method TallyOrder(o: Order, ghost before: seq<Category>, names0: seq<Category>, counts0: map<Category, nat>)
    returns (names: seq<Category>, counts: map<Category, nat>)
    requires Tallied(names0, counts0, before)
    ensures Tallied(names, counts, before + OrderCategories(o))
  {
    names, counts := names0, counts0;
    match o.items {
      case NotArray =>
        assert before + OrderCategories(o) == before;
      case Array(elems) =>
        ghost var oc := OrderCategories(o);
        assert before + oc[..0] == before;
        var j := 0;
        while j < |elems|
          invariant 0 <= j <= |elems|
          invariant Tallied(names, counts, before + oc[..j])
        {
          var category := Classify(ItemText(elems[j]));
          assert category == oc[j];
          names, counts := CountOne(names, counts, before + oc[..j], category);
          ExtendPrefix(before, oc, j);
          j := j + 1;
        }
        assert oc[..j] == oc;
    }
  }

  /** The nested `forEach` that fills `categoryCount`: `names` is its key
      order and `counts` its values. */
  method CountCategories(orders: seq<Order>) returns (names: seq<Category>, counts: map<Category, nat>)
    ensures names == FirstSeen(ItemCategories(orders))
    ensures counts == CountMap(ItemCategories(orders))
  {
    names, counts := [], map[];
    var i := 0;
    while i < |orders|
      invariant 0 <= i <= |orders|
      invariant Tallied(names, counts, ItemCategories(orders[..i]))
    {
      names, counts := TallyOrder(orders[i], ItemCategories(orders[..i]), names, counts);
      assert orders[..i + 1][..i] == orders[..i];
      i := i + 1;
    }
    assert orders[..i] == orders;
  }

  /** `Object.values(categoryCount).reduce((sum, count) => sum + count, 0)`. */
  function SumCounts(names: seq<Category>, counts: map<Category, nat>): nat
    requires forall c :: c in names ==> c in counts
  {
    if names == [] then 0 else SumCounts(names[..|names| - 1], counts) + counts[names[|names| - 1]]
  }

  lemma {:induction false} SumCountsAgree(names: seq<Category>, m1: map<Category, nat>, m2: map<Category, nat>)
    requires forall c :: c in names ==> c in m1 && c in m2 && m1[c] == m2[c]
    ensures SumCounts(names, m1) == SumCounts(names, m2)
    decreases |names|
  {
    if names != [] {
      SumCountsAgree(names[..|names| - 1], m1, m2);
    }
  }

  lemma {:induction false} SumCountsBump(names: seq<Category>, m: map<Category, nat>, x: Category)
    requires NoDuplicates(names) && x in names
    requires forall c :: c in names ==> c in m
    ensures SumCounts(names, m[x := m[x] + 1]) == SumCounts(names, m) + 1
    decreases |names|
  {
    var n := |names|;
    var p := names[..n - 1];
    if names[n - 1] == x {
      assert x !in p;
      SumCountsAgree(p, m, m[x := m[x] + 1]);
    } else {
      assert x in p;
      SumCountsBump(p, m, x);
    }
  }

  /** A new key with count 1 raises the sum of the counts by one. */
  lemma SumCountsNew(names: seq<Category>, m: map<Category, nat>, x: Category)
    requires x !in names
    requires forall c :: c in names ==> c in m
    ensures SumCounts(names + [x], m[x := 1]) == SumCounts(names, m) + 1
  {
    assert (names + [x])[..|names|] == names;
    SumCountsAgree(names, m, m[x := 1]);
  }

  /** Counting one more item raises the sum of the counts by one. */
  lemma TallyTotalSnoc(p: seq<Category>, c: Category)
    requires SumCounts(FirstSeen(p), CountMap(p)) == |p|
    ensures SumCounts(FirstSeen(p + [c]), CountMap(p + [c])) == |p| + 1
  {
    var names, m := FirstSeen(p), CountMap(p);
    TallyStep(names, m, p, c);
    if c in m {
      SumCountsBump(names, m, c);
    } else {
      SumCountsNew(names, m, c);
    }
  }

  /** The counts add up to the number of classified items. */
  lemma {:induction false} TallyTotal(s: seq<Category>)
    ensures SumCounts(FirstSeen(s), CountMap(s)) == |s|
    decreases |s|
  {
    if s != [] {
      var n := |s|;
      var p := s[..n - 1];
      assert s == p + [s[n - 1]];
      TallyTotal(p);
      TallyTotalSnoc(p, s[n - 1]);
    }
  }

  lemma {:induction false} CountAtMostLength(s: seq<Category>, c: Category)
    ensures multiset(s)[c] <= |s|
    decreases |s|
  {
    if s != [] {
      CountAtMostLength(s[1..], c);
      assert s == [s[0]] + s[1..];
    }
  }

  /** `Math.round((count / total) * 100)`, or 0 when nothing was counted. */
  function Percent(count: nat, total: nat): int {
    if total > 0 then (200 * count + total) / (2 * total) else 0
  }

  /** The share is `100 * count / total` rounded half up: it is within one
      half of the exact share, and a count no greater than the total gives a
      share between 0 and 100. */
  lemma PercentBounds(count: nat, total: nat)
    requires count <= total && total > 0
    ensures 2 * total * Percent(count, total) <= 200 * count + total < 2 * total * (Percent(count, total) + 1)
    ensures 0 <= Percent(count, total) <= 100
  {
    assert 200 * count + total < (2 * total) * 101;
    DivBelow(200 * count + total, 2 * total, 101);
  }

  lemma DivBelow(x: nat, d: int, q: int)
    requires d > 0 && x < d * q
    ensures x / d < q
  {
  }

  datatype CategoryStat = CategoryStat(name: string, percentage: int, color: string)

  const Palette: seq<string> := ["#6366F1", "#8B5CF6", "#00D4FF", "#22C55E"]

  /** The entry shown when no item was classified. */
  const NoCategories := CategoryStat("No categories yet", 100, "#6366F1")

  /** `Object.entries(categoryCount).map(([name, count], index) => ...)`. */
  function CategoryList(names: seq<Category>, counts: map<Category, nat>, total: nat): (r: seq<CategoryStat>)
    requires forall c :: c in names ==> c in counts
    ensures |r| == |names|
  {
    seq(|names|, i requires 0 <= i < |names| =>
      CategoryStat(CategoryName(names[i]), Percent(counts[names[i]], total), Palette[i % 4]))
  }

  lemma CategoryListAt(names: seq<Category>, counts: map<Category, nat>, total: nat, i: int)
    requires forall c :: c in names ==> c in counts
    requires 0 <= i < |names|
    ensures CategoryList(names, counts, total)[i]
            == CategoryStat(CategoryName(names[i]), Percent(counts[names[i]], total), Palette[i % 4])
  {
  }

  /** Distinct categories have distinct names. */
  lemma CategoryNameInjective(x: Category, y: Category)
    ensures CategoryName(x) == CategoryName(y) ==> x == y
  {
    match x
    case Electronics =>
    case Food =>
    case Clothing =>
    case Other =>
  }

  /** The `topCategories` field, with its fallback to the single placeholder entry. */
  function TopCategories(orders: seq<Order>): seq<CategoryStat> {
    var s := ItemCategories(orders);
    var list := CategoryList(FirstSeen(s), CountMap(s), SumCounts(FirstSeen(s), CountMap(s)));
    if |list| > 0 then list else [NoCategories]
  }

  lemma CategoryNameNotPlaceholder(c: Category)
    ensures CategoryName(c) != NoCategories.name
  {
  }

  /** When some item was classified, `topCategories` is the list built from
      the counts, over the items' total. */
  lemma TopCategoriesIsList(orders: seq<Order>)
    requires ItemCategories(orders) != []
    ensures var s := ItemCategories(orders);
      TopCategories(orders) == CategoryList(FirstSeen(s), CountMap(s), |s|)
  {
    var s := ItemCategories(orders);
    TallyTotal(s);
    assert s[0] in FirstSeen(s);
  }

  /** Each entry's name, colour and rounded share: colours cycle through the
      palette by position and every share lies between 0 and 100. */
  lemma TopCategoriesEntries(orders: seq<Order>, i: int)
    requires ItemCategories(orders) != []
    requires 0 <= i < |FirstSeen(ItemCategories(orders))|
    ensures var s := ItemCategories(orders);
      var r := TopCategories(orders);
      && |r| == |FirstSeen(s)|
      && r[i].name == CategoryName(FirstSeen(s)[i])
      && r[i].color == Palette[i % 4]
      && r[i].percentage == Percent(multiset(s)[FirstSeen(s)[i]], |s|)
      && 0 <= r[i].percentage <= 100
  {
    var s := ItemCategories(orders);
    var names, counts := FirstSeen(s), CountMap(s);
    TopCategoriesIsList(orders);
    var r := TopCategories(orders);
    assert r == CategoryList(names, counts, |s|);
    CategoryListAt(names, counts, |s|, i);
    assert counts[names[i]] == multiset(s)[names[i]];
    CountAtMostLength(s, names[i]);
    assert s[0] in s;
    PercentBounds(multiset(s)[names[i]], |s|);
  }

  /** Every classified category has exactly one entry, and entries come in
      the order in which their categories were first met. */
  lemma TopCategoriesOrder(orders: seq<Order>, i: int, j: int)
    requires ItemCategories(orders) != []
    requires 0 <= i < j < |FirstSeen(ItemCategories(orders))|
    ensures var s := ItemCategories(orders);
      var r := TopCategories(orders);
      r[i].name != r[j].name && FirstIndex(s, FirstSeen(s)[i]) < FirstIndex(s, FirstSeen(s)[j])
  {
    var s := ItemCategories(orders);
    var names, counts := FirstSeen(s), CountMap(s);
    TopCategoriesIsList(orders);
    var r := TopCategories(orders);
    assert r == CategoryList(names, counts, |s|);
    FirstSeenOrder(s, i, j);
    CategoryListAt(names, counts, |s|, i);
    CategoryListAt(names, counts, |s|, j);
    CategoryNameInjective(names[i], names[j]);
    assert names[i] != names[j];
    assert r[i].name == CategoryName(names[i]) && r[j].name == CategoryName(names[j]);
  }

  /** With nothing classified — no orders, or no array-valued `items` — the
      list is exactly the placeholder, and only then. */
  lemma TopCategoriesPlaceholder(orders: seq<Order>)
    ensures TopCategories(orders) == [NoCategories] <==> ItemCategories(orders) == []
  {
    var s := ItemCategories(orders);
    if s != [] {
      TopCategoriesIsList(orders);
      assert s[0] in FirstSeen(s);
      CategoryNameNotPlaceholder(FirstSeen(s)[0]);
      assert TopCategories(orders)[0].name != NoCategories.name;
    }
  }

  /** The sum of the `percentage` fields of a list. */
  function PercentSum(list: seq<CategoryStat>): int {
    if list == [] then 0 else PercentSum(list[..|list| - 1]) + list[|list| - 1].percentage
  }

  /** A rounded share is within one half of the exact share, for any count. */
  lemma PercentNear(count: nat, total: nat)
    requires total > 0
    ensures 200 * count - total < 2 * total * Percent(count, total) <= 200 * count + total
  {
  }

  /** Dropping the last key drops the last entry. */
  lemma CategoryListPrefix(names: seq<Category>, counts: map<Category, nat>, total: nat)
    requires names != [] && forall c :: c in names ==> c in counts
    ensures CategoryList(names, counts, total)[..|names| - 1] == CategoryList(names[..|names| - 1], counts, total)
  {
  }

  /** Twice the sum `p` of k rounded shares, times the total `t`, is within
      k times `t` of 200 times the sum of the counts, strictly below when
      there is some entry. */
  predicate WithinHalves(t: int, sum: int, p: int, k: int) {
    2 * t * p <= 200 * sum + k * t && (k > 0 ==> 200 * sum - k * t < 2 * t * p)
  }

  /** Each entry is within half of its exact share, so the sum of the
      percentages is within half an entry per entry of the exact total. */
  lemma {:induction false} PercentSumNear(names: seq<Category>, counts: map<Category, nat>, total: nat)
    requires total > 0 && forall c :: c in names ==> c in counts
    ensures WithinHalves(total, SumCounts(names, counts), PercentSum(CategoryList(names, counts, total)), |names|)
    decreases |names|
  {
    if names != [] {
      var n := |names|;
      var front := names[..n - 1];
      var x := names[n - 1];
      var list := CategoryList(names, counts, total);
      PercentSumNear(front, counts, total);
      CategoryListPrefix(names, counts, total);
      PercentNear(counts[x], total);
      var q := PercentSum(CategoryList(front, counts, total));
      var e := Percent(counts[x], total);
      assert PercentSum(list) == q + e;
      assert SumCounts(names, counts) == SumCounts(front, counts) + counts[x];
      NearStep(total, SumCounts(front, counts), q, counts[x], e, n - 1);
    }
  }

  /** One more entry within half of its exact share keeps the sum within
      the bound, one half wider. */
  lemma NearStep(t: int, sum: int, q: int, c: int, e: int, k: nat)
    requires t > 0 && WithinHalves(t, sum, q, k)
    requires k == 0 ==> q == 0 && sum == 0
    requires 200 * c - t < 2 * t * e <= 200 * c + t
    ensures WithinHalves(t, sum + c, q + e, k + 1)
  {
    assert 2 * t * (q + e) == 2 * t * q + 2 * t * e;
    assert (k + 1) * t == k * t + t;
  }

  /** A key list without repeats, drawn from a pool, is no longer than the pool. */
  lemma {:induction false} DistinctWithin(names: seq<Category>, pool: set<Category>)
    requires NoDuplicates(names) && forall c :: c in names ==> c in pool
    ensures |names| <= |pool|
    decreases |names|
  {
    if names != [] {
      var n := |names|;
      var front := names[..n - 1];
      var x := names[n - 1];
      forall c | c in front
        ensures c in pool - {x}
      {
        var i :| 0 <= i < n - 1 && front[i] == c;
        assert names[i] == c;
      }
      DistinctWithin(front, pool - {x});
      assert pool == (pool - {x}) + {x};
    }
  }

  /** There are at most four categories. */
  lemma AtMostFourKeys(names: seq<Category>)
    requires NoDuplicates(names)
    ensures |names| <= 4
  {
    var pool := {Electronics, Food, Clothing, Other};
    forall c | c in names
      ensures c in pool
    {
      match c
      case Electronics =>
      case Food =>
      case Clothing =>
      case Other =>
    }
    DistinctWithin(names, pool);
  }

  /** Dividing both sides of a strict inequality by a positive number. */
  lemma CancelFactor(a: int, b: int, t: int)
    requires t > 0 && a * t < b * t
    ensures a < b
  {
    assert (b - a) * t == b * t - a * t;
    assert (b - a) * t > 0;
  }

  /** The percentages of `topCategories` add up to between 99 and 102. With
      nothing classified the placeholder alone gives 100; otherwise each of
      the at most four entries is within one half of its exact share, and
      the exact shares add up to 100. */
  lemma TopCategoriesPercentSum(orders: seq<Order>)
    ensures 99 <= PercentSum(TopCategories(orders)) <= 102
    ensures ItemCategories(orders) == [] ==> PercentSum(TopCategories(orders)) == 100
  {
    var s := ItemCategories(orders);
    if s == [] {
      TopCategoriesPlaceholder(orders);
    } else {
      var names, counts, t := FirstSeen(s), CountMap(s), |s|;
      TopCategoriesIsList(orders);
      TallyTotal(s);
      assert s[0] in names;
      AtMostFourKeys(names);
      PercentSumNear(names, counts, t);
      SharesOfWhole(t, PercentSum(CategoryList(names, counts, t)), |names|);
    }
  }

  /** Shares of the whole within half an entry each, for one to four
      entries, add up to between 99 and 102. */
  lemma SharesOfWhole(t: int, p: int, k: int)
    requires t > 0 && 1 <= k <= 4 && WithinHalves(t, t, p, k)
    ensures 99 <= p <= 102
  {
    assert 200 * t - k * t == (200 - k) * t;
    assert 200 * t + k * t < (200 + k + 1) * t;
    assert 2 * t * p == (2 * p) * t;
    CancelFactor(200 - k, 2 * p, t);
    CancelFactor(2 * p, 200 + k + 1, t);
  }

  // ---------------------------------------------------------------- the statistics

  /** The object `getDashboardStats` returns. `pendingUsers` is always absent:
      the source reads `.size` of a number, which is undefined. */
  datatype DashboardStats = DashboardStats(
    totalOrders: nat,
    revenue: string,
    pendingUsers: Option<nat>,
    pendingOrders: nat,
    todayOrders: nat,
    ordersPerDay: seq<nat>,
    topCategories: seq<CategoryStat>,
    salesTrend: seq<Num>)

  /** The statistics for a list of orders, the sizes of the two pending
      collections and a fixed clock. */
  function Stats(orders: seq<Order>, pendingUserCount: nat, pendingOrderCount: nat, clock: Clock): (r: DashboardStats)
    requires WellFormedClock(clock)
  {
    var perDay := DayCounts(orders, clock.dayStarts);
    var trend := MonthTotals(orders, clock.monthStarts);
    DashboardStats(
      |orders|,
      Money.RevenueText(Revenue(orders)),
      None,
      pendingOrderCount,
      |OrdersSince(orders, clock.dayStarts[6])|,
      perDay,
      TopCategories(orders),
      if |trend| > 0 then trend else [Finite(0), Finite(0), Finite(0), Finite(0), Finite(0), Finite(0)])
  }

  /** `getDashboardStats` once the three collections have been read. */
  method GetDashboardStats(orders: seq<Order>, pendingUserCount: nat, pendingOrderCount: nat, clock: Clock)
    returns (stats: DashboardStats)
    requires WellFormedClock(clock)
    ensures stats == Stats(orders, pendingUserCount, pendingOrderCount, clock)
  {
    var totalOrders := |orders|;
    var revenue := Revenue(orders);
    var todayOrders := |OrdersSince(orders, clock.dayStarts[6])|;
    var ordersPerDay := OrdersPerDay(orders, clock.dayStarts);
    var names, counts := CountCategories(orders);
    var totalCategoryItems := SumCounts(names, counts);
    var topCategories := CategoryList(names, counts, totalCategoryItems);
    var salesTrend := SalesTrend(orders, clock.monthStarts);
    assert ordersPerDay == DayCounts(orders, clock.dayStarts);
    assert salesTrend == MonthTotals(orders, clock.monthStarts);
    assert (if |topCategories| > 0 then topCategories else [NoCategories]) == TopCategories(orders);
    stats := DashboardStats(
      totalOrders,
      Money.RevenueText(revenue),
      None,
      pendingOrderCount,
      todayOrders,
      ordersPerDay,
      if |topCategories| > 0 then topCategories else [NoCategories],
      if |salesTrend| > 0 then salesTrend else [Finite(0), Finite(0), Finite(0), Finite(0), Finite(0), Finite(0)]);
  }

  /** The guarantees of the statistics object: the order count, a revenue
      string that reads back as the exact revenue, seven day counts that
      together do not exceed the orders, today's count at least today's
      bucket, and six trend entries (the all-zero fallback never applies). */
  lemma StatsShape(orders: seq<Order>, pendingUserCount: nat, pendingOrderCount: nat, clock: Clock)
    requires WellFormedClock(clock) && Ascending(clock.dayStarts)
    ensures var r := Stats(orders, pendingUserCount, pendingOrderCount, clock);
      && r.totalOrders == |orders|
      && Money.ParseRevenue(r.revenue) == (if Revenue(orders).NaN? then None else Some(Revenue(orders).v))
      && r.pendingUsers == None
      && r.pendingOrders == pendingOrderCount
      && |r.ordersPerDay| == 7
      && (forall k :: 0 <= k < 7 ==> r.ordersPerDay[k] == DayCount(orders, clock.dayStarts, k))
      && SumOf(r.ordersPerDay) <= r.totalOrders
      && r.todayOrders == r.ordersPerDay[6] + |OrdersSince(orders, clock.dayStarts[7])|
      && r.todayOrders >= r.ordersPerDay[6]
      && |r.salesTrend| == 6
      && (forall k :: 0 <= k < 6 ==> r.salesTrend[k] == RoundToDollars(MonthRevenue(orders, clock.monthStarts, k)))
      && |r.topCategories| >= 1
  {
    var r := Stats(orders, pendingUserCount, pendingOrderCount, clock);
    Money.RevenueTextRoundTrip(Revenue(orders));
    HistogramSum(orders, clock.dayStarts, r.ordersPerDay);
    SinceSplitCount(orders, clock.dayStarts[6], clock.dayStarts[7]);
  }
}
