/** The five tables of the synthetic e-commerce data set, the script's configuration
    constants, and the lookups the script performs on its data frames.

    Prices and totals are integer cents, so sums are exact; dates are day numbers.
 */
module Schema {

  datatype Option<T> = None | Some(value: T)

  // Configuration (the script's module-level constants)
  const NUM_CUSTOMERS: nat := 100
  const NUM_PRODUCTS: nat := 50
  const NUM_ORDERS: nat := 200
  const MIN_ORDER_ITEMS: nat := 1
  const MAX_ORDER_ITEMS: nat := 5
  const MAX_QUANTITY: nat := 5
  /** Orders are dated within the last 540 days (about 18 months). */
  const ORDER_WINDOW_DAYS: nat := 540
  /** A review of an ordered product is dated at most 30 days after the order. */
  const REVIEW_WINDOW_DAYS: nat := 30
  /** Number of standalone review candidates drawn. */
  const STANDALONE_REVIEWS: nat := 20
  /** Prices are drawn from 9.99 .. 999.99 and rounded to cents. */
  const MIN_PRICE_CENTS: int := 999
  const MAX_PRICE_CENTS: int := 99999
  const MAX_STOCK: int := 500

  datatype Category =
    | Electronics | Clothing | HomeAndKitchen | Books | SportsAndOutdoors
    | BeautyAndPersonalCare | ToysAndGames | Automotive | HealthAndWellness
    | FoodAndBeverages

  const CATEGORIES: seq<Category> := [
    Electronics, Clothing, HomeAndKitchen, Books, SportsAndOutdoors,
    BeautyAndPersonalCare, ToysAndGames, Automotive, HealthAndWellness,
    FoodAndBeverages
  ]

  datatype Status = Pending | Processing | Shipped | Delivered | Cancelled

  const ORDER_STATUSES: seq<Status> := [Pending, Processing, Shipped, Delivered, Cancelled]

  /** The counts the script is configured with; DEFAULT_CONFIG holds its values. */
  datatype Config = Config(numCustomers: nat, numProducts: nat, numOrders: nat)

  const DEFAULT_CONFIG: Config := Config(NUM_CUSTOMERS, NUM_PRODUCTS, NUM_ORDERS)

  /** The day the script runs (`today`) and the first day of the customers' join window
      (Faker's "-2y"), as day numbers. */
  datatype Calendar = Calendar(today: int, joinStart: int) {
    predicate Valid() { joinStart <= today }
    function OrderWindowStart(): int { today - ORDER_WINDOW_DAYS }
  }

  datatype Customer = Customer(
    customerId: int, name: string, email: string, location: string, joinDate: int)

  datatype Product = Product(
    productId: int, productName: string, category: Category, priceCents: int,
    stockQuantity: int)

  datatype Order = Order(
    orderId: int, customerId: int, orderDate: int, totalCents: int, status: Status)

  datatype OrderItem = OrderItem(
    orderItemId: int, orderId: int, productId: int, quantity: int, priceCents: int)

  /** A comment is a Faker sentence; the model keeps the word count it was requested
      with (`nb_words`) beside its opaque text. */
  datatype Comment = Sentence(nbWords: int, text: string)

  datatype Review = Review(
    reviewId: int, productId: int, customerId: int, rating: int, comment: Comment,
    reviewDate: int)

  function Min(a: int, b: int): (m: int)
    ensures m <= a && m <= b && (m == a || m == b)
  {
    if a <= b then a else b
  }

  /** `df[df[key] == id].iloc[0]`: the position of the first row whose key is `id`. */
  function FirstRow<T>(rows: seq<T>, key: T -> int, id: int): (r: Option<nat>)
    ensures r.Some? ==> r.value < |rows| && key(rows[r.value]) == id
    ensures r.Some? ==> forall i :: 0 <= i < r.value ==> key(rows[i]) != id
    ensures r.None? ==> forall i :: 0 <= i < |rows| ==> key(rows[i]) != id
  {
    if |rows| == 0 then None
    else if key(rows[0]) == id then Some(0)
    else
      match FirstRow(rows[1..], key, id)
      case None => None
      case Some(i) => Some(i + 1)
  }

  /** When the keys are 1, 2, 3, ... in row order, the row with key `id` is at `id - 1`. */
  lemma {:induction false} FirstRowOfSequential<T>(rows: seq<T>, key: T -> int, id: int)
    requires forall i :: 0 <= i < |rows| ==> key(rows[i]) == i + 1
    requires 1 <= id <= |rows|
    ensures FirstRow(rows, key, id) == Some(id - 1)
  {
    assert key(rows[id - 1]) == id;
  }

  /** The table a generation loop builds from its first n draws: row i - 1 is
      `make(i, draws[i - 1])`, appended in order. */
  function Tabulate<D, R>(make: (int, D) -> R, draws: seq<D>, n: nat): (rows: seq<R>)
    requires n <= |draws|
    ensures |rows| == n
  {
    if n == 0 then [] else Tabulate(make, draws, n - 1) + [make(n, draws[n - 1])]
  }

  /** Row k of the table is the one built from draw k, with id k + 1. */
  lemma {:induction false} TabulateAt<D, R>(make: (int, D) -> R, draws: seq<D>, n: nat, k: nat)
    requires k < n <= |draws|
    ensures Tabulate(make, draws, n)[k] == make(k + 1, draws[k])
  {
    if k < n - 1 {
      TabulateAt(make, draws, n - 1, k);
      assert Tabulate(make, draws, n)[k] == Tabulate(make, draws, n - 1)[k];
    }
  }

  function ProductKey(p: Product): int { p.productId }
  function OrderKey(o: Order): int { o.orderId }
}
