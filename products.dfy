/** The product table: ids 1..M in append order, a category, a name built from a
    category-specific template, a price in cents and a stock level. */
module Products {
  import opened Schema
  import opened Randomness

  const DEVICE_TYPES: seq<string> := ["Phone", "Tablet", "Laptop", "Headphones", "Speaker", "Camera"]
  const GARMENT_TYPES: seq<string> := ["T-Shirt", "Jeans", "Jacket", "Dress", "Shoes", "Hat"]
  const HOME_ITEMS: seq<string> := ["Coffee Maker", "Blender", "Lamp", "Chair", "Table", "Vase"]

  /** The draws for one product: the category, Faker's catch phrase, colour name and
      word, the choice among the category's name suffixes, the price and the stock. */
  datatype ProductDraw = ProductDraw(
    category: nat, catchPhrase: string, colorName: string, word: string, kind: nat,
    price: nat, stock: nat)

  // Case of ASCII letters, as Python's str methods treat them.
  predicate IsUpper(c: char) { 'A' <= c <= 'Z' }
  predicate IsLower(c: char) { 'a' <= c <= 'z' }
  predicate IsCased(c: char) { IsUpper(c) || IsLower(c) }

  function ToUpper(c: char): (u: char)
    ensures IsCased(u) == IsCased(c) && !IsLower(u)
    ensures ToLower(u) == ToLower(c)
  {
    if IsLower(c) then (c as int - 32) as char else c
  }

  function ToLower(c: char): (l: char)
    ensures IsCased(l) == IsCased(c) && !IsUpper(l)
  {
    if IsUpper(c) then (c as int + 32) as char else c
  }

  /** Position i of `str.title()`: upper case where a word starts, lower case elsewhere. */
  function TitleAt(s: string, i: nat): (c: char)
    requires i < |s|
    ensures ToLower(c) == ToLower(s[i])
    ensures i == 0 || !IsCased(s[i - 1]) ==> !IsLower(c)
    ensures i > 0 && IsCased(s[i - 1]) ==> !IsUpper(c)
  {
    if i == 0 || !IsCased(s[i - 1]) then ToUpper(s[i]) else ToLower(s[i])
  }

  /** `str.title()`: a letter that starts a word (follows no letter) becomes upper case,
      every other letter lower case; other characters are kept. */
  function Title(s: string): (t: string)
    ensures |t| == |s|
    ensures forall i :: 0 <= i < |s| ==> t[i] == TitleAt(s, i)
  {
    seq(|s|, i requires 0 <= i < |s| => TitleAt(s, i))
  }

  /** The name template of lines 57-66, chosen by category. */
  function ProductName(category: Category, d: ProductDraw): string {
    match category
    case Electronics => d.catchPhrase + " " + Choice(DEVICE_TYPES, d.kind)
    case Clothing => d.colorName + " " + Choice(GARMENT_TYPES, d.kind)
    case HomeAndKitchen => Choice(HOME_ITEMS, d.kind) + " " + d.word
    case Books => d.catchPhrase + " - " + Title(d.word)
    case _ => d.catchPhrase
  }

  /** The shape of each template: the Faker text, the separator and a suffix from the
      category's list (or the title-cased word), and the bare catch phrase otherwise. */
  lemma {:induction false} ProductNameShape(category: Category, d: ProductDraw)
    ensures var name := ProductName(category, d);
      && (category == Electronics ==>
            var n := |d.catchPhrase| + 1;
            |name| > n && name[..n] == d.catchPhrase + " " && name[n..] in DEVICE_TYPES)
      && (category == Clothing ==>
            var n := |d.colorName| + 1;
            |name| > n && name[..n] == d.colorName + " " && name[n..] in GARMENT_TYPES)
      && (category == HomeAndKitchen ==>
            var n := |name| - |d.word| - 1;
            0 < n && name[n..] == " " + d.word && name[..n] in HOME_ITEMS)
      && (category == Books ==>
            var n := |d.catchPhrase| + 3;
            |name| == n + |d.word| && name[..n] == d.catchPhrase + " - " && name[n..] == Title(d.word))
      && (category !in {Electronics, Clothing, HomeAndKitchen, Books} ==> name == d.catchPhrase)
  {
    var name := ProductName(category, d);
    match category
    case Electronics =>
      var suffix := Choice(DEVICE_TYPES, d.kind);
      assert name == d.catchPhrase + " " + suffix;
      assert name[|d.catchPhrase| + 1..] == suffix;
    case Clothing =>
      var suffix := Choice(GARMENT_TYPES, d.kind);
      assert name == d.colorName + " " + suffix;
      assert name[|d.colorName| + 1..] == suffix;
    case HomeAndKitchen =>
      var item := Choice(HOME_ITEMS, d.kind);
      assert name == item + " " + d.word;
      assert name[..|item|] == item;
    case Books =>
    case _ =>
  }

  /** The row appended for product `id`. */
  function NewProduct(id: int, d: ProductDraw): (p: Product)
    ensures p.productId == id
    ensures p.category in CATEGORIES && p.productName == ProductName(p.category, d)
    ensures MIN_PRICE_CENTS <= p.priceCents <= MAX_PRICE_CENTS
    ensures 0 <= p.stockQuantity <= MAX_STOCK
  {
    var category := Choice(CATEGORIES, d.category);
    Product(id, ProductName(category, d), category,
            Pick(MIN_PRICE_CENTS, MAX_PRICE_CENTS, d.price), Pick(0, MAX_STOCK, d.stock))
  }

  /** Ids 1..|products| in order, so a product id is also a position. */
  ghost predicate ProductIdsSequential(products: seq<Product>) {
    forall i :: 0 <= i < |products| ==> products[i].productId == i + 1
  }

  /** The product table holds m rows with ids 1..m, prices in [9.99, 999.99] and stock in
      [0, 500]. */
  ghost predicate ProductsValid(products: seq<Product>, m: nat) {
    && |products| == m
    && ProductIdsSequential(products)
    && forall i :: 0 <= i < |products| ==>
         && MIN_PRICE_CENTS <= products[i].priceCents <= MAX_PRICE_CENTS
         && 0 <= products[i].stockQuantity <= MAX_STOCK
  }

  /** The product loop: for i in 1..numProducts append product i. */
  method GenerateProducts(numProducts: nat, draws: seq<ProductDraw>) returns (products: seq<Product>)
    requires |draws| == numProducts
    ensures ProductsValid(products, numProducts)
    ensures forall i :: 0 <= i < numProducts ==> products[i] == NewProduct(i + 1, draws[i])
  {
    products := [];
    var i := 1;
    while i <= numProducts
      invariant 1 <= i <= numProducts + 1
      invariant products == Tabulate(NewProduct, draws, i - 1)
    {
      products := products + [NewProduct(i, draws[i - 1])];
      i := i + 1;
    }
    forall k | 0 <= k < numProducts ensures products[k] == NewProduct(k + 1, draws[k]) {
      TabulateAt(NewProduct, draws, numProducts, k);
    }
  }

}
