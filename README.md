# Synthetic e-commerce data generator — a verified model

The `diligent` repository ships a script, `generate_ecommerce_data.py`, that fills five
tables of synthetic shop data and writes them out as CSV files:

- customers;
- products, whose name follows a template chosen by category;
- orders and their line items;
- reviews, written in two phases.

This project models the table-building loops of that script in Dafny and proves the
consistency rules they keep between the tables.

The five loops appear in the model in their own imperative form. Each loop is a `method`
that appends rows to a sequence, with loop invariants. The two inner loops, over an
order's products and over the products chosen for review, are helper methods. The two
counters the script shares across loops, `order_item_id` and `review_id`, are threaded
from one loop to the next. Each row a loop appends is described by a function (`NewCustomer`,
`NewProduct`, `NewReview`, ...), and the methods are proved against those functions and
against table-wide predicates (`CustomersValid`, `OrdersConsistent`, `LinkedReviewsValid`,
`StandaloneValid`, `DatasetValid`).

Modelling choices:

- **Randomness.** Every call into `random` or Faker is a draw supplied by the caller.
  - A draw is a raw natural number. `Pick(lo, hi, r)` maps it onto `lo..hi`, which models
    `randint` and `date_between`. `Choice` models `random.choice`.
  - `Sample` is the pool algorithm of Python's `random.sample`.
  - Lemmas (`PickReaches`, `ChoiceReaches`, `SampleReaches`, `CommentForReaches`) show
    that every outcome the library call can return is the outcome of some draw. So the
    properties proved for every draw hold for every run, whatever the seed.
- **Money.** Prices and totals are integer cents.
- **Dates.** Dates are day numbers. The run date and the start of the customers' join
  window are parameters (`Calendar`).
- **Errors.** A run with zero customers or zero products always ends in an exception,
  and `GenerateDataset` returns `Err` exactly then.
  - `Err(EmptyIdRange)` is the `ValueError` of `randint(1, 0)`. It comes from the first
    order's customer (line 91) or from the first standalone candidate (lines 184-185).
  - `Err(MissingColumn)` is the `KeyError` of line 147. With customers but no product, no
    line item is written, so the line-item table has no `order_id` column. The first
    order drawn as reviewed then fails on the lookup, before the standalone phase starts.

Files: `randomness.dfy`, `schema.dfy`, `customers.dfy`, `products.dfy`, `orders.dfy`,
`reviews.dfy`, `pipeline.dfy`.

### What the code does not guarantee

- **Unique review pairs.** Only standalone candidates are checked for an existing
  (product, customer) pair (lines 188-189). The order-linked phase never checks.
  - A customer who bought the same product in two reviewed orders can review it twice.
  - The reviews table of `create_database.py` (lines 99-108) has no unique constraint
    on the pair either.
  - The model proves the pair is new only where the code checks it: each standalone
    review's pair differs from that of every earlier review (`Pipeline.StandalonePairsNew`).
- **Number of reviews.** The number of reviews has no lower bound.
  - The order-linked phase can produce no review at all.
  - A standalone candidate whose pair is already present is skipped.
  - The model proves only the upper bound: at most 2 reviews per order plus 20
    standalone reviews.
- **Join date and order date.** An order can predate its customer's join date. The
  order date and the customer are drawn independently, so the model states no ordering
  between the two.

## Model

| member | source | states |
|---|---|---|
| Randomness.Pick | diligent-main/generate_ecommerce_data.py:91 | a `randint`/`date_between` draw lies in the closed range `lo..hi` |
| Randomness.PickReaches | diligent-main/generate_ecommerce_data.py:96 | every value of the range is the outcome of some draw |
| Randomness.Choice | diligent-main/generate_ecommerce_data.py:93 | `random.choice` returns an element of the list |
| Randomness.ChoiceReaches | diligent-main/generate_ecommerce_data.py:55 | every element of the list is the outcome of some draw |
| Randomness.Sample | diligent-main/generate_ecommerce_data.py:99 | `random.sample(pool, k)` returns k elements, a sub-multiset of the pool |
| Randomness.SampleDistinct | diligent-main/generate_ecommerce_data.py:99 | sampling from a list of distinct values gives distinct values (no product is picked twice) |
| Randomness.SampleFromPool | diligent-main/generate_ecommerce_data.py:151 | every sampled value is an element of the pool |
| Randomness.DistinctCounts | diligent-main/generate_ecommerce_data.py:99 | a duplicate-free list holds every value at most once |
| Randomness.CountsDistinct | diligent-main/generate_ecommerce_data.py:99 | a list that holds every value at most once is duplicate-free |
| Randomness.SampleReachStep | diligent-main/generate_ecommerce_data.py:151 | once the first wanted value is taken from the pool, the rest of the pool still holds the other wanted values |
| Randomness.SampleReaches | diligent-main/generate_ecommerce_data.py:151 | every arrangement of values the pool holds is the outcome of some draws; with Sample's contract, the outcomes of k picks are exactly the length-k lists drawn from the pool |
| Schema.FirstRow | diligent-main/generate_ecommerce_data.py:103 | a `df[df[key] == id].iloc[0]` lookup finds the first row with that key, or reports that none exists |
| Schema.TabulateAt | diligent-main/generate_ecommerce_data.py:37-74 | row k of the table a generation loop appends is the row built from draw k, with id k + 1 |
| Schema.FirstRowOfSequential | diligent-main/generate_ecommerce_data.py:142 | when ids run 1, 2, 3, ... the row with id `id` is at position `id - 1` |
| Customers.NewCustomer | diligent-main/generate_ecommerce_data.py:38-44 | the customer row has the given id, a join date inside the join window, and location "city, ST" |
| Customers.GenerateCustomers | diligent-main/generate_ecommerce_data.py:37-45 | the table has exactly N rows with ids 1..N in append order, each joined inside the window |
| Products.ToUpper | diligent-main/generate_ecommerce_data.py:64 | upper-casing keeps a character's letter and whether it is a letter |
| Products.ToLower | diligent-main/generate_ecommerce_data.py:64 | lower-casing never yields an upper-case letter and keeps whether it is a letter |
| Products.TitleAt | diligent-main/generate_ecommerce_data.py:64 | a title-cased character is the same letter, upper case at a word start and lower case inside a word |
| Products.Title | diligent-main/generate_ecommerce_data.py:64 | `str.title()` keeps the length and applies that rule at every position |
| Products.ProductNameShape | diligent-main/generate_ecommerce_data.py:57-66 | the name is "phrase device", "colour garment", "item word", "phrase - Word" or the bare phrase, by category, with the suffix taken from the category's list |
| Products.NewProduct | diligent-main/generate_ecommerce_data.py:55-73 | the product row has the given id, a category from the list, the category's name template, a price of 999..99999 cents and a stock of 0..500 |
| Products.GenerateProducts | diligent-main/generate_ecommerce_data.py:54-74 | the table has exactly M rows with ids 1..M in append order, every price and stock inside its bounds |
| Orders.IdRange | diligent-main/generate_ecommerce_data.py:99 | `range(1, n + 1)` holds exactly the ids 1..n in order |
| Orders.ItemCount | diligent-main/generate_ecommerce_data.py:96-99 | an order gets between min(1, #products) and min(5, #products) products |
| Orders.SelectedProducts | diligent-main/generate_ecommerce_data.py:99 | an order's products are pairwise distinct existing product ids, as many as ItemCount |
| Orders.ItemsOfMembers | diligent-main/generate_ecommerce_data.py:147 | the items selected for an order are exactly the rows that carry its order id |
| Orders.ItemsOfExtend | diligent-main/generate_ecommerce_data.py:101-115 | appending an order's line items gives that order exactly those items and leaves earlier orders' items unchanged |
| Orders.ExtendItemRows | diligent-main/generate_ecommerce_data.py:108-115 | appending a new order's items keeps the global item-id sequence gap-free and the items grouped by order |
| Orders.ExtendOrders | diligent-main/generate_ecommerce_data.py:90-123 | appending an order with its items keeps the order and item tables consistent |
| Orders.BuildOrderLines | diligent-main/generate_ecommerce_data.py:101-115 | one item per selected product, with consecutive ids continuing the global counter, a quantity of 1..5, the product's own price, and a running total equal to the sum of price x quantity |
| Orders.ExtendGenerated | diligent-main/generate_ecommerce_data.py:90-123 | one pass of the order loop keeps its state: the tables stay consistent, the item counter stays one past the last item, and every order, the new one included, is the one its draws produce |
| Orders.ExtendFollows | diligent-main/generate_ecommerce_data.py:90-123 | appending an order that follows its draw, while earlier orders keep their line items, keeps every order following its draw |
| Orders.GenerateOrders | diligent-main/generate_ecommerce_data.py:90-123 | orders have ids 1..K, an existing customer, a date in the last 540 days and a status from the list; each has min(1,#products)..min(5,#products) items of distinct products; its total equals the sum of price x quantity over its own items; item ids run 1, 2, ... across all orders, and the counter ends at #items + 1 |
| Orders.LinesPartition | diligent-main/generate_ecommerce_data.py:108-115 | when every item belongs to one of orders 1..n, the per-order item lists partition the item table, by count and by amount |
| Orders.LineItemCountBounds | diligent-main/generate_ecommerce_data.py:96-99 | the item table has between #orders x min(1,#products) and #orders x min(5,#products) rows |
| Orders.RevenueMatchesLineItems | diligent-main/generate_ecommerce_data.py:104-121 | the order totals add up to the sum of price x quantity over the whole item table |
| Orders.OrdersTotalPrefix | diligent-main/generate_ecommerce_data.py:117-122 | the totals of the first k orders add up to the amounts of those orders' items |
| Reviews.CommentFor | diligent-main/generate_ecommerce_data.py:165-170 | the comment's requested word count is in 5..15 for ratings of 4 and above, 3..10 for 3, and 5..12 below 3 |
| Reviews.CommentForReaches | diligent-main/generate_ecommerce_data.py:165-170 | every word count the rule allows for a rating is requested by some draw |
| Reviews.NewReview | diligent-main/generate_ecommerce_data.py:155-178 | the review row has the given ids, a date inside the window, a rating of 1..5 and a comment following the word-count rule, identically in both phases |
| Reviews.ExtendLinked | diligent-main/generate_ecommerce_data.py:153-180 | appending the next reviewed order's reviews keeps the linked reviews valid and gives that order exactly the appended number of reviews |
| Reviews.ExtendLinkedRows | diligent-main/generate_ecommerce_data.py:153-180 | appending the next order's reviews keeps every review a valid review of its order and keeps the reviews grouped by order |
| Reviews.ExtendCounts | diligent-main/generate_ecommerce_data.py:139-141 | after the next order is processed, exactly the orders drawn as reviewed among those seen have reviews |
| Reviews.LinkedReviewLine | diligent-main/generate_ecommerce_data.py:147-151 | an order-linked review's product is on a line item of the order it was written for |
| Reviews.ExtendLinkedDistinct | diligent-main/generate_ecommerce_data.py:151 | reviews of one order stay of distinct products when the next order's reviews are appended |
| Reviews.OrderReviews | diligent-main/generate_ecommerce_data.py:153-180 | one review per chosen product, in order, with ids counting up from the first, by the order's customer, dated within 30 days after the order |
| Reviews.ReviewOrderedProducts | diligent-main/generate_ecommerce_data.py:153-180 | the loop writes exactly the reviews `OrderReviews` defines, and the id counter moves on by their number |
| Reviews.ReviewOrder | diligent-main/generate_ecommerce_data.py:141-180 | the order's reviews are `randint(1, min(2, #items))` in number, of the products `random.sample` picks from the order's own items, by the order's customer, each from its own draw, with ids from the counter |
| Reviews.FollowingBatchLinked | diligent-main/generate_ecommerce_data.py:150-158 | the reviews an order's draws produce are at most min(2, #items), each of one of the order's products, by its customer, within 30 days after it, and of distinct products when the order's products are distinct |
| Reviews.ReviewsForCount | diligent-main/generate_ecommerce_data.py:139-180 | the reviews recorded for an order are as many as the reviews written for it |
| Reviews.ReviewsForAppend | diligent-main/generate_ecommerce_data.py:139-180 | appending an order's reviews adds them to that order's reviews and changes no other order's |
| Reviews.ExtendFollowDraws | diligent-main/generate_ecommerce_data.py:139-180 | after the next order is processed, every order seen so far has exactly the reviews its draws produce |
| Reviews.ExtendLinkedPhase | diligent-main/generate_ecommerce_data.py:139-180 | one pass of the order-linked loop keeps its state: review ids stay 1, 2, ..., the linked reviews stay valid, and every order seen has the reviews its draws produce |
| Reviews.GenerateOrderReviews | diligent-main/generate_ecommerce_data.py:136-180 | review ids run 1, 2, ...; every order has exactly the reviews its draws produce: none unless drawn as reviewed, otherwise 1..min(2, #items) of its own distinct products, by its customer, within 30 days; at most 2 x #orders reviews |
| Reviews.FindExisting | diligent-main/generate_ecommerce_data.py:188 | the scan finds no review exactly when no review has the candidate's (product, customer) pair |
| Reviews.AddStandaloneReviews | diligent-main/generate_ecommerce_data.py:183-209 | the loop produces the table `StandaloneReviews` defines, and the review-id counter ends at #reviews + 1 |
| Reviews.StandaloneReviewsValid | diligent-main/generate_ecommerce_data.py:183-209 | the standalone phase keeps the earlier reviews, adds at most one review per candidate with the next id, and every added review has an existing product and customer, a date in the last 540 days, a valid rating and comment, and a pair no earlier review has |
| Reviews.StandaloneCoversCandidates | diligent-main/generate_ecommerce_data.py:188-189 | after the phase every candidate's pair is reviewed, so a candidate is skipped only because its pair was already present |
| Reviews.StandaloneKeepsPairs | diligent-main/generate_ecommerce_data.py:209 | the standalone phase only appends, so an already reviewed pair stays reviewed |
| Pipeline.GenerateDataset | diligent-main/generate_ecommerce_data.py:34-209 | the run fails exactly when there is no customer or no product, with a KeyError exactly when there are customers, no product and an order drawn as reviewed; otherwise all five tables meet their invariants, every customer, product and order row and every order's reviews are the ones their draws produce, the standalone reviews are the ones `StandaloneReviews` defines, and there are at most 2 x #orders + 20 reviews |
| Pipeline.DefaultRunSizes | diligent-main/generate_ecommerce_data.py:16-20 | with the script's counts (100 customers, 50 products, 200 orders) the tables have those many rows and 200 to 1000 line items |
| Pipeline.ForeignKeysResolve | diligent-main/generate_ecommerce_data.py:91-209 | every customer, order and product id referenced by an order, line item or review exists |
| Pipeline.ReviewedLine | diligent-main/generate_ecommerce_data.py:141-158 | an order-linked review's product appears on a line item of the order it was written for, an order of the review's author placed at most 30 days before the review |
| Pipeline.AuthorBoughtProduct | diligent-main/generate_ecommerce_data.py:141-158 | each order-linked review's author ordered that product, at most 30 days before the review |
| Pipeline.LinkedReviewsDistinct | diligent-main/generate_ecommerce_data.py:150-153 | two reviews written for the same order are of different products |
| Pipeline.ReviewDatesBounded | diligent-main/generate_ecommerce_data.py:155-158 | every review date lies between 540 days before the run and 30 days after it |
| Pipeline.StandalonePairsNew | diligent-main/generate_ecommerce_data.py:186-189 | a standalone review never repeats the (product, customer) pair of an earlier review |

## Left out

- `create_database.py` and `customer_analysis.py` are not part of this model. They are SQLite I/O and SQL or pandas aggregation.
- Faker's text: names, e-mails, cities, states, catch phrases, colour names, words and sentences are opaque strings supplied with the draws.
- Comment: the model records the word count requested with `nb_words`. Faker's `sentence` varies the actual count around it by default.
- Probability distributions: the rating weights, the 0.3 review probability and the uniformity of draws. The model quantifies over every outcome instead.
- Randomness.Sample: models the pool algorithm of `random.sample`. For a population of 50 products, Python actually uses rejection sampling. The draws map to outcomes differently. Both algorithms return every ordered selection of k distinct positions; `SampleReaches` proves this for the model.
- Floating point: `random.uniform(9.99, 999.99)` and `round(..., 2)` become a draw of integer cents. The order total is the exact sum in cents, where the script rounds a float sum.
- Dates: `datetime.now()` and Faker's "-2y" window are parameters. Calendar arithmetic is day-number arithmetic.
- Products.Title: models `str.title()` for ASCII letters only.
- Seeding (lines 12-13), DataFrame construction, `to_csv` writing and console output are not modelled. When the run fails, the CSV files written before the failure remain on disk. The model reports only the error.
