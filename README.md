# Food stand: product store, point of sale, sales report and product editor

This project models the core of a small food-stand application in Dafny and
proves properties of that model. The application has four parts:

- **Product store** (`server.js`): it keeps the product list. It appends a
  product, patches a product by id with a partial record, and applies a
  validated order by taking each ordered quantity off the stock of the first
  product with that id.
- **Point-of-sale terminal** (`pos.js`):
  - it shows the products on offer (not hidden, in stock);
  - +/- buttons build the current order within each product's stock;
  - it totals the order;
  - it computes the change owed and breaks it into euro notes and coins, greedily;
  - it refuses to validate an empty order, and empties the order once it is sent.
- **Sales report** (`bilan.js`): from a list of sales it computes:
  - the number of orders, the revenue and the average order value;
  - per product name, the units sold and the revenue;
  - the units of each sale;
  - the product rows sorted by decreasing revenue, each with its average price.
- **Stand-alone product editor** (`app.js`): it adds a product at the end of
  its list, saves a new price and stock on the first product with an id, and
  deletes every product with an id once the user confirms.

Modules:

- `Products`: the shared product record, and the "first product with this id" lookup.
- `Server`: the store, as the class `Inventory`, whose `products` field its
  handlers update.
- `Pos`: the terminal, as the class `Terminal` with `products` and
  `currentOrder` fields, plus pure functions for the listing, the stepper, the
  total and the change.
- `Bilan`: the report.
- `LocalEditor`: the editor, as the class `Catalogue`.
- `OrderFlow`: how the terminal and the store fit together.

Money is in integer cents throughout. Product ids and order keys are integers.

Products carry their own stock, and an order decrements product stocks
directly (server.js:93).

Each state-changing handler is a method. Its `ensures` ties the new state to a
specification function of the old state:

- `OrderApplied` for an order;
- `Updated`, a `Merge` into the first match, for a patch;
- `Stepped` for a click;
- `Saved` and `WithoutId` for the editor.

The properties the source promises are proved as lemmas about those functions.

## Model

| member | source | states |
|---|---|---|
| `Products.FirstIndex` | server.js:67 | The position of the first product carrying the id: that product carries it, none before it does, and None exactly when no product carries it. |
| `Products.Find` | pos.js:125 | Reference definition of `products.find(p => p.id == id)`: the product at `Products.FirstIndex`, None when there is none. Used by `Pos.Stepped`, `Pos.LineTotal` and `LocalEditor.Catalogue.Delete`. |
| `Products.FirstIndexSameIds` | server.js:91 | The lookup reads only ids: two lists with the same ids in the same places give the same position. Stock changes therefore never move the match. |
| `Server.Merge` | server.js:74 | The spread `{...p, ...patch}`: each field the body carries replaces the stored one, and every other field is kept. |
| `Server.MergeLaws` | server.js:74 | Merging the same patch into a record twice equals merging it once. An empty body changes nothing. Two merges into one record act as one merge of the combined patch. |
| `Server.Inventory.Add` | server.js:49-59 | The body is appended unchanged and answered back. There is no check that its id is new. |
| `Server.Inventory.Update` | server.js:62-81 | NotFound (None) and an unchanged list when no product has the id. Otherwise only the first match is replaced by the merge, and the merged record is returned. The new list is `Server.Updated` of the old one. |
| `Server.Updated` | server.js:67-74 | Reference definition of the list after one PUT: the first product with the id is replaced by the merge, and the list is unchanged when there is none. Its request-level laws are `Server.UpdatedTwice` and `Server.IdChangeBreaksCombining`. |
| `Server.UpdatedTwice` | server.js:62-81 | Two PUT requests on the same id, where the first body does not change the id, act as one request with the combined body. Sending such a body twice equals sending it once. |
| `Server.IdChangeBreaksCombining` | server.js:67-74 | A first body that changes the id breaks both laws. Examples: `{id:7}` then `{price:3}` on id 5 leaves the price as it was, whereas the combined body sets it; and sending `{id:7}` twice to two products with id 5 renames both, whereas sending it once renames only the first. |
| `Server.Decrement` | server.js:90-94 | Reference definition of one pass of the order loop: a positive quantity comes off the stock of the first product with the id; a non-positive quantity or an unknown id changes nothing; there is no floor at zero. Its properties are stated by `Server.DecrementAt` and `Server.DecrementExtendsOrder`. |
| `Server.OrderApplied` | server.js:88-96 | Reference definition of a whole order: each position loses the order's quantity for its id when that quantity is positive and the position is the first with that id. Its properties are stated by `Server.OrderOnlyChangesStock`, `Server.OrderDecrementsFirstMatch`, `Server.OrderTouchesOnlyFirstMatches`, `Server.SkippedEntries` and `Server.OrderMayOversell`. |
| `Server.Inventory.TakeOff` | server.js:89-95 | One pass of the order loop equals `Decrement`: a positive quantity comes off the first match's stock, and anything else changes nothing. |
| `Server.Inventory.ApplyOrder` | server.js:84-104 | Visiting the order's keys in any order yields `OrderApplied` of the old list. |
| `Server.DecrementExtendsOrder` | server.js:88-96 | Applying one more entry after the others is one `Decrement`. So every visiting order of the keys reaches the same list. |
| `Server.DecrementAt` | server.js:90-94 | One pass changes only the first position carrying the id, and only for a positive quantity. |
| `Server.OrderOnlyChangesStock` | server.js:93 | An order keeps the length, order, ids, names, prices and visibility of every product. |
| `Server.OrderDecrementsFirstMatch` | server.js:90-93 | A positive entry whose id is carried takes exactly its quantity off the first carrier's stock. |
| `Server.OrderTouchesOnlyFirstMatches` | server.js:91-93 | A position changes only when it is the first carrier of an id that the order gives a positive quantity. Later duplicates keep their stock. |
| `Server.SkippedEntries` | server.js:90-92 | Entries with a quantity of zero or less, and entries with an unknown id, can be dropped without changing the result. |
| `Server.OrderMayOversell` | server.js:93 | The store does not check stock: ordering more than the stock drives it below zero. |
| `Pos.OnSale` | pos.js:79-80 | The list on offer holds exactly the products that are not hidden (`isVisible !== false`) and have stock above zero. |
| `Pos.OnSaleKeepsOrder` | pos.js:79-81 | The filter keeps list order: filtering a concatenation concatenates the filtered parts. |
| `Pos.Quantity` | pos.js:211 | Reference definition of the current quantity read at pos.js:211: the order's entry when present, 0 otherwise. Used by `Pos.Stepped` and stated through `Pos.StepEffect`. |
| `Pos.Stepped` | pos.js:208-223 | Reference definition of a click: unknown product, nothing changes; + only below the stock, - only above zero; an entry of 0 is deleted. Its properties are stated by `Pos.StepEffect`, `Pos.StepKeepsPositive`, `Pos.StepKeepsWithinStock`, `Pos.StepUndo` and `Pos.StepChangesTotal`. |
| `Pos.StepEffect` | pos.js:208-223 | A click changes only the clicked product's entry: +1 only below the stock, -1 only above zero, and the entry is present exactly when non-zero. A click on an unknown product changes nothing. |
| `Pos.StepKeepsPositive` | pos.js:219-223 | Clicks never leave an entry of zero or less in the order. |
| `Pos.StepKeepsWithinStock` | pos.js:213-223 | An order in which each entry is a known product with a quantity between 1 and its stock keeps that property after any click. |
| `Pos.StepUndo` | pos.js:213-217 | On an order within stock (every entry a known product, between 1 and its stock), an accepted + followed by - restores the order, and an accepted - followed by + restores it too. |
| `Pos.LineTotal` | pos.js:123-128 | Reference definition of one entry's subtotal: price × quantity for a positive quantity of a listed product, 0 otherwise. Stated through `Pos.TotalSkipsEmptyLines` and `Pos.TotalSplit`. |
| `Pos.Total` | pos.js:122-128 | Reference definition of the order total, the sum of `Pos.LineTotal` over the order's keys. Its properties are stated by `Pos.SumLinesRemove`, `Pos.TotalSplit`, `Pos.SumLinesNonNegative` and `Pos.StepChangesTotal`; `Pos.Terminal.OrderTotal` is proved to compute it. |
| `Pos.SumLinesRemove` | pos.js:122-129 | The total does not depend on the order in which the order's keys are visited. |
| `Pos.SumLinesFrame` | pos.js:122-129 | The total over some keys depends on the order only at those keys. |
| `Pos.TotalSplit` | pos.js:122-129 | The total is one entry's line (price × quantity) plus the lines of all the other entries. |
| `Pos.TotalSkipsEmptyLines` | pos.js:124-126 | An entry of zero or less, or for a product no longer listed, adds nothing to the total. |
| `Pos.SumLinesNonNegative` | pos.js:127-128 | With prices of zero or more, the total is never negative. |
| `Pos.StepChangesTotal` | pos.js:213-223 | A click on a known product moves the total by its price times the change in its quantity. |
| `Pos.Terminal.OrderTotal` | pos.js:108-141 | The loop over the order's keys computes `Total`, the sum of each positive entry's price × quantity for products still listed. |
| `Pos.DenominationsAreACoinSystem` | pos.js:185 | The denominations (5000 … 1 cents) are positive and strictly decreasing, and they end with 1 cent. |
| `Pos.ListedPositive` | pos.js:189-193 | Only positive counts are listed, each with its own denomination. |
| `Pos.ListedComplete` | pos.js:189-193 | Every positive count is listed. |
| `Pos.ListedLargestFirst` | pos.js:188-193 | Listed lines come in strictly decreasing denomination. |
| `Pos.ListedValue` | pos.js:189-194 | The listed lines add up to the counts' value: dropping zero counts loses nothing. |
| `Pos.GreedyUnique` | pos.js:184-199 | The greedy breakdown is unique: two count vectors that both add up and leave less than each denomination after it are equal. |
| `Pos.GreedyStep` | pos.js:190-194 | One step takes as many of the next denomination as fit. What is left stays at zero or more, and below that denomination. |
| `Pos.GreedyBreakdown` | pos.js:184-199 | The loop produces the greedy breakdown of the amount. The lines list each positive count, in order, and add up to the amount. |
| `Pos.ChangeBreakdown` | pos.js:184-199 | The same result for the euro notes and coins. |
| `Pos.CalculateChange` | pos.js:153-180 | When the amount given covers the total, the change is the difference, with its breakdown. Otherwise the change is 0 and there are no lines. |
| `Pos.Terminal.Click` | pos.js:203-230 | The new order is `Stepped` of the old one, and the product list is unchanged. The invariant `Valid` (no entry of zero or less) is kept. |
| `Pos.Terminal.ProductsUpdated` | pos.js:252-255 | The list is replaced and the current order is kept unchanged. The invariant `Valid` is kept. The order may now exceed a stock or name a product that has gone. |
| `Pos.Terminal.Validate` | pos.js:237-249 | An empty order is refused and kept. Otherwise the order is sent as it was and the terminal starts an empty one. The invariant `Valid` is kept. |
| `Bilan.Revenue` | bilan.js:101 | Reference definition of the `reduce` over `totalAmount`. Its properties are stated by `Bilan.RevenueAppend` and `Bilan.AverageOrderValue`. |
| `Bilan.RevenueAppend` | bilan.js:101 | Revenue is additive over concatenated sale lists. |
| `Bilan.AverageOrderValue` | bilan.js:102 | Average × number of orders equals the revenue. With no orders the average is 0. |
| `Bilan.ItemsQuantity` | bilan.js:192 | Reference definition of the `reduce` over `item.quantity`. Its additivity is stated by `Bilan.ItemsQuantityAppend`. |
| `Bilan.SaleQuantity` | bilan.js:192 | Reference definition of the units shown for one sale, `Bilan.ItemsQuantity` of its items. Summed over the sales it counts every item, by `Bilan.SalesQuantityCountsEveryItem`. |
| `Bilan.SalesQuantityCountsEveryItem` | bilan.js:192 | The per-sale units, summed over the sales, equal the units of all items sold. |
| `Bilan.ItemsQuantityAppend` | bilan.js:192 | Units are additive over concatenated item lists. |
| `Bilan.Record` | bilan.js:107-115 | Reference definition of one pass of the inner `forEach`: the item's name gets an entry (0, 0) if it has none, then the item's quantity and total price are added to it. |
| `Bilan.Tally` | bilan.js:106-116 | Reference definition of the statistics, `Bilan.Record` applied item after item. `Bilan.TallyCounts` characterises it against independent per-name sums, and `Bilan.ProductStats` is proved to compute it. |
| `Bilan.TallyCounts` | bilan.js:105-117 | The statistics have an entry for exactly the names that occur. Each entry holds the units and revenue of every item with that name, so products sharing a name are merged. |
| `Bilan.AbsentName` | bilan.js:108-115 | A name no item carries has sold nothing. |
| `Bilan.ProductStats` | bilan.js:105-117 | The nested loops build the statistics `Tally` describes. |
| `Bilan.Summarize` | bilan.js:98-128 | The order count is the number of sales. It also gives the revenue, the average times the count equal to the revenue (0 without sales), and the per-name statistics characterised as in `TallyCounts`. |
| `Bilan.Insert` | bilan.js:222-223 | Inserting a row into rows sorted by decreasing revenue keeps them sorted and adds exactly that row. |
| `Bilan.SortByRevenue` | bilan.js:222-223 | The product rows come out in non-increasing revenue order, as a permutation of the input rows. |
| `Bilan.AveragePrice` | bilan.js:240 | Average price × units equals the revenue. With no units sold the average is 0. |
| `LocalEditor.WithoutId` | app.js:131-133 | The kept list holds exactly the products whose id differs, and is no longer than before. |
| `LocalEditor.WithoutIdAppend` | app.js:133 | Deleting from a concatenation deletes from each part, so the others stay in order. |
| `LocalEditor.WithoutIdIdempotent` | app.js:133 | Deleting an id twice is deleting it once. |
| `LocalEditor.WithoutAbsentId` | app.js:131-133 | Deleting an id no product carries changes nothing. So guarding on the lookup only matters for the confirmation. |
| `LocalEditor.DeleteRemovesEveryCopy` | app.js:133 | After a delete, no product carries the id, not only its first carrier. |
| `LocalEditor.Saved` | app.js:106-110 | Reference definition of a save: the first product with the id takes the new price and stock; with no such product the list is unchanged. Its properties are stated by `LocalEditor.SaveIsPricePatch` and `LocalEditor.SaveIdempotent`. |
| `LocalEditor.SaveIsPricePatch` | app.js:106-110 | Saving equals the store's partial update with a body carrying only price and stock, applied to the first carrier. With no carrier the list is unchanged. |
| `LocalEditor.SaveIdempotent` | app.js:106-110 | Saving the same values twice equals saving them once. |
| `LocalEditor.Catalogue.AddProduct` | app.js:76-84 | The new product is pushed at the end with the given id, name, price and stock and no visibility field. |
| `LocalEditor.Catalogue.Save` | app.js:106-110 | The list becomes `Saved` of the old list, and `found` tells whether some product carried the id. |
| `LocalEditor.Catalogue.Delete` | app.js:129-133 | When the id is found and the user confirms, every product with the id is filtered out. Otherwise nothing changes. |
| `OrderFlow.ClicksWithinStock` | pos.js:203-223 | Whatever the button presses from an empty order, while the product list stays the same, each entry is a known product with a quantity between 1 and its stock. A products-updated notification between presses can break this. |
| `OrderFlow.InSyncOrderNeverOversells` | server.js:88-96 | An order within the stocks of the list the store holds leaves every non-negative stock non-negative. |
| `OrderFlow.ClickedOrderNeverOversells` | pos.js:237-249 | An order built with the buttons on the store's current list never takes a stock below zero once applied. |

## Left out

- Persistence (the JSON file, localStorage), HTTP routing and status codes,
  Socket.IO broadcasts, `fetch` and DOM rendering are not modelled. Each
  handler is one step on an in-memory value. The store's answer to an order
  is always success.
- Concurrency between handlers is not modelled. Each handler reads, changes
  and writes the whole list, and the model treats it as one atomic step.
- Floating-point money, `parseFloat`/`parseInt` and `toFixed` are not
  modelled. Amounts are integer cents. `Math.round(change * 100)` and
  `Math.round(denom * 100)` are then exact, so the breakdown works on the
  change itself.
- Order keys and product ids are modelled as integers. In the source the keys
  of an order object are strings, and server.js:91 and pos.js:125 compare them
  with `==`, which first converts the key to a number. So `""` and blank keys
  match id 0, and `"5"`, `"05"`, `"5.0"`, `" 5"`, `"0x5"` and `"5e0"` all match
  id 5. One order body can therefore hold several distinct keys that each take
  stock off the same product (server.js:88-93). A `map<int, int>` has one entry
  per id and cannot express that. A product whose id is a non-numeric string
  (the add handler at server.js:50-52 accepts any body) does match its own key;
  the model has no such ids.
- Order quantities are JSON numbers in the source and may be fractional. The
  model makes them integers.
- `Product` and `Patch` carry only the five fields id, name, price, stock and
  isVisible. The spread at server.js:74 also keeps or adds any other field of
  the stored record or the body, and a body can set a field to `null`. The
  model has neither extra fields nor null values.
- The statistics object in the report is a plain object. Names such as
  `constructor` would find an inherited value there; the model uses a map
  keyed by name.
- Product ids minted with `Date.now()`: the new id is a parameter of
  `LocalEditor.Catalogue.AddProduct`.
- `confirm` and `alert` in the editor and at validation: the confirmation is
  the boolean parameter of `LocalEditor.Catalogue.Delete`, and alerts are not
  modelled.
- Icons chosen from the product name (`getProductIcon`), dates and times, and
  the HTML of the tables are not modelled.
- The early return of the order summary when every quantity is zero shows a
  total of 0. `Pos.TotalSkipsEmptyLines` shows that the loop would give the
  same total, so the model has no separate branch for it.
- Bilan.SortByRevenue: `Array.prototype.sort` is stable, and the insertion
  places a row before rows of equal revenue, so it keeps the input order
  among equals. That stability is not stated in the contract. The rows come
  from `Object.entries`, in the object's key order. The model sorts any list
  of rows and does not fix that order.
- Pos.ListedLargestFirst: it states that denominations are strictly
  decreasing and bounded below by the current one. Membership of each
  listed denomination in the euro list follows from `Pos.ListedPositive`
  (each line is some `ChangeLine(counts[i], ds[i])`).
- The page that toggles product visibility (gestion.js) is not part of this
  model. Its toggle is a partial update with only `isVisible`, covered by
  `Server.Inventory.Update`.
