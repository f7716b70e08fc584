# tradingflow order core, modelled in Dafny

This project models the order-handling core of tradingflow. That is a
trading dashboard in which a user registers Binance API keys as "brokers",
composes an *order list* in the browser and submits it through an HTTP API.
The model covers five parts:

- **The shared schema** (`Schema`). This is the zod validator for an order
  list, with its cross-field refinement. It also covers the domain and
  default of a stored order's status and the two unique constraints of the
  brokers table.
- **The Binance translation** (`OrderTypeMapping`, `OrderRequest`,
  `Flattening`).
  - `binanceOrderTypeMapping` picks the exchange order type from the client
    type, the side, the stop price and the live price.
  - `submitBinanceOrder` builds the request for the first leg of the first
    group.
  - `getFlattenedOrders` turns the whole tree into rows for the orders table.
- **The API routes** (`Brokers`, `OrderSubmission`, `AccountReads`,
  `Projections`, `TtlCache`).
  - Broker registration and update, with the permission check.
  - Order-list submission.
  - The cached holdings, positions and open-orders reads, with their
    projections of exchange data.
  - The daily balance history.
- **The order editor** (`Editor`, `EditorValidation`).
  - Adding and deleting groups, legs and sub-lists.
  - Drag-and-drop reordering.
  - The editor's own validation before it submits.
  - The clean-up it applies to the list it sends.
- **Helpers** (`Wrappers`, `Text`, `Http`). These hold `Option`, the
  JavaScript string operations the core uses (`startsWith`, `endsWith`,
  `trim`, ASCII case mapping) and the three kinds of reply a route can give:
  - a bare status;
  - a JSON body;
  - no reply at all, when the handler returns `undefined`.

The model makes these choices:

- Everything the system reads from outside is a function parameter. That
  covers the exchange (permission report, live price, submission status,
  account data), the database (tables as maps, each insert or update
  failing exactly on a key or unique-constraint violation) and the clock.
- An exchange call that throws is an oracle answer of `None`. The route
  then answers 500, as the app's error handler does, and writes nothing.
- Each route returns its reply together with the table or cache afterwards
  and the exchange calls it made.
- JavaScript numbers are `real`.
- Dates are day ordinals.

### Where the code and the documented design differ

The model follows the code in both of these cases:

- **Sub-list rows are repeated.** `getFlattenedOrders` runs the sub-list
  loop inside the loop over the primary batch
  (`apps/api/src/utils/binance.ts:54-108`). So every primary leg is followed
  by a full copy of all sub-list legs. The documented traversal emits the
  batch once and then each sub-list leg once.
  - `Flattening.GroupRowsMatchDocumented` proves that the two agree exactly
    when a group has one primary leg or no sub-list legs.
  - `OrderSubmission.RepeatedLegRejectedAfterSubmission` proves the
    consequence: with two primary legs and a sub-list leg, the same id is
    inserted twice. The insert then fails and the route answers 500, after
    the first leg has already been placed on the exchange.
- **A stop-limit leg may have no stop price.** The schema's refinement
  tests "ends with `limit`" first (`packages/lib/src/schema.ts:134-147`).
  So a `stop_loss_limit` leg needs a price but never a stop price. Such a
  leg is then submitted without a stop price and is classified as
  take-profit if it is a buy (see `OrderRequest.StopLimitWithoutStopPriceSubmitted`).

## Model

| member | source | states |
|---|---|---|
| Schema.RefinementByType | packages/lib/src/schema.ts:134-147 | The refinement read type by type: market needs nothing, limit and stop-limit need a price, stop-market needs a stop price. |
| Schema.StopLossLimitWithoutStopPriceAccepted | packages/lib/src/schema.ts:134-147 | A stop-limit leg with a positive price and no stop price passes the schema, and so does a market leg with neither price. |
| Schema.ValidListWellShaped | packages/lib/src/schema.ts:149-162 | A list the schema accepts has at least one group and no empty batch at either level. |
| Schema.StoredStatus | packages/lib/src/schema.ts:107 | A row inserted without a status is stored as `pending`; a given status is kept. |
| Schema.WriteBroker | packages/lib/src/schema.ts:92 | A brokers-table write is refused exactly when another row shares (user, label) or (key, secret); otherwise only that row changes, and uniqueness is preserved. |
| Schema.InsertBroker | packages/lib/src/schema.ts:71-73 | An insert is also refused on a taken primary key; an accepted insert keeps the table free of clashes. |
| OrderTypeMapping.MapOrderType | apps/api/src/utils/binance.ts:4-46 | Limit maps to LIMIT and market to MARKET; each stop type maps to the exchange table entry of its market, of the family chosen by side and stop-above-price, and of its own limit or market variant. |
| OrderTypeMapping.TableRoundTrip | apps/api/src/utils/binance.ts:17-44 | Within a market the eight exchange types are distinct: each one reads back as the family and variant it was chosen for. |
| OrderTypeMapping.StopTypeClassified | apps/api/src/utils/binance.ts:17-44 | The exchange type sent for a stop leg always reads back as the inferred family and the leg's own variant. |
| OrderTypeMapping.FlipSideSwapsFamily | apps/api/src/utils/binance.ts:17-44 | Flipping buy and sell at the same prices swaps stop and take-profit and keeps the variant. |
| OrderTypeMapping.EqualStopPriceIsNotAbove | apps/api/src/utils/binance.ts:10 | The comparison is strict: a stop price equal to the live price makes a buy take-profit and a sell stop. |
| OrderTypeMapping.SpotBuyStopAboveExample | apps/api/src/utils/binance.ts:31-34 | A spot buy stop-market with stop 50000 at price 49000 is sent as `STOP_LOSS`. |
| OrderRequest.BuildOrderRequest | apps/api/src/utils/binance.ts:113-131 | The request carries the group's symbol and the first leg's side, quantity and id with `RESULT`. Its order type is the mapped type of the first leg at the live price. Price and `GTC` are sent exactly for a type ending in "limit", and the stop price exactly for one starting with "stop_loss", each only when the leg has it. |
| OrderRequest.RequestFieldsByType | apps/api/src/utils/binance.ts:113-131 | For a schema-valid first leg, price and time-in-force are sent exactly for limit and stop-limit; a stop-market leg always sends its stop price; sent prices are positive. |
| OrderRequest.StopLimitWithoutStopPriceSubmitted | apps/api/src/utils/binance.ts:17-22 | A buy stop-limit leg without a stop price is sent without one, as the take-profit-limit type of its market. |
| Flattening.FlattenLength | apps/api/src/utils/binance.ts:48-111 | The flattened list has, per group, one row per primary leg plus one per primary leg per sub-list leg. |
| Flattening.GroupRowsLayout | apps/api/src/utils/binance.ts:54-108 | With s sub-list legs, primary leg j is row j*(s+1) and sub-list leg k follows it at row j*(s+1)+1+k. |
| Flattening.FlattenFilledCount | apps/api/src/utils/binance.ts:58-71 | A `FILLED` response marks exactly one row per group with a non-empty batch as filled; otherwise no row carries a status. |
| Flattening.BatchRowsFromStatus | apps/api/src/utils/binance.ts:58-85 | Only the first row of a group can carry a status, and only `filled` after a reported fill. |
| Flattening.FlattenRowOwner | apps/api/src/utils/binance.ts:51-52 | Every row carries the broker id and the market and symbol of the group it came from. |
| Flattening.GroupRowsMatchDocumented | apps/api/src/utils/binance.ts:54-108 | The rows equal the documented batch-then-sub-lists traversal exactly when the group has one primary leg or no sub-list legs. |
| Flattening.RepeatedSubLegId | apps/api/src/utils/binance.ts:87-107 | With two primary legs and a sub-list leg, that sub-list leg's id appears twice among the group's rows. |
| OrderSubmission.InsertOrders | packages/lib/src/schema.ts:95-98 | A multi-row insert succeeds exactly when all ids are new and pairwise distinct; it then stores each row with its resolved status and keeps every existing row. |
| OrderSubmission.SubmitOrderList | apps/api/src/index.ts:233-292 | An invalid list or a missing broker gets 400 with no exchange call, and a Bybit broker gets no reply. For a Binance broker, a failed price query gets 500 with no further call. Otherwise there is one price query and one submission on the first group's market. A failed submission gets 500; after a successful one the reply is 201 exactly when the flattened rows insert, else 500. Any reply but 201 leaves the orders table unchanged. |
| OrderSubmission.RepeatedLegRejectedAfterSubmission | apps/api/src/index.ts:262-266 | A valid list with a group of two or more primary legs and a sub-list leg always gets 500 with the orders table unchanged; once the price is known, this happens after the submission call. |
| OrderSubmission.SingleStopMarketScenario | apps/api/src/index.ts:250-267 | One spot buy stop-market leg (stop 50000, price 49000) is sent as `STOP_LOSS`. If the submission fails, the reply is 500 and nothing is stored. Otherwise the leg is the only new row, `filled` if the exchange reports a fill and `pending` otherwise. |
| OrderSubmission.GroupBlock | apps/api/src/utils/binance.ts:51-109 | Each group's rows appear as one contiguous block of the flattened list. |
| Brokers.RegisterBroker | apps/api/src/index.ts:87-129 | Only Binance is handled, with exactly one permission query. A failed query gets 500, and refused permissions get 400. The reply is 201 exactly when the permissions pass and the row breaks no key or unique constraint; the table then gains exactly the accepted row, with the label, key pair, `ok` status and the report's IP restriction and creation time. Otherwise the table is unchanged. Uniqueness is preserved. |
| Brokers.UpdateBroker | apps/api/src/index.ts:140-206 | A missing broker gets 400. Unchanged credentials: no exchange query; the reply is 204 exactly when the new label clashes with no other row, and then only the label changes. Changed Binance credentials: one query, with 500 if it fails and 400 if the permissions are refused; otherwise 204 exactly when the accepted row clashes with no other row, and then it replaces the old one. Changed to Bybit: no reply. Uniqueness is preserved. |
| Brokers.LabelOnlyUpdate | apps/api/src/index.ts:149-192 | Re-submitting the stored exchange and credentials with a free label changes only the label and does not depend on the exchange's report. |
| TtlCache.Get | packages/lib/src/index.ts:15 | A read returns the stored value exactly while the clock has not passed the entry's expiry. |
| TtlCache.SetThenGet | apps/api/src/index.ts:318 | A value written with a time-to-live is read back through `now + ttl` and not after. |
| TtlCache.SetKeepsOthers | apps/api/src/index.ts:318 | Writing one key leaves every other key's reading unchanged. |
| AccountReads.CacheAside | apps/api/src/index.ts:293-364 | A live entry is returned with no lookup or exchange call. On a miss, a missing broker gets 400 and Bybit no reply. Binance makes one exchange read: its value is returned and cached for 30 seconds, or, if the read fails, 500 with nothing cached. |
| AccountReads.GetHoldings | apps/api/src/index.ts:293-328 | A fetched reply is the holdings projection of the broker's spot balances; the reply is 500 exactly when a miss on a Binance broker meets a failed balance read. |
| AccountReads.GetPositions | apps/api/src/index.ts:329-371 | A fetched reply is the positions projection of the broker's futures positions; the reply is 500 exactly when a miss on a Binance broker meets a failed position read. |
| AccountReads.GetOpenOrders | apps/api/src/index.ts:454-528 | A fetched reply is the open-orders projection of the requested market's orders; the reply is 500 exactly when a miss on a Binance broker meets a failed read. |
| AccountReads.AtMostOneFetchWithinTtl | apps/api/src/index.ts:296-318 | Two reads of one key at most 30 seconds apart, the first not failing, reach the exchange at most once, and a fetched value is served again unchanged. After a failed first read, the second read behaves as if the first had not happened. |
| AccountReads.FetchAgainAfterTtl | apps/api/src/index.ts:296-318 | Once 30 seconds have passed since a read that went to the exchange, the next read goes to the exchange again and answers with that read's result. |
| AccountReads.BalanceHistory | apps/api/src/index.ts:372-453 | A missing broker or Bybit gets 400. Binance makes one wallet read; if it fails, the reply is 500 and nothing is written. Otherwise today's balance is written for 30 days, and the reply is `days` entries, oldest first and ending today, each with the cache's reading for its day; today's entry is the balance just written. |
| AccountReads.AssembleHistory | apps/api/src/index.ts:413-438 | The assembled list has one entry per requested day, consecutive and ascending to today, each with that day's cached balance or null. |
| AccountReads.HistoryAscending | apps/api/src/index.ts:437-438 | The history's days are strictly increasing. |
| Projections.FilterMap | apps/api/src/index.ts:312-317 | Filter-then-map: every output comes from a kept input, and every kept input's image is in the output. |
| Projections.FilterMapAppend | apps/api/src/index.ts:312-317 | Filter-then-map distributes over concatenation, so input order is kept. |
| Projections.ProjectHoldings | apps/api/src/index.ts:312-317 | The holdings are exactly the assets with a non-zero free or locked amount, each with free + locked. |
| Projections.PositionSideOf | apps/api/src/index.ts:352 | "BOTH" and "LONG" are recognised; every other value is short. |
| Projections.ProjectPositions | apps/api/src/index.ts:348-360 | The positions are exactly those with a non-zero amount, which becomes the quantity. |
| Projections.OpenOrderTypeName | apps/api/src/index.ts:478 | Outside the trigger types of each market, the listed type is the exchange type lower-cased. |
| Projections.NormalizeOpenOrder | apps/api/src/index.ts:474-515 | The id is the client order id. The symbol, side, quantity, filled quantity and both timestamps carry over. The type is the market's client name for the exchange type. Price and stop price are present exactly when non-zero, with their values. `NEW` lists as `open`. A position side appears only on futures, mapped as for positions. |
| Projections.OpenOrderNameInvertsTable | apps/api/src/index.ts:478-507 | On both markets, an order placed as a family and variant is listed under the client name of that family and variant. |
| Projections.ListedOpenOrderNames | apps/api/src/index.ts:478-507 | In the open-orders listing, an order held as the exchange type of a family and variant is named by that family and variant's client type. |
| Projections.ListedTypeOfPlacedLeg | apps/api/src/index.ts:478-507 | Listing an order placed for a leg gives back the leg's type for limit and market; for a stop leg, exactly when the stop family was chosen. |
| Projections.ProjectWallets | apps/api/src/index.ts:400-405 | Exactly the spot and USD-M futures wallets are kept, each tagged with its market. |
| Editor.AddOrderListItem | apps/web/src/components/trading-interface.tsx:224-239 | Appends a spot BTCUSDT group with one default market-buy leg and no sub-lists; earlier groups are kept; shape is preserved. |
| Editor.AddBatchOrder | apps/web/src/components/trading-interface.tsx:247-258 | Appends a default leg to one group's batch; the group gains one leg and every other group is unchanged. |
| Editor.AddSubOrderList | apps/web/src/components/trading-interface.tsx:260-273 | Appends a one-leg sub-list to one group; nothing else changes. |
| Editor.AddSubBatchOrder | apps/web/src/components/trading-interface.tsx:275-286 | Appends a default leg to one sub-list; other sub-lists and groups are unchanged. |
| Editor.DeleteBatchOrder | apps/web/src/components/trading-interface.tsx:300-307 | Removes one primary leg; a group left without primary legs is removed; no batch is ever left empty. |
| Editor.DeleteBatchOrderLegCount | apps/web/src/components/trading-interface.tsx:300-307 | Deleting a primary leg removes one leg, and deleting a group's last primary leg also discards all its sub-list legs. |
| Editor.DeleteSubBatchOrder | apps/web/src/components/trading-interface.tsx:309-316 | Removes one sub-list leg; a sub-list left empty is removed; the primary batch and other groups are unchanged. |
| Editor.ArrayMove | apps/web/src/components/trading-interface.tsx:327 | A move is a permutation that puts the moved element at the target index and keeps the others in order. |
| Editor.ArrayMoveInverse | apps/web/src/components/trading-interface.tsx:327 | Moving an element back to its old index undoes a move. |
| Editor.FindIndex | apps/web/src/components/trading-interface.tsx:324-325 | Returns the first index holding the id, or -1 exactly when no leg holds it. |
| Editor.MoveLeg | apps/web/src/components/trading-interface.tsx:318-330 | No drop target, or a drop on itself, changes nothing; otherwise the dragged leg lands at the target's index; the batch is always a permutation of the old one. |
| Editor.HandleDragEnd | apps/web/src/components/trading-interface.tsx:318-330 | Reorders one group's batch as a permutation; every other group, the group's sub-lists and the shape are kept. |
| Editor.HandleSubDragEnd | apps/web/src/components/trading-interface.tsx:332-344 | Reorders one sub-list as a permutation; other sub-lists, the primary batch and other groups are kept. |
| Editor.DragBackRestores | apps/web/src/components/trading-interface.tsx:318-330 | With distinct ids, dragging a leg onto another and then back onto the leg now at its old place restores the batch. |
| EditorValidation.LegError | apps/web/src/components/trading-interface.tsx:360-377 | A leg passes exactly when quantity > 0, limit and stop-limit have a positive price, and stop-limit and stop-market have a positive stop price. The quantity is checked first, then the price, then the stop price. |
| EditorValidation.LegsError | apps/web/src/components/trading-interface.tsx:360-378 | The legs pass exactly when each one does; otherwise the error reported is that of the first failing leg. |
| EditorValidation.ValidateIff | apps/web/src/components/trading-interface.tsx:346-382 | The editor accepts a list exactly when it has a group and every group has a non-blank symbol, a non-empty batch and only passing primary legs. |
| EditorValidation.ReportsFirstFailure | apps/web/src/components/trading-interface.tsx:351-379 | The reported error is that of the first failing group, and every group before it passes. |
| EditorValidation.ValidationMessage | apps/web/src/components/trading-interface.tsx:346-382 | The editor returns null exactly when every group has a non-blank symbol, a non-empty batch and only passing primary legs; otherwise it returns the message of the first failed check. |
| EditorValidation.MessageIdentifiesError | apps/web/src/components/trading-interface.tsx:348-375 | The six messages are distinct, so the message names the check that failed. |
| EditorValidation.BlankSymbolIsEmptyTrim | apps/web/src/components/trading-interface.tsx:352 | The blank-symbol error is reported exactly when the symbol trims to the empty string. |
| EditorValidation.ValidateIgnoresSubLists | apps/web/src/components/trading-interface.tsx:351-379 | Two lists differing only in their sub-lists get the same verdict. |
| EditorValidation.CleanOrder | apps/web/src/components/trading-interface.tsx:396-404 | A cleaned leg keeps its id, type, side and quantity; its parent id, price and stop price are kept only when truthy. |
| EditorValidation.CleanGroup | apps/web/src/components/trading-interface.tsx:392-406 | A cleaned group keeps its market and its sub-lists untouched. Its symbol is trimmed and upper-cased. Its primary legs keep their number, and each is cleaned in place. |
| EditorValidation.KeepTruthy | apps/web/src/components/trading-interface.tsx:402-403 | A price is sent exactly when present and non-zero, and then unchanged. |
| EditorValidation.KeepNonEmpty | apps/web/src/components/trading-interface.tsx:397 | A parent id is sent exactly when present and non-empty. |
| EditorValidation.CleanIdempotent | apps/web/src/components/trading-interface.tsx:392-407 | Cleaning a cleaned list changes nothing. |
| EditorValidation.CleanedSymbolsNormalised | apps/web/src/components/trading-interface.tsx:385-394 | A list the editor accepts is sent with every symbol trimmed, upper-cased and not blank. |
| EditorValidation.ValidateAfterClean | apps/web/src/components/trading-interface.tsx:385-407 | Cleaning does not change the editor's verdict. |
| EditorValidation.CleanListServerValid | apps/web/src/components/trading-interface.tsx:385-412 | A list the editor accepts, cleaned, passes the API schema when no primary price is negative and the sub-lists already satisfy the schema. |
| EditorValidation.SubListLegEscapesEditor | apps/web/src/components/trading-interface.tsx:351-379 | A sub-list leg of quantity 0 passes the editor, and the cleaned list is refused by the API schema. |
| EditorValidation.NegativeMarketPriceEscapesEditor | apps/web/src/components/trading-interface.tsx:365-370 | A market leg with a negative price passes the editor, and the cleaned list is refused by the API schema. |
| Text.TrimEmpty | apps/web/src/components/trading-interface.tsx:352 | A string trims to empty exactly when it is all white space. |
| Text.UpperTrimIdempotent | apps/web/src/components/trading-interface.tsx:394 | Trimming and upper-casing a symbol twice equals doing it once. |
| Text.UpperTrimBlank | apps/web/src/components/trading-interface.tsx:394 | The trimmed, upper-cased symbol trims to empty exactly when the original was all white space. |

## Left out

- Network, database and Redis I/O are not modelled. They become oracle parameters and maps. An exchange call may fail: the oracle then answers `None`, and the route answers 500, as the app's error handler does. Database errors other than a key or unique-constraint violation are not modelled.
- Authentication and sessions are not modelled.
- Request validation by the HTTP framework (non-empty strings) is not modelled. The `days` query parameter is declared with `min` and `max`, which are not bound keywords of the validator, so the route accepts any number of days. The balance history is modelled for every integer `days`.
- Fractional `days` is not modelled (a fractional value gives a loop of `ceil(days)` iterations).
- The GET and DELETE broker routes, `GET /api/brokers` and the order-detail route are left out. They are plain reads and deletes with no logic of their own.
- Timestamps other than `credentialsCreatedAt`, and row ids from `nanoid`, are left out. Each new broker id is a parameter.
- Dates and time zones are left out: the local-midnight date computation is modelled as an integer day ordinal.
- Floating-point arithmetic is not modelled. Numbers are `real`, so NaN, rounding and `Number()` parsing of exchange strings are absent.
- Text.Upper: `toUpperCase` and `toLowerCase` are modelled for ASCII letters only, because the symbols and exchange names involved are ASCII.
- The editor's `updateOrderListItem`, `updateBatchOrder` and `updateSubBatchOrder` are left out. They are plain field assignments.
- `generateOrderId` is left out: fresh leg ids are parameters.
- Editor.MoveLeg requires both drag ids to belong to the batch being reordered. Each batch is its own sortable context, so the `-1` index case of `arrayMove` is not modelled.
- `arrayMove` comes from the drag-and-drop library and is not part of this model; it is modelled as remove-then-insert.
- The Bybit branches are not modelled. Their handlers return nothing, and the model reports that as "no reply".
