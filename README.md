# Review dialogue and order store of a shopping chatbot, in Dafny

The chatbot is a webhook that a dialog platform calls once per user turn. The
product-review dialogue takes four steps:

1. `submit_review_start` offers the customer's unreviewed products.
2. `submit_review_product_confirm` and `submit_review_details_collect` take a
   product, a rating from 1 to 5 and a comment.
3. `submit_review_edit` changes the draft.
4. `submit_review_submit` stores the review.

`submit_review_continue`, `submit_review_select_different_product`,
`submit_review_end` and `submit_review_cancel` steer the dialogue. The turns
hand state to each other through *output contexts*. These are named
`.../contexts/submit_review_active`, `..._confirm` and `..._finalize`, and live
for five turns. When the product parameter is falsy, `product_confirm` and `details_collect`
fall back to the first context whose name ends with `submit_review_active`; `edit` and `submit` look up
the first ending with `submit_review_confirm`. `start`, `continue` and
`select_different_product` read no context.

The data-access layer adds:
- four guarded, all-or-nothing writes: placing an order, deleting an order,
  re-addressing an order and saving an address
- the bound selection of the by-price product query
- the repair of a receiver name that arrives as a dict or a list

The project has five files:

- `values.dfy` (`PyValues`): the JSON values the handlers receive, and the
  Python built-ins they apply to them:
  - truthiness
  - `dict.get`
  - the scalar-or-list idiom
  - `str`
  - `filter(str.isdigit, ...)`
  - `float`
- `review_flow.dfy` (`ReviewFlow`): each handler is a function. Its inputs are:
  - the request parameters
  - the incoming contexts
  - the session id
  - what the database returns that turn: the unreviewed product names, and the
    set of product names whose details are found

  A reply is an outcome tag plus the output contexts. `Submit` also returns the
  `insert_review` calls it made, and whether that call raises is an input.
- `review_properties.dfy` (`ReviewProperties`): properties that span several
  handlers or turns.
- `db_rules.dfy` (`DbRules`): the pure rules of the data-access layer.
- `order_store.dfy` (`OrderStore`): a `Store` class.
  - It holds the committed tables, the open transaction's buffer of writes, the
    id counters and a ghost log of committed writes.
  - Each write operation is a method. It issues its statements into the buffer
    and then commits, or rolls back when a statement raises.
  - The `failAt` parameter says which statement raises, if any. Statements are
    numbered from 0, and the commit counts as one.
  - Each method's contract says which tables result in each case. Lemmas tie the
    issued writes to a closed-form description of the new tables.

## Model

| member | source | states |
|---|---|---|
| PyValues.Get | main.py:51 | `parameters.get(key, default)` is the stored value when the key is present, the default otherwise |
| PyValues.FirstIfList | main.py:52-53 | a non-empty list becomes its first item, an empty list becomes the handler's default (None or ""), a scalar is kept |
| PyValues.ScalarOrSingleton | main.py:52-53 | a scalar and the one-element list holding it normalise to the same value |
| PyValues.FalsyValues | main.py:62 | the falsy values every `if x` / `if not x` guard tests for are exactly None, "", 0, 0.0, [] and {} |
| PyValues.Lookup | db_helper.py:498-501 | `'name' in d` fails exactly when no entry has that key; otherwise the result is the value of an entry with that key |
| PyValues.NatTextRoundTrip | main.py:293-294 | the decimal text of a natural number is all digits, non-empty, and reads back as that number |
| PyValues.Digits | main.py:293 | `filter(str.isdigit, ...)` yields only digits and leaves an all-digit string unchanged |
| PyValues.DigitsConcat | main.py:293 | the digits of a text are the digits of its parts, in order |
| PyValues.DigitsOfNonDigits | main.py:293 | a text without digits contributes no digits |
| PyValues.StrOfInt | main.py:293 | `str` of a non-negative int is its decimal text |
| PyValues.StrOfWholeFloat | main.py:293 | `str` of a whole non-negative float below 10^16 is its decimal text followed by ".0" (from 10^16 up see "Left out") |
| PyValues.ParseDecimalText | main.py:217 | `float` of a plain decimal text `W.F` is W + F / 10^len(F), either side of the point possibly empty |
| PyValues.ParseFloat | main.py:217 | `float` of an int or a float is that number; `float` of None, a list or a dict raises |
| PyValues.ParseWholeNumber | main.py:217 | `float` of the decimal text of a whole number is that number |
| ReviewFlow.ContextNameEndsWithStage | main.py:75 | every emitted context name ends with its stage name, so the suffix lookup finds it |
| ReviewFlow.FirstMatching | main.py:110-114 | the lookup returns the first context whose name ends with the stage; none is returned only when no context matches |
| ReviewFlow.NameList | main.py:77 | the carried `unreviewed_products` list holds the names in order, one string per product |
| ReviewFlow.ResolveProduct | main.py:109-114 | a truthy product parameter wins; otherwise the product of the first active context is taken; with no such context the falsy value stays |
| ReviewFlow.Start | main.py:48-97 | no unreviewed products gives no context; otherwise one active context carries the names, plus the product exactly when it is truthy, found in the catalog and unreviewed; the product is accepted exactly in that case; a missing or falsy product asks the user to choose one, and any other product is rejected |
| ReviewFlow.Continue | main.py:444-496 | the same gate as `Start`: no unreviewed products gives that reply and no context; otherwise the product is accepted if and only if it is truthy, its details are found and it is among the unreviewed names, a falsy product asks the user to choose one, and any other product is rejected |
| ReviewFlow.ProductConfirm | main.py:99-161 | the resolved product is accepted if and only if it is truthy, found and unreviewed; a falsy one asks the user to choose one, and any other is rejected; the active context carries the product exactly when it is accepted |
| ReviewFlow.ValidRating | main.py:216-219 | a rating is valid if and only if `float` accepts it and the value lies in [1, 5] |
| ReviewFlow.DetailsCollect | main.py:163-250 | a draft is made if and only if the product is truthy and unreviewed and the rating is truthy and valid; the confirm context then holds the product, the float rating, the comment and the names; otherwise a falsy or reviewed product is rejected (or, with no unreviewed products, that reply is given), a missing rating is asked for, and a rating that does not parse or lies outside [1, 5] is reported invalid |
| ReviewFlow.OldRating | main.py:281-284 | the carried rating is None, or the float that `float` reads from a truthy rating (0.0 included), and it is that float whenever `float` succeeds |
| ReviewFlow.EditedRating | main.py:287-298 | a falsy new rating passes through; a truthy one becomes the number formed by the digits of its `str` when there are digits and that number is at most 5 (0 included), and None otherwise |
| ReviewFlow.MergedRating | main.py:307 | a new rating that comes out None or "" leaves the carried rating; any other value replaces it |
| ReviewFlow.Edit | main.py:252-342 | the edit applies if and only if the carried product is truthy and the merged rating is not None; it re-issues the confirm context with product and list unchanged; otherwise it offers an active context without product |
| ReviewFlow.Contains | main.py:408 | on a list, `in` is membership of the string; on None or a number, `in` raises |
| ReviewFlow.RemoveAll | main.py:409 | the comprehension removes every occurrence of the product and keeps the count of every other element |
| ReviewFlow.RemoveAllConcat | main.py:409 | the comprehension keeps order: it distributes over concatenation |
| ReviewFlow.Without | main.py:409 | on a carried list, the comprehension is the list with the product removed |
| ReviewFlow.Carried | main.py:368-371 | a truthy carried list is kept as it is; a falsy one is replaced by the names from the database, so the result is truthy unless no product is unreviewed |
| ReviewFlow.Submit | main.py:344-442 | at most one `insert_review` call is made, if and only if product and rating are truthy and the product is unreviewed, with exactly the carried product, customer 1, rating and comment; otherwise the carried list is offered again; once the insert is made, the outcome is `Submitted` if and only if the insert returns and `in` on the carried value does not raise, and a failure otherwise, which re-issues the confirm context; success hands the list without the product to the finalize context |
| ReviewFlow.End | main.py:498-505 | the dialogue closes with no context |
| ReviewFlow.Cancel | main.py:507-514 | the dialogue is cancelled with no context |
| ReviewFlow.SelectDifferentProduct | main.py:516-557 | the product parameter is accepted if and only if its details are found and it is unreviewed, with no fallback to a context and no empty-list reply; the only other reply is the rejection |
| ReviewProperties.StartListOrScalar | main.py:51-53 | sending the product as a one-element list or as a scalar makes no difference to `submit_review_start` |
| ReviewProperties.EmittedContextIsFound | main.py:110-114 | a context a handler emits is found by the next handler's lookup, with its parameters |
| ReviewProperties.NameListCons | main.py:77 | the carried list of `h` followed by `t` is `h` followed by the carried list of `t` |
| ReviewProperties.NameListRemoveAll | main.py:409 | removing a product from the carried list equals carrying the names without it |
| ReviewProperties.DraftThenSubmit | main.py:163-250 | a draft made by `details_collect` and submitted next turn with a working insert stores one review with a rating in [1, 5]; the finalize context lists the other names in order |
| ReviewProperties.ZeroRatingOverrides | main.py:290-307 | a new rating that reads "0" escapes the range check and replaces the old rating with 0.0 |
| ReviewProperties.ZeroRatingEditBlocksSubmit | main.py:307-377 | an edit to rating 0 is applied, but the next submission stores nothing and goes back to the active context |
| ReviewProperties.EditedWholeNumber | main.py:290-298 | a whole number typed as new rating is taken as a float when at most 5, and dropped otherwise |
| ReviewProperties.IntegerNewRating | main.py:290-298 | a JSON integer from 1 to 5 as new rating is taken as that rating |
| ReviewProperties.FloatNewRatingDropped | main.py:293-296 | a JSON float 4.0 as new rating reads "4.0", whose digits form 40, so it is dropped |
| ReviewProperties.EditKeepsComment | main.py:301-308 | an edit whose new comment is falsy keeps the carried comment |
| ReviewProperties.EditPassesThrough | main.py:330-341 | an applied edit carries the product and the unreviewed list through unchanged |
| ReviewProperties.SubmittedListDropsProduct | main.py:404-427 | after a submission, the finalize list omits the product and keeps every other entry with its count |
| ReviewProperties.RemoveAllAbsent | main.py:408-409 | removing an absent product leaves the list as it is |
| ReviewProperties.SubmitFailsAfterStoring | main.py:404-442 | when the carried list is a number, the review is inserted and then the reply reports a failure |
| ReviewProperties.ConfirmTakesStartedProduct | main.py:109-114 | a product accepted by `submit_review_start` is accepted again by `product_confirm` when the next turn names none |
| ReviewProperties.SubmitNeedsConfirmContext | main.py:344-377 | a submission whose contexts hold no `submit_review_confirm` context stores nothing, and such an edit is refused |
| ReviewProperties.EditedNumberWithText | main.py:290-298 | a new rating typed as a whole number followed by text without digits is taken as that number when at most 5, and dropped otherwise |
| ReviewProperties.FourStars | main.py:292-294 | "4 stars" as new rating gives 4.0 |
| ReviewProperties.TypedRatingMerge | main.py:290-307 | such a typed new rating replaces the carried rating when at most 5; a larger one is discarded and the carried rating kept |
| ReviewProperties.EditTakesNewComment | main.py:301-308 | an applied edit with a truthy new comment stores that comment |
| ReviewProperties.CarriedZeroRatingKept | main.py:281-311 | a carried rating typed "0" with no new rating reads as 0.0, which is not None, so the edit applies with rating 0.0 |
| DbRules.PriceBounds | db_helper.py:44-76 | a query runs if and only if the range is "Under", or "Between" with exactly two prices; the bounds are 0 and the price, or the two prices; a brand filter is added exactly when the brand name is not "" |
| DbRules.NormaliseReceiverName | db_helper.py:497-508 | a dict gives its 'name' entry or its `str`; a non-empty list gives its first item's 'name' entry or that item's `str`; anything else is unchanged |
| DbRules.ListLikeFirstItem | db_helper.py:497-508 | a list whose first item is a dict or a string is repaired as that item alone would be |
| DbRules.RepairGivesString | db_helper.py:497-508 | a string, a dict, or a non-empty list headed by a dict or a scalar is repaired to a string, unless the 'name' entry it takes is not a string |
| OrderStore.ItemsNotOf | db_helper.py:466 | deleting an order's items leaves no item of that order and keeps the count of every other item |
| OrderStore.ApplyAllSnoc | db_helper.py:355 | a commit applies the buffered writes in the order they were issued |
| OrderStore.ItemRows | db_helper.py:348-353 | one `order_item` row per cart line, in order, tagged with the order id |
| OrderStore.PlaceWritesApply | db_helper.py:318-355 | issuing the header and then the item inserts yields the tables with the new order and its rows appended |
| OrderStore.WithoutOrder | db_helper.py:465-468 | after a deletion the order and its items are gone; every other order, every other order's items (with their counts) and all addresses are kept |
| OrderStore.DeleteWritesApply | db_helper.py:465-470 | the two delete statements together remove the order and its items |
| OrderStore.Readdressed | db_helper.py:538-547 | re-addressing adds the address and points the order at it; every other field of the order, the items and the other orders are kept |
| OrderStore.ReaddressWritesApply | db_helper.py:538-549 | the insert and the update together re-address the order |
| OrderStore.PlacedOrderIsNotProcessing | db_helper.py:341-342 | a freshly placed order is 'pending', so neither deletion nor re-addressing accepts it |
| OrderStore.Store.constructor | db_helper.py:15-29 | a store starts with the given tables, no open transaction and an empty log |
| OrderStore.Store.Execute | db_helper.py:331-344 | a statement that succeeds joins the open transaction |
| OrderStore.Store.Commit | db_helper.py:355 | commit applies the buffered writes and appends them to the log |
| OrderStore.Store.Rollback | db_helper.py:358 | rollback discards the buffered writes |
| OrderStore.Store.CountProcessing | db_helper.py:454-460 | the count is 1 exactly when the order exists with status 'Processing' (and belongs to the customer when one is given), 0 otherwise |
| OrderStore.Store.PlaceOrder | db_helper.py:318-362 | returns the new id exactly when no statement raises; the order and its items are then committed and the id was unused; otherwise nothing is committed |
| OrderStore.Store.DeleteOrder | db_helper.py:441-482 | succeeds if and only if the order is 'Processing' and no statement raises; it then removes the order and its items; otherwise nothing changes |
| OrderStore.Store.UpdateShippingAddress | db_helper.py:484-565 | succeeds if and only if the order is the customer's and 'Processing' and no statement raises; it then inserts the repaired-name address and repoints the order; otherwise nothing changes |
| OrderStore.Store.SaveNewShippingAddress | db_helper.py:275-292 | returns a fresh address id exactly when neither statement raises; the address is then committed; otherwise nothing changes |

## Left out

- The fulfillment texts are reduced to an outcome tag. This covers product lists with prices, greetings and the draft summary.
- `initial_comment` in `product_confirm` appears only in the text, so it is not modelled.
- The review date in `submit_review_submit` appears only in the text, so it is not modelled.
- `handle_request`, the intent dispatcher, is not modelled. Neither is `convert_decimals_to_floats`.
- `get_unreviewed_products` is not part of this model. It becomes the input `names`.
- `get_product_details` is not part of this model. It becomes the input `catalog`.
- `insert_review` is not part of this model. Whether it raises is the input `insertOk`.
- `get_customer_orders`, the other read-only queries, and `APIBackend.py` are not part of this model.
- SQL execution and the `print` debugging are not modelled.
- PyValues.FloatText: `str` of a whole float from 1e16 up is written by Python in exponent form ("1e+16"), while the model writes all its digits and ".0"; the edit handler drops both, since their digits form numbers above 5. `str` of a non-integral float is approximated. The model prints the exact decimal expansion of the real value, capped at 17 places, not Python's shortest round-trip repr. It never uses Python's exponent form: Python's `str(0.00001)` is "1e-05", whose digits "105" make the edit drop the rating, while the model reads "0.00001" and takes 1.0.
- PyValues.ParseFloat: `float` of an int beyond the double range (2^1024 or more in magnitude) raises `OverflowError`, which `details_collect` and `edit` do not catch, so the handler itself raises; the model reads it as the number.
- PyValues.ParseFloat: the text is read as an exact decimal, while Python rounds it to the nearest double. "5.00000000000000001" and "0.99999999999999999" become 5.0 and 1.0 in Python and pass the rating range check; in the model they are 5 + 10^-17 and 1 - 10^-17 and are rejected.
- PyValues.ParseFloat: only ASCII digits and ASCII white space are recognised. Python's `float` also reads other Unicode decimal digits (U+0663, Arabic-Indic digit three, is 3.0) and strips other Unicode white space (a no-break space before "4" still gives 4.0); the model gives no number for such texts.
- PyValues.ParseFloat: exponents, `inf`/`nan` and underscores are not accepted. A rating "nan" is therefore rejected by the model, while Python's `details_collect` accepts it, because both range comparisons are False for NaN.
- PyValues.Value has no `bool`. A JSON `true` rating, which `float` reads as 1.0, is not modelled.
- The multi-turn lemmas take a turn's incoming contexts to be exactly the previous reply's output contexts. Lifespans are not tracked, so a context that an earlier turn emitted and that is still alive is not modelled. `submit_review_end` and `submit_review_cancel` return no contexts but do not expire live ones, so a `submit_review_confirm` context from before a cancel can still reach `submit`. This affects DraftThenSubmit, ConfirmTakesStartedProduct, ZeroRatingEditBlocksSubmit and SubmitNeedsConfirmContext.
- `handle_request` reads the first incoming context before dispatching, so a request with no context raises before any handler runs. The handlers are modelled as called directly.
- PyValues.Digits: `str.isdigit` is limited to ASCII digits.
- PyValues.PyRepr: quote escaping in `repr` of strings is not modelled.
- OrderStore.Store.PlaceOrder takes `order_details` as a typed record. A missing key raises inside the `try` and rolls back, which the model folds into a failure at statement 0. A malformed cart line is folded into a failure at that line.
- OrderStore.Store.PlaceOrder and OrderStore.Store.SaveNewShippingAddress report a failure as None when the connection is missing. The code opens its cursor outside the `try`, so it would raise to the caller instead.
- OrderStore.Store.DeleteOrder and OrderStore.Store.UpdateShippingAddress fold a missing connection, even after `init_db_connection`, into a failure at statement 0.
- The id counters stand for the database sequences: a rolled-back insert still uses up its number.
- Concurrency between webhook calls sharing one connection is not modelled.
- `delete_order` and `update_shipping_address` document the status as 'processing', but their queries compare with 'Processing'. The model follows the queries.
