# Log generator: instrumentation library and service tables

The repository runs five small Express microservices: user, product, order, payment
and notification. Each service keeps its records in an in-memory array. Each one
installs `Logify`, a logging library: it tags every inbound request with a start
time and a request id, and wraps `res.send` to keep running request statistics.
In three of the services it also registers an error middleware that answers 500 to
the errors that reach it.

This project models in Dafny:

- **`Logify`** (`logify.dfy`, `stats.dfy`):
  - the constructor's option defaults;
  - the `apiStats` counters and their incremental running mean;
  - the ingress tagger `requestLogger`;
  - the `res.send` wrapper installed by `responseLogger`;
  - `errorHandler`;
  - `getApiStats`.

  Log calls are abstract records appended to a ghost sequence. The counters are a
  class, `Stats.ApiStats`, which carries a ghost list of the response times it has
  folded in. Its invariant says the stored average is the arithmetic mean of that
  list.
- **The five service tables** (`user.dfy`, `product.dfy`, `order.dfy`, `payment.dfy`,
  `notification.dfy`):
  - each service is a class whose table is a `seq` field;
  - each handler is a method returning a `Reply`: a status code with a value, an
    empty 204, or an `{ error }` body;
  - lookups and listings are functions;
  - the payment and notification services each also own an `ApiStats`, which their
    handlers update by hand.
- **Shared helpers** (`common.dfy`):
  - JavaScript truthiness and `||` defaulting;
  - ASCII `toLowerCase`;
  - `includes`;
  - `find`/`findIndex`, `filter` and `splice`, with lemmas about them.

External inputs become parameters:

- `Math.random()` failure injection is a `bool`.
- `uuidv4()` is a `freshId`.
- `Date.now()`/`new Date()` is `now`, or the handler's `elapsed` time in ms.
- A request body or query field that may be missing is an `Option`: `None` stands for `undefined`.

How the code behaves where it is easy to misread:

- **errorHandler counts a failure and no request.** It increments only
  `failedRequests` (lib/logify/index.js:120) and leaves the total and the mean
  alone, so successes plus failures can exceed the total. `Logify.Logify.Valid`
  accounts for this with a ghost count of error-middleware runs. Its 500 answer goes
  out through `res.status(500).json`, and so through `res.send` (121): a response
  that carries the send wrapper would count the same error once more as a failed
  request. `Logify.Logify.ErrorHandler` states both effects.
- **Which errors reach errorHandler.** The user, product and order services register
  it after the logging middleware and before every route
  (services/user/src/index.js:16-21, services/product/src/index.js:17-23,
  services/order/src/index.js:17-23). Only an error raised by `cors()` or
  `express.json()` reaches it, such as a malformed JSON body. For such a request
  neither `requestLogger` nor `responseLogger` has run. `Logify.SuccessThenUnhandledError`
  runs one tagged request answered 201 after 50 ms, and then such an error on an
  untagged request. The counters end at `{total 1, success 1, failed 1, average 50}`.
- **Double send.** Nothing guards against a second `send` on one response
  (lib/logify/index.js:81-103), so each call counts again.
  `Logify.DoubleSendCountsTwice` shows this.
- **Installing responseLogger twice.** Each installation wraps the send already
  there (80-81), so one send counts once per wrapper.
  `Logify.InstalledTwiceCountsTwice` shows this.
- **The wrapped send's payload.** The wrapper passes the send it replaced the
  `arguments` of `responseLogger()` itself, which are empty, not `data` (102). The
  model records an empty argument list for every wrapped send.

## Model

| member | source | states |
|---|---|---|
| Logify.Configure | lib/logify/index.js:17-21 | the service name is kept; each of elasticsearchUrl, indexPrefix, logLevel is the supplied value when truthy, else 'http://localhost:9200', 'logify', 'info' |
| Logify.Logify.constructor | lib/logify/index.js:17-47 | the configuration is `Configure(options)`; all four counters start at 0, with no log records |
| Logify.Logify.RequestLogger | lib/logify/index.js:54-71 | the request gets start time `now` and the fresh id; exactly one ingress record carrying that same id is logged |
| Logify.IngressRecord | lib/logify/index.js:60-68 | an info record 'Incoming request' under the request's id, carrying its method and path |
| Logify.EgressRecord | lib/logify/index.js:94-100 | an info record 'Outgoing response' under the request's id (absent when the request was never tagged), carrying status, response time, path and method |
| Logify.TagOf | lib/logify/index.js:82-99 | what a wrapper reads of its request: the id, the start time, the path and the method, copied unchanged |
| Logify.ResponseTimesAt | lib/logify/index.js:82 | the i-th wrapper of a chain measures `now` minus the start time of its own request |
| Logify.EgressRecordsAt | lib/logify/index.js:94-100 | the i-th egress record of a chain is the i-th wrapper's record, with the status the response has at send time |
| Logify.Logify.ResponseLogger | lib/logify/index.js:78-81 | the current `send` gets one more wrapper, placed outermost and closing over the request; status and delivered replies are unchanged |
| Logify.Logify.WrapperStep | lib/logify/index.js:82-100 | one wrapper's work: total + 1 with its response time appended to the averaged times, failures + 1 when status >= 400 and successes + 1 otherwise (never both), one egress record logged; the invariant is kept |
| Logify.Logify.SendThrough | lib/logify/index.js:81-103 | calling the wrapper at position i runs it and every wrapper inside it once each, in order: the total grows by their number, their response times are appended in that order, and all of them count a failure (status >= 400) or all a success; their egress records are logged in that order. The framework's send receives `args` only when no wrapper is left, and otherwise the empty `arguments` of `responseLogger()` |
| Logify.Logify.Send | lib/logify/index.js:81-103 | one `send` with k installed wrappers adds k to the total and k to failures (status >= 400) or to successes, appends each wrapper's response time and logs its egress record; the framework's send runs exactly once, with no arguments when wrapped and with `data` when not, and nothing guards against a second call. The invariant (mean of recorded times; successes + failures = total + error-middleware runs) is kept |
| Logify.Logify.ErrorHandler | lib/logify/index.js:112-122 | logs the error's message and stack under the request id, counts one failure and sets status 500; the fixed `{"error":"Internal server error"}` body then goes through `res.send`, so each installed wrapper adds one request, one failure and its response time. With no wrapper the total, successes and average are unchanged; the invariant is kept |
| Logify.DoubleSendCountsTwice | lib/logify/index.js:81-103 | two sends on one wrapped 200 response count two requests and two successes, and reach the framework's send twice |
| Logify.InstalledTwiceCountsTwice | lib/logify/index.js:78-103 | with responseLogger installed twice, one send at 30 ms counts total 2, successes 2, average 30, and reaches the framework's send once |
| Logify.SuccessThenUnhandledError | lib/logify/index.js:81-122 | a 201 after 50 ms gives total 1, success 1, failed 0, average 50; an error that reaches errorHandler ahead of the logging middleware then gives failed 1 with everything else unchanged, status 500 and one unwrapped delivery of the fixed body |
| Logify.Logify.GetApiStats | lib/logify/index.js:129-131 | the total is the number of recorded response times, the average is their arithmetic mean, and successes + failures = total + error-middleware runs |
| Stats.ApiStats.constructor | lib/logify/index.js:42-47 | all four counters 0, no recorded times, invariant established |
| Stats.ApiStats.Read | lib/logify/index.js:129-131 | the copy's total is the number of recorded times and its average their mean; the other counters are copied |
| Stats.ApiStats.CountRequest | lib/logify/index.js:85-86 | total + 1 followed by the post-increment running-mean update keeps the average equal to the mean of the recorded times with `t` appended; the other counters are unchanged |
| Stats.ApiStats.CountSuccess | lib/logify/index.js:91 | successes + 1, nothing else changes |
| Stats.ApiStats.CountFailure | lib/logify/index.js:89 | failures + 1, nothing else changes (total and average included) |
| Stats.SumAppend | lib/logify/index.js:86 | the sum of the times with one more appended is the old sum plus it |
| Stats.NextAverageIsMean | lib/logify/index.js:86 | one application of `(avg*(total-1)+t)/total`, with the post-increment total, to the mean of k times gives the mean of the k+1 times |
| Stats.RunningAverageIsMean | lib/logify/index.js:85-86 | after k updates with t1..tk starting from 0 the average is (t1+…+tk)/k |
| Common.FindIndex | services/user/src/index.js:157 | the result is the first index whose element matches; None exactly when no element matches |
| Common.FindIndexAppend | services/user/src/index.js:137 | after `push`, earlier matches are found where they were, and the new element is found at the end only when nothing earlier matches |
| Common.FindIndexReplace | services/user/src/index.js:176 | replacing an element by one that matches the same lookups leaves every lookup result unchanged |
| Common.Filter | services/order/src/index.js:100 | the result is an order-preserving subsequence of the input, every element satisfies the predicate, and every satisfying element is kept as often as it occurs |
| Common.FilterKeepsAll | services/user/src/index.js:79 | filtering by a predicate true of every element returns the sequence itself (the `[...users]` start of a search) |
| Common.FilterAgrees | services/notification/src/index.js:78 | filtering depends only on the predicate's values on the elements |
| Common.FilterThen | services/notification/src/index.js:78-81 | two successive filters equal one filter by the conjunction |
| Common.NarrowFiltered | services/notification/src/index.js:80-82 | an `if (c) results = results.filter(q)` step after a filter equals one filter by the predicate conjoined with `!c || q` |
| Common.NarrowThree | services/user/src/index.js:79-98 | three conditional filter steps equal one filter by the conjunction of the supplied conditions |
| Common.FilterNarrowThree | services/notification/src/index.js:78-88 | a filter followed by three conditional filter steps equals one filter by the conjunction |
| Common.NarrowFour | services/product/src/index.js:85-109 | four conditional filter steps equal one filter by the conjunction |
| Common.RemoveAt | services/user/src/index.js:204 | `splice(i, 1)`: one element shorter; elements before `i` stay and those after shift down by one; the removed element is exactly the difference as a multiset |
| UserService.Merged | services/user/src/index.js:167-174 | `\|\|`-merge: each of name, email, role and status is the supplied value when truthy and the old one otherwise; id, lastLogin and createdAt are kept; updatedAt is stamped |
| UserService.Users.constructor | services/user/src/index.js:23-26 | the two seeded active users, with lastLogin at start-up |
| UserService.Users.IndexOf | services/user/src/index.js:157 | the first index with that id; None when no user has it |
| UserService.Users.Get | services/user/src/index.js:56-66 | Ok(200) exactly when some user has the id, and then the first such user; otherwise 404 'User not found' |
| UserService.Users.Search | services/user/src/index.js:79-98 | equals one filter by "every truthy filter holds": case-insensitive substring of `query` in the name or the email, case-insensitive equality of role and status. The result is an order-preserving subsequence, every element matches, and every matching user is included |
| UserService.Users.Create | services/user/src/index.js:118-137 | injected failure: 400 'Invalid user data', table unchanged. Otherwise 201 and exactly one user appended, with the fresh id, the role or 'user' if falsy, and status 'active'. A fresh id not yet in the table is then found by Get |
| UserService.Users.Update | services/user/src/index.js:157-176 | unknown id: 404, no change. Otherwise only the matched index is replaced by the merge, where each of name, email, role and status takes the supplied value if truthy and otherwise keeps the old one; updatedAt is stamped; every id lookup is unchanged |
| UserService.Users.Delete | services/user/src/index.js:194-211 | unknown id: 404, no change; otherwise exactly the matched user is removed, the rest keep their order, and the removed user is returned |
| UserService.Users.PatchStatus | services/user/src/index.js:224-243 | a missing user gives 404 before the status is checked; a status other than active/inactive/suspended gives 400 with no change; otherwise only that user's status changes |
| UserService.Users.Login | services/user/src/index.js:262-281 | missing user: 404; status not 'active': 403, no change; otherwise only that user's lastLogin becomes `now`, and it is returned |
| ProductService.Merged | services/product/src/index.js:179-186 | `\|\|`-merge: each of name, price, stock and category is the supplied value when truthy and the old one otherwise, so a price or stock of 0 keeps the old value; id, rating and createdAt are kept; updatedAt is stamped |
| ProductService.Products.constructor | services/product/src/index.js:25-31 | the five seeded products, with no timestamps; every stock is non-negative |
| ProductService.Products.IndexOf | services/product/src/index.js:169 | the first index with that id; None when no product has it |
| ProductService.Products.Get | services/product/src/index.js:61-71 | Ok(200) exactly when some product has the id, and then the first such product; otherwise 404 'Product not found' |
| ProductService.Products.Search | services/product/src/index.js:85-109 | equals one filter by every supplied condition: case-insensitive name substring, case-insensitive category equality, and inclusive minPrice/maxPrice bounds. The result is an order-preserving subsequence containing exactly the matching products |
| ProductService.Products.Create | services/product/src/index.js:130-149 | injected failure: 400, no change. Otherwise 201 and one product appended, with category 'Uncategorized' when falsy and rating 0; the fresh id is then found by Get |
| ProductService.Products.Update | services/product/src/index.js:169-188 | unknown id: 404, no change; otherwise only the matched index changes, to the `\|\|`-merge (a 0 price or stock keeps the old one); the length and every id lookup are unchanged |
| ProductService.Products.Delete | services/product/src/index.js:206-223 | unknown id: 404, no change; otherwise exactly the matched product is removed, the others keep their order, and it is returned |
| ProductService.Products.PatchStock | services/product/src/index.js:236-258 | missing product: 404; stock + quantity < 0: 400 'Insufficient stock', no change; otherwise only that product's stock becomes stock + quantity; non-negative stocks stay non-negative. For a numeric quantity |
| OrderService.Orders.constructor | services/order/src/index.js:25 | the table starts empty |
| OrderService.Orders.IndexOf | services/order/src/index.js:115 | the first index with that id; None when no order has it |
| OrderService.Orders.Create | services/order/src/index.js:42-59 | injected failure: 400 'Invalid order data', no change; otherwise 201 and one 'pending' order appended with the fresh id, which Get then finds |
| OrderService.Orders.Get | services/order/src/index.js:79-89 | Ok(200) exactly when some order has the id, and then the first such order; otherwise 404 'Order not found' |
| OrderService.Orders.ListByUser | services/order/src/index.js:100-102 | exactly the orders with that userId, each as often as it occurs, as an order-preserving subsequence |
| OrderService.Orders.UpdateStatus | services/order/src/index.js:115-125 | unknown id: 404, no change; otherwise only the matched order's status becomes the supplied value, unvalidated; every id lookup is unchanged |
| PaymentService.Payments.constructor | services/payment/src/index.js:25-33 | empty table; the local counters start at 0 |
| PaymentService.Payments.IndexOf | services/payment/src/index.js:77 | the first index with that id; None when no payment has it |
| PaymentService.Payments.OfOrder | services/payment/src/index.js:97 | exactly the payments with that orderId, each as often as it occurs, as an order-preserving subsequence |
| PaymentService.Payments.RecordSuccess | services/payment/src/index.js:64-66 | successes + 1, total + 1, elapsed appended to the averaged times; total = successes is kept |
| PaymentService.Payments.Create | services/payment/src/index.js:42-70 | a falsy orderId, amount (0 included), currency or paymentMethod gives 400 and only failures + 1, with the table unchanged. Otherwise 201 and one 'pending' payment with no processedAt is appended, a success is counted, and the fresh id is found at the end |
| PaymentService.Payments.Get | services/payment/src/index.js:73-90 | missing: 404 and only failures + 1; else the first payment with the id and a counted success |
| PaymentService.Payments.ListByOrder | services/payment/src/index.js:93-104 | the order's payments, with a counted success |
| PaymentService.Payments.Cancel | services/payment/src/index.js:107-131 | missing: 404; 'completed': 400, no change; any other status (failed and cancelled included) becomes 'cancelled'. Failure paths count only a failure, the success path a success and a request, so total = successes and the average is the mean over successes alone |
| NotificationService.PriorityOrDefault | services/notification/src/index.js:44 | the destructuring default applies only to an absent priority; any supplied value, '' included, is kept |
| NotificationService.Notifications.constructor | services/notification/src/index.js:25-33 | empty table; the local counters start at 0 |
| NotificationService.Notifications.IndexOf | services/notification/src/index.js:135 | the first index with that id; None when no notification has it |
| NotificationService.Notifications.OfUser | services/notification/src/index.js:78-88 | equals one filter by "this user, and each truthy status/type/priority equal"; an order-preserving subsequence containing exactly the matching notifications |
| NotificationService.Notifications.RecordSuccess | services/notification/src/index.js:64-66 | successes + 1, total + 1, elapsed appended; total = successes is kept |
| NotificationService.Notifications.Create | services/notification/src/index.js:42-70 | a falsy userId, type or message gives 400 and only failures + 1. Otherwise one notification is appended: priority 'normal' when absent, 'pending', sentAt null. A success is counted, and the fresh id is found at the end |
| NotificationService.Notifications.ListByUser | services/notification/src/index.js:73-96 | the filtered listing, with a counted success |
| NotificationService.Notifications.PatchStatus | services/notification/src/index.js:99-128 | the status is validated first: outside pending/sent/failed gives 400 even for an unknown id. A valid status with an unknown id gives 404. Either failure counts only a failure and changes nothing. Otherwise only that notification is updated; sentAt is set only when the status is 'sent' |
| NotificationService.Notifications.Delete | services/notification/src/index.js:131-149 | unknown id: 404, only failures + 1, no change; otherwise exactly the matched notification is removed, the rest keep their order, 204, and a success is counted |

## Left out

- Logging: the winston logger, its Console and Elasticsearch transports, level filtering and timestamps (lib/logify/index.js:24-39) are third-party. A log call is an abstract record in a ghost sequence.
- The `info`/`warn`/`error`/`debug` wrappers (lib/logify/index.js:138-167) only forward to winston. The handlers' own log calls are not recorded.
- Express mechanics are not modelled: middleware order, `next`, route matching, `cors`, `express.json`, and `res.status().json()` serialising its argument. The 500 body is the fixed serialised string, handed to `send`.
  - The search routes are registered after `/:id` and are shadowed in Express. Only their handler logic is modelled.
- Logify.Logify.Send: the return value of the framework's `send` is not modelled.
- Logify.Logify.Send: requires every installed wrapper's request to carry a start time. In the source a wrapper over a request `requestLogger` never tagged computes `Date.now() - undefined`, which is NaN and turns the average into NaN; floating point NaN is not modelled.
- Logify.Logify.ErrorHandler: requires the same start times as `Send`, for the same reason.
- Logify.Logify.ResponseLogger: a wrapper reads its request's id, start time, path and method when it is installed; the source reads them when `send` runs. The two differ only if `requestLogger` runs again on the same request after `responseLogger`.
- ProductService.Products.PatchStock: `quantity` is taken to be a number. With no quantity the source computes NaN, `NaN < 0` is false, so it answers 200 and stores NaN as the stock; a string quantity is concatenated to the stock. Neither is modelled.
- Logify.Logify.GetApiStats: returns a snapshot copy. The source returns the live `apiStats` object, so later requests are visible through it.
- The list-all handlers (`GET /api/users`, `GET /api/products`), with their randomly injected 500, and every `/api/stats` handler only serialise a table or the counters.
- Timers are nondeterministic and concurrent, so they are left out:
  - the payment and notification background processors;
  - the delayed log in order create.
- `logify.errorLogger()` and the `logify` package imported by the payment and notification services are not part of this model. lib/logify/index.js defines no `errorLogger`.
- The Go simulators, the Logstash plumbing, the traffic bot and lib/middleware-common are not part of this model.
- Floating point: response times are integers, and the average and prices are exact `real`s, with no rounding and no NaN.
- ProductService.Products.Search: the price bounds are already numbers. `parseFloat` on a malformed bound (NaN, which no product satisfies) is not modelled. An empty bound string is not represented.
- Body fields that the create handlers store unchecked (user name and email, product price and stock, order fields) are taken as given values. An `undefined` stored in a record is not represented.
- UserService.Users.Login: the reply body `{ message, lastLogin }` is reduced to the login time.
- Case-insensitive comparison folds ASCII letters only. JavaScript's full Unicode `toLowerCase` is not modelled.
- Timestamps are the integer `now`. `new Date()` objects and ISO strings are not distinguished.
