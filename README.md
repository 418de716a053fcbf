# Stripe Assist in Dafny

Stripe Assist is a web chat assistant for a Stripe test account. A signed-in user of an organization
writes in a chat. The server sends the conversation to a language model together with a catalog of 25
tools (create a customer, list prices, cancel a subscription, advance a test clock, ...). It runs every
tool call the model asks for against the Stripe API through a table of handlers and feeds the results
back, for at most ten rounds, until the model answers in text. The answer and the tool results are
stored. Every tool call is written to an audit log, and the browser shows each tool result with its
dashboard links.

The model covers:

- `Chat` (`chat.dfy`): the conversation loop. This is the seeded transcript with the mode's system
  prompt in front, the bounded loop of provider calls, dispatch by name with per-call error isolation,
  the two turns appended per tool round, and the final answer or abort text. The provider and the
  handlers are function parameters. `ProcessChat` is a `method` with the loop, proved against the
  functions `Step`/`StateAfter`.
- `Handlers` (`handlers.dfy`): the handler table and its parameter mapping. This covers the `||`
  defaults, conditional fields, the coupon precedence, the two-step cancellation, the timestamp
  conversions with the `RangeError` an invalid date throws, `frozenTime` parsing and dashboard URLs. Stripe SDK calls are parameters.
- `Catalog` (`catalog.dfy`): the tool catalog as a constant, with its well-formedness proved.
- `ChatRoute` (`chat_route.dfy`): the chat endpoint. A `Store` class over the session, message and
  audit tables, the guards, the history, the title and mode updates, the audit trail and the error
  classification cascade.
- `ChatMessages` (`chat_messages.dfy`): the display transforms of tool results (labels, dashboard
  links, cleaning).
- `Middleware` (`middleware.dfy`): the authentication gate.
- `StripeKeyRoute` (`stripe_key_route.dfy`): the key settings endpoint, an `Organizations` class
  whose record the verbs update.
- `ChatContainer`, `ChatSidebar`, `ChatInput`, `SettingsPage`: the client components as classes over
  their React state. Requests, dialogs and clocks are parameters.
- `Json`, `Text`, `Wrappers`: JavaScript values and the truthiness rules, string helpers (trim,
  decimal digits, prefix tests), and `Option`/`Result`.

## Model

| member | source | states |
|---|---|---|
| Chat.SystemPrompt | src/lib/ai/chat.ts:24-73 | the prompt is the shared base followed by the simulation suffix exactly for simulation mode and the execution suffix otherwise |
| Chat.SystemPromptDistinguishesModes | src/lib/ai/chat.ts:56-72 | the two modes get different prompts |
| Chat.SeedShape | src/lib/ai/chat.ts:89-114 | a non-empty history gives one turn per message. The first is a user turn holding `prompt + "\n\n" + first content`, and later turns keep their order with role user mapped to user and any other role to model. An empty history gives exactly one user turn holding only the prompt |
| Chat.SeedContents | src/lib/ai/chat.ts:91-114 | the loop that pushes the seed turns builds exactly the transcript `Seed` describes |
| Chat.Normalize | src/lib/ai/chat.ts:162-184 | every call result is an object. An object or array is kept unchanged, any other value (null included) is wrapped as `{value}`, a thrown Error gives `{error: message}` and anything else thrown gives `{error: "Unknown error"}` |
| Chat.CallResult | src/lib/ai/chat.ts:155-192 | a named call yields a result with its name and its args (`{}` when absent). A name with no handler gives `{error: "Unknown function: " + name}`, and a name with one gives the normalized outcome of that handler |
| Chat.CallResultIsObject | src/lib/ai/chat.ts:162-192 | no call result is a primitive, and it has an `error` key exactly when the handler is missing, threw, or returned an object with such a key |
| Chat.CallResultAsWritten | src/lib/ai/chat.ts:160-163 | the lookup as written agrees with the corrected one on every handler name and on every name the object prototype does not define. On a prototype member it dispatches to that inherited function |
| Chat.ToStringIsDispatchedAsWritten | src/lib/ai/chat.ts:160-192 | a call named `toString` is dispatched as written and yields `{value: "[object Undefined]"}`, while the intended result is `{error: "Unknown function: toString"}` |
| Chat.CallPartsAreTheCalls | src/lib/ai/chat.ts:140 | the filtered calls are exactly the function calls among the parts, and never more than the parts |
| Chat.ToolRoundIff | src/lib/ai/chat.ts:137-142 | a reply is a tool round exactly when it has content and at least one part carries a function call |
| Chat.RoundResultsFollowNamedCalls | src/lib/ai/chat.ts:152-192 | one round yields one result per call that has a name, in order. Nameless calls yield nothing |
| Chat.ResponseParts | src/lib/ai/chat.ts:195-201 | one function-response part per result, in the same order, carrying that result's name and value |
| Chat.DispatchCalls | src/lib/ai/chat.ts:150-201 | the inner `for` loop yields exactly the round's results and their response parts |
| Chat.ProcessChat | src/lib/ai/chat.ts:116-227 | the provider is called between 1 and 10 times, each time with the current transcript. The recorded catalog is the unmodified one by construction, because the provider parameter receives only the transcript. The states form a run of `Step` from the seed, whose calls go through the own-key `CallResult`, the corrected lookup. A final non-tool reply gives its answer with every accumulated result. After ten tool rounds the abort text is returned with all results |
| Chat.RunExtend | src/lib/ai/chat.ts:120-210 | a run followed by the step of its last state's tool reply is again a run |
| Chat.RunIsStateAfter | src/lib/ai/chat.ts:143-207 | the i-th state of any run is `StateAfter(i)`, whose transcript is the seed followed by two turns per round |
| Chat.RunFromAlongRun | src/lib/ai/chat.ts:120-210 | every round of a run but the last asks for tools, so the loop's outcome from any round of the run is its outcome from the last one |
| Chat.ProcessChatComputesRunResult | src/lib/ai/chat.ts:116-227 | what the loop returns is a function of the seed, the provider and the handlers: the answer of the first round without tools, or the abort text after ten tool rounds |
| Chat.Round | src/lib/ai/chat.ts:124-220 | one iteration asks the provider. It ends with the answer exactly when the reply is no tool round; otherwise the new state is `Step` of the old one |
| Chat.StepAppendsTwoTurns | src/lib/ai/chat.ts:144-207 | a tool round appends exactly two turns, the model turn with all its parts and then one user turn of function responses, and appends its results to the accumulated ones |
| Chat.TranscriptGrows | src/lib/ai/chat.ts:120-210 | after j rounds the transcript has `seed + 2j` turns, and earlier transcripts and result lists are prefixes of later ones |
| Chat.ResponsesMatchResults | src/lib/ai/chat.ts:195-207 | the i-th function response of a round carries the name and result of the round's i-th result |
| Chat.ResultsAreNamed | src/lib/ai/chat.ts:157-191 | every accumulated result has a non-empty name |
| Chat.AnswerText | src/lib/ai/chat.ts:213-220 | a final reply succeeds with every accumulated result. Its text is the fallback exactly when its concatenated text parts are empty or equal the fallback |
| Chat.ErrorsComeFromProvider | src/lib/ai/chat.ts:132-135 | the loop fails only when the provider raises or returns no candidate content, never because of a tool |
| Chat.FinalTextOfTexts | src/lib/ai/chat.ts:214-215 | the final text of text-only parts is their concatenation in order |
| Handlers.DashboardUrl | src/lib/ai/function-handlers.ts:4 | a dashboard URL is the test dashboard base, the resource, a slash and then exactly the id |
| Handlers.DashboardUrlInjective | src/lib/ai/function-handlers.ts:33 | two dashboard URLs for one resource are equal only for equal ids |
| Handlers.ToStringIsNoHandler | src/lib/ai/function-handlers.ts:11 | `toString` is not one of the handler names |
| Handlers.InheritedMembersAreNoHandlers | src/lib/ai/function-handlers.ts:11-606 | none of the twelve names every object inherits is a handler name |
| Handlers.HandlersMatchCatalog | src/lib/ai/function-handlers.ts:11-606 | there are 25 distinct handler names, and a name has a handler exactly when the catalog declares it |
| Handlers.HandlerNamesAreDeclared | src/lib/ai/stripe-functions.ts:2-526 | the catalog declares the handler names in the handler table's order |
| Handlers.OrDefault | src/lib/ai/function-handlers.ts:40 | `x \|\| d` is x when x is truthy and d otherwise |
| Handlers.ListLimitDefaults | src/lib/ai/function-handlers.ts:40 | a missing, null, zero, false or empty limit becomes 10, and a truthy limit is passed on unchanged |
| Handlers.ListHandlersShareLimit | src/lib/ai/function-handlers.ts:37-560 | all six list handlers pass the same defaulted limit; payment methods default to cards; prices expand their product |
| Handlers.ListSubscriptionsParams | src/lib/ai/function-handlers.ts:190-203 | the limit is always sent, and `customer` and `status` only when truthy |
| Handlers.CreateProductParams | src/lib/ai/function-handlers.ts:68-73 | `active` is always a boolean and is false exactly when the argument is literally false |
| Handlers.RecurringObject | src/lib/ai/function-handlers.ts:106-111 | the recurring object has the interval and the count `recurringIntervalCount \|\| 1` |
| Handlers.CreatePriceParams | src/lib/ai/function-handlers.ts:98-113 | the product and amount pass through, the currency defaults to jpy, and `recurring` is sent exactly when the interval is truthy |
| Handlers.CreateCustomerParams | src/lib/ai/function-handlers.ts:13-25 | email and metadata pass through, and `test_clock` is set only when `testClockId` is truthy |
| Handlers.CreateSubscriptionParams | src/lib/ai/function-handlers.ts:158-172 | customer and one price item always, and `trial_period_days` and `discounts` only when their arguments are truthy |
| Handlers.PreviewInvoiceParams | src/lib/ai/function-handlers.ts:319-338 | customer always, and `subscription`, the price item and the coupon discount each only when its argument is truthy |
| Handlers.PreviewSubscriptionParams | src/lib/ai/function-handlers.ts:367-379 | customer and the price item always, never an existing subscription, and the coupon only when truthy |
| Handlers.CouponDiscount | src/lib/ai/function-handlers.ts:260-265 | a truthy percentage wins; otherwise a truthy amount is set with the currency defaulting to jpy; no other field changes |
| Handlers.CreateCouponParams | src/lib/ai/function-handlers.ts:255-279 | the duration always, `percent_off` and `amount_off` never both, and each optional field only when truthy |
| Handlers.CouponOptions | src/lib/ai/function-handlers.ts:267-277 | the three optional coupon fields are each set exactly when truthy, and nothing else changes |
| Handlers.CancelSubscription | src/lib/ai/function-handlers.ts:221-252 | `cancel_at_period_end` is `cancelAtPeriodEnd !== false`. The immediate cancel call is made, and its shape returned, exactly when the flag is literally false |
| Handlers.CanceledShape | src/lib/ai/function-handlers.ts:233-240 | the immediate-cancel result throws "Invalid time value" exactly when `canceled_at` is truthy but no valid date. Otherwise it links to the subscription and carries its status, its cancellation time and no error |
| Handlers.CanceledObject | src/lib/ai/function-handlers.ts:234-240 | the immediate-cancel object carries the status, the converted cancellation time and the subscription link, and no error |
| Handlers.PendingCancelShape | src/lib/ai/function-handlers.ts:243-251 | the period-end result throws "Invalid time value" exactly when `cancel_at` is truthy but no valid date. Otherwise it links to the subscription and reports its flag, its cancellation time and no error |
| Handlers.PendingCancelObject | src/lib/ai/function-handlers.ts:244-251 | the period-end object carries the flag, the converted cancellation time and the subscription link, and no error |
| Handlers.GetCustomerResult | src/lib/ai/function-handlers.ts:51-65 | a deleted customer gives an error object rather than a throw. Any other customer throws "Invalid time value" exactly when `created` is no valid date, and otherwise gives its id, creation time and dashboard link and no error |
| Handlers.CustomerShape | src/lib/ai/function-handlers.ts:56-64 | the customer object carries the id, the converted creation time and the customer link, and no error |
| Handlers.Timestamp | src/lib/ai/function-handlers.ts:61 | a number within 8.64e12 seconds of the epoch gives its ISO text; a missing field or a number outside that range throws "Invalid time value" |
| Handlers.TimestampOrNull | src/lib/ai/function-handlers.ts:236-238 | a falsy field gives null, and the conversion throws exactly when the field is truthy but no valid date |
| Handlers.TimestampOrNullOfNumber | src/lib/ai/function-handlers.ts:236-249 | on a field holding a number or null, only a number outside the date range throws, and a non-zero number in range gives its ISO text |
| Handlers.IdText | src/lib/ai/function-handlers.ts:239 | the text of a string id is that id |
| Handlers.ParseFrozenTime | src/lib/ai/function-handlers.ts:408-415 | an all-digit input is read as a base-10 number, and any other input goes to the date parser |
| Handlers.CreateTestClockParams | src/lib/ai/function-handlers.ts:407-420 | the clock is created with the parsed frozen time and the given name |
| Handlers.AdvanceTestClockCall | src/lib/ai/function-handlers.ts:463-476 | the advance call targets the clock and sends only the parsed frozen time |
| Handlers.UnixTimestampPassesThrough | src/lib/ai/function-handlers.ts:411-412 | the decimal text of any natural number, or that number itself, is parsed back to that number |
| Handlers.MissingFrozenTimeIsParsedAsDate | src/lib/ai/function-handlers.ts:408-414 | a missing frozen time ("undefined") takes the date branch |
| Handlers.CustomerDashboardUrl | src/lib/ai/function-handlers.ts:362 | the preview's customer link is the customer dashboard base followed by the text of `customerId` |
| Handlers.PreviewLinkWithoutCustomer | src/lib/ai/function-handlers.ts:402 | without a customer id the link ends in "undefined" |
| Catalog.Names | src/lib/ai/stripe-functions.ts:2-526 | the names are listed one per declaration, in order |
| Catalog.CreateCustomerWellFormed | src/lib/ai/stripe-functions.ts:5-30 | the parameters form an object schema with distinct property names, each of type string, integer, number or boolean, and every required name is one of the properties |
| Catalog.ListCustomersWellFormed | src/lib/ai/stripe-functions.ts:31-47 | the parameters form an object schema with distinct property names, each of type string, integer, number or boolean, and every required name is one of the properties |
| Catalog.GetCustomerWellFormed | src/lib/ai/stripe-functions.ts:48-63 | the parameters form an object schema with distinct property names, each of type string, integer, number or boolean, and every required name is one of the properties |
| Catalog.CreateProductWellFormed | src/lib/ai/stripe-functions.ts:64-85 | the parameters form an object schema with distinct property names, each of type string, integer, number or boolean, and every required name is one of the properties |
| Catalog.ListProductsWellFormed | src/lib/ai/stripe-functions.ts:86-104 | the parameters form an object schema with distinct property names, each of type string, integer, number or boolean, and every required name is one of the properties |
| Catalog.CreatePriceWellFormed | src/lib/ai/stripe-functions.ts:105-138 | the parameters form an object schema with distinct property names, each of type string, integer, number or boolean, and every required name is one of the properties |
| Catalog.ListPricesWellFormed | src/lib/ai/stripe-functions.ts:139-161 | the parameters form an object schema with distinct property names, each of type string, integer, number or boolean, and every required name is one of the properties |
| Catalog.CreateSubscriptionWellFormed | src/lib/ai/stripe-functions.ts:162-187 | the parameters form an object schema with distinct property names, each of type string, integer, number or boolean, and every required name is one of the properties |
| Catalog.ListSubscriptionsWellFormed | src/lib/ai/stripe-functions.ts:188-208 | the parameters form an object schema with distinct property names, each of type string, integer, number or boolean, and every required name is one of the properties |
| Catalog.CancelSubscriptionWellFormed | src/lib/ai/stripe-functions.ts:209-228 | the parameters form an object schema with distinct property names, each of type string, integer, number or boolean, and every required name is one of the properties |
| Catalog.CreateCouponWellFormed | src/lib/ai/stripe-functions.ts:229-266 | the parameters form an object schema with distinct property names, each of type string, integer, number or boolean, and every required name is one of the properties |
| Catalog.ListCouponsWellFormed | src/lib/ai/stripe-functions.ts:267-279 | the parameters form an object schema with distinct property names, each of type string, integer, number or boolean, and every required name is one of the properties |
| Catalog.DeleteCouponWellFormed | src/lib/ai/stripe-functions.ts:280-295 | the parameters form an object schema with distinct property names, each of type string, integer, number or boolean, and every required name is one of the properties |
| Catalog.PreviewInvoiceWellFormed | src/lib/ai/stripe-functions.ts:296-323 | the parameters form an object schema with distinct property names, each of type string, integer, number or boolean, and every required name is one of the properties |
| Catalog.PreviewSubscriptionWellFormed | src/lib/ai/stripe-functions.ts:324-347 | the parameters form an object schema with distinct property names, each of type string, integer, number or boolean, and every required name is one of the properties |
| Catalog.CreateTestClockWellFormed | src/lib/ai/stripe-functions.ts:348-365 | the parameters form an object schema with distinct property names, each of type string, integer, number or boolean, and every required name is one of the properties |
| Catalog.GetTestClockWellFormed | src/lib/ai/stripe-functions.ts:366-379 | the parameters form an object schema with distinct property names, each of type string, integer, number or boolean, and every required name is one of the properties |
| Catalog.ListTestClocksWellFormed | src/lib/ai/stripe-functions.ts:380-392 | the parameters form an object schema with distinct property names, each of type string, integer, number or boolean, and every required name is one of the properties |
| Catalog.AdvanceTestClockWellFormed | src/lib/ai/stripe-functions.ts:393-410 | the parameters form an object schema with distinct property names, each of type string, integer, number or boolean, and every required name is one of the properties |
| Catalog.DeleteTestClockWellFormed | src/lib/ai/stripe-functions.ts:411-426 | the parameters form an object schema with distinct property names, each of type string, integer, number or boolean, and every required name is one of the properties |
| Catalog.CreatePaymentMethodWellFormed | src/lib/ai/stripe-functions.ts:427-452 | the parameters form an object schema with distinct property names, each of type string, integer, number or boolean, and every required name is one of the properties |
| Catalog.AttachPaymentMethodWellFormed | src/lib/ai/stripe-functions.ts:453-470 | the parameters form an object schema with distinct property names, each of type string, integer, number or boolean, and every required name is one of the properties |
| Catalog.ListPaymentMethodsWellFormed | src/lib/ai/stripe-functions.ts:471-492 | the parameters form an object schema with distinct property names, each of type string, integer, number or boolean, and every required name is one of the properties |
| Catalog.DetachPaymentMethodWellFormed | src/lib/ai/stripe-functions.ts:493-506 | the parameters form an object schema with distinct property names, each of type string, integer, number or boolean, and every required name is one of the properties |
| Catalog.SetDefaultPaymentMethodWellFormed | src/lib/ai/stripe-functions.ts:507-524 | the parameters form an object schema with distinct property names, each of type string, integer, number or boolean, and every required name is one of the properties |
| Catalog.StripeToolsWellFormed | src/lib/ai/stripe-functions.ts:2-526 | the catalog holds 25 declarations, each with an object schema whose property types are string, integer, number or boolean. Every required name is a property, and the names are pairwise distinct |
| Catalog.StripeToolsNamesDistinct | src/lib/ai/stripe-functions.ts:6-508 | no two declarations share a name |
| Catalog.StripeToolsSchemasWellFormed | src/lib/ai/stripe-functions.ts:2-526 | the parameters form an object schema with distinct property names, each of type string, integer, number or boolean, and every required name is one of the properties |
| Catalog.NameSetIsNames | src/lib/ai/stripe-functions.ts:2-526 | the set of declared names holds exactly the names of the list |
| ChatRoute.ParseMode | src/app/api/chat/route.ts:11 | the mode is accepted exactly when it is the string "simulation" or "actual" |
| ChatRoute.Validate | src/app/api/chat/route.ts:8-22 | a body is accepted exactly when it is an object with a string session id, a message of 1 to 10000 characters and a valid mode, and the parsed fields are those values |
| ChatRoute.History | src/app/api/chat/route.ts:63-69 | the history is the stored messages in stored order followed by the new user message |
| ChatRoute.HistoryEndsWithRequest | src/app/api/chat/route.ts:63-69 | the history's last element is the request, and it has length 1 exactly when nothing was stored |
| ChatRoute.StoredCalls | src/app/api/chat/route.ts:84-87 | the stored function calls are null exactly when the loop returned none, and otherwise all of them |
| ChatRoute.Title | src/app/api/chat/route.ts:93-96 | a message of at most 30 characters is its own title, and a longer one becomes its first 30 characters and "..." |
| ChatRoute.NewTitle | src/app/api/chat/route.ts:92-101 | a title is set exactly when the session has none and the history has length 1 |
| ChatRoute.ResourceType | src/app/api/chat/route.ts:206-216 | the first of Customer, Product, Price, Subscription, Coupon, Invoice, TestClock and PaymentMethod contained in the name decides the type; none gives "unknown" |
| ChatRoute.ResourceTypeRange | src/app/api/chat/route.ts:206-216 | the type is always one of the nine values |
| ChatRoute.AuditOf | src/app/api/chat/route.ts:113-123 | a record carries the user, organization, call name, type, input and output, and `success` holds exactly when the result has no `error` key |
| ChatRoute.AuditsOf | src/app/api/chat/route.ts:112-124 | one audit record per function call, in order |
| ChatRoute.Classify | src/app/api/chat/route.ts:130-203 | the first matching rule decides: validation 400, API key 401, model not found or invalid 400, quota or 429 status 429, network 503, safety block 400, anything else 500. The error text is never empty |
| ChatRoute.ModelProblemNamesModel | src/app/api/chat/route.ts:155-164 | a model problem names the configured model, or the default model when none is configured |
| ChatRoute.Store.AddMessage | src/app/api/chat/route.ts:54-60 | the message is appended to its session's list and nothing else changes |
| ChatRoute.Store.WriteAudit | src/app/api/chat/route.ts:112-124 | the audit loop appends exactly the records of the calls, in order |
| ChatRoute.Store.Admit | src/app/api/chat/route.ts:16-51 | the guards in order: no user 401; a body that is not JSON is classified like any thrown error; an invalid body 400; a session not of the user's organization 404; no key 400. Only a request passing all of them is admitted |
| ChatRoute.Store.Conclude | src/app/api/chat/route.ts:79-124 | after a run, the assistant message is stored, the title set by `NewTitle`, the mode set to the request's mode, and the audit extended by the run's calls |
| ChatRoute.Store.Post | src/app/api/chat/route.ts:14-129 | a rejected request changes no table. An admitted one stores the user message, then runs the loop on the stored history followed by that message. A failed run is answered with the classification of its error and keeps the user message. A successful run is answered with the loop's answer and calls; the assistant message follows, the session is updated and the audit extended |
| ChatRoute.RunLoop | src/app/api/chat/route.ts:72-76 | the route's call of the loop returns exactly `RunResult` of the seeded history |
| ChatMessages.LabelKeys | src/components/chat/ChatMessages.tsx:25-51 | the keys of the label table, in order |
| ChatMessages.LabelOf | src/components/chat/ChatMessages.tsx:52 | a label is found exactly for a known key, and it is that key's entry |
| ChatMessages.FormatFunctionName | src/components/chat/ChatMessages.tsx:24-53 | looking up own keys only, a known tool shows its label, and any other name is shown unchanged |
| ChatMessages.FormatFunctionNameAsWritten | src/components/chat/ChatMessages.tsx:52 | the lookup as written agrees with the own-key one on every name the object prototype does not define, and yields the inherited member, which is no text, on every name it does |
| ChatMessages.InheritedNamesAreShownAsWritten | src/components/chat/ChatMessages.tsx:52 | a call named `toString` or `__proto__` is shown as the inherited member instead of its name, while the own-key lookup shows the name |
| ChatMessages.LabelsMatchCatalog | src/components/chat/ChatMessages.tsx:25-51 | the label table's keys are exactly the catalog's names in catalog order, and exactly the handler names |
| ChatMessages.ItemLinks | src/components/chat/ChatMessages.tsx:61-69 | one link at most per list item |
| ChatMessages.DashboardLinks | src/components/chat/ChatMessages.tsx:56-83 | a list gives its items' links, and a primitive or null gives none |
| ChatMessages.ExtractDashboardUrls | src/components/chat/ChatMessages.tsx:56-83 | the `forEach` and push loop yields exactly the links `DashboardLinks` describes |
| ChatMessages.ItemLinksComeFromItems | src/components/chat/ChatMessages.tsx:59-69 | every link of a list is an item's own non-empty `dashboardUrl`, labelled with that item's id or `#` and its one-based position |
| ChatMessages.EveryLinkedItemIsListed | src/components/chat/ChatMessages.tsx:59-69 | when every item has a link, the i-th link belongs to the i-th item |
| ChatMessages.ItemLinksAppend | src/components/chat/ChatMessages.tsx:59-69 | the links of a list split in two are the links of the first part followed by those of the second, whose positions count on from the first |
| ChatMessages.ObjectLinks | src/components/chat/ChatMessages.tsx:70-80 | an object gives at most two links, some link exactly when either field holds a non-empty string, the dashboard link first and the customer link last, each pointing at its own field's text |
| ChatMessages.Unlinked | src/components/chat/ChatMessages.tsx:93-97 | exactly the two link keys are dropped: every other key looks up as before, and an entry is kept exactly when its key is no link key |
| ChatMessages.UnlinkedAppend | src/components/chat/ChatMessages.tsx:93-97 | dropping the link fields commutes with concatenation, so the kept entries stay in their order |
| ChatMessages.UnlinkedSnoc | src/components/chat/ChatMessages.tsx:94-96 | one more entry is kept at the end exactly when its key is no link key |
| ChatMessages.CleanFields | src/components/chat/ChatMessages.tsx:92-97 | the `for ... of` loop copies exactly the entries `Unlinked` keeps |
| ChatMessages.CleanResultForDisplay | src/components/chat/ChatMessages.tsx:86-101 | the recursive method computes `Cleaned`: lists item by item, objects without link fields, anything else unchanged |
| ChatMessages.CleanedShape | src/components/chat/ChatMessages.tsx:86-101 | cleaning keeps every non-link field of an object and removes the link fields, keeps a list's length, and leaves primitives alone |
| ChatMessages.CleanedIdempotent | src/components/chat/ChatMessages.tsx:86-101 | cleaning twice is cleaning once |
| ChatMessages.UnlinkedIdempotent | src/components/chat/ChatMessages.tsx:93-97 | removing the link fields twice is removing them once |
| ChatMessages.CleanedHasNoObjectLinks | src/components/chat/ChatMessages.tsx:70-98 | a cleaned object offers no dashboard link any more |
| Middleware.PublicPathIff | src/middleware.ts:9-12 | a path is public exactly when it starts with "/login" or "/api/auth" |
| Middleware.Decide | src/middleware.ts:14-30 | a signed-in user on exactly "/login" goes to "/chat", and other public paths pass. A signed-out visitor of a protected path goes to "/login" with the path as callback, and a signed-in one passes |
| Middleware.LoginRedirectIsFinal | src/middleware.ts:15-28 | a signed-out visitor's redirect target is never redirected again, and the login page lets them through |
| Middleware.ChatRedirectIsFinal | src/middleware.ts:17-18 | a signed-in user's only redirect is to "/chat", which lets them through |
| Middleware.LoginRedirectKeepsPath | src/middleware.ts:24-28 | the login redirect happens exactly for a signed-out visitor of a protected path, and its callback is that path |
| StripeKeyRoute.ParseBody | src/app/api/settings/stripe-key/route.ts:8-16 | the body is accepted exactly when `stripeSecretKey` is a non-empty string starting with "sk_test_" |
| StripeKeyRoute.PrefixChecksAfterSchemaNeverFail | src/app/api/settings/stripe-key/route.ts:76-88 | a key the schema accepts never starts with "sk_live_" and always starts with "sk_test_" |
| StripeKeyRoute.Guard | src/app/api/settings/stripe-key/route.ts:21-32 | no session gives 401, then a role other than admin gives 403, and only an admin passes |
| StripeKeyRoute.Status | src/app/api/settings/stripe-key/route.ts:41-46 | `hasKey` holds exactly when a non-empty key is stored, and the preview is the fixed mask exactly then |
| StripeKeyRoute.PreviewHidesKey | src/app/api/settings/stripe-key/route.ts:43-45 | the status is the same whichever key is stored, so it reveals nothing of the key |
| StripeKeyRoute.Organizations.Get | src/app/api/settings/stripe-key/route.ts:19-54 | the guards, then the status of the user's organization; nothing is written |
| StripeKeyRoute.Organizations.Post | src/app/api/settings/stripe-key/route.ts:57-133 | the guards, then 500 for a body that is not JSON, 400 for a body the schema rejects and 400 for a key the live check rejects. Any rejection leaves the table unchanged; a save writes the encrypted key and its IV together in one update |
| StripeKeyRoute.Organizations.Delete | src/app/api/settings/stripe-key/route.ts:136-170 | the guards, then both the key and the IV become null |
| StripeKeyRoute.DeletedKeyIsReportedMissing | src/app/api/settings/stripe-key/route.ts:151-157 | after a delete the status reports no key and no preview |
| StripeKeyRoute.SavedKeyIsReported | src/app/api/settings/stripe-key/route.ts:104-112 | after a save of a non-empty encrypted text the status reports a key and the mask |
| ChatContainer.Without | src/components/chat/ChatContainer.tsx:128 | the filter keeps exactly the messages without the id, never more than there were |
| ChatContainer.WithoutDistributes | src/components/chat/ChatContainer.tsx:128 | filtering a concatenation filters each part, so kept messages keep their order |
| ChatContainer.WithoutAbsentId | src/components/chat/ChatContainer.tsx:144 | filtering an id no message has leaves the list unchanged |
| ChatContainer.RollbackRestores | src/components/chat/ChatContainer.tsx:122-130 | removing a just-appended message whose id is new restores the list exactly |
| ChatContainer.TempId | src/components/chat/ChatContainer.tsx:102 | an optimistic id starts with "temp-" |
| ChatContainer.AssistantId | src/components/chat/ChatContainer.tsx:134 | an assistant id starts with "assistant-" |
| ChatContainer.TempIdIsNotAssistantId | src/components/chat/ChatContainer.tsx:102 | an optimistic id never equals an assistant id |
| ChatContainer.RejectionBanner | src/components/chat/ChatContainer.tsx:123-126 | a non-ok response shows the server's error or the generic one, never an empty text, and its hint |
| ChatContainer.ChatContainer.constructor | src/components/chat/ChatContainer.tsx:33-38 | the initial state is empty, simulation, idle and without error, and its session is the given one when non-empty |
| ChatContainer.ChatContainer.SessionChanged | src/components/chat/ChatContainer.tsx:41-63 | without a session everything resets to an empty list, simulation mode and no session. With one, an ok response replaces the list and mode, and a failed one keeps them |
| ChatContainer.ChatContainer.CreateSession | src/components/chat/ChatContainer.tsx:65-83 | an ok response makes its id current and returns it, and anything else returns none and changes nothing |
| ChatContainer.ChatContainer.SendMessage | src/components/chat/ChatContainer.tsx:85-148 | loading is false on every exit. A failed session creation sets its error and keeps the list. Otherwise the user message is appended; an answer adds exactly one assistant message after it, and a rejection or throw removes the optimistic id again and shows the banner |
| ChatContainer.ChatContainer.ChangeMode | src/components/chat/ChatContainer.tsx:167 | only the mode changes |
| ChatContainer.ChatContainer.DismissError | src/components/chat/ChatContainer.tsx:200 | only the error is cleared |
| ChatContainer.FailedSendRestoresList | src/components/chat/ChatContainer.tsx:141-144 | a failed send leaves the list exactly as before when no earlier message has the optimistic id |
| ChatContainer.RollbackKeepsAnswers | src/components/chat/ChatContainer.tsx:128 | a rollback never removes an assistant message |
| ChatSidebar.DaysBetween | src/components/chat/ChatSidebar.tsx:141-145 | the floor of the elapsed days: the day count times a day's length is at most the difference, and the next count exceeds it |
| ChatSidebar.FormatDate | src/components/chat/ChatSidebar.tsx:141-159 | day 0 is "今日", day 1 "昨日", any other count below 7 (negative included) "<n>日前", and seven or more the locale date |
| ChatSidebar.DaysAgoReadsBack | src/components/chat/ChatSidebar.tsx:151-152 | for two to six days the label is the decimal day count followed by "日前" |
| ChatSidebar.RecentDatesAreNamed | src/components/chat/ChatSidebar.tsx:144-150 | less than a day ago is today, and between one and two days is yesterday |
| ChatSidebar.Renamed | src/components/chat/ChatSidebar.tsx:119-123 | only the session with the id gets the title; length, order and every other session stay |
| ChatSidebar.RenameIdempotent | src/components/chat/ChatSidebar.tsx:119-123 | renaming twice to the same title is renaming once |
| ChatSidebar.RenameOfUnknownId | src/components/chat/ChatSidebar.tsx:119-123 | a rename of an id no session has changes nothing |
| ChatSidebar.EditKeyAction | src/components/chat/ChatSidebar.tsx:133-139 | Enter saves, Escape cancels, and every other key is ignored |
| ChatSidebar.ClickTarget | src/components/chat/ChatSidebar.tsx:208-213 | a click opens the session's chat exactly when that session is not being edited |
| ChatSidebar.DeleteTarget | src/components/chat/ChatSidebar.tsx:79-81 | a delete opens "/chat" exactly when the deleted session is the current one |
| ChatSidebar.Sidebar.constructor | src/components/chat/ChatSidebar.tsx:28-31 | no sessions, loading, nothing being edited |
| ChatSidebar.Sidebar.FetchSessions | src/components/chat/ChatSidebar.tsx:34-46 | an ok response replaces the list, a failure keeps it, and loading ends either way |
| ChatSidebar.Sidebar.CreateNewSession | src/components/chat/ChatSidebar.tsx:52-68 | an ok response opens the new session's chat and reloads the list, and a failure changes nothing |
| ChatSidebar.Sidebar.DeleteSession | src/components/chat/ChatSidebar.tsx:70-87 | nothing happens unless the dialog is confirmed and the delete succeeds. Then the list reloads and navigation follows `DeleteTarget` |
| ChatSidebar.Sidebar.StartEditing | src/components/chat/ChatSidebar.tsx:89-95 | the session becomes the one being edited, with its title as the editor's text |
| ChatSidebar.Sidebar.EditTitleChanged | src/components/chat/ChatSidebar.tsx:224 | only the editor's text changes |
| ChatSidebar.Sidebar.CancelEditing | src/components/chat/ChatSidebar.tsx:97-101 | editing ends with no id and an empty text |
| ChatSidebar.Sidebar.SaveTitle | src/components/chat/ChatSidebar.tsx:103-131 | a whitespace-only title sends nothing and only cancels. Otherwise the trimmed title is sent and, on success, renames exactly that session. Editing ends on every path |
| ChatSidebar.Sidebar.EditKeyDown | src/components/chat/ChatSidebar.tsx:133-139 | Enter behaves as `SaveTitle`, Escape as `CancelEditing`, and every other key changes nothing |
| ChatInput.AutoHeight | src/components/chat/ChatInput.tsx:14-19 | the box is as tall as its content, capped at 200 pixels |
| ChatInput.SendEnabledIff | src/components/chat/ChatInput.tsx:54 | the button is enabled exactly when the input is enabled and the text has a non-whitespace character |
| ChatInput.ChatInput.constructor | src/components/chat/ChatInput.tsx:11 | the box starts empty |
| ChatInput.ChatInput.Changed | src/components/chat/ChatInput.tsx:46 | typing replaces the text |
| ChatInput.ChatInput.HandleSubmit | src/components/chat/ChatInput.tsx:21-29 | a message is sent exactly when the button's rule holds, and then it is the trimmed text and the box is cleared; otherwise the text stays |
| ChatInput.ChatInput.HandleKeyDown | src/components/chat/ChatInput.tsx:31-36 | Shift+Enter submits as `HandleSubmit` does, and every other key changes nothing |
| ChatInput.SentMessageIsTrimmed | src/components/chat/ChatInput.tsx:22-23 | a sent message is non-empty, has no surrounding whitespace, and trims to itself |
| ChatInput.PlainEnterDoesNotSubmit | src/components/chat/ChatInput.tsx:32 | Enter without Shift never submits |
| SettingsPage.ClientCheckMatchesServerSchema | src/app/settings/page.tsx:38-45 | the page lets through exactly the keys the endpoint's schema accepts |
| SettingsPage.ReplyBanner | src/app/settings/page.tsx:58-67 | the banner is a success exactly for an ok response. A response shows its text, and a thrown error shows the fixed failure text |
| SettingsPage.CardOf | src/app/settings/page.tsx:100-270 | the form is reachable only for the "admin" role once loading ends, and anyone else sees the notice. The delete button is shown exactly when a key is stored, inputs are disabled while saving, and save is enabled only when not saving with a non-empty key box |
| SettingsPage.OnlyAdminsReachTheForm | src/app/settings/page.tsx:100 | a session whose role is not "admin" never reaches the form, whatever the page state |
| SettingsPage.SettingsPage.constructor | src/app/settings/page.tsx:10-14 | empty key, no key known, loading, not saving, no banner |
| SettingsPage.SettingsPage.FetchKeyStatus | src/app/settings/page.tsx:20-32 | an ok response sets `hasKey`, and loading ends either way |
| SettingsPage.SettingsPage.KeyChanged | src/app/settings/page.tsx:251 | typing replaces the key text |
| SettingsPage.SettingsPage.HandleSave | src/app/settings/page.tsx:34-71 | a key without "sk_test_" only shows the error and sends nothing. Otherwise it is sent; success sets `hasKey` and clears the box, and a failure keeps both. Saving is false at the end |
| SettingsPage.SettingsPage.HandleDelete | src/app/settings/page.tsx:73-98 | nothing happens without confirmation. Otherwise the request is sent, success clears `hasKey`, and saving is false at the end |
| Text.Trim | src/components/chat/ChatInput.tsx:22 | the trimmed text occurs in the original between a prefix and a suffix of whitespace, and has no whitespace at either end |
| Text.TrimEmptyIff | src/components/chat/ChatSidebar.tsx:103-110 | a text trims to empty exactly when it is all whitespace |
| Text.TrimIdempotent | src/components/chat/ChatInput.tsx:22-23 | trimming twice is trimming once |
| Text.DigitsValueOfNatToString | src/lib/ai/function-handlers.ts:411-412 | reading the decimal text of a number gives the number back |

## Left out

- The language-model SDK and the Stripe SDK are function parameters. Their requests, responses and failures are whatever the parameters return, and the network, retries and timeouts are not modelled.
- The database is a map-based `Store` and `Organizations` table. Query shapes, `createdAt` ordering and transactions are not modelled; stored messages are kept in insertion order.
- Authentication (`auth()`), key decryption (`getStripeSecretKey`) and encryption (`encrypt`) are parameters.
- Numbers are unbounded integers. JavaScript floats, NaN and float division of millisecond differences are not modelled; `DaysBetween` uses floor division on integer milliseconds.
- String lengths count Dafny characters, not UTF-16 code units, so `Title` and the 10000-character limit differ from the source for characters outside the basic plane.
- `Date` parsing, `toISOString` and `toLocaleDateString` are parameters (`dateSeconds`, `iso`, `localeDate`), and `Date.now()` is a parameter (`sentAt`, `answeredAt`).
- The system prompt's wording is represented by a base text and two suffixes, not its exact Japanese text.
- `JSON.stringify` of audit inputs and outputs, and of stored function calls, is not modelled: the records hold the values themselves.
- Zod's `details` in the 400 response for an invalid body is not modelled, in either endpoint: the chat endpoint's `Failure` and the key endpoint's `Rejected` hold only the status, the message and the hint.
- The output shaping of the handlers that only copy SDK fields into an object literal (list items, created objects) is not modelled beyond their dashboard links.
- Handlers.Timestamp: the conversion of a field to a number before `* 1000` is modelled only for the values an API field holds (a number, null, a boolean, a missing field) and for blank or all-digit strings. Other numeric strings (signs, decimals, exponents, hex) and one-element arrays, which JavaScript also converts to numbers, are taken as invalid dates here.
- The `description` texts of the tool catalog and of its parameters are not part of the catalog constant; it holds the names, the types and the required lists.
- The regular expression `/^\d+$/` is modelled as "non-empty and all characters decimal digits".
- StripeKeyRoute.Organizations.Post: the `sk_live_` and `sk_test_` checks after the schema are never reached (`PrefixChecksAfterSchemaNeverFail`), so their 400 responses are not modelled as reachable outcomes.
- The browser's `required` and `pattern` form validation on the settings page and the login page are not modelled.
- Rendering (JSX, CSS classes, focus and scrolling, the text-area height reset) and `renderTextWithLinks` with its regular expression are not modelled. `AutoHeight` covers only the height rule.
- Concurrency and React scheduling are not modelled. Every `await` is a sequential step, a handler sees the state as it was when it began, and the intermediate `loading` or `saving` value inside one handler is not observable between steps.
- ChatSidebar.Sidebar.FetchSessions: a response whose `sessions` field is missing would set the list to undefined in the source; the model takes the list the response holds.
- Console logging, `window.history.pushState` and sign-out are not modelled.
- The login page, the sessions routes, the seed script, `client.ts`, `stripe.ts`, `layout.tsx`, `ModeToggle.tsx` and the page wrappers are not part of this model.

## Findings

| source | as written | input that shows it | evidently intended | confidence | as-written member | corrected member |
|---|---|---|---|---|---|---|
| src/lib/ai/chat.ts:160-163 | `functionHandlers[functionName]` also finds the members every object inherits, so a call named after one of them is dispatched to it | a model call named `toString` gets the result `{value: "[object Undefined]"}` | a name that is not one of the 25 handlers gives `{error: "Unknown function: toString"}` | not executed | Chat.CallResultAsWritten | Chat.CallResult |
| src/components/chat/ChatMessages.tsx:52 | `names[name] \|\| name` indexes a plain object, so a stored call named after an `Object.prototype` member finds that member and shows it in place of the name | a call named `toString` shows the inherited function, and one named `__proto__` the prototype object, which React refuses to render | a name without a label is shown as itself | not executed | ChatMessages.FormatFunctionNameAsWritten | ChatMessages.FormatFunctionName |
