# llm-chat bookkeeping core in Dafny

This project models the bookkeeping logic of the llm-chat web application and its server. The document store, the payment processor and the browser database are abstracted as in-memory maps and sequences.

- **Per-thread token-usage ledger.**
  - The server's `createThread` and `updateUsage` and the web app's `storeUsage` are modelled.
  - The store is a `Firestore.Database` class holding the `users` map and the (user, thread) → thread-document map.
  - The component-wise counter addition is the pure function `Usage.Add`.
- **Payment and credit bookkeeping** (`StripeService`).
  - It covers customer lookup-or-create, session verification, charging the first listed card, and the webhook dispatch.
  - The two webhook handlers that change user records are modelled too.
  - As in the code, there is no debit path and no de-duplication by payment id.
- **Local thread/message cache** (`LocalDb`).
  - The `LocalDB` class holds its two tables as sequences in insertion order, and its writes are methods.
  - Its queries are functions built from filter, a stable insertion sort (`Sorting`), reverse and take.
- **Chat page** (`ChatPage`).
  - The React state variables are fields of a `ChatPage` class.
  - The handlers are methods that update them and write to the `LocalDB` object.
- **Payment-success page** (`PaymentSuccess`).
  - The effect is a method that records the status the server reports.
  - The render chain is the pure function `ViewFor`, written branch by branch as in the code.
- **Browser payment helpers** (`StripeClient`).
  - The signed-in user, the address bar and the requests sent are fields of a `Browser` object.
  - The web server is a function from request to response.
- **Auto-growing textarea** (`ExpandableTextarea`): the height clamp, the controlled/uncontrolled value choice, and the change and key handlers.

JavaScript semantics the core relies on are written out in `Common`:
- the truthiness of an optional string;
- `String.prototype.trim`, with the ECMAScript whitespace and line-terminator set;
- `slice(0, n)`;
- `startsWith`.

Some values come from outside the code and are parameters instead:
- clocks (`new Date()`, `serverTimestamp()`), as natural numbers;
- fresh ids (`crypto.randomUUID()`, the processor's generated ids);
- the identity provider's token verifier;
- the web server's responses;
- the server call the success page makes.

## Model

| member | source | states |
|---|---|---|
| Common.TrimStartIsSuffix | client/app/chat/page.tsx:28 | trimming the start keeps a suffix of the string that is empty or does not start with whitespace |
| Common.TrimStartRemovesBlank | client/app/chat/page.tsx:28 | everything trimming the start removes is whitespace |
| Common.TrimEndIsPrefix | client/app/chat/page.tsx:28 | trimming the end keeps a prefix that is empty or does not end with whitespace |
| Common.TrimEndRemovesBlank | client/app/chat/page.tsx:28 | everything trimming the end removes is whitespace |
| Common.TrimEmptyIffBlank | client/app/chat/page.tsx:28 | `s.trim()` is empty exactly when every character of `s` is JavaScript whitespace (both directions) |
| Common.Prefix | client/app/chat/page.tsx:52 | `slice(0, n)` has length min(\|s\|, n) and is a prefix of `s` |
| Usage.OrZero | server/services/firebase/firestore.ts:51-55 | a missing `tokenUsage` counts as {0,0,0}; a stored one is used as is |
| Usage.Add | server/services/firebase/firestore.ts:57-61 | the component-wise addition keeps total = prompt + completion when both operands do, and never lowers a counter when the delta is non-negative |
| Usage.AddTwice | server/services/firebase/firestore.ts:57-61 | adding d1 then d2 equals adding d1+d2 once |
| Usage.AddExample | server/services/firebase/firestore.ts:57-61 | from zero, {10,5,15} then {3,1,4} gives {13,6,19} |
| Usage.ApplyAllIsSum | server/services/firebase/firestore.ts:57-61 | applying a sequence of deltas equals adding their component-wise sum once |
| Usage.ApplyAllAppend | server/services/firebase/firestore.ts:57-61 | applying ds1 + ds2 equals applying ds1 and then ds2 |
| Usage.ApplyAllConsistent | server/services/firebase/firestore.ts:57-61 | if the stored counters and every delta satisfy total = prompt + completion, the result does too |
| Usage.ApplyAllMonotone | server/services/firebase/firestore.ts:57-61 | with non-negative deltas no counter decreases |
| Firestore.NewThreadDoc | server/services/firebase/firestore.ts:27-36 | a new thread has all three counters at zero, an empty message list, and both dates set to the write time |
| Firestore.WithUsage | server/services/firebase/firestore.ts:57-66 | the written document has the old counters (or zero) plus the delta and a new `updatedAt`; `createdAt` and messages are kept |
| Firestore.WithUsageTwice | server/services/firebase/firestore.ts:51-66 | two usage writes leave the same document as one write of the summed delta, including from a document without counters |
| Firestore.Database.GetThread | server/services/firebase/firestore.ts:9-18 | the thread's data exactly when the document exists |
| Firestore.Database.CreateThread | server/services/firebase/firestore.ts:20-37 | the addressed thread document is (re)written as a new thread; nothing else changes |
| Firestore.Database.UpdateUsage | server/services/firebase/firestore.ts:39-67 | a missing thread is refused with nothing written; otherwise only that thread's counters and `updatedAt` change |
| FirebaseAdmin.VerifyIdToken | client/lib/firebase/admin.ts:27-41 | an empty token fails with "No token provided"; a decoded token from the verifier is returned as is, and only then is the result a success; a throw or an empty result is "Invalid token" |
| FirebaseAdmin.EmptyTokenIgnoresVerifier | client/lib/firebase/admin.ts:28-30 | the empty token is refused identically whatever the verifier would answer |
| FirebaseAdmin.RejectionsAreIndistinguishable | client/lib/firebase/admin.ts:31-40 | two verifiers failing for different reasons give the same error |
| FirebaseAdmin.StoreUsage | client/lib/firebase/admin.ts:43-72 | a missing thread is refused; otherwise only the addressed thread's counters (old or zero, plus delta) and `updatedAt` change |
| FirebaseAdmin.StoreUsageAgreesWithUpdateUsage | client/lib/firebase/admin.ts:62-66 | `storeUsage` and the server's `updateUsage` on equal stores and inputs give the same outcome and documents |
| StripeService.TokensForAmount | server/services/stripe.ts:124 | tokens × 10 ≤ amount < (tokens + 1) × 10, i.e. floor(amount / 10) |
| StripeService.FiveDollarsIsFiftyTokens | server/services/stripe.ts:124 | a charge of 500 cents carries 50 tokens |
| StripeService.CustomerFor | server/services/stripe.ts:23-34 | the stored customer id when the record has a truthy one, otherwise the newly created one |
| StripeService.UsersWithCustomer | server/services/stripe.ts:23-44 | afterwards the user has a customer id, the one `CustomerFor` picks; other users and fields are untouched; a missing record is created with only that id |
| StripeService.CustomerCreatedOnce | server/services/stripe.ts:23-44 | once a customer id is stored, a second request reuses it and writes nothing, whatever id the processor would generate |
| StripeService.CreateIntentSession | server/services/stripe.ts:10-69 | empty user id fails with "User ID is required"; a stored customer is reused without creating one; otherwise exactly one customer is created and merged in; a setup session for that customer is opened |
| StripeService.VerifyIntentSession | server/services/stripe.ts:74-77 | the session's status, or "unknown" when it has none; an unknown session fails |
| StripeService.NewPaymentIntent | server/services/stripe.ts:114-126 | the intent is in "usd" for the amount and its metadata carries the user id and floor(amount / 10) tokens |
| StripeService.ChargeCustomer | server/services/stripe.ts:82-129 | "Customer not found" without a record or customer id; "No payment method found" without cards; otherwise one intent on the first listed card is created; user records are not written |
| StripeService.Route | server/services/stripe.ts:134-148 | "checkout.session.completed" goes to the setup handler and "payment_intent.succeeded" to the payment handler, each iff |
| StripeService.MetadataOf | server/services/stripe.ts:154 | `metadata \|\| {}`: the event's metadata when present, otherwise no user id and no tokens |
| StripeService.UsersAfterSetup | server/services/stripe.ts:153-175 | a missing user id writes nothing; a user without a record is refused; otherwise only that user's `hasPaymentMethod` and setup date change |
| StripeService.ArrayUnion | server/services/stripe.ts:216-221 | the entry is in the result; an absent entry is appended, a present one leaves the history unchanged |
| StripeService.BalanceOf | server/services/stripe.ts:212 | `tokenBalance \|\| 0`: the stored balance, or 0 without one or without a record |
| StripeService.UsersAfterPayment | server/services/stripe.ts:180-231 | a missing user id or token count writes nothing; an unknown user gets balance = tokens and a one-entry history; a known one gets old balance (or 0) + tokens and the entry added; no other user changes |
| StripeService.PaymentCredits | server/services/stripe.ts:193-223 | a credited payment raises the user's balance by exactly its tokens and records the purchase |
| StripeService.PaymentNeverDebits | server/services/stripe.ts:180-231 | no payment event lowers any user's balance |
| StripeService.RedeliveryCreditsAgain | server/services/stripe.ts:183-223 | the same intent delivered twice is credited twice and recorded twice |
| StripeService.PaymentsAccumulate | server/services/stripe.ts:209-223 | payments addressed to one user add up to the sum of their tokens |
| StripeService.ChargeThenWebhookCredits | server/services/stripe.ts:122-125 | a charge's intent, once its success event arrives, credits floor(amount / 10) tokens |
| StripeService.HandleSuccessfulSetup | server/services/stripe.ts:153-175 | the user records become `UsersAfterSetup`'s result, or stay unchanged when the store refuses the update |
| StripeService.HandleSuccessfulPayment | server/services/stripe.ts:180-231 | the user records become `UsersAfterPayment`'s result; threads are untouched |
| StripeService.HandleWebhookEvent | server/services/stripe.ts:134-148 | each event type runs its handler; any other type changes nothing |
| Sorting.Insert | client/lib/dexie/init.ts:62 | insertion adds exactly the one element |
| Sorting.InsertKeepsLowerBound | client/lib/dexie/init.ts:62 | a lower bound on all keys survives insertion |
| Sorting.InsertSorted | client/lib/dexie/init.ts:62 | inserting into a sorted sequence keeps it sorted |
| Sorting.SortBySorts | client/lib/dexie/init.ts:62 | `sortBy` output is a permutation of its input in non-decreasing key order |
| Sorting.Reverse | client/lib/dexie/init.ts:49 | the i-th element of the result is the input's (n−1−i)-th |
| Sorting.ReverseMultiset | client/lib/dexie/init.ts:49 | reversing keeps the elements |
| Sorting.ReverseOfSorted | client/lib/dexie/init.ts:48-49 | reversing a non-decreasing order gives a non-increasing one |
| LocalDb.ThreadWithId | client/lib/dexie/init.ts:42-44 | none exactly when no thread has the id; otherwise the first stored thread with that id |
| LocalDb.ThreadWithIdFinds | client/lib/dexie/init.ts:42-44 | with unique keys, looking up a stored thread's id finds that thread |
| LocalDb.AddedThreadIsFound | client/lib/dexie/init.ts:38-44 | a thread added under a new id is found again by that id |
| LocalDb.MessagesOf | client/lib/dexie/init.ts:58-61 | exactly the stored messages of the thread, none added |
| LocalDb.MessagesSorted | client/lib/dexie/init.ts:58-63 | `getMessages` returns as many messages as the thread has stored; their identity and order are stated by `MessagesSortedSpec` |
| LocalDb.MessagesSortedSpec | client/lib/dexie/init.ts:58-63 | `getMessages(t)` holds exactly the stored messages of `t`, each as often as stored and unchanged, in non-decreasing `createdAt` order |
| LocalDb.TopOfSorted | client/lib/dexie/init.ts:47-51 | the first k of a non-increasing arrangement are stored threads, still in order |
| LocalDb.LeftOutOfTopIsNoNewer | client/lib/dexie/init.ts:47-51 | no thread left out of the first k is newer than one kept |
| LocalDb.RecentThreads | client/lib/dexie/init.ts:46-52 | `getRecentThreads` returns min(n, 10) threads; its order and content are stated by `RecentThreadsSpec` |
| LocalDb.RecentThreadsSpec | client/lib/dexie/init.ts:46-52 | at most 10 stored threads, newest first, and every stored thread left out is no newer than any returned |
| LocalDb.Retitled | client/lib/dexie/init.ts:54-56 | only the title of the thread with that id changes |
| LocalDb.LocalDB.constructor | client/lib/dexie/init.ts:23-29 | the database opens with its tables' contents and unique primary keys |
| LocalDb.LocalDB.AddMessage | client/lib/dexie/init.ts:31-36 | the message is appended with its `threadId` replaced by the argument and every other field kept; an id already stored is refused with nothing written |
| LocalDb.LocalDB.AddThread | client/lib/dexie/init.ts:38-40 | the thread is appended and found again by `getThread`; an id already stored is refused |
| LocalDb.LocalDB.GetThread | client/lib/dexie/init.ts:42-44 | a stored thread with that id, or none exactly when there is none |
| LocalDb.LocalDB.UpdateThreadTitle | client/lib/dexie/init.ts:54-56 | only the title of the given thread changes; other fields, threads and messages are kept; an unknown id changes nothing |
| ChatPage.NewThread | client/app/chat/page.tsx:81-87 | the new thread is titled "New Chat" with an empty `lastMessageId` |
| ChatPage.AfterSend | client/app/chat/page.tsx:60-71 | the list keeps its length; threads with the selected id get the assistant id as last message, `content.slice(0, 20)` as title and the new time; others are untouched |
| ChatPage.HasMessageIdAfterAdd | client/lib/dexie/init.ts:31-36 | after one more message is stored, an id is taken iff it was before or is that message's |
| ChatPage.StoredExchange | client/app/chat/page.tsx:48-49 | the table grows by two exactly when both writes are accepted; it only grows, and every added message is tagged with the thread |
| ChatPage.SendAllowed | client/app/chat/page.tsx:28 | the guard passes only with a selected, non-empty thread id and non-empty content |
| ChatPage.BlankContentIsNotSent | client/app/chat/page.tsx:28 | whitespace-only content never passes the guard |
| ChatPage.ChatPage.constructor | client/app/chat/page.tsx:15-20 | nothing selected, nothing typed, no messages, no threads |
| ChatPage.ChatPage.SelectedThread | client/app/chat/page.tsx:23-24 | the first listed thread with the selected id, found whenever one is listed; null without a selection |
| ChatPage.ChatPage.StoreExchange | client/app/chat/page.tsx:48-49 | the user's message then the assistant's are written, the second only when the first was accepted |
| ChatPage.ChatPage.HandleSendMessage | client/app/chat/page.tsx:26-77 | the guard or a refused write leaves the page and threads as they were; a full send appends user then assistant message, retitles the stored thread only when the shown title is "New Chat", always retitles the page's copy, and clears the input |
| ChatPage.ChatPage.CreateNewChat | client/app/chat/page.tsx:79-97 | a new "New Chat" thread is stored, put first in the list and selected, and the shown messages are cleared; a refused write changes nothing |
| ChatPage.ChatPage.ReloadThreadsAndMessages | client/app/chat/page.tsx:106-114 | the list becomes the recent threads; when there is one, the first is selected and its messages shown; otherwise the selection and messages are kept |
| PaymentSuccess.IdToVerify | client/app/payment/success/page.tsx:28 | the session id when truthy, else the setup intent id; truthy iff either id is |
| PaymentSuccess.ViewFor | client/app/payment/success/page.tsx:56-119 | verifying shows verifying; no ids shows invalid session; "open" iff in progress; "expired" iff failure with retry; any other status (including none) iff success; the final fallback never shows |
| PaymentSuccess.UnlistedStatusReadsAsSaved | client/app/payment/success/page.tsx:83-98 | a status such as "requires_action" or "unknown" reads as success |
| PaymentSuccess.PaymentSuccessPage.constructor | client/app/payment/success/page.tsx:12-17 | the page starts verifying with no status |
| PaymentSuccess.PaymentSuccessPage.VerifySession | client/app/payment/success/page.tsx:19-44 | verifying ends; the status becomes what the server reports for the chosen id, and is kept when there is no id or the request fails |
| PaymentSuccess.PaymentSuccessPage.Render | client/app/payment/success/page.tsx:56-57 | the verifying view shows exactly while verifying |
| PaymentSuccess.Visit | client/app/payment/success/page.tsx:12-44 | without ids the visit ends on invalid session; otherwise on the view for the server's answer about the session id (or the setup intent id) |
| PaymentSuccess.ViewAfterAnswer | client/app/payment/success/page.tsx:37-40 | a failed request reads as success; "open" iff in progress; "expired" iff failure with retry |
| StripeClient.ErrorText | client/lib/stripe/index.ts:40 | the server's error text when truthy, otherwise the fallback; never empty with a non-empty fallback |
| StripeClient.QueryParam | client/lib/stripe/index.ts:74-75 | "sessionId" iff the id starts with "cs_", "intentId" iff it does not |
| StripeClient.QueryParamExamples | client/lib/stripe/index.ts:74-75 | "cs_test_a1" goes as sessionId; "seti_1Nx" and "cs" go as intentId |
| StripeClient.SessionResult | client/lib/stripe/index.ts:38-53 | success iff ok and a truthy `intent.url`, which is the result; a non-ok answer throws the server's error or the default; otherwise "Invalid checkout session response from server" |
| StripeClient.VerifyResult | client/lib/stripe/index.ts:87-92 | ok iff the response is ok, returning its `status`; otherwise "Failed to verify payment" |
| StripeClient.PurchaseResult | client/lib/stripe/index.ts:125-134 | success iff ok and `success`; a non-ok answer throws the server's error or the default; otherwise "Payment failed" |
| StripeClient.ThrownMessagesAreNonEmpty | client/lib/stripe/index.ts:38-53 | every error the helpers throw on a response carries a non-empty message |
| StripeClient.CreateIntentSession | client/lib/stripe/index.ts:14-58 | without a user, "User not authenticated" before any request; otherwise one request, and the address bar changes to the checkout address only on success |
| StripeClient.VerifyIntentSession | client/lib/stripe/index.ts:63-97 | without a user, "User not authenticated" before any request; otherwise one request under the prefix-chosen parameter, returning the reported status |
| StripeClient.PurchaseTokens | client/lib/stripe/index.ts:102-142 | without a user, "User not authenticated" before any request; otherwise one charge request, succeeding only when the answer says `success` |
| ExpandableTextarea.WithDefaults | client/app/_brutalComponents/ExpandableTextarea.tsx:26-27 | rows default to 1 and 5 |
| ExpandableTextarea.Height | client/app/_brutalComponents/ExpandableTextarea.tsx:43-50 | never above maxRows × 24; at least minRows × 24 when the bounds are in order; the content height when it fits between them, the maximum when the content is taller, the minimum when it is shorter |
| ExpandableTextarea.InvertedBoundsGiveMaxHeight | client/app/_brutalComponents/ExpandableTextarea.tsx:43-50 | with minRows above maxRows the maximum wins |
| ExpandableTextarea.DefaultHeightRange | client/app/_brutalComponents/ExpandableTextarea.tsx:26-50 | with the default rows the height is between 24 and 120 pixels |
| ExpandableTextarea.DisplayedValue | client/app/_brutalComponents/ExpandableTextarea.tsx:32 | the external value when given (even ""), otherwise the internal one |
| ExpandableTextarea.KeyDecision | client/app/_brutalComponents/ExpandableTextarea.tsx:64-66 | the key is handled iff Enter without Shift with `onSubmit`; submitted iff additionally the trimmed value is non-empty |
| ExpandableTextarea.NoBlankOrShiftedSubmit | client/app/_brutalComponents/ExpandableTextarea.tsx:64-66 | whitespace-only values and Shift+Enter never submit |
| ExpandableTextarea.Textarea.constructor | client/app/_brutalComponents/ExpandableTextarea.tsx:29 | the internal value starts empty |
| ExpandableTextarea.Textarea.Value | client/app/_brutalComponents/ExpandableTextarea.tsx:32 | the shown value is the external value when given, otherwise the internal one |
| ExpandableTextarea.Textarea.HandleChange | client/app/_brutalComponents/ExpandableTextarea.tsx:54-61 | a controlled component reports the value and keeps its state; an uncontrolled one stores it |
| ExpandableTextarea.Textarea.HandleKeyDown | client/app/_brutalComponents/ExpandableTextarea.tsx:63-73 | prevented as `KeyDecision` says; a submit calls `onSubmit` with the shown value once, and an uncontrolled component then clears its value |
| ExpandableTextarea.TypeAndSubmit | client/app/_brutalComponents/ExpandableTextarea.tsx:54-73 | typing then Enter twice submits the text exactly once and leaves the box empty |

## Left out

- Rendering, styling, navigation (`router.push`), console logging and the profile page's floating-point percentages are not modelled.
- Concurrency: each store operation is atomic and sequential. The read-modify-write race in `updateUsage`/`storeUsage` and the retries of `runTransaction` are not modelled.
- Identity-token verification, the payment processor's API and webhook signature checking are external. The verifier is a parameter, and the processor is an abstract table of customers, sessions and intents.
- Card declines and other processor-side charge failures are not modelled: a charge on a listed card succeeds. `StripeService.ChargeCustomer` therefore never returns a processor error for a known customer with cards.
- `parseInt` on the metadata token string is a natural-number field; NaN is not modelled.
- Server timestamps are the same caller-supplied time as the write.
- Store-side validation by the SDKs, such as rejecting `undefined` fields in `set`, is not modelled.
- `arrayUnion` is modelled as add-if-absent by value. In the model every entry carries the caller-supplied write time, so a redelivered event at another time is recorded again.
- StripeService.UsersAfterPayment: assumes both credit writes succeed. The code puts `serverTimestamp()` inside an array element, both in the new record's `purchaseHistory` (server/services/stripe.ts:200-207) and in the `arrayUnion` entry (server/services/stripe.ts:216-221). The document store's documented rules do not allow a server timestamp inside an array, so on the real store both credit branches may throw and credit nothing. The model, `PaymentCredits`, `RedeliveryCreditsAgain` and `PaymentsAccumulate` describe the writes as the code intends them.
- Strings are sequences of characters. `slice(0, 20)` counts UTF-16 code units in JavaScript and characters here, so the two differ for text outside the Basic Multilingual Plane.
- Order among equal sort keys in the browser database:
  - In the browser database, records with equal keys come out in primary-key order, by `id`, which is a random UUID. `sortBy` keeps that order, and `orderBy("updatedAt").reverse()` reverses it.
  - The model sorts stably over insertion order instead. Its ties therefore come in insertion order from `getMessages` and in reverse insertion order from `getRecentThreads`.
  - The contracts of `LocalDb.RecentThreadsSpec` and `LocalDb.MessagesSortedSpec` do not depend on the order among ties.
  - `ChatPage.ChatPage.ReloadThreadsAndMessages` does: it states the page in the model's order.
  - One observable difference follows. `handleSendMessage` stamps the user's and the assistant's message with `new Date()` in the same tick (client/app/chat/page.tsx:34,44). After a reload the application shows the two in UUID order, possibly the assistant's first; the model always shows the user's first. Likewise, among threads updated in the same millisecond, the model may select a different one than the application.
- The chat page's LLM streaming and the server's AI SDK wrapper are external and asynchronous, so they are not modelled.
- LocalDb.LocalDB.GetRecentThreads: has no contract of its own. It returns `RecentThreads`, which `RecentThreadsSpec` specifies. This keeps the sort's postconditions out of every caller's proof.
- LocalDb.LocalDB.GetMessages: has no contract of its own. It returns `MessagesSorted`, which `MessagesSortedSpec` specifies, for the same reason.
- PaymentSuccess.PaymentSuccessPage.VerifySession: omits the page's second guard against a falsy id (client/app/payment/success/page.tsx:29-32). After the first guard, `sessionId || setupIntentId` is always truthy, so the guard is unreachable.
- StripeService.CreateIntentSession: requires the processor's generated customer and session ids to be fresh and non-empty, as the processor guarantees.
- LocalDb.LocalDB.constructor: takes the tables' existing contents (possibly empty) instead of opening an empty database, since the browser keeps data between visits.
