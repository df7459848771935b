# QuotiDepnse expense tracker — a Dafny model

QuotiDepnse is a personal expense tracker. Its backend (`backend/server.js`) is
an Express service over three MongoDB collections (users, expenses, feedback).
It registers and logs in users with a bcrypt password hash and a 30-day JWT
bearer token. An access guard binds every protected request to the token's
user id, and expense reads and writes are scoped to that id. The service also
aggregates a user's spending (total, per-category sums, count) and takes
feedback notes. The mobile client adds three small rule sets: the home
screen's category-and-search filter with its running total, the amount guard
of the add/edit expense form, and the message guard of the feedback form.

The model:

- `seqs.dfy` (`Seqs`): `filter`, first-match search and the descending sort
  that `.sort({field: -1})` asks of MongoDB. The filter and the sort carry
  multiset, order and membership facts; the search carries first-match facts.
- `text.dfy` (`Text`): the JavaScript string operations used by the core:
  `indexOf`/`includes`, `replace` of the first occurrence, ASCII
  `toLowerCase` and `trim`.
- `records.dfy` (`Records`): the three schemas as datatypes, the two public
  views of a user, the query filters, and the store invariants (unique
  emails, unique ids, valid feedback).
- `ledger.dfy` (`Ledger`): the stats folds and their properties. The category
  sums add up to the total. Each category's sum is the total of that
  category's records. The keys are exactly the categories present.
- `auth.dfy` (`Auth`): bcrypt and jsonwebtoken as injected function values
  (`Crypto`), and the access guard. It also covers the token's lifetime, counted
  as jsonwebtoken counts it. The `iat` and `exp` claims are whole seconds, so a
  token is accepted for at least 30 days less one second after signing, and
  refused from 30 days on.
- `server.dfy` (`Server`): the `Store` class holding the three collections.
  It has one method per route and a `Serve` dispatcher that runs the guard
  before the protected routes.
- `home_screen.dfy`, `add_expense_screen.dfy`, `feedback_screen.dfy`: the
  client rules. The two forms are classes whose `Submit` records each API
  call it issues and the `loading` flag shown during that call.
- `scenarios.dfy` (`Scenarios`): whole-service runs on a fresh store, and
  lemmas showing that what the client forms send is what the server accepts.

The server is looser than its schemas suggest:

- The server does not check that an amount is positive, at creation or at
  update. Only the add-expense form does.
- An invalid feedback submission is a 500 from the schema validator.
- Update and delete take `_id` and `userId` together as one query filter, so
  "not yours" and "does not exist" both give 404.

## Model

| member | source | states |
|---|---|---|
| `Text.RemoveFirst` | backend/server.js:63 | `replace('Bearer ', '')` deletes the first occurrence only. A string without the pattern is unchanged. Otherwise exactly `|pat|` characters are removed, at the first occurrence. |
| `Text.RemoveFirstOfPrefixed` | backend/server.js:63 | A header `"Bearer " + t` yields exactly `t`. |
| `Text.IndexOf` | frontend/src/screens/HomeScreen.js:63-64 | `indexOf`/`includes`: the answer is an occurrence, no earlier one exists, and `None` means no occurrence anywhere. |
| `Text.Lower` | frontend/src/screens/HomeScreen.js:57 | `toLowerCase` keeps the length and maps each ASCII capital to its small letter, every other character to itself. |
| `Text.LowerIdempotent` | frontend/src/screens/HomeScreen.js:57 | Lower-casing twice is lower-casing once. No upper-case ASCII letter remains. |
| `Text.Trim` | frontend/src/screens/FeedbackScreen.js:29 | `trim()` returns the slice between the leading and the trailing white space. Both stripped ends are all white space, and the slice neither starts nor ends with white space. The result is empty iff the message is all white space. |
| `Text.TrimIdempotent` | frontend/src/screens/FeedbackScreen.js:41 | The trimmed message the form sends is unchanged by trimming it again. |
| `Text.TrimOfTrimmed` | frontend/src/screens/FeedbackScreen.js:29 | A message that neither starts nor ends with whitespace is its own trim. |
| `Seqs.Filter` | frontend/src/screens/HomeScreen.js:56-66 | `filter` keeps exactly the elements satisfying the predicate and never grows the list. |
| `Seqs.FilterCount` | frontend/src/screens/HomeScreen.js:56-66 | `filter` keeps every copy of a passing value and drops every copy of a failing one: a value occurs in the result as often as in the input if it passes, and not at all otherwise. |
| `Seqs.FilterIsSubsequence` | frontend/src/screens/HomeScreen.js:52-68 | A filter result is an order-preserving subsequence of its input. |
| `Seqs.FilterFilter` | frontend/src/screens/HomeScreen.js:53-66 | Two chained filters equal one filter by the conjunction. |
| `Seqs.FilterAll` | frontend/src/screens/HomeScreen.js:53-66 | A filter that every element passes returns its input unchanged. |
| `Seqs.FilterAppend` | backend/server.js:129-136 | Filtering distributes over appending a record. This is how a create is seen through each user's `{ userId }` query. |
| `Seqs.FilterUpdateOutside` | backend/server.js:176-180 | Rewriting a record that a query does not select, into one it still does not select, leaves that query's result unchanged. |
| `Seqs.FilterRemoveOutside` | backend/server.js:192-195 | Deleting a record that a query does not select leaves that query's result unchanged. |
| `Seqs.FindIndex` | backend/server.js:80 | `findOne` returns the first matching document. `None` means no document matches. |
| `Seqs.InsertDesc` | backend/server.js:145 | Inserting one record into a list in non-increasing key order keeps that order and adds exactly that record. |
| `Seqs.SortDesc` | backend/server.js:145 | `.sort({date: -1})` returns a permutation of the matches in non-increasing key order. |
| `Seqs.SortDescMembers` | backend/server.js:253 | Sorting neither adds nor loses a record. |
| `Ledger.TotalAppend` | backend/server.js:161 | The total of two record lists laid end to end is the sum of their totals. |
| `Ledger.Total` | backend/server.js:161 | The `reduce((sum, e) => sum + e.amount, 0)` fold, left to right from `0`. Its meaning is given by `TotalAppend`, `TotalNonNegative` and `TotalPartition`. |
| `Ledger.SumFor` | backend/server.js:157 | The `acc[c] \|\| 0` read: the stored sum of a present category, `0` for an absent one. |
| `Ledger.AddExpense` | backend/server.js:156-159 | One step of the per-category fold: the key set gains the record's category, that category's sum grows by the amount, and every other category's sum is unchanged. |
| `Ledger.ByCategory` | backend/server.js:156-159 | The per-category fold from `{}`. `ByCategoryKeys` and `ByCategoryValue` prove its keys are the present categories and each value is that category's total. |
| `Ledger.TotalNonNegative` | frontend/src/screens/HomeScreen.js:139 | A list of non-negative amounts has a non-negative total. |
| `Ledger.ByCategoryKeys` | backend/server.js:156-159 | The keys of `byCategory` are exactly the categories present among the records. |
| `Ledger.ByCategoryValue` | backend/server.js:156-159 | `byCategory[c]`, absent meaning 0, is the total of the records of category `c`. |
| `Ledger.SumValuesRemove` | backend/server.js:156-159 | The sum of a map's values splits off any one key, whichever key is taken first. |
| `Ledger.SumValuesUpdate` | backend/server.js:157 | Setting `acc[c]` changes the sum of the map's values by the new value minus the old one, absent meaning 0. |
| `Ledger.ByCategorySumsToTotal` | backend/server.js:156-161 | The `byCategory` values add up to `total`. |
| `Ledger.TotalPartition` | frontend/src/screens/HomeScreen.js:139 | The shown and the hidden records of any filter together make up the full total. |
| `Ledger.Summarize` | backend/server.js:154-167 | Stats: `count` is the number of records and `total` their sum. `byCategory` has exactly the present categories as keys, each mapped to that category's sum, and its values add up to `total`. |
| `Auth.Guard` | backend/server.js:61-73 | An absent header, or one that is empty after removing `"Bearer "`, is refused as missing. Otherwise a failed `verify` is refused as invalid. On success the caller is bound to the decoded user id. |
| `Auth.BearerHeaderToken` | frontend/src/services/api.js:16 | The client's `Bearer ${token}` header yields exactly `token` to the guard. |
| `Auth.TokenOf` | backend/server.js:63 | The header's value with the first `"Bearer "` removed. There is a token iff there is a header. It is never longer than the header. A header without `"Bearer "` is taken whole as the token. |
| `Auth.JwtRuleMeetsHypotheses` | backend/server.js:67 | Any `verify` that follows jsonwebtoken's rule meets both token hypotheses: it decodes a signed token exactly while `floor(now/1000)` is below `exp = floor(t/1000) + 2592000`. |
| `Auth.IssuedTokenGrants` | backend/server.js:114 | A token signed for a user id at `t` binds that user at every later `now` whose second is before the token's `exp` claim. |
| `Auth.ExpiredTokenRefused` | backend/server.js:89 | From the second of the `exp` claim on, the same header is refused as an invalid token. |
| `Auth.GrantedForThirtyDaysLessASecond` | backend/server.js:114 | In milliseconds: the token is accepted from signing until 30 days less one second later, whatever the sub-second part of the signing time. |
| `Auth.RefusedAfterThirtyDays` | backend/server.js:89 | In milliseconds: from 30 days after signing on, the token is refused. |
| `Auth.RefusedBeforeThirtyDaysToTheMillisecond` | backend/server.js:89 | The whole-second claims cut the window short. A token signed at 500 ms is refused at 2592000000 ms, half a second before 30 days have passed. |
| `Server.ApplyPatch` | backend/server.js:176-180 | An update never changes `_id`, `userId` or `createdAt`, and an empty body changes nothing. |
| `Server.RemoveMatchingExpense` | backend/server.js:192-195 | Deleting the record matching `(_id, userId)` removes exactly the records that match and keeps every other record. |
| `Server.RemoveKeepsIdsFresh` | backend/server.js:192-195 | A deletion keeps expense ids unique. |
| `Server.Store.constructor` | backend/server.js:56-58 | The three collections start empty and the store invariant holds. |
| `Server.Store.Register` | backend/server.js:76-98 | A taken email gives 400 and stores nothing, so there is at most one user per email. A missing email, name or hash gives 500 and stores nothing. Otherwise exactly one user is appended, holding `hash(password)`. The 201 response carries a token for that user and the public `{id, email, name}` only. |
| `Server.Store.Login` | backend/server.js:100-123 | Succeeds iff a user has that email and `compare(password, hash)` holds. The token is signed for that user. An unknown email and a wrong password get the same 400 body. |
| `Server.Store.CreateExpense` | backend/server.js:126-141 | A missing amount or category gives 500 and stores nothing. Otherwise exactly one record is appended for the caller, dated with the body's date or the request time. No sign check is made on the amount. Other users' records are unchanged. |
| `Server.Store.ListExpenses` | backend/server.js:143-150 | Returns exactly the caller's records (as a multiset, and by membership) in non-increasing date order. |
| `Server.Store.ExpenseStats` | backend/server.js:152-171 | Computed over the caller's records only: `total`, `count`, `byCategory` keys and values as in `Ledger.Summarize`. The category sums add up to the total. |
| `Server.Store.UpdateExpense` | backend/server.js:173-188 | 404, with the store unchanged, iff no record matches `(id, caller)`. Otherwise only that record's amount, category, description and date change, to the values present in the body. Other users' records are unchanged. |
| `Server.Store.DeleteExpense` | backend/server.js:190-203 | 404, with the store unchanged, iff no record matches `(id, caller)`. Otherwise exactly that record is removed: the new list is the old one without it, in the same order. Other users' records are unchanged. |
| `Server.DateOrNow` | backend/server.js:134 | `date \|\| new Date()`: the body's date when one is given, the request time otherwise. |
| `Server.Store.GetProfile` | backend/server.js:206-216 | 404 iff no user has the caller's id. Otherwise returns that user's profile, which has no password field. |
| `Server.Store.UpdateProfile` | backend/server.js:218-233 | 404 iff the id is unknown. Only the caller's name can change, to the given name when one is present. Emails, password hashes, ids and creation dates are unchanged. |
| `Server.Store.SubmitFeedback` | backend/server.js:236-249 | A type outside {bug, feature, improvement, other} or an empty message gives 500 and stores nothing. Otherwise exactly one record is appended for the caller. |
| `Server.Store.ListFeedback` | backend/server.js:251-258 | Returns exactly the caller's feedback, newest `createdAt` first. |
| `Server.Store.Serve` | backend/server.js:76-263 | A protected route is refused with 401 "Authentification requise" or "Token invalide" and changes nothing unless the guard binds a caller. A bound request never changes another user's expenses, feedback or user record. The public routes never touch expenses or feedback. |
| `HomeScreen.FilterExpensesIsFilter` | frontend/src/screens/HomeScreen.js:52-68 | `filterExpenses` equals one filter by the reference predicate `Shown` (category test unless `'Tous'`, search test unless the query is empty). |
| `HomeScreen.SameCategory` | frontend/src/screens/HomeScreen.js:56-58 | The category test: the lower-cased category equals the lower-cased selection. |
| `HomeScreen.MatchesSearch` | frontend/src/screens/HomeScreen.js:62-65 | The search test: the lower-cased description contains the lower-cased query, or the amount's text contains the query as typed. A record without a description matches only through its amount. |
| `HomeScreen.FilterExpenses` | frontend/src/screens/HomeScreen.js:52-68 | The category filter unless `'Tous'`, then the search filter unless the query is empty. The result is never longer than the list and holds only listed records. |
| `HomeScreen.UnfilteredShowsAll` | frontend/src/screens/HomeScreen.js:53-68 | With `'Tous'` and an empty query, the loaded list is shown unchanged. |
| `HomeScreen.FilterExpensesSubsequence` | frontend/src/screens/HomeScreen.js:52-68 | The shown list is an order-preserving subsequence of the loaded one. |
| `HomeScreen.FilterExpensesMembers` | frontend/src/screens/HomeScreen.js:55-66 | An expense is shown iff it was loaded and passes both filters. Its category then equals the selected one ignoring case (unless `'Tous'`), and its lower-cased description contains the lower-cased query or its amount's text contains the query. |
| `HomeScreen.ShownTotalSplit` | frontend/src/screens/HomeScreen.js:139 | The shown total plus the total of the hidden items is the total of everything loaded. When no amount is negative, the shown total never exceeds the full total. |
| `HomeScreen.CategoryColor` | frontend/src/screens/HomeScreen.js:93-103 | The colour of the lower-cased category, or `autre`'s colour for any unknown category. The result is always one of the six colours. |
| `HomeScreen.FormCategoriesColoured` | frontend/src/screens/HomeScreen.js:93-103 | Every category in the add-expense form's list is a key of the colour table, and no two of them share a colour. |
| `AddExpenseScreen.InitialForm` | frontend/src/screens/AddExpenseScreen.js:25-28 | Without an edited expense the form is `''`/`'Nourriture'`/`''`. With one, the amount is its text, and the category and description come from it. An empty category falls back to `'Nourriture'` and an absent description to `''`. The category is never empty. |
| `AddExpenseScreen.CheckAmount` | frontend/src/screens/AddExpenseScreen.js:32-41 | Accepted iff the text is non-empty and parses to a number greater than 0. Empty text and an unparsable or non-positive amount get their two distinct messages. |
| `AddExpenseScreen.Outcome` | frontend/src/screens/AddExpenseScreen.js:51-66 | The alert after the call. Its title is `'Succès'` iff the call succeeded. Its text is one of the two edit-mode messages iff the form edits an expense. |
| `AddExpenseScreen.Screen.constructor` | frontend/src/screens/AddExpenseScreen.js:24-29 | The form starts from `InitialForm`, not loading, with no call issued. |
| `AddExpenseScreen.Screen.EditAmount` | frontend/src/screens/AddExpenseScreen.js:82 | Only the amount text changes, to what was typed. `loading` and the calls sent are unchanged. |
| `AddExpenseScreen.Screen.SelectCategory` | frontend/src/screens/AddExpenseScreen.js:88-95 | The category becomes the pressed button's entry of `CATEGORIES`. Nothing else changes. |
| `AddExpenseScreen.Screen.EditDescription` | frontend/src/screens/AddExpenseScreen.js:114 | Only the description changes, to what was typed. `loading` and the calls sent are unchanged. |
| `AddExpenseScreen.Screen.Submit` | frontend/src/screens/AddExpenseScreen.js:31-69 | A rejected amount issues no call. Otherwise exactly one call is issued while `loading` is true: `update(editing._id, …)` in edit mode, `create(…)` otherwise. The payload is `{parsed amount, category, description}` with no date. `loading` is false afterwards whatever the outcome. |
| `FeedbackScreen.CheckMessage` | frontend/src/screens/FeedbackScreen.js:29-37 | Accepted iff the trimmed message has at least 10 characters. An all-white-space message and a short one get their two distinct messages. An accepted message is the trimmed one. |
| `FeedbackScreen.Screen.constructor` | frontend/src/screens/FeedbackScreen.js:23-26 | Type `'feature'`, empty message, not loading, nothing sent. |
| `FeedbackScreen.Screen.SelectType` | frontend/src/screens/FeedbackScreen.js:80-88 | The type can only become one of the four ids. `loading` and the thank-you state are unchanged. |
| `FeedbackScreen.Screen.EditMessage` | frontend/src/screens/FeedbackScreen.js:114-115 | Only the message changes. `loading` and the thank-you state are unchanged. |
| `FeedbackScreen.Screen.Submit` | frontend/src/screens/FeedbackScreen.js:28-61 | A rejected message sends nothing. An accepted one sends `{type, trimmed message}` once while `loading` is true. `loading` is false afterwards whatever the outcome. |
| `FeedbackScreen.Screen.ConfirmThanks` | frontend/src/screens/FeedbackScreen.js:46-51 | After the success alert's OK, the message is `''` and the type is `'feature'`. `loading` is unchanged. |
| `Scenarios.RegisterLoginProfile` | backend/server.js:76-216 | Registering, logging in, and then calling a protected route with `Bearer <token>` before the second of the token's `exp` claim binds the registered user and returns their profile. |
| `Scenarios.RegisterTwice` | backend/server.js:80-83 | A second registration with the same email gets 400 and the store keeps a single user. |
| `Scenarios.FirstExpense` | backend/server.js:126-167 | 12.5 in "Nourriture" with no date is stored with the request time as its date and listed alone. Stats are `{12.5, {Nourriture: 12.5}, 1}`. |
| `Scenarios.OtherUsersExpense` | backend/server.js:173-203 | Another user's update and delete of a record get the same 404 as for a missing id. The record stays stored, and the other user's list is empty. |
| `Scenarios.FeedbackFormAccepted` | frontend/src/screens/FeedbackScreen.js:29-41 | What the feedback form submits passes the server's schema: the type is in the enum and the message is non-empty. |
| `Scenarios.FormUpdateKeepsDate` | frontend/src/screens/AddExpenseScreen.js:45-50 | An edit from the form replaces amount, category and description, and keeps the expense's date. |
| `Scenarios.FeedbackFormTwice` | frontend/src/screens/FeedbackScreen.js:28-61 | Sending a long enough message thanks the user and sends it once. After the OK, the form is reset to the default type and empty message. A second, too short message gets the length error and sends nothing. |
| `Scenarios.FormCreatesExpense` | frontend/src/screens/AddExpenseScreen.js:24-69 | A fresh form filled with "12.5", "Transport" and a description sends exactly one create with the parsed amount and gets the add-success alert. A later empty amount gets the missing-amount error and sends nothing more. |

## Left out

- MongoDB connection and startup, `cors`, `express.json`, `trust proxy` and `app.listen` are I/O. The database is the store's three sequences, and each route is one atomic step. Concurrent requests and last-write-wins races are not modelled.
- bcrypt and jsonwebtoken internals are not modelled: salt rounds, signature algorithm, secret. `Crypto` supplies `hash`, `compare`, `sign` and `verify`. Their library guarantees appear only as hypotheses of the lemmas that need them. `HashSound` is bcrypt's match of a password with its own hash. `TokensNonEmpty`, `TokensValid` and `TokensExpire` are jsonwebtoken's promises, stated in whole seconds as its `iat`/`exp` claims are. `JwtRuleMeetsHypotheses` shows that the library's expiry rule meets them. The random salt is not modelled: `hash` is a function.
- The clock is the explicit `now` parameter. `Date.now` defaults and token expiry are read from it.
- Database failures (a 500 from a failed read or write) are not modelled. The 500s modelled are the validation failures, with the error's text abstracted as `InternalError`.
- Mongoose casting errors are not modelled. An id is an opaque number. A malformed `:id`, a non-numeric amount and an unparsable date are outside the model. An absent amount stands for all of them at creation.
- JSON `null` versus `undefined` is not distinguished. An absent string field is `""`, which the `required` validators refuse alike. An absent password at register or login makes bcrypt throw (500). The model treats it as an empty password instead.
- Updates follow Mongoose 6 and later: an absent body field is dropped from the update and keeps its value, and no validators run on updates.
- A verified token whose payload has no `userId` is not modelled. `verify` returns the id or fails.
- Amounts are exact reals. IEEE rounding, NaN and Infinity, `toFixed`, and `parseFloat` and `Number.prototype.toString` are left out. The last two are the parameters `parse` and `show`.
- JavaScript objects' inherited keys are not modelled: a category named `constructor` or `__proto__` in the `byCategory` fold or the colour table. The model's maps have no such keys.
- `toLowerCase` is modelled on ASCII letters only. Unicode case folding is not modelled.
- String lengths count code points, not UTF-16 code units, in the 10-character feedback floor.
- The sort tie-break among equal dates is not modelled. MongoDB promises no order for ties, and the model fixes one.
- The response bodies leave out `__v` and the `_id` spelling.
- Client UI is left out: `App.js`, `StatsScreen.js`, `ProfileScreen.js`, the axios wrapper in `api.js` (except its header format), rendering, navigation and `loadExpenses`/`handleDelete`.
- Server.Store.Serve: states the guard and the isolation of other users' records, not each handler's response. Those are the per-route methods' contracts, which `Serve` calls unchanged.
