# GrowVest micro-lending platform: authentication gate and dashboard loan summary

This project models two pieces of logic of the GrowVest micro-lending platform
and proves properties about them.

1. **The `protect` middleware** (`backend/middleware/authMiddleware.js`). It
   guards every protected backend route. It reads the `Authorization` header
   and checks that the header starts with `Bearer`. It takes the token as the
   second field of the header split on single spaces and verifies it once. It
   then looks up the user named by the token's `id` claim and attaches that
   user, without the password, to `req.user`. Finally it either calls `next()`
   or answers 401 with "Not authorized, token failed" or "Not authorized, no
   token".
   - `AuthMiddleware.Gate` is a function giving one run of the middleware: the
     ordered calls it makes (verifier, lookup, `next()`, reply) and what it
     leaves in `req.user`.
   - `AuthMiddleware.Exchange` is a class with the request's `user` field and
     a log of those calls. Its `Protect` method follows the JavaScript step by
     step: the `let token`, the header test, `try`/`catch` as checks on
     `Completion` values, and the trailing `if (!token)`. It is proved to
     append exactly `Gate`'s trace to the log.
   - The token library's `verify` and the store's `findById(...).select('-password')`
     are not modelled. They are arbitrary functions in a `Services` value. Each
     either returns (`Returned`) or throws (`Threw`). The signing secret from
     the environment is a field of `Services` too. Any clock the verifier
     consults for expiry lives inside the verifier.
   - `JsString` models the JavaScript string operations the middleware uses:
     `startsWith`, `split(' ')`, out-of-range array indexing (`undefined`),
     and truthiness. `Split` is proved to be the inverse of `Join`.
2. **The dashboard loan summary** (`frontend/src/pages/Dashboard.jsx`). It
   covers the "Active loans" count (loans whose status is exactly
   `"disbursed"`), the "Total borrowed" fold (a missing amount counts 0) and
   the fallbacks used when a fetched payload is missing. Amounts are whole
   currency units (`int`), not floating point.

## What the code accepts and rejects, as written

- The conventional header form is `Authorization: Bearer <token>` (section
  2.1 of RFC 6750). The code is looser:
  - the test is a case-sensitive `startsWith('Bearer')` with no space required;
  - the token is field 1 of `split(' ')`.
  So `"Bearerabc def"` passes the test and yields the token `"def"`. `"Bearer"`
  alone yields no token (`undefined`). `"Bearer  x"` yields the empty token.
  Each of these still goes to the verifier (`BearerPrefixIsLoose`,
  `ExtractTokenEdgeCases`).
- The code does not tell failures apart. A malformed, wrongly signed or
  expired token, and a lookup that throws, all get the same reply, "Not
  authorized, token failed". A lookup that finds nobody without throwing
  is not rejected: the request goes on to `next()` with a `null` user
  (`UnknownUserStillAdmitted`).

## Model

| member | source | states |
|---|---|---|
| `JsString.StartsWith` | backend/middleware/authMiddleware.js:12 | the prefix test holds exactly when the prefix is a leading part of the header, compared character by character (so case-sensitively) |
| `JsString.Split` | backend/middleware/authMiddleware.js:16 | `split(' ')` yields at least one field, no field contains the separator, and joining the fields with the separator gives the header back |
| `JsString.Element` | backend/middleware/authMiddleware.js:16 | indexing an array past its end gives `undefined`; pinned down through `AuthMiddleware.ExtractTokenAbsent` |
| `JsString.Truthy` | backend/middleware/authMiddleware.js:11-32 | a string is truthy when present and non-empty, as in the header test of line 11 and the `!token` test of line 32; used by `Gate` and `Exchange.Protect` |
| `JsString.SplitJoin` | backend/middleware/authMiddleware.js:16 | splitting a join of separator-free fields gives the fields back, so split and join are inverses |
| `JsString.SplitSingleField` | backend/middleware/authMiddleware.js:16 | a string with no separator splits into itself alone |
| `JsString.SplitFirstField` | backend/middleware/authMiddleware.js:16 | a separator-free prefix followed by the separator becomes the first field, and the rest splits on its own |
| `AuthMiddleware.PresentsBearer` | backend/middleware/authMiddleware.js:10-12 | the header test: a present, non-empty header beginning with the exact text `Bearer`; pinned down by `BearerPrefixIsLoose`, `NonBearerLikeMissing` and `JsString.StartsWith` |
| `AuthMiddleware.ExtractToken` | backend/middleware/authMiddleware.js:16 | the token is field 1 of the header split on single spaces, `undefined` when there is no such field; pinned down by `ExtractTokenAbsent`, `ExtractTokenField` and `ExtractTokenEdgeCases` |
| `AuthMiddleware.WithoutPassword` | backend/middleware/authMiddleware.js:22 | `select('-password')`: the user with every field but the password, as `Gate`'s `req.user` clause uses it |
| `AuthMiddleware.WithoutPasswordIfFound` | backend/middleware/authMiddleware.js:22 | a lookup that found nobody stays `null`; a found user loses its password; pinned down by `Gate` and `UnknownUserStillAdmitted` |
| `AuthMiddleware.Gate` | backend/middleware/authMiddleware.js:6-35 | every request ends in exactly one outcome, `next()` or a 401 reply, and it comes last; the verifier is called at most once; no bearer header means only a "no token" reply; with one, the verifier is called first, on the extracted token; if it throws, the run is that call and the reply (two steps, no lookup); if it returns, the run has three steps and the second is the one lookup, on the decoded `id`; `next()` happens if and only if the verifier and the lookup both returned, and then `req.user` is the looked-up user without password; otherwise `req.user` is untouched and the reply is "token failed" |
| `AuthMiddleware.NonBearerLikeMissing` | backend/middleware/authMiddleware.js:10-34 | a header not starting with `Bearer` gives exactly the same run as a missing header |
| `AuthMiddleware.NoTokenIgnoresServices` | backend/middleware/authMiddleware.js:31-34 | without a bearer header the run does not depend on the verifier, the secret or the store |
| `AuthMiddleware.BearerPrefixIsLoose` | backend/middleware/authMiddleware.js:12 | `bearer` and `BEARER` headers are refused; `Bearer` alone and `Bearerabc def` pass the header test |
| `AuthMiddleware.ExtractTokenAbsent` | backend/middleware/authMiddleware.js:16 | there is no token exactly when the header contains no space |
| `AuthMiddleware.ExtractTokenField` | backend/middleware/authMiddleware.js:16 | the token is the text between the first space and the next space or the end of the header |
| `AuthMiddleware.ExtractTokenEdgeCases` | backend/middleware/authMiddleware.js:16 | `Bearer` gives no token, `Bearer  x` gives the empty token, `Bearer abc def` gives `abc`, `Bearerabc def` gives `def` |
| `AuthMiddleware.RejectedTokenFails` | backend/middleware/authMiddleware.js:14-28 | whatever token is extracted, missing or empty included, is passed to the verifier; if it throws, the run is that call and a "token failed" reply, with no lookup and no `next()` |
| `AuthMiddleware.UnknownUserStillAdmitted` | backend/middleware/authMiddleware.js:22-24 | a lookup that returns nobody without throwing still reaches `next()`, with a `null` user attached |
| `AuthMiddleware.Exchange.CallVerify` | backend/middleware/authMiddleware.js:19 | the verifier's result is returned and the call is logged |
| `AuthMiddleware.Exchange.CallFindById` | backend/middleware/authMiddleware.js:22 | the lookup's result for the decoded id is returned and the call is logged |
| `AuthMiddleware.Exchange.CallNext` | backend/middleware/authMiddleware.js:24 | one `next()` call is logged |
| `AuthMiddleware.Exchange.SendReply` | backend/middleware/authMiddleware.js:27 | one reply with the given status and message is logged |
| `AuthMiddleware.Exchange.Protect` | backend/middleware/authMiddleware.js:6-35 | the step-by-step middleware appends exactly the run given by `Gate` to the log and sets `req.user` only where that run does |
| `Dashboard.IsActive` | frontend/src/pages/Dashboard.jsx:53 | the filter callback `l.status === "disbursed"`, an exact comparison; pinned down by `ActiveStatusIsExact` and `ActiveOnly` |
| `Dashboard.ActiveOnly` | frontend/src/pages/Dashboard.jsx:53 | the filter keeps each disbursed loan as often as it occurs and drops every other loan, so it is never longer than the input |
| `Dashboard.ActiveLoans` | frontend/src/pages/Dashboard.jsx:53 | the active-loan count never exceeds the number of loans |
| `Dashboard.ActiveLoansCons` | frontend/src/pages/Dashboard.jsx:53 | the first loan adds one to the count exactly when it is disbursed |
| `Dashboard.ActiveLoansNone` | frontend/src/pages/Dashboard.jsx:53 | the count is 0 if and only if no loan is disbursed |
| `Dashboard.ActiveLoansAll` | frontend/src/pages/Dashboard.jsx:53 | the count equals the number of loans if and only if every loan is disbursed |
| `Dashboard.ActiveLoansAppend` | frontend/src/pages/Dashboard.jsx:53 | the count of a concatenation is the sum of the parts' counts |
| `Dashboard.ActiveLoansPermutation` | frontend/src/pages/Dashboard.jsx:53 | reordering the loans does not change the count |
| `Dashboard.ActiveStatusIsExact` | frontend/src/pages/Dashboard.jsx:53 | `disbursed` counts; `Disbursed`, another status or a missing status does not |
| `Dashboard.AmountOrZero` | frontend/src/pages/Dashboard.jsx:54 | `l.amount \|\| 0`: a missing amount counts 0; pinned down by `ZeroAmountAddsNothing` |
| `Dashboard.ReduceAmounts` | frontend/src/pages/Dashboard.jsx:54 | the `reduce` left fold; pinned down by `ReduceAmountsIsSum`, which equates it with the reference sum |
| `Dashboard.ReduceAmountsIsSum` | frontend/src/pages/Dashboard.jsx:54 | the left fold from a starting sum equals that sum plus the reference sum of the amounts |
| `Dashboard.TotalBorrowed` | frontend/src/pages/Dashboard.jsx:54 | the total borrowed equals the reference sum of the amounts, a missing amount counting 0, and is 0 for no loans |
| `Dashboard.SumAmountsAppend` | frontend/src/pages/Dashboard.jsx:54 | the sum of a concatenation is the sum of the parts' sums |
| `Dashboard.TotalBorrowedAppend` | frontend/src/pages/Dashboard.jsx:54 | the total of a concatenation is the sum of the parts' totals |
| `Dashboard.ZeroAmountAddsNothing` | frontend/src/pages/Dashboard.jsx:54 | a loan with a missing or zero amount, added at either end, leaves the total unchanged |
| `Dashboard.SumAmountsRemove` | frontend/src/pages/Dashboard.jsx:54 | removing one loan removes exactly its amount from the sum |
| `Dashboard.SumAmountsPermutation` | frontend/src/pages/Dashboard.jsx:54 | two lists with the same loans in any order have the same sum |
| `Dashboard.TotalBorrowedPermutation` | frontend/src/pages/Dashboard.jsx:54 | reordering the loans does not change the total borrowed |
| `Dashboard.TotalBorrowedBounds` | frontend/src/pages/Dashboard.jsx:54 | with no negative amount the total is non-negative and at least every single loan's amount |
| `Dashboard.SavingsOrDefault` | frontend/src/pages/Dashboard.jsx:39 | `savingsRes.data \|\| { balance: 0 }`; pinned down by `Summarize`'s balance clauses |
| `Dashboard.LoansOrDefault` | frontend/src/pages/Dashboard.jsx:40 | `loansRes.data \|\| []`; pinned down by `Summarize`'s count and total clauses |
| `Dashboard.Summarize` | frontend/src/pages/Dashboard.jsx:39-54 | a missing savings payload shows balance 0; a missing loans payload shows no active loans and nothing borrowed; otherwise the balance is the payload's, the count is the number of disbursed loans in the payload (so at most the number of loans) and the total is the sum of their amounts |

## Left out

- The token library's `verify` is not modelled: no signature, algorithm or expiry checks under RFC 7519. It is an arbitrary function passed in.
- The user store's `findById(...).select('-password')` is not modelled as a database query. It is an arbitrary function returning a user document or nothing, or throwing. The model then drops the password field.
- The `User` model is not part of this model. The user fields (id, name, email, admin flag, password) are an assumption.
- `console.error` on the failure path (authMiddleware.js:26) is logging I/O and is not modelled.
- `next()` is assumed not to throw. Express catches errors raised downstream, so it never returns into the middleware's `catch`.
- The `await` on the lookup is modelled as a call that completes or throws. Asynchronous scheduling and interleaving with other requests are not modelled.
- Module wiring is not modelled: the unused Express `app` (authMiddleware.js:5) and the overwritten `module.exports` (authMiddleware.js:37-38).
- The savings ledger and the loan engine are not modelled. Their controllers are not part of this model, so no deposit, withdrawal, balance, ownership or loan-status rule appears here.
- The route tables and the loan-terms display text in ApplyLoan.jsx are not modelled. The rates, bounds and durations there are form attributes and static text that no code enforces.
- The dashboard's data fetching is I/O and is not modelled. This covers `Promise.all`, the loading and error states, the retry button and the error toast.
- Dashboard.jsx calls `api.get` (lines 35-36) but its imports (lines 2-7) do not bring in `api`, unlike ApplyLoan.jsx:4 and AuthContext.jsx:3. As written, `fetchData` would then throw a ReferenceError before the fallbacks of lines 39-40. The figures of lines 53-54 would only see the initial empty list of line 21, unless the build provides `api` as a global. This is an observation from reading the code; nothing was executed. `Summarize` models lines 39-54 for the case where the fetch completes.
- Rendering and `toLocaleString` formatting are presentation and are not modelled. So is the table row's `loan.amount.toLocaleString()`, which would fail on a missing amount.
- Amounts are whole numbers. JavaScript floating point is not modelled: NaN, which `|| 0` also replaces by 0, and fractional amounts. Non-numeric amounts are not modelled either; a string amount would make `+` concatenate.
- A falsy but present payload (an empty string, `0`) is modelled as missing. All such values fall back to the same defaults under `||`.
