# Account activation in fastapi-blog, modelled in Dafny

The users router of fastapi-blog lets a new user sign up and then activate
the account with a one-time code. Signup creates the user row. It then draws
a random integer in [10000, 99999] and caches the integer's decimal text under
the user's email, with an expiry of 600 seconds. Activation looks the user up
by email and applies three guards in a fixed order. An unknown email gives 404
"user not found". A user whose `is_firstlogin` is already false gives 403
"already activated". A submitted code that differs from the cached one gives
403 "code has expired"; a missing cache entry counts as a difference. Only
when all three guards pass does activation set `is_verified` to true and
`is_firstlogin` to false.

The project has two modules:

- `Codes` (`codes.dfy`) covers the code drawn at signup and its decimal text,
  written the way Python's `str()` writes a non-negative integer. It proves
  that the text reads back as the same number and that different numbers
  give different texts. It also proves that every draw gives exactly five
  digits with no leading zero, and that every such string comes from exactly
  one draw.
- `UserRouter` (`user_router.dfy`) holds the user table (email to the two
  flags) and the cache (email to code and expiry). Pure functions give the
  outcome and the new state of signup, of activation and of a cache expiry.
  The class `Router` holds both maps as mutable fields. Its methods `Signup`,
  `Activate` and `Expire` change them and are proved against those functions.
  Lemmas prove the workflow's promises for a single call and for any sequence
  of signups, activations and cache expiries (`Event`, `Step`, `Run`); the
  other user handlers are not among these events. For example, in any such
  sequence each email is activated at most once, and, starting from an empty cache, a code that is not five digits
  never activates an account.

Assumptions about code that is not part of this model:

- `user_crud.create` is not part of this model. Its effect is taken to be
  adding a row with the flags the store gives a new user, passed in as
  `initial`, and nothing else. For an email that already has a row, creation
  is taken to fail because emails are unique. In that case no code is cached
  (`EmailTaken`).
- The cache client (`get_redis`) is not part of this model. `cache.get` is
  taken to return the stored text itself, and the submitted code to be text,
  so the comparison at `app/routers/user.py:88` is string equality.

## Model

| member | source | states |
|---|---|---|
| `Codes.DecimalString` | app/routers/user.py:52 | `str()` of a non-negative integer is a non-empty string of decimal digits whose first digit is '0' exactly when the number is zero |
| `Codes.ParseDecimalString` | app/routers/user.py:52 | reading the decimal text of any number back gives that number (round trip) |
| `Codes.DecimalStringInjective` | app/routers/user.py:52 | two numbers with the same decimal text are equal, so the cached text determines the drawn code |
| `Codes.DecimalStringOfParse` | app/routers/user.py:52 | every digit string with no leading zero is the text of its own value (the other round trip) |
| `Codes.DrawIsVerificationCode` | app/routers/user.py:52 | every integer `random.randint(10000, 99999)` can return has text of exactly five digits, the first not zero |
| `Codes.VerificationCodeIsDrawn` | app/routers/user.py:52 | every five-digit string with no leading zero is the text of exactly one integer in [10000, 99999] |
| `UserRouter.ActivateResult.Status` | app/routers/user.py:78-97 | success answers 200, an unknown user 404, and both already-activated and a code mismatch 403 |
| `UserRouter.Lookup` | app/routers/user.py:87 | `cache.get` gives the stored code exactly when the email has a live entry, and nothing otherwise |
| `UserRouter.SignupOutcome` | app/routers/user.py:50-53 | signup fails exactly when the email already has a row; otherwise the code it caches is the draw's text, a five-digit code |
| `UserRouter.AfterSignup` | app/routers/user.py:50-53 | a successful signup adds the new row and caches the code's text under the email with expiry 600; a failed one changes nothing |
| `UserRouter.ActivateOutcome` | app/routers/user.py:76-91 | not-found exactly when the email has no row; already-activated exactly when the row exists and its first login is over, whatever the code; code-expired exactly when the row is on first login and the cache has no entry or a different code; success exactly when the row is on first login and the code equals the cached one |
| `UserRouter.AfterActivate` | app/routers/user.py:87-96 | success sets that user's flags to verified and not first login; no other row changes, no row is added or removed, the cache is never changed, and a failed activation changes nothing |
| `UserRouter.AfterExpiry` | app/routers/user.py:53 | once the 600-second expiry passes the email's entry is gone, the user table is unchanged, and every other email's cache entry, code and expiry, is unchanged |
| `UserRouter.Router.Signup` | app/routers/user.py:43-64 | for some draw in [10000, 99999], the result and the new table and cache are those of `SignupOutcome` and `AfterSignup`; on success the cache holds the returned five-digit code with expiry 600 |
| `UserRouter.Router.Activate` | app/routers/user.py:71-97 | the result is `ActivateOutcome` of the old state and the new state is `AfterActivate` of it |
| `UserRouter.Router.Expire` | app/routers/user.py:53 | the cache entry's expiry: the new state is `AfterExpiry` of the old one |
| `UserRouter.AlreadyActivatedWhateverCode` | app/routers/user.py:82-86 | the already-activated answer does not depend on the submitted code, and it changes nothing |
| `UserRouter.ActivateTwice` | app/routers/user.py:82-94 | right after a successful activation, activating the same email again with any code is already-activated |
| `UserRouter.SignupThenActivate` | app/routers/user.py:52-94 | after signing up a new user who starts on first login, activation with the code signup cached succeeds and any other code answers code-expired |
| `UserRouter.SignupExpireThenActivate` | app/routers/user.py:53-91 | once the signup code's cache entry has expired, activating with that very code answers code-expired |
| `UserRouter.FlagsChangeOnlyByActivation` | app/routers/user.py:87-94 | a signup, activation or expiry that changes a user's flags is a successful activation of that user, and the submitted code equals the code cached for the email |
| `UserRouter.RunFlagsChangeOnlyByActivation` | app/routers/user.py:87-94 | over any sequence of signups, activations and expiries, a user whose flags end up different from where they started was activated successfully by one of them |
| `UserRouter.StepIsOneWay` | app/routers/user.py:82-94 | no signup, activation or expiry adds back first login or removes verified from an existing row, or deletes a row |
| `UserRouter.NoActivationAfterFirstLogin` | app/routers/user.py:82-86 | once a user's first login is over, no sequence of signups, activations and expiries activates that user, and the first login stays over |
| `UserRouter.ActivatedStaysActivated` | app/routers/user.py:82-94 | after a successful activation and any later signups, activations and expiries, activating the same email with any code is already-activated |
| `UserRouter.ActivationsAtMostOnce` | app/routers/user.py:78-94 | in any sequence of signups, activations and expiries, each email is activated successfully at most once |
| `UserRouter.StepKeepsCacheHoldsCodes` | app/routers/user.py:52-53 | if every cached value is a five-digit code stored with expiry 600, that stays true after any signup, activation or expiry, because only signup writes the cache |
| `UserRouter.RunKeepsCacheHoldsCodes` | app/routers/user.py:52-53 | the same invariant holds after any sequence of signups, activations and expiries |
| `UserRouter.ActivatingCodeIsVerificationCode` | app/routers/user.py:52-53 | starting from an empty cache, a submitted code that activates an account is always five digits with no leading zero, after any sequence of signups, activations and expiries |

## Left out

- The CRUD handlers `retrieve`, `all_users`, `update`, `partial_update` and `destroy` (app/routers/user.py:24-40, 100-141) are left out. They only call `user_crud`, which is not part of this model. So the lemmas over sequences of calls cover only signups, activations and expiries, not `destroy`, `update` or `partial_update`. With `destroy` in a sequence, deleting an activated user and signing the same email up again on first login lets that email be activated a second time. The update handlers may rewrite the two flags, since what their request schemas allow is not part of this model.
- `user_crud.create` is not part of this model. The new row's initial flags are a parameter, and its behaviour on a duplicate email is the assumption stated above.
- Authentication (`get_current_user`) and dependency injection are framework plumbing and are left out.
- The verification email sent from a background task (app/routers/user.py:54-59) is left out. It is an external side effect and does not change the user table or the cache. The welcome email at line 51 is commented out in the source.
- The cache client is not part of this model. The model takes `cache.get` to return the stored `str` and the submitted code to be a `str`. The source breaks this in two cases: redis-py without `decode_responses` returns bytes from `get`, and an async client would make the un-awaited `cache.set` and `cache.get` (lines 53 and 87) do nothing. In both cases every activation in the source that passes the first two guards answers "code has expired" (an unknown email still answers 404 and an activated user 403 already-activated), which the model does not capture.
- The database session (`execute`, `commit`, `refresh`) is modelled as atomic updates of the user table. Transactions and failures of the store or the cache are left out.
- Handlers run atomically in this model. Two concurrent requests that interleave at the `await` points are not modelled. For example, two activations of one email could both pass the guards before either commits.
- Only the two flags of a user row are modelled. The id, first name and other columns are neither read nor written by this workflow.
- The HTTP responses are reduced to the result tag and its status code. The JSON bodies are left out.
- Randomness is modelled as an arbitrary choice in [10000, 99999]. Time is modelled only as the cache dropping an entry (`Expire`). The 600-second expiry is kept as a number on the entry.
- app/models/post_model.py is left out. It only declares table columns and has no behaviour.
