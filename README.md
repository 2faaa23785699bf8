# passport-web3: a Dafny model of the credential check and its outcomes

passport-web3 is a passport strategy that logs a user in by an Ethereum
signature. The request carries a claimed address, a challenge message and
the signature of that message. The strategy recovers the signer of the
message from the signature. The recovered signer must equal the claimed
address. Then an application callback resolves the user. The strategy
reports through passport's `fail(info, status)`, `error(err)` and
`success(user, info)`. A callback that completes exactly once gives exactly
one report (`WellBehavedReportsOnce`). A callback that never completes gives
none, and one that completes twice gives two.

The repository holds two versions of this machine, and the model covers both:

- `src/strategy.js` (module `Web3Strategy`, file `strategy.dfy`) is the
  current `Strategy` class. It looks for credentials first in `req.body`,
  then in `req.query`, under the keys `address`, `msg` and `signed`. A
  source qualifies when it owns all three keys. It calls
  `onAuth(address, done, req, { msg, signed })`.
- `index.js` (module `LegacyStrategy`, file `legacy.dfy`) is the older
  version. It reads only `req.body`, under `ethAddress`, `msg` and
  `signedMsg`, and requires each value to be truthy. It calls
  `verify(req, ethAddress, msg, signedMsg, onUser)`.

Shared parts:

- `js.dfy` (module `Js`) holds the JavaScript semantics the code relies on:
  truthiness, `===`, `||` and own-property lookup.
- `passport.dfy` (module `Passport`) holds the request, the reports, and the
  completion-handle protocol. The `done`/`onUser` mapping is `DoneReport`.
  The constructor's argument handling is `NormaliseCallback`.
- `versions.dfy` (module `Versions`) relates the two versions.

How the model is built:

- Each `authenticate` is an imperative method over a per-request `Attempt`.
  The attempt records the reports and logs each call of the application
  callback.
- Each `authenticate` is proved equal to a pure function, `AuthTrace`. The
  properties are proved about `AuthTrace` and its parts (`GetCredentials`,
  `Decide`, `RunReports`).
- The application callback is a function value. It returns a `CallbackRun`:
  the completion-handle calls it makes while it runs, and the exception it
  ends with, if any. `authenticate` runs the `done` closure once for each of
  those calls. A completion that comes after `authenticate` has returned is a
  further call of the `Done` (or `OnUser`) method.
- The signature-recovery primitive is a parameter `recover(msg, sig)` that
  returns any JavaScript value.

Two behaviours of the code are worth stating outright:

- The code has no first-completion guard: every call of `done` reports,
  so a callback that completes twice produces two reports (`DoneReports`,
  `RunReports`). `WellBehavedReportsOnce` proves that a callback that
  completes exactly once gives exactly one report.
- `src/strategy.js` tests only that the keys are present, so empty values
  are credentials (`EmptyValuesAreCredentials`). Such a request is then
  stopped at the recovery check whenever the address is falsy
  (`FalsyAddressNeverVerified`). `index.js` tests the values for
  truthiness, so an empty field is missing (`EmptyFieldIsMissing`).

## Model

| member | source | states |
|---|---|---|
| `Js.StrictEquals` | src/strategy.js:76 | `===` holds exactly for equal values other than NaN |
| `Js.Or` | src/strategy.js:63 | the logical or of `a` and `b` is the first operand when it is truthy, else the second, and is truthy exactly when one of the operands is |
| `Js.Lookup` | index.js:67-69 | reading an own property gives its value as it is; reading a missing one gives a falsy value |
| `Passport.MissingMessage` | src/strategy.js:62-64 | the missing-credentials message is `badRequestMessage` when that is truthy, otherwise "Missing credentials"; it is never falsy |
| `Passport.DoneReport` | src/strategy.js:83-87 | a completion with truthy `err` reports `error(err)`; with falsy `err` and falsy `user` it reports `fail(info)` with no status; otherwise `success(user, info)` |
| `Passport.DoneReports` | src/strategy.js:83-87 | n completions give n reports, the i-th being that of the i-th completion (no first-completion guard) |
| `Passport.RunReports` | src/strategy.js:89-95 | a callback run reports its completions in order, then `error(ex)` last when it throws `ex` |
| `Passport.WellBehavedReportsOnce` | src/strategy.js:83-95 | a callback run gives exactly one report if and only if it completes exactly once (one `done` and no throw, or a throw and no `done`) |
| `Passport.NormaliseCallback` | src/strategy.js:39-45 | a function in first position is the callback; otherwise the second argument is, and a falsy one is rejected (the TypeError) |
| `Passport.BareCallbackIsEmptyOptions` | src/strategy.js:39-42 | `new Strategy(f)` stores the same callback as `new Strategy({}, f)` |
| `Web3Strategy.Every` | src/strategy.js:105-106 | `keys.every(k => has(obj, k))`, with `has` the own-key test, holds exactly when every key is an own key |
| `Web3Strategy.HasAll` | src/strategy.js:105-106 | `hasAll` holds exactly when the object is present and owns every key, whatever the values |
| `Web3Strategy.GetCredentials` | src/strategy.js:104-118 | a complete body is returned as it is; else a complete query; else nothing; the result is always one whole source, never a mix |
| `Web3Strategy.Decide` | src/strategy.js:68-81 | no credentials exactly when none were found; verified exactly when the recovered value is truthy and equal to `address`, with the triple taken from the credentials |
| `Web3Strategy.AuthTrace` | src/strategy.js:58-96 | `onAuth` is called exactly once when the match is verified and the callback is a function, and never otherwise, with the claimed address, `req` and `{ msg, signed }`; a verified match with a non-function callback reports only `error` (the TypeError); without a call there is exactly one report; missing credentials give `fail({message}, 400)`; a mismatch gives `fail({message: 'Invalid credentials (recovered …)'}, 400)`; only these pre-callback failures carry a status |
| `Web3Strategy.BodyShadowsQuery` | src/strategy.js:111-114 | with a complete body, the query does not affect the credentials |
| `Web3Strategy.EmptyValuesAreCredentials` | src/strategy.js:105-112 | a body owning the three keys is the credentials whatever their values, empty or falsy included, passed on unchanged |
| `Web3Strategy.FalsyAddressNeverVerified` | src/strategy.js:76-81 | a falsy claimed address is always a mismatch |
| `Web3Strategy.MissingCredentialsConsultsNothing` | src/strategy.js:59-66 | without credentials the outcome does not depend on the recovery primitive or on `onAuth`, and `onAuth` is not called |
| `Web3Strategy.MismatchNeverCallsOnAuth` | src/strategy.js:74-81 | after a mismatch the outcome does not depend on `onAuth`, and `onAuth` is not called |
| `Web3Strategy.VerifiedCallsOnAuth` | src/strategy.js:89-92 | on a match, `onAuth` gets the claimed address, the request and `{ msg, signed }` from the chosen source, and the reports are those of its run |
| `Web3Strategy.WellBehavedOnAuthReportsOnce` | src/strategy.js:83-95 | on a match, an `onAuth` that completes exactly once makes `authenticate` report exactly once |
| `Web3Strategy.Done` | src/strategy.js:83-87 | each call of `done` appends exactly the one report `DoneReport` gives |
| `Web3Strategy.Strategy.constructor` | src/strategy.js:47-49 | stores the callback and names the strategy "web3" |
| `Web3Strategy.Strategy.New` | src/strategy.js:38-50 | a missing callback fails with "Web3Strategy requires an onAuth callback"; otherwise a new strategy named "web3" holds the callback `NormaliseCallback` picks |
| `Web3Strategy.Strategy.Authenticate` | src/strategy.js:58-96 | appends exactly the reports and callback calls of `AuthTrace` to the attempt |
| `LegacyStrategy.Decide` | index.js:67-86 | no credentials exactly when `ethAddress`, `msg` or `signedMsg` is falsy; otherwise verified exactly when the recovered value equals `ethAddress` |
| `LegacyStrategy.AuthTrace` | index.js:65-99 | `verify` is called exactly once when the match is verified and the callback is a function, and never otherwise, with `(req, ethAddress, msg, signedMsg)`; a verified match with a non-function callback reports only `error` (the TypeError); without a call there is exactly one report; the two pre-callback failures are `fail({message}, 400)`, the second with the source's misspelt "receovered" message |
| `LegacyStrategy.QueryIgnored` | index.js:67-69 | requests with the same body either both call `verify` or both do not, and when they do not, they have the same outcome |
| `LegacyStrategy.EmptyFieldIsMissing` | index.js:72-74 | a present but empty `ethAddress`, `msg` or `signedMsg` counts as missing, whatever the other fields hold |
| `LegacyStrategy.VerifiedCallsVerify` | index.js:94-95 | on a match, `verify` is called once with the request and the body's `ethAddress`, `msg` and `signedMsg`, and the reports are those of its run |
| `LegacyStrategy.MissingCredentialsConsultsNothing` | index.js:72-74 | with a falsy field the outcome does not depend on the recovery primitive or on `verify`, and `verify` is not called |
| `LegacyStrategy.MismatchNeverCallsVerify` | index.js:80-86 | after a mismatch the outcome does not depend on `verify`, and `verify` is not called |
| `LegacyStrategy.WellBehavedVerifyReportsOnce` | index.js:88-98 | on a match, a `verify` that completes exactly once makes `authenticate` report exactly once |
| `LegacyStrategy.OnUser` | index.js:88-92 | each call of `onUser` appends exactly the one report `DoneReport` gives |
| `LegacyStrategy.Strategy.constructor` | index.js:49-51 | stores the callback and names the strategy "web3" |
| `LegacyStrategy.Strategy.New` | index.js:42-52 | a missing callback fails with "Web3Strategy requires a verify callback"; otherwise a new strategy named "web3" holds the callback `NormaliseCallback` picks |
| `LegacyStrategy.Strategy.Authenticate` | index.js:65-99 | for a request with a body, appends exactly the reports and callback calls of `AuthTrace` to the attempt |
| `Versions.Renamed` | index.js:67-69 | the legacy fields under the current keys form a complete credential source |
| `Versions.AgreeOnTruthyCredentials` | index.js:72-86 | with three truthy fields, the legacy check and the current check of the same values reach the same decision |
| `Versions.LegacyVerifiedImpliesCurrentVerified` | index.js:82-86 | whatever the legacy version passes to its callback, the current version passes too, with the same credentials (a corollary of `AgreeOnTruthyCredentials`) |
| `Versions.EmptyMessageSeparatesVersions` | index.js:72-74 | for every body with an empty `msg`, the legacy version finds no credentials while the current one, given the same values, does |

## Left out

- The signature-recovery primitive (`recoverPersonalSignature` from eth-sig-util: secp256k1 key recovery over the EIP-191 personal-message prefix) is a parameter `recover`; its cryptography is not modelled.
- An exception thrown by the recovery primitive is not modelled: in both versions it happens outside the `try` and escapes `authenticate` without a report.
- The passport-strategy base class, `util.inherits` and the `super()` call: `fail`, `error` and `success` are modelled only as appending a report to the per-request `Attempt`.
- Asynchronous timing: a completion after `authenticate` returns is modelled as a further call of `Done` or `OnUser`; when it happens relative to other requests is not modelled.
- The application's user lookup inside the callback: the callback is an arbitrary function value.
- The options object given to the constructor is discarded by both versions and does not appear in the model; the field-name options mentioned in index.js's comment are not implemented by the source either.
- `authenticate`'s options are modelled as an object whose `badRequestMessage` may be any value. In `src/strategy.js` the default `{}` replaces only `undefined`, and `badRequestMessage` is read only when credentials are missing: there `null` options throw a TypeError that escapes `authenticate`, which is not modelled, while a number, string or boolean reads as `undefined`, which the model covers as an absent message. `index.js` replaces every falsy options value with `{}`.
- `req.body` and `req.query` are plain objects or absent; primitive values there, and properties inherited through the prototype chain, are not modelled.
- JavaScript numbers are integers plus NaN; fractions, infinities and -0 are left out, since the code only tests values for truthiness and `===`.
- LegacyStrategy.Strategy.Authenticate: requires a request body, because `index.js` reads `req.body.ethAddress` outside its `try`, so a missing body is a TypeError that escapes.
- `src/index.js` (a re-export), the build configuration and the tests are not part of this model.
