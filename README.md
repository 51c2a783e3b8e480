# node2neo: transaction state machine and driver helpers, in Dafny

node2neo is a Node.js client for the transactional Cypher endpoint of the
Neo4j REST API. The endpoint is stateless. Each HTTP call returns a
transaction handle (a commit URL), and the client must send it back on the
next call.

This project models two parts of the client:

- **The `Transaction` object** (`lib/transaction.js`). It holds the open
  handle (`_commit`), the statements not yet sent (`_statements`), the
  statements already sent (`_appliedStatements`) and the events it should
  emit once the transaction commits (`_events`). Its `begin` and `commit`
  merge a statement argument into the pending queue, call the driver once,
  and update the fields from the driver's reply.
- **The pure parts of the driver** (`lib/index.js`). These are the base URL
  set by the constructor, `isNumber`, `getTransactionId`, the checks that
  refuse a call before any request, the request each operation sends (verb,
  URL, JSON body), and the three-way classification of a response.

Files:

- `js.dfy` (module `Js`): the JavaScript semantics the code depends on.
  This covers primitive values, truthiness, `'' + v`, `v - 0`, `indexOf` and
  `slice`.
- `node2neo.dfy` (module `Node2Neo`): the driver. It is all functions. Each
  operation is split in two. `PrepareX` covers the work before the HTTP call
  and ends in `Raise` (throws), `Refuse` (the callback gets an error and no
  request is made) or `Send(request)`. `Classify` turns the HTTP outcome into
  the callback's `(err)` or `(null, body)`.
- `transaction.dfy` (module `Transactions`): the transaction.
  - `BeginStep` and `CommitStep` give the effect of one call as a function of
    the state before it: the new state, the driver call made, the `emit`
    calls and how the call completes.
  - The class `Transaction` has one field for each JavaScript field. Its
    methods `Begin`, `Commit`, `MergeStatement` and `ReplayEvents` change
    those fields in place (the replay is the two nested loops of the source).
    Each method is proved equal to the matching step function.

The driver's reply is a parameter of `Begin` and `Commit`, because the
source passes the driver in (`Transaction(db)`). `DriverReply` gives the
reply that node2neo's own driver produces for a given HTTP outcome.

The model follows the code as written, including these quirks:

- An open handle makes `begin` reject with `'Existing Open Transaction: ' +
  handle`. But `begin` does not return there. It still merges, calls the
  driver (lib/transaction.js:72-101) and, if the call succeeds, updates the
  state. The result stays the first rejection.
- `begin` does the same with a statement of unknown shape: it rejects but
  still calls the driver. In `commit`, the same shape throws a TypeError,
  because `deferred` is used before `var deferred` is assigned
  (lib/transaction.js:215, 220). Nothing changes and the driver is not
  called.
- `commit` with no open handle merges its statement and then passes the same
  statement to `begin`, which merges it again. A string is therefore queued
  twice, with commandIds n and n + 1.
- An object statement is appended as it is. No commandId is added.

`getTransactionId` returns whatever its slice yields, and does no check of
its own. The numeric check is made by `executeStatement`,
`commitTransaction` and `removeTransaction`, which refuse a non-numeric id
with `'You must provide a numeric transaction id.'`.

The driver does not rule out a base URL that itself contains
`'/transaction'`. On such a server the commit URL it is handed back no
longer yields its id: on `http://h/transaction`, the id read from the commit
URL of transaction 5 is `db/data/transaction/5`, so every commit of that
handle is refused (`MarkedServerBreaksRoundTrip`).

## Model

| member | source | states |
|---|---|---|
| Js.Truthy | lib/transaction.js:72-78 | the falsy values are exactly undefined, null, false, 0 and '' |
| Js.ToJsString | lib/index.js:161 | a string is unchanged; a non-negative number becomes decimal digits that read back as it; a negative one is '-' followed by the digits of its magnitude; no other value becomes '' |
| Js.ToNumber | lib/index.js:13 | NaN exactly for undefined and for a non-empty string that is not all digits; a number is itself; a digit string is its value; '' is 0 |
| Js.SliceIndex | lib/index.js:285 | a `slice` index inside the string is kept, a negative one counts back from the end, and the result always lies in `[0, length]` |
| Js.Slice | lib/index.js:285 | `slice(start, end)` is never longer than the string; it is `s[start..end]` for indices inside the string, `s[start..length + end]` for a negative end, and '' when the end falls at or before the start |
| Js.IndexOf | lib/index.js:285 | `indexOf`: -1 exactly when the pattern occurs nowhere; otherwise a position where it occurs, with no occurrence before it |
| Js.NatToDecimal | lib/index.js:161 | the spelling of a numeric id in a URL is a non-empty digit string with no leading zero (except "0") |
| Js.ParseNatToDecimal | lib/index.js:13 | reading that spelling back as a number (`o - 0`) gives the number again |
| Node2Neo.RemoveTrailingSlash | lib/index.js:24 | a string ending in '/' loses exactly that '/'; any other string is unchanged; the result is always a prefix of the string at most one character shorter |
| Node2Neo.NewDriver | lib/index.js:20-25 | a falsy server becomes `http://localhost:7474`; a string server loses exactly one trailing '/' (and is otherwise unchanged); a truthy non-string throws |
| Node2Neo.IsNumber | lib/index.js:12-14 | false for undefined, null, '' and false; true for every number and for `true`; a string is numeric exactly when it is decimal digits |
| Node2Neo.GetTransactionId | lib/index.js:283-286 | a numeric value is returned unchanged; a string always yields a string; anything else throws a TypeError |
| Node2Neo.IdOfString | lib/index.js:285 | of a non-numeric string: the part from 13 past the first '/transaction' (12 when there is none) to 7 before the end, or "" when start >= end |
| Node2Neo.MarkerInCommitUrl | lib/index.js:218 | in a commit URL on a server without '/transaction', the first '/transaction' is the one the driver wrote, just after the server |
| Node2Neo.CommitUrlRoundTrip | lib/index.js:285 | for any id and any server without '/transaction', the id read from `server + '/db/data/transaction/' + id + '/commit'` is id |
| Node2Neo.DefaultServerHasNoMarker | lib/index.js:21-23 | the default base URL does not contain '/transaction', so the round trip applies to it |
| Node2Neo.NumericIdRoundTrip | lib/index.js:283-286 | a numeric id spelled into a commit URL comes back as its digit string, which is numeric |
| Node2Neo.PrepareBegin | lib/index.js:51-72 | refused with 'You need to provide at least one cypher statement' exactly when no statements are given; otherwise a POST of the statements to `/db/data/transaction`, with `/commit` appended exactly when `options.commit` is truthy |
| Node2Neo.PrepareExecute | lib/index.js:128-167 | throws exactly when getTransactionId throws, and with its error; refused with 'You must provide a numeric transaction id.' exactly when the id is not numeric; otherwise a POST to `/db/data/transaction/<id>`, with an empty statements list when none are given |
| Node2Neo.PrepareCommit | lib/index.js:190-224 | the same id checks; otherwise a POST to `/db/data/transaction/<id>/commit` whose body is the statements, or `true` when none are given |
| Node2Neo.PrepareRemove | lib/index.js:244-270 | the same id checks; otherwise a DELETE of `/db/data/transaction/<id>` |
| Node2Neo.Classify | lib/index.js:73-82 | fails exactly on a transport error (the error itself) or a non-empty errors array (the whole array); a success is the body, whose errors are empty |
| Node2Neo.Deliver | lib/index.js:138-142 | a refused call hands its error to the callback whatever the network would have said; a throwing call reaches no callback; a sent request's callback gets the classified response, so a success always came from a sent request |
| Node2Neo.MarkedServerBreaksRoundTrip | lib/index.js:285 | on the server `http://h/transaction`, the id read back from the commit URL of id 5 is `db/data/transaction/5`, which is not numeric, so commitTransaction refuses that handle |
| Node2Neo.CommitOfIssuedHandle | lib/index.js:196-219 | committing on a commit URL issued for a digit id posts to the commit URL of that id on the driver's own server |
| Transactions.Merge | lib/transaction.js:78-96 | what is pending is kept, in order, as a prefix; an empty argument changes nothing; a non-empty string is appended with commandId = the queue's old length; an object with a truthy `statement` is appended as is; an array is concatenated; the argument is rejected exactly when it is some other truthy primitive or an object without `statement` |
| Transactions.MergeValidityIgnoresPending | lib/transaction.js:78-96 | whether an argument is rejected depends only on the argument |
| Transactions.MergeStringTwice | lib/transaction.js:201-206 | a string merged twice gets commandIds n and n + 1 |
| Transactions.MergeAllNumbersInOrder | lib/transaction.js:79-84 | strings merged one by one are appended in order, with commandIds numbered consecutively from the queue's old length (from 0 on an empty queue) |
| Transactions.ReplayPayloads | lib/transaction.js:111-116 | the inner loop makes one `emit` per payload, in list order: an array payload is the argument list itself, any other payload is emitted as `(key, payload)` |
| Transactions.Replay | lib/transaction.js:110-117 | the replay makes exactly as many `emit` calls as there are queued payloads |
| Transactions.OffsetStep | lib/transaction.js:110 | the payloads of each key fill their own block of places, right after those of the keys before it |
| Transactions.ReplayAt | lib/transaction.js:110-117 | payload j of key i is emitted at place (payloads of earlier keys) + j |
| Transactions.ReplayPlacesOrdered | lib/transaction.js:110-117 | those places are strictly increasing in key order and then in list order, so no two payloads share a place |
| Transactions.ReplayPlaceOf | lib/transaction.js:110-117 | every place of the replay is the place of some payload; with the two rows above, each payload is emitted exactly once |
| Transactions.BeginStep | lib/transaction.js:58-163 | the driver is always called once, with the merged queue and the options; an open handle always gives 'Existing Open Transaction: ' + handle; otherwise a rejected shape gives 'Begin transaction: Invalid statement syntax'; on failure only the merge has changed the state, nothing is emitted, and the result is the error (the whole errors array for server errors); on success pending is empty; with `options.commit` the state is fresh and every event is replayed; without it, applied becomes the merged queue and the handle becomes `response.commit`; the result is `response.results` unless an early rejection stands |
| Transactions.CommitStep | lib/transaction.js:194-279 | a rejected shape throws, changes nothing and calls no driver; with no handle it is `begin(statement, {commit: true})` applied after its own merge; with a handle it calls commitTransaction(handle, merged queue); success gives the fresh state, the full replay and `response.results`; failure keeps handle, applied and events, emits nothing and rejects with the error; a failed commit on a handle leaves exactly the merged queue pending, and one without a handle leaves what begin merged on top of it |
| Transactions.CommitWithoutHandleSendsStringTwice | lib/transaction.js:275-277 | without a handle, a committed string reaches the driver twice, as commands n and n + 1 |
| Transactions.BeginTwice | lib/transaction.js:72-75 | after a `begin` that opened a transaction, a second `begin` is rejected with the stored handle and still calls the driver |
| Transactions.BeginThenCommit | test/transaction.js:16-35 | an empty `begin` posts an empty statements list to the begin URL and stores the commit URL it gets back; an empty `commit` then posts to the commit URL of the same id |
| Transactions.DriverReply | lib/transaction.js:101-106 | with node2neo's driver, a begin gets the classified response; a commit on a truthy handle never throws; a commit call throws, is refused with 'You must provide a numeric transaction id.' or gets the classified response exactly as commitTransaction throws, refuses or sends; a successful reply never carries errors, so the Transaction's own errors check never fires with this driver |
| Transactions.Transaction.constructor | lib/transaction.js:11-24 | a new instance has no handle, empty pending and applied queues, and no events |
| Transactions.Transaction.MergeStatement | lib/transaction.js:78-96 | updates `_statements` in place to the merged queue and reports whether the shape was accepted |
| Transactions.Transaction.ReplayEvents | lib/transaction.js:108-117 | the nested loops append exactly `Replay(events)` to the emitted calls |
| Transactions.Transaction.Begin | lib/transaction.js:58-163 | the fields, the driver call, the emitted calls and the result are those of BeginStep on the old fields |
| Transactions.Transaction.Commit | lib/transaction.js:194-279 | the fields, the driver call, the emitted calls and the result are those of CommitStep on the old fields; with no handle it calls Begin |

## Left out

- The HTTP exchange itself (`request.post`, `request.del`) is an input (`HttpOutcome`). The request headers (`Accept`, `X-Stream`) are not modelled.
- `beginTransactionStream` (lib/index.js:85-115) is left out. It is streaming I/O built on `through` and `JSONStream`.
- Promises (`Q.defer`, `nodeify`) and asynchronous callbacks are left out. Each call completes synchronously with one `Completion`. Where the code rejects early and settles again later, the early rejection stands, as it does for a promise.
- `EventEmitter` is left out. Each `emit` call is appended to the field `emitted`. Listeners, and listeners that call back into the transaction while the replay runs, are not modelled.
- No code in the source adds events, so the model has no event registration. `events` is a public field that a caller sets, in the order `for ... in` visits the keys. The ordering JavaScript gives to integer-like keys is not modelled.
- There is no rollback on the Transaction. `removeTransaction` is modelled only up to its request (`PrepareRemove`).
- Node2Neo.IsNumber: numbers are integers only, with no NaN, fractions or infinities. A string counts as numeric only when it is decimal digits. JavaScript also accepts `' 42 '`, `'1e3'`, `'0x1A'`, `'-5'`, `'1.5'` and whitespace-only strings, and the model treats these as non-numeric.
- Js.ToJsString: numbers are unbounded integers here, so every number is spelled in full decimal digits. JavaScript numbers are doubles: from 1e21 up `'' + n` gives an exponent form such as `'1e+21'`, and integers above 2^53 are not held exactly. Neither is modelled. Transaction ids issued by the server stay far below both limits, so the driver's URLs are unaffected.
- JavaScript objects are not values of `JsValue`. `isNumber`, `getTransactionId` and the `Node2Neo` constructor are modelled only on primitive values.
- The error classes of lib/errors.js and lib/error.js become the constructors of `Error`, each carrying its message. Stack capture and prototype inheritance are not modelled. The wording of the runtime's TypeErrors depends on the JavaScript engine, so the messages here are descriptive.
- A response whose `errors` property is missing is not modelled: `errors` is always a list. The driver treats a missing `errors` like an empty one, but the Transaction's `response.errors.length` would throw on it.
- A driver that throws synchronously inside `begin` or `commit` is not modelled: the Transaction gets a reply. `DriverReply` shows that node2neo's own driver does not throw there.
- `begin` with `options` explicitly `undefined` throws on `options.commit`. This case is not modelled: options is always an object.
- The model uses values, not shared objects. A pushed statement object is shared with the caller in the source, and `_appliedStatements` briefly shares its array with `_statements`. Later outside changes to those objects are not modelled.
- The statement bodies the driver sends: `beginTransaction`, `executeStatement` and `commitTransaction` post their `statements` argument unchanged, whatever its shape. The model holds only `{statements: [...]}` of `Statement(statement, commandId, parameters)`. Other shapes, such as a `statements` object instead of a list, a top-level `resultDataContents`, a per-statement `resultDataContents`, and `json: undefined` from `beginTransaction(undefined, cb)`, are not modelled.
- Js.IndexOf and Js.Slice count Unicode scalar values, where JavaScript counts UTF-16 code units. Strings holding characters outside the Basic Multilingual Plane get different positions. The ASCII URLs the driver builds are unaffected.
- `test/util/database.js` starts a database server and is left out. The test files run against a live server and serve only as evidence for properties.
