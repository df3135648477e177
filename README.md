# toy-banklink payment coordinator — a Dafny model

This project models the core of the toy-banklink backend: the `payments` table and its data access object (server/dao/dao.go), and the service that coordinates the table, the TrueLayer payment API and a one-slot cache of the OAuth2 access token (server/services/service.go). It then proves properties of that model.

- `outcomes.dfy` (module `Outcomes`): the Go `error` values the core returns, and `Result<T>`. `Result<T>` is `Ok` or `Err`, plus `Panic` for the run-time panic of reading `results[0]` from an empty list.
- `gotime.dfy` (module `GoTime`): the Go arithmetic the cache relies on. An instant is a count of nanoseconds since Go's zero `time.Time`. `time.Duration(n) * time.Second` wraps around in int64 arithmetic. `time.Until` saturates to the Duration range.
- `dao.dfy` (module `Dao`): the row type `Payment`, which mirrors `GetPaymentDataResponse`, and the column defaults `"unpaid"` and `""`. It also holds the two SQL `UPDATE … WHERE` statements as functions over the rows and lemmas about them. The class `PaymentTable` keeps its rows in table order. Its methods are the DAO operations, and the updates loop over the rows.
- `services.dfy` (module `Services`): the upstream replies, given as inputs. A `Reply` is a transport failure, or a status code plus a body that is unreadable, malformed or decoded. The module also holds the cache functions and lemmas. The class `Service` has the fields `authToken` and `authTokenExpireTime` and a reference to the table. It also has a ghost log `exchanges` that records, in order, the requests the service sends upstream.
- `flows.dfy` (module `Flows`): call sequences a client of the service runs: prepare then read, the pay flow, two callbacks, a callback with an empty `payment_id`, and two token lookups. They are proved from the contracts alone.

Where the code departs from what a payment coordinator is expected to do, the model follows the code:
- There is no guard on terminal statuses. A callback always overwrites the stored status (`Flows.CallbacksOverwriteStatus`, `Dao.SetStatusLastWins`).
- A failed token refresh is swallowed. `GetAccessToken` returns the empty token and no error.
- An update that matches no row is a silent no-op, not a "not found" error.
- `InsertPayment` does not check that `amount > 0`.
- Nothing keeps upstream ids unique.
- There is no single-flight refresh and no safety margin on the expiry.
- The token endpoint and the status query never check the HTTP status code. Any body that decodes is used, with missing fields at their zero values. A status answer that decodes with an empty `results`, such as a JSON error body, panics once the row lookup has succeeded.
- `RequestPaymentData("")` is possible, because the callback handler accepts an empty `payment_id`. It finds an unmapped row and then rewrites the status of every unmapped row (`Flows.EmptyPaymentIdRewritesUnmapped`).
- A successful `RequestPaymentURL` for a uuid that has no row still returns the auth URI. The mapping is then a silent no-op.

## Model

| member | source | states |
|---|---|---|
| `GoTime.Wrap` | server/services/service.go:213 | an int64 result: the identity within range, and one step of two's-complement wrap-around beyond it |
| `GoTime.Seconds` | server/services/service.go:213 | `time.Duration(n) * time.Second` is exactly n·10⁹ ns for up to 9223372036 s either way, and one wrap of 2⁶⁴ away from it up to twice that |
| `GoTime.SecondsExact` | server/services/service.go:213 | a lifetime of at most 9223372036 seconds converts to exactly n·10⁹ ns and stays positive when n is |
| `GoTime.SecondsOverflow` | server/services/service.go:213 | one second more wraps `Duration(n) * time.Second` to a negative Duration |
| `GoTime.Until` | server/services/service.go:222 | `time.Until` is positive exactly when the expiry lies after now, zero exactly when equal, and exact when no saturation happens |
| `GoTime.Add` | server/services/service.go:213 | `time.Until` of `t.Add(d)` read at `t` gives back `d` |
| `Dao.NewPayment` | server/dao/dao.go:46-51 | an inserted row keeps the given id, receiver and amount and takes the column defaults `"unpaid"` and `""` |
| `Dao.SetTruelayerIdWhere` | server/dao/dao.go:60-64 | the UPDATE by id keeps the length, changes only the `truelayer_payment_id` column, sets it on every row with that id and leaves all other rows equal |
| `Dao.SetStatusWhere` | server/dao/dao.go:67-71 | the UPDATE by upstream id keeps the length, changes only `status`, sets it on every row with that upstream id whatever its old status, and leaves the other rows equal |
| `Dao.InsertKeepsIdsUnique` | server/dao/dao.go:74-84 | appending a row whose id is new keeps ids unique, which is the primary-key invariant |
| `Dao.IdDeterminesRow` | server/dao/dao.go:46-47 | with unique ids, two rows with the same id are the same row |
| `Dao.SetTruelayerIdTouchesOneRow` | server/dao/dao.go:60-64 | with unique ids, MapToTruelayer rewrites at most one row |
| `Dao.UpdatesKeepIdsUnique` | server/dao/dao.go:59-71 | neither UPDATE disturbs the uniqueness of ids |
| `Dao.SetTruelayerIdIdempotent` | server/dao/dao.go:60-64 | mapping a row to the same upstream id twice equals mapping it once |
| `Dao.SetStatusLastWins` | server/dao/dao.go:67-71 | two status updates for one upstream id equal the second alone, so the last status always wins |
| `Dao.UpdatesWithoutMatch` | server/dao/dao.go:59-71 | an UPDATE whose WHERE clause matches nothing leaves every row unchanged |
| `Dao.MapThenLookup` | server/services/service.go:274 | after mapping an existing row, that row carries the upstream id, and a lookup by the upstream id finds a row |
| `Dao.SnapshotBeforeStatusUpdate` | server/services/service.go:140-150 | the row read before the status update equals the stored row afterwards except for its status, which is the new one |
| `Dao.PaymentTable.Open` | server/dao/dao.go:33-57 | opening the database yields a table holding the stored rows, with ids unique |
| `Dao.PaymentTable.InsertPayment` | server/dao/dao.go:74-84 | a new id appends exactly `{id, receiverID, amount, "unpaid", ""}` and returns the id; an existing id fails with a unique-constraint error and leaves the table unchanged |
| `Dao.PaymentTable.MapToTruelayer` | server/dao/dao.go:60-64 | the new rows are `SetTruelayerIdWhere` of the old ones, with no error and no other change; ids stay unique |
| `Dao.PaymentTable.UpdatePaymentStatus` | server/dao/dao.go:67-71 | the new rows are `SetStatusWhere` of the old ones, with no error even when nothing matches; ids stay unique |
| `Dao.PaymentTable.GetPayment` | server/dao/dao.go:88-106 | returns a stored row with that id exactly when one exists, else `sql.ErrNoRows`; the table is not modified |
| `Dao.PaymentTable.GetPaymentByTruelayerID` | server/dao/dao.go:109-127 | returns some stored row with that upstream id exactly when one exists, else `sql.ErrNoRows`; the table is not modified |
| `Services.Expired` | server/services/service.go:222 | the slot counts as expired exactly when its expiry is not after now; the saturation of `time.Until` never changes that |
| `Services.Refreshed` | server/services/service.go:213-216 | a decoded token answer stores its `access_token`, with a time until expiry of `Duration(expires_in) * time.Second`; any other reply leaves the slot |
| `Services.SlotAfter` | server/services/service.go:221-232 | an unexpired slot is kept; an expired one is what the refresh leaves |
| `Services.TokenAfter` | server/services/service.go:221-232 | the token returned is the one the slot holds afterwards, except that a failed refresh returns the empty token |
| `Services.InitialSlotExpired` | server/services/service.go:86-95 | the zero expiry time of a new service lies before every clock reading, so the first lookup refreshes |
| `Services.CacheHit` | server/services/service.go:221-232 | while the expiry lies in the future, the cached token is returned and the slot is not touched |
| `Services.RefreshStoresToken` | server/services/service.go:213-216 | a decoded refresh stores `access_token` with expiry now + `expires_in` seconds and returns it |
| `Services.FailedRefreshSwallowed` | server/services/service.go:222-226 | a refresh that fails in transport or decoding leaves both fields unchanged and yields the empty token |
| `Services.RefreshedTokenReused` | server/services/service.go:213-231 | a token refreshed with a positive lifetime is served from the cache at every instant before it expires |
| `Services.OverlongLifetimeIsStale` | server/services/service.go:213 | an `expires_in` from 9223372037 s to 18446744073 s wraps to a negative lifetime, so the stored token is stale at once |
| `Services.WrappedLifetimeCanBeFresh` | server/services/service.go:213 | an `expires_in` of 18446744074 s wraps to a positive lifetime of under one second |
| `Services.CreateOutcome` | server/services/service.go:252-279 | createPayment succeeds exactly on a 200 with non-empty `results`, returning `results[0].auth_uri`; a non-200 with a readable body gives "truelayer API did not respond with code 200"; a 200 with empty `results` panics |
| `Services.Service.GetService` | server/services/service.go:86-95 | a new service has the empty token, the zero expiry and an empty upstream log |
| `Services.Service.SetAccessToken` | server/services/service.go:189-217 | one token request; on a decoded body, whatever its status code, it stores and returns the token; on a transport, read or decode failure it returns that error and leaves the cache |
| `Services.Service.GetAccessToken` | server/services/service.go:221-232 | never an error; returns and leaves the token and slot given by the cache functions; sends a token request only when the slot is expired |
| `Services.Service.CreatePayment` | server/services/service.go:234-280 | sends one create request with the given bearer token; the result is `CreateOutcome`; only an accepted answer maps row `uuid` to `results[0].simp_id`, and every other outcome leaves the table unchanged |
| `Services.Service.RequestPaymentURL` | server/services/service.go:98-110 | gets a token, through the cache or a refresh, then creates the payment with that token; the result and the table change are those of createPayment |
| `Services.Service.RequestPaymentData` | server/services/service.go:113-151 | a bad URL fails before any other step; otherwise a token lookup, then one status query; the error cases in order of the code; success exactly when the body decoded with results and a row has that upstream id; the row returned is the pre-update one; the new rows are `SetStatusWhere` with `results[0].status`, with no terminal guard, and the table is unchanged on every other outcome |
| `Services.Service.PreparePayment` | server/services/service.go:170-177 | exactly InsertPayment's result and table change; no upstream call and no cache change |
| `Services.Service.GetPaymentData` | server/services/service.go:180-187 | exactly GetPayment's result; nothing changes |
| `Flows.PrepareThenRead` | server/services/service.go:170-187 | a prepared payment reads back as `{id, receiver, amount, "unpaid", ""}` |
| `Flows.PayFlow` | server/services/service.go:98-110 | after prepare and a 200 create answer, the caller gets the auth URI and the row carries the simp_id |
| `Flows.CallbacksOverwriteStatus` | server/services/service.go:140-150 | each callback returns the pre-update row, and a second callback overwrites the status from the first whatever it was |
| `Flows.EmptyPaymentIdRewritesUnmapped` | server/services/service.go:140-145 | a callback with an empty payment id rewrites the status of every unmapped row |
| `Flows.TokenIssuedOnce` | server/services/service.go:221-232 | two lookups within the token lifetime return the same token and send exactly one token request |

## Left out

- `RequestBanks` (server/services/service.go:154-167): it passes the bytes of an HTTP GET straight through and has no logic to model.
- Building HTTP requests, setting headers, JSON encoding and the 20 s timeout are left out. That timeout belongs to the `http.Client` that sends the create request and the status query; when it fires, the model sees a transport failure. `json.Marshal` of the request struct and `http.NewRequest` on the constant creation URL cannot fail, so the model has no branch for them.
- The token request in `SetAccessToken` (server/services/service.go:200) goes through `http.Post`, whose default client has no timeout. A provider that never answers blocks `GetAccessToken`, and with it `RequestPaymentURL` and `RequestPaymentData`, for ever. The model assumes every exchange ends in a reply or a transport failure.
- `Services.Service.RequestPaymentData`: whether `http.NewRequest` accepts the URL built from `paymentID` is decided by Go's net/url. The model takes it as the boolean input `urlParses` and does not model the URL grammar.
- SQL driver failures are not modelled. These are `Prepare`, `Exec` and `Scan` errors other than "no rows", and the `CreateTable` DDL. So `MapToTruelayer` and `UpdatePaymentStatus` have no error result, and the service's checks of their errors never fire.
- `uuid.New()` is the caller-chosen `id` argument of `InsertPayment` and `PreparePayment`.
- The response `log.Println` of a non-200 body is left out, because it is logging.
- The decoded `token_type` and `scope` are left out, because nothing uses them.
- Concurrency is left out. The token fields have no lock, and the model's calls run one after another. There is no claim about parallel refresh or single-flight.
- The wall clock is the input `now`. `GetAccessToken` reads the clock, and `SetAccessToken` reads it again, later by at least the round trip of the token request. The model uses one `now` for both readings.
- Go's monotonic clock reading and the year range of `time.Time` are not modelled. Instants are unbounded integers.
- `Services.Service.SetAccessToken`, `Services.Service.RequestPaymentData`: a Go error return also hands back a zero-valued token or row. The model folds that into `Err`.
- The request adapter (server/handlers/handler.go, server/handlers/error_handler.go), routing and CORS (server/main.go), configuration loading (server/config/reader.go) and the browser UI (web/www/script.js) are outside the core and are not part of this model.
