# Cache-aside user repository, modelled in Dafny

The service keeps users in a relational table (`id`, `name`, `email`) and puts a JSON copy of the
whole table in a Redis cache under the key `users:all` with a 60-second expiry.

- `get_users` asks the cache first when a Redis client is configured. A non-empty value is decoded
  with `json.loads` and returned, and the database is not queried. Otherwise it selects every row,
  writes `json.dumps(rows)` back with `SETEX users:all 60`, and returns the rows.
- `create_user(name, email)` inserts and commits one row, then deletes `users:all`.
- `get_redis_client` gives no client when `REDIS_HOST` is unset or empty. Then the cache is never
  read or written.
- The `/add` handler refuses an empty name or email before calling `create_user`.

Files:

- `wrappers.dfy`: `Option` and `Result`.
- `records.dfy`: the row type.
- `json_codec.dfy`: `json.dumps` of a row list and the matching `json.loads`, with the round trip
  proved. The encoding uses the default layout of `json.dumps`: separators `", "` and `": "`, keys
  in column order, and `ensure_ascii` escaping with lower-case `\uXXXX` and surrogate pairs.
- `users.dfy`:
  - `RepoState` holds the store rows in store order, the next auto-increment id, and the cache as
    a map from keys to entries.
  - `ReadStep` and `CreateStep` say what one call does to that state.
  - The class `UserRepository` holds the same state in fields. Its methods make the calls step by
    step, as the Python does, and their postconditions tie them to the step functions.
  - The lemmas state the cache's behaviour over the step functions.

Some outside calls may raise: the database connection, query, insert and commit, and the Redis
GET, SETEX and DEL. Which of them raise is the parameter `failing: set<Call>`. The code has no
`try`/`except`, so a failing call ends the operation with its error and later steps do not run.
In particular:

- a cache error is not swallowed: it reaches the caller;
- a DEL that fails after the commit leaves the row written and the old cache value in place.

A cache-aside layer is often described as degrading silently on cache errors, and as validating
input inside the repository. This code does neither. The model follows the code: cache errors
propagate (`InvalidationFailureSurfaces`, `FailedDeleteLeavesStale`), and validation sits in the
web handler (`AddUser`).

## Model

| member | source | states |
|---|---|---|
| `JsonCodec.Encode` | services/users.py:28 | the value written by SETEX starts with `[` and ends with `]`, so it is never empty and a later `if cached:` always succeeds on it |
| `JsonCodec.RoundTrip` | services/users.py:16 | `json.loads(json.dumps(rows)) == rows` for every row list |
| `JsonCodec.EncodeInjective` | services/users.py:28 | two different row lists never share a cached value |
| `JsonCodec.StringRoundTrip` | services/users.py:28 | every name and email survives `json.dumps` escaping and `json.loads` unescaping, whatever text follows it |
| `JsonCodec.RecordRoundTrip` | services/users.py:28 | one `{id, name, email}` object is read back as the same row, whatever text follows it |
| `Users.ReadStep` | services/users.py:10-30 | a read never changes the store and touches no cache key but `users:all`; with no client configured, or on a hit, it changes nothing at all |
| `Users.CreateStep` | services/users.py:33-48 | a write touches no cache key but `users:all`, and keeps ids strictly increasing in store order and below the next id |
| `Users.HitServesCache` | services/users.py:13-16 | with a client and a non-empty cached value, the result is that value decoded (or the decode error), and the state is unchanged |
| `Users.HitIgnoresStore` | services/users.py:13-16 | on a hit, neither the store's contents nor a failing store make any difference to the outcome, so no store query is issued |
| `Users.MissReadsStore` | services/users.py:18-30 | with no client, an absent key or an empty value, the result is exactly the store's rows in store order |
| `Users.MissRepopulates` | services/users.py:27-28 | after a miss with a client, the cache maps `users:all` to the encoded rows with expiry 60, other keys unchanged, and that value is a hit decoding to the rows returned |
| `Users.StoreFailureOnMiss` | services/users.py:18-28 | on a miss, a failing store query reaches the caller and the cache is not written |
| `Users.ReadTwice` | services/users.py:13-28 | after a successful read, a second read with no write between is a hit, returns the same rows and changes nothing |
| `Users.CreateAppends` | services/users.py:37-41 | a committed insert appends exactly one row with the next id and the given name and email, and earlier rows are unchanged |
| `Users.CreateInvalidates` | services/users.py:46-48 | with a client and no failing call, `create_user` succeeds and `users:all` is absent afterwards |
| `Users.FailedInsertChangesNothing` | services/users.py:37-48 | an insert or commit that raises leaves store and cache exactly as they were and reports a store error |
| `Users.InvalidationFailureSurfaces` | services/users.py:41-48 | a DEL that raises after the commit reports a cache error, with the row committed and the cache unchanged |
| `Users.ReadAfterWrite` | services/users.py:10-48 | a read after a completed write returns the old rows followed by the new one, with or without a cache |
| `Users.FreshReadIsStore` | services/users.py:10-30 | while the cached value, if any, is the encoding of the current rows, a read with no failing call returns exactly the store's rows |
| `Users.ReadKeepsFresh` | services/users.py:10-30 | reads keep the cached value equal to the encoding of the current rows, whatever fails |
| `Users.CreateKeepsFresh` | services/users.py:33-48 | writes keep the cached value equal to the encoding of the current rows unless the DEL raises |
| `Users.FailedDeleteLeavesStale` | services/users.py:41-48 | when the DEL raises after the commit, the cache goes on serving the rows without the new one |
| `Users.FreshIsNeverAhead` | services/users.py:13-28 | a cached value equal to the encoding of the current rows decodes to a prefix of the store |
| `Users.ReadKeepsNeverAhead` | services/users.py:13-30 | reads keep every servable cached value decoding to a prefix of the store's rows, whatever fails |
| `Users.CreateKeepsNeverAhead` | services/users.py:37-48 | writes keep every servable cached value decoding to a prefix of the store's rows, whatever fails |
| `Users.UserRepository.constructor` | redis_client.py:9-10 | the repository starts from a given store, cache and `REDIS_HOST`; a client is configured exactly when the host is set and non-empty |
| `Users.UserRepository.GetUsers` | services/users.py:10-30 | performs GET, SELECT and SETEX in the source's order and ends in the state and result `ReadStep` gives; the store is unchanged and, with no client, so is the cache |
| `Users.UserRepository.CreateUser` | services/users.py:33-48 | performs INSERT+COMMIT then DEL and ends in the state and result `CreateStep` gives; a failing insert changes nothing, and a success with a client leaves `users:all` absent |
| `Users.UserRepository.AddUser` | app.py:17-23 | an empty name or email is refused with a validation error before any store call and changes nothing; otherwise it is `create_user` |

## Left out

- Database connections, cursors, SQL text and closing: each operation's store work is one call,
  `StoreQuery` or `StoreInsert`, that either completes or raises. A failure in `close` after the
  commit or fetch is not modelled separately.
- Row order: the SELECT has no ORDER BY. The model returns rows in insertion order, which is
  what the table gives in practice but SQL does not promise.
- Expiry timing: an entry records the expiry it was written with (60), but time does not pass in
  the model. An entry that expired is the same as an absent one, and the constructor accepts any
  starting cache.
- Socket timeouts, `REDIS_PORT`, and the `int(...)` parse of the port at redis_client.py:7 (which
  raises on a bad value even when no host is set). Only "client configured or not" is modelled.
- Concurrent requests and the window between commit and DEL in which another request can
  re-cache the old rows: the model runs one operation at a time.
- Exception types: every database failure is `StoreError`, every Redis failure `CacheError`,
  every `json.loads` failure `DecodeError`.
- Auto-increment gaps: a failed insert does not use up an id in the model.
- JsonCodec.Decode: accepts exactly the `json.dumps` layout of a list of `{id, name, email}`
  objects. JSON that `json.loads` accepts in another shape is a `DecodeError` here, where
  `get_users` would return it: other whitespace, other key order, other value types, or an
  unpaired surrogate escape (a Dafny `char` cannot hold one).
- The Flask routes, templates, redirects and the `/api/users` endpoint. Only the empty-field guard
  of `/add` is modelled (`AddUser`); a missing form field is treated like an empty one.
- `services/redis_client.py`, a near-copy of `redis_client.py`, which is the module `users.py`
  imports.
- `tests/test_app.py` checks rendered HTML, which is not part of this model.
