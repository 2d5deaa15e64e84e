/**
 * The cache-aside user repository: `get_users` reads the cache entry "users:all" and falls back
 * to the store on a miss, writing the rows back with a 60-second expiry; `create_user` inserts
 * and commits a row, then deletes that entry.
 *
 * The store and the cache are state outside the program. `RepoState` is that state as a value,
 * `ReadStep` and `CreateStep` say what one call does to it, and the class `UserRepository`
 * carries it in fields and performs the calls step by step. Which outside calls raise is not
 * decided by the program: it is the parameter `failing`. The code catches no exception, so a
 * failing call ends the operation with that error and later steps do not happen.
 */
module Users {
  import opened Wrappers
  import opened Records
  import JsonCodec

  const CacheKey: string := "users:all"
  const CacheTtl: nat := 60

  /** A cache value and the expiry (in seconds) it was written with. */
  datatype Entry = Entry(value: string, ttl: nat)

  /** The outside calls the two operations make, in the order they make them. */
  datatype Call =
    | CacheGet     // GET users:all
    | StoreQuery   // connect, SELECT id, name, email FROM users, close
    | CacheSet     // SETEX users:all 60 <json>
    | StoreInsert  // connect, INSERT, COMMIT, close
    | CacheDelete  // DEL users:all

  /** What reaches the caller when an operation does not complete. */
  datatype Error =
    | StoreError       // a database call raised
    | CacheError       // a cache call raised
    | DecodeError      // `json.loads` rejected the cached value
    | ValidationError  // the web layer refused an empty name or email

  /** The rows of the `users` table in store order, the next auto-increment id, and the cache. */
  datatype RepoState = RepoState(rows: seq<Record>, nextId: nat, cache: map<string, Entry>)

  /** The outcome of one call and the state it leaves. */
  datatype Transition<T> = Transition(result: Result<T, Error>, post: RepoState)

  /** `get_redis_client` returns a client exactly when REDIS_HOST is set and not empty. */
  predicate Configured(redisHost: Option<string>) {
    redisHost.Some? && redisHost.value != ""
  }

  /** The store's key discipline: ids strictly increase in store order and stay below the next id. */
  predicate StoreValid(rows: seq<Record>, nextId: nat) {
    (forall i :: 0 <= i < |rows| ==> rows[i].id < nextId) &&
    (forall i, j :: 0 <= i < j < |rows| ==> rows[i].id < rows[j].id)
  }

  /** `if cached:` succeeds: a client exists and GET returns a non-empty string. */
  predicate IsHit(configured: bool, st: RepoState) {
    configured && CacheKey in st.cache && st.cache[CacheKey].value != ""
  }

  /** One call of `get_users`. */
  function ReadStep(configured: bool, st: RepoState, failing: set<Call>): (t: Transition<seq<Record>>)
    ensures t.post.rows == st.rows && t.post.nextId == st.nextId
    ensures t.post.cache - {CacheKey} == st.cache - {CacheKey}
    ensures !configured || IsHit(configured, st) ==> t.post == st
  {
    if configured && CacheGet in failing then Transition(Err(CacheError), st)
    else if IsHit(configured, st) then
      match JsonCodec.Decode(st.cache[CacheKey].value)
      case Some(rows) => Transition(Ok(rows), st)
      case None => Transition(Err(DecodeError), st)
    else if StoreQuery in failing then Transition(Err(StoreError), st)
    else if !configured then Transition(Ok(st.rows), st)
    else if CacheSet in failing then Transition(Err(CacheError), st)
    else Transition(Ok(st.rows), st.(cache := st.cache[CacheKey := Entry(JsonCodec.Encode(st.rows), CacheTtl)]))
  }

  /** One call of `create_user(name, email)`. */
  function CreateStep(configured: bool, st: RepoState, name: string, email: string, failing: set<Call>): (t: Transition<()>)
    ensures t.post.cache - {CacheKey} == st.cache - {CacheKey}
    ensures StoreValid(st.rows, st.nextId) ==> StoreValid(t.post.rows, t.post.nextId)
  {
    if StoreInsert in failing then Transition(Err(StoreError), st)
    else
      var written := st.(rows := st.rows + [Record(st.nextId, name, email)], nextId := st.nextId + 1);
      if !configured then Transition(Ok(()), written)
      else if CacheDelete in failing then Transition(Err(CacheError), written)
      else Transition(Ok(()), written.(cache := written.cache - {CacheKey}))
  }

  /** A configured cache holds either nothing under the key or exactly the store's rows, encoded. */
  predicate Fresh(configured: bool, st: RepoState) {
    configured && CacheKey in st.cache ==> st.cache[CacheKey].value == JsonCodec.Encode(st.rows)
  }

  /** A value a read would serve decodes to rows the store held at some earlier point: a prefix of its rows. */
  predicate NeverAhead(st: RepoState) {
    CacheKey in st.cache && st.cache[CacheKey].value != "" ==>
      match JsonCodec.Decode(st.cache[CacheKey].value)
      case None => false
      case Some(snapshot) => snapshot <= st.rows
  }

  /* ---------------------------------------------------------------- reads */

  /** On a hit, `get_users` returns the decoded cached value and changes nothing. */
  lemma HitServesCache(st: RepoState, failing: set<Call>)
    requires IsHit(true, st) && CacheGet !in failing
    ensures ReadStep(true, st, failing).post == st
    ensures ReadStep(true, st, failing).result ==
      match JsonCodec.Decode(st.cache[CacheKey].value)
      case Some(rows) => Ok(rows)
      case None => Err(DecodeError)
  {
  }

  /**
   * A hit issues no store query: neither the store's contents nor whether the store
   * would raise make any difference to the outcome.
   */
  lemma HitIgnoresStore(st: RepoState, rows: seq<Record>, nextId: nat, failing: set<Call>, failing': set<Call>)
    requires IsHit(true, st)
    requires CacheGet in failing <==> CacheGet in failing'
    ensures ReadStep(true, st.(rows := rows, nextId := nextId), failing') ==
            Transition(ReadStep(true, st, failing).result, st.(rows := rows, nextId := nextId))
  {
  }

  /** On a miss (or with no cache configured) `get_users` returns exactly the store's rows, in store order. */
  lemma MissReadsStore(configured: bool, st: RepoState, failing: set<Call>)
    requires !IsHit(configured, st)
    requires StoreQuery !in failing
    requires configured ==> CacheGet !in failing && CacheSet !in failing
    ensures ReadStep(configured, st, failing).result == Ok(st.rows)
  {
  }

  /** After a miss, the key holds the encoding of the returned rows with expiry 60, and the next read hits. */
  lemma MissRepopulates(st: RepoState, failing: set<Call>)
    requires !IsHit(true, st)
    requires CacheGet !in failing && StoreQuery !in failing && CacheSet !in failing
    ensures ReadStep(true, st, failing).post.cache == st.cache[CacheKey := Entry(JsonCodec.Encode(st.rows), CacheTtl)]
    ensures IsHit(true, ReadStep(true, st, failing).post)
    ensures JsonCodec.Decode(ReadStep(true, st, failing).post.cache[CacheKey].value) == Some(st.rows)
  {
    JsonCodec.RoundTrip(st.rows);
  }

  /** A store failure on a miss reaches the caller, and the cache is not written. */
  lemma StoreFailureOnMiss(configured: bool, st: RepoState, failing: set<Call>)
    requires !IsHit(configured, st)
    requires configured ==> CacheGet !in failing
    requires StoreQuery in failing
    ensures ReadStep(configured, st, failing) == Transition(Err(StoreError), st)
  {
  }

  /**
   * Two reads in a row with no write in between return the same rows; the second is a hit
   * and changes nothing.
   */
  lemma ReadTwice(st: RepoState, failing: set<Call>, failing': set<Call>)
    requires ReadStep(true, st, failing).result.Ok?
    requires CacheGet !in failing'
    ensures var first := ReadStep(true, st, failing);
      IsHit(true, first.post) && ReadStep(true, first.post, failing') == first
  {
    var first := ReadStep(true, st, failing);
    if IsHit(true, st) {
      assert first.post == st;
    } else {
      MissRepopulates(st, failing);
      assert first == Transition(Ok(st.rows), st.(cache := st.cache[CacheKey := Entry(JsonCodec.Encode(st.rows), CacheTtl)]));
      HitServesCache(first.post, failing');
    }
  }

  /* ---------------------------------------------------------------- writes */

  /** A committed insert appends one row with the given name and email and the next id; earlier rows stay. */
  lemma CreateAppends(configured: bool, st: RepoState, name: string, email: string, failing: set<Call>)
    requires StoreInsert !in failing
    ensures var post := CreateStep(configured, st, name, email, failing).post;
      |post.rows| == |st.rows| + 1 && post.rows[..|st.rows|] == st.rows &&
      post.rows[|st.rows|] == Record(st.nextId, name, email) && post.nextId == st.nextId + 1
  {
  }

  /** With a configured cache, a completed `create_user` leaves no value under the key. */
  lemma CreateInvalidates(st: RepoState, name: string, email: string, failing: set<Call>)
    requires StoreInsert !in failing && CacheDelete !in failing
    ensures CreateStep(true, st, name, email, failing).result == Ok(())
    ensures CacheKey !in CreateStep(true, st, name, email, failing).post.cache
  {
  }

  /** An insert that raises changes neither the store nor the cache, and the error reaches the caller. */
  lemma FailedInsertChangesNothing(configured: bool, st: RepoState, name: string, email: string, failing: set<Call>)
    requires StoreInsert in failing
    ensures CreateStep(configured, st, name, email, failing) == Transition(Err(StoreError), st)
  {
  }

  /**
   * A DEL that raises comes after the commit: the row stays written, the old cache value stays,
   * and the cache error reaches the caller.
   */
  lemma InvalidationFailureSurfaces(st: RepoState, name: string, email: string, failing: set<Call>)
    requires StoreInsert !in failing && CacheDelete in failing
    ensures var t := CreateStep(true, st, name, email, failing);
      t.result == Err(CacheError) && t.post.rows == st.rows + [Record(st.nextId, name, email)] &&
      t.post.cache == st.cache
  {
  }

  /** A read that follows a completed write returns the store including the new row. */
  lemma ReadAfterWrite(configured: bool, st: RepoState, name: string, email: string)
    ensures var written := CreateStep(configured, st, name, email, {});
      ReadStep(configured, written.post, {}).result == Ok(st.rows + [Record(st.nextId, name, email)])
  {
  }

  /* ---------------------------------------------------------------- the cache invariant */

  /** Under `Fresh`, a read with no failing call returns exactly the store's rows: the cache is invisible. */
  lemma FreshReadIsStore(configured: bool, st: RepoState, failing: set<Call>)
    requires Fresh(configured, st)
    requires CacheGet !in failing && StoreQuery !in failing && CacheSet !in failing
    ensures ReadStep(configured, st, failing).result == Ok(st.rows)
  {
    if IsHit(configured, st) {
      JsonCodec.RoundTrip(st.rows);
    }
  }

  /** Reads keep `Fresh`, whatever fails. */
  lemma ReadKeepsFresh(configured: bool, st: RepoState, failing: set<Call>)
    requires Fresh(configured, st)
    ensures Fresh(configured, ReadStep(configured, st, failing).post)
  {
  }

  /** Writes keep `Fresh` unless the DEL raises after the commit. */
  lemma CreateKeepsFresh(configured: bool, st: RepoState, name: string, email: string, failing: set<Call>)
    requires Fresh(configured, st)
    requires CacheDelete !in failing
    ensures Fresh(configured, CreateStep(configured, st, name, email, failing).post)
  {
  }

  /** A DEL that raises after the commit leaves the cache serving rows without the new one. */
  lemma FailedDeleteLeavesStale(st: RepoState, name: string, email: string, failing: set<Call>)
    requires Fresh(true, st) && IsHit(true, st)
    requires StoreInsert !in failing && CacheDelete in failing
    ensures var post := CreateStep(true, st, name, email, failing).post;
      !Fresh(true, post) && ReadStep(true, post, {}).result == Ok(st.rows)
  {
    var post := CreateStep(true, st, name, email, failing).post;
    JsonCodec.RoundTrip(st.rows);
    JsonCodec.EncodeInjective(st.rows, post.rows);
  }

  lemma FreshIsNeverAhead(st: RepoState)
    requires Fresh(true, st)
    ensures NeverAhead(st)
  {
    JsonCodec.RoundTrip(st.rows);
  }

  /**
   * Whatever fails and whether or not a cache is configured, both operations keep the cache
   * from serving rows the store does not hold: the store is the authoritative superset.
   */
  lemma ReadKeepsNeverAhead(configured: bool, st: RepoState, failing: set<Call>)
    requires NeverAhead(st)
    ensures NeverAhead(ReadStep(configured, st, failing).post)
  {
    JsonCodec.RoundTrip(st.rows);
  }

  lemma CreateKeepsNeverAhead(configured: bool, st: RepoState, name: string, email: string, failing: set<Call>)
    requires NeverAhead(st)
    ensures NeverAhead(CreateStep(configured, st, name, email, failing).post)
  {
  }

  /* ---------------------------------------------------------------- the stateful repository */

  /** The store and the cache as the two operations see them, updated in place. */
  class UserRepository {
    const redisHost: Option<string>
    var rows: seq<Record>
    var nextId: nat
    var cache: map<string, Entry>

    function State(): RepoState
      reads this
    {
      RepoState(rows, nextId, cache)
    }

    predicate Valid()
      reads this
    {
      StoreValid(rows, nextId)
    }

    constructor (redisHost: Option<string>, rows: seq<Record>, nextId: nat, cache: map<string, Entry>)
      requires StoreValid(rows, nextId)
      ensures Valid() && this.redisHost == redisHost
      ensures this.rows == rows && this.nextId == nextId && this.cache == cache
    {
      this.redisHost := redisHost;
      this.rows := rows;
      this.nextId := nextId;
      this.cache := cache;
    }

    /** `get_users()`. */
    method GetUsers(failing: set<Call>) returns (r: Result<seq<Record>, Error>)
      requires Valid()
      modifies this
      ensures Valid()
      ensures Transition(r, State()) == ReadStep(Configured(redisHost), old(State()), failing)
      ensures rows == old(rows) && nextId == old(nextId)
      ensures !Configured(redisHost) ==> cache == old(cache)
    {
      var client := Configured(redisHost);
      if client {
        if CacheGet in failing {
          return Err(CacheError);
        }
        if CacheKey in cache && cache[CacheKey].value != "" {
          var decoded := JsonCodec.Decode(cache[CacheKey].value);
          if decoded.None? {
            return Err(DecodeError);
          }
          return Ok(decoded.value);
        }
      }
      if StoreQuery in failing {
        return Err(StoreError);
      }
      var fetched := rows;
      if client {
        if CacheSet in failing {
          return Err(CacheError);
        }
        cache := cache[CacheKey := Entry(JsonCodec.Encode(fetched), CacheTtl)];
      }
      return Ok(fetched);
    }

    /** `create_user(name, email)`. */
    method CreateUser(name: string, email: string, failing: set<Call>) returns (r: Result<(), Error>)
      requires Valid()
      modifies this
      ensures Valid()
      ensures Transition(r, State()) == CreateStep(Configured(redisHost), old(State()), name, email, failing)
      ensures StoreInsert in failing ==> unchanged(this)
      ensures r.Ok? && Configured(redisHost) ==> CacheKey !in cache
    {
      if StoreInsert in failing {
        return Err(StoreError);
      }
      rows := rows + [Record(nextId, name, email)];
      nextId := nextId + 1;
      if Configured(redisHost) {
        if CacheDelete in failing {
          return Err(CacheError);
        }
        cache := cache - {CacheKey};
      }
      return Ok(());
    }

    /** The `/add` handler's guard: an empty name or email is refused before the store is touched. */
    method AddUser(name: string, email: string, failing: set<Call>) returns (r: Result<(), Error>)
      requires Valid()
      modifies this
      ensures Valid()
      ensures name == "" || email == "" ==> r == Err(ValidationError) && unchanged(this)
      ensures name != "" && email != "" ==>
        Transition(r, State()) == CreateStep(Configured(redisHost), old(State()), name, email, failing)
    {
      if name == "" || email == "" {
        return Err(ValidationError);
      }
      r := CreateUser(name, email, failing);
    }
  }
}
