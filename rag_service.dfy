// The retrieval service's embedding side: the in-memory embedding cache keyed by a 32-bit rolling
// hash, the retry policy around the embeddings call, and the similar-log search built on them.

module RagService {
  import opened Common

  /** A UTF-16 code unit, what `charCodeAt` returns and what `length` counts. */
  newtype CodeUnit = x: int | 0 <= x < 0x1_0000

  type Text = seq<CodeUnit>

  const EMBEDDING_DIMENSIONS: nat := 1536
  const MAX_RETRIES: int := 3
  const INITIAL_BACKOFF_MS: nat := 1000
  const MAX_TEXT: nat := 8000
  const TWO_32: int := 0x1_0000_0000
  const TWO_31: int := 0x8000_0000

  // ----- 32-bit arithmetic -----

  /** ECMAScript ToInt32: the value modulo 2^32, read as a signed 32-bit integer. */
  function Int32(x: int): (r: int)
    ensures -TWO_31 <= r < TWO_31
    ensures (r - x) % TWO_32 == 0
  {
    (x + TWO_31) % TWO_32 - TWO_31
  }

  /** Numbers that agree modulo 2^32 have the same 32-bit reading. */
  lemma Int32Congruent(x: int, y: int, q: int)
    requires x == y + q * TWO_32
    ensures Int32(x) == Int32(y)
  {
    var a := y + TWO_31;
    assert x + TWO_31 == a + q * TWO_32;
    var m := a % TWO_32;
    assert a == (a / TWO_32) * TWO_32 + m;
    assert a + q * TWO_32 == (a / TWO_32 + q) * TWO_32 + m;
    ModUnique(a + q * TWO_32, a / TWO_32 + q, m);
  }

  /** A number already in the signed 32-bit range reads as itself. */
  lemma Int32InRange(x: int)
    requires -TWO_31 <= x < TWO_31
    ensures Int32(x) == x
  {
    ModUnique(x + TWO_31, 0, x + TWO_31);
  }

  lemma ModUnique(n: int, d: int, m: int)
    requires 0 <= m < TWO_32 && n == d * TWO_32 + m
    ensures n % TWO_32 == m
  {
  }

  // ----- the cache key -----

  /** One step of the loop in `getCacheKey`: `((hash << 5) - hash) + char`, then `hash & hash`. */
  function HashStep(hash: int, c: CodeUnit): int
  {
    Int32(Int32(hash * 32) - hash + c as int)
  }

  /** The hash of a text: the loop's steps from 0 over every code unit. */
  function Hash(text: Text): (h: int)
    ensures -TWO_31 <= h < TWO_31
  {
    if text == [] then 0 else HashStep(Hash(text[..|text| - 1]), text[|text| - 1])
  }

  /** The polynomial the hash computes without wrap-around: the sum of c[i] * 31^(n-1-i). */
  function Polynomial(text: Text): int
  {
    if text == [] then 0 else 31 * Polynomial(text[..|text| - 1]) + text[|text| - 1] as int
  }

  /** The hash is the 32-bit reading of the base-31 polynomial of the text (the `String.hashCode` of Java). */
  lemma {:induction false} HashIsPolynomial(text: Text)
    ensures Hash(text) == Int32(Polynomial(text))
  {
    if text != [] {
      var prev := text[..|text| - 1];
      var c := text[|text| - 1] as int;
      HashIsPolynomial(prev);
      var h := Hash(prev);
      var p := Polynomial(prev);
      var q1 := (Int32(h * 32) - h * 32) / TWO_32;
      assert Int32(h * 32) == h * 32 + q1 * TWO_32;
      Int32Congruent(Int32(h * 32) - h + c, 31 * h + c, q1);
      var q2 := (h - p) / TWO_32;
      assert h == p + q2 * TWO_32;
      assert 31 * h + c == 31 * p + c + (31 * q2) * TWO_32;
      Int32Congruent(31 * h + c, 31 * p + c, 31 * q2);
    }
  }

  function CacheKey(text: Text): string
  {
    "emb_" + IntToString(Hash(text)) + "_" + NatToString(|text|)
  }

  /** Two different texts of the same length share a key: [0, 31] and [1, 0] both hash to 31. */
  lemma CacheKeysCollide()
    ensures CacheKey([0, 31]) == CacheKey([1, 0])
  {
    HashOfPair(0, 31);
    HashOfPair(1, 0);
  }

  /** A two-unit text never overflows: its hash is its polynomial. */
  lemma HashOfPair(x: CodeUnit, y: CodeUnit)
    ensures Hash([x, y]) == 31 * x as int + y as int
  {
    var t: Text := [x, y];
    var u: Text := [x];
    assert t[..1] == u && u[..0] == [];
    HashStepSmall(0, x);
    assert Hash(u) == x as int;
    HashStepSmall(x as int, y);
  }

  /** While nothing overflows, a step is exactly `31 * hash + c`. */
  lemma HashStepSmall(hash: int, c: CodeUnit)
    requires 0 <= hash && hash * 32 + c as int < TWO_31
    ensures HashStep(hash, c) == 31 * hash + c as int
  {
    Int32InRange(hash * 32);
    Int32InRange(31 * hash + c as int);
  }

  // ----- retries -----

  /** What one call of the embeddings endpoint gives: a vector, or an error with its HTTP status if any. */
  datatype Attempt = Success(vector: seq<real>) | Failure(status: Option<int>, message: string)

  predicate RateLimited(a: Attempt)
  {
    a.Failure? && a.status == Some(429)
  }

  datatype RetryResult = Succeeded(vector: seq<real>) | Rethrown(error: Attempt) | MaxRetriesExceeded

  function Pow2(n: nat): (p: nat)
    ensures p >= 1
  {
    if n == 0 then 1 else 2 * Pow2(n - 1)
  }

  /** The wait before the retry that follows attempt `k` (counting from 0). */
  function Backoff(k: nat): nat
  {
    INITIAL_BACKOFF_MS * Pow2(k)
  }

  /**
   * `retryWithBackoff`: the calls' outcomes are `outcome(0)`, `outcome(1)`, ...; `attempts` says how
   * many calls were made and `waits` the pauses between them.
   */
  method RetryWithBackoff(outcome: nat -> Attempt, maxRetries: int) returns (result: RetryResult, attempts: nat, waits: seq<nat>)
    ensures maxRetries <= 0 ==> result == MaxRetriesExceeded && attempts == 0
    ensures maxRetries > 0 ==> 1 <= attempts <= maxRetries && result != MaxRetriesExceeded
    ensures forall k :: 0 <= k < attempts - 1 ==> RateLimited(outcome(k))
    ensures attempts > 0 && outcome(attempts - 1).Success? ==> result == Succeeded(outcome(attempts - 1).vector)
    ensures attempts > 0 && outcome(attempts - 1).Failure? ==> result == Rethrown(outcome(attempts - 1))
    ensures attempts > 0 && RateLimited(outcome(attempts - 1)) ==> attempts == maxRetries
    ensures waits == Schedule(Max(0, attempts - 1))
  {
    waits := [];
    var attempt := 0;
    while attempt < maxRetries
      invariant 0 <= attempt && (maxRetries > 0 ==> attempt < maxRetries)
      invariant forall k :: 0 <= k < attempt ==> RateLimited(outcome(k))
      invariant waits == Schedule(attempt)
      decreases maxRetries - attempt
    {
      var o := outcome(attempt);
      if o.Success? {
        return Succeeded(o.vector), attempt + 1, waits;
      }
      var isLastAttempt := attempt == maxRetries - 1;
      if RateLimited(o) && !isLastAttempt {
        waits := waits + [Backoff(attempt)];
        attempt := attempt + 1;
      } else {
        return Rethrown(o), attempt + 1, waits;
      }
    }
    return MaxRetriesExceeded, 0, [];
  }

  /** The waits of `n` retries in order: 1000, 2000, 4000, ... ms. */
  function Schedule(n: nat): (waits: seq<nat>)
    ensures |waits| == n
    ensures forall k :: 0 <= k < n ==> waits[k] == Backoff(k)
  {
    if n == 0 then [] else Schedule(n - 1) + [Backoff(n - 1)]
  }

  function Total(waits: seq<nat>): nat
  {
    if waits == [] then 0 else Total(waits[..|waits| - 1]) + waits[|waits| - 1]
  }

  /** The waits add up to 1000 * (2^n - 1) ms over n retries. */
  lemma {:induction false} WaitsTotal(n: nat)
    ensures Total(Schedule(n)) == INITIAL_BACKOFF_MS * (Pow2(n) - 1)
  {
    if n > 0 {
      var s := Schedule(n);
      assert s[..n - 1] == Schedule(n - 1);
      WaitsTotal(n - 1);
      assert Total(s) == INITIAL_BACKOFF_MS * (Pow2(n - 1) - 1) + INITIAL_BACKOFF_MS * Pow2(n - 1);
    }
  }

  // ----- the service -----

  /** What a similarity query returns per row; missing fields are `None`. */
  datatype SearchRow = SearchRow(logId: string, sessionId: Option<string>, content: Option<string>, similarity: real)

  datatype SimilarLog = SimilarLog(logId: string, sessionId: string, content: string, similarity: real)

  const INVALID_TEXT: string := "Invalid embedding input"
  const INVALID_QUERY: string := "Invalid similar-log query"

  /** A similarity row as returned: the session defaults to the log itself, the content to empty. */
  function ToSimilarLog(row: SearchRow): (l: SimilarLog)
    ensures l.logId == row.logId && l.similarity == row.similarity
    ensures (row.sessionId.None? || row.sessionId.value == "") ==> l.sessionId == row.logId
    ensures row.sessionId.Some? && row.sessionId.value != "" ==> l.sessionId == row.sessionId.value
    ensures row.content.None? ==> l.content == ""
  {
    SimilarLog(row.logId,
               if row.sessionId.Some? && row.sessionId.value != "" then row.sessionId.value else row.logId,
               if row.content.Some? then row.content.value else "",
               row.similarity)
  }

  /** The search's rows, each with its defaults filled, in the order the search returned them. */
  function SimilarLogs(rows: seq<SearchRow>): (logs: seq<SimilarLog>)
    ensures |logs| == |rows|
    ensures forall i :: 0 <= i < |rows| ==> logs[i] == ToSimilarLog(rows[i])
  {
    seq(|rows|, i requires 0 <= i < |rows| => ToSimilarLog(rows[i]))
  }

  /** The message `generateEmbedding` rethrows any failure of the call with. */
  function EmbedFailure(reason: string): string
  {
    "Failed to generate embedding: " + reason
  }

  predicate ValidText(text: Text)
  {
    1 <= |text| <= MAX_TEXT
  }

  class Service {
    /** `embeddingCache`: vectors by cache key. */
    var cache: map<string, seq<real>>

    constructor()
      ensures cache == map[]
    {
      cache := map[];
    }

    /** `getCacheKey`, the loop over the code units. */
    method GetCacheKey(text: Text) returns (key: string)
      ensures key == CacheKey(text)
    {
      var hash := 0;
      var i := 0;
      while i < |text|
        invariant 0 <= i <= |text|
        invariant hash == Hash(text[..i])
      {
        assert text[..i + 1][..i] == text[..i];
        hash := HashStep(hash, text[i]);
        i := i + 1;
      }
      assert text[..i] == text;
      key := "emb_" + IntToString(hash) + "_" + NatToString(|text|);
    }

    /**
     * `generateEmbedding`. The text is checked before anything else; a cached key answers without
     * a call; otherwise the retried call's vector is kept only when it has 1536 dimensions.
     * `calls` is the number of calls made to the endpoint.
     */
    method GenerateEmbedding(text: Text, outcome: nat -> Attempt) returns (r: Result<seq<real>>, calls: nat)
      modifies this
      ensures !ValidText(text) ==> r == Err(INVALID_TEXT) && calls == 0 && cache == old(cache)
      ensures ValidText(text) && CacheKey(text) in old(cache) ==>
        r == Ok(old(cache)[CacheKey(text)]) && calls == 0 && cache == old(cache)
      ensures calls > 0 ==> ValidText(text) && CacheKey(text) !in old(cache) && calls <= MAX_RETRIES
      ensures calls > 0 && r.Ok? ==> (outcome(calls - 1) == Success(r.value) && |r.value| == EMBEDDING_DIMENSIONS
        && cache == old(cache)[CacheKey(text) := r.value])
      ensures r.Err? ==> cache == old(cache)
      ensures r.Ok? <==> ValidText(text) && CacheKey(text) in cache
      ensures r.Ok? ==> cache[CacheKey(text)] == r.value
      ensures ValidText(text) && CacheKey(text) !in old(cache) ==> calls > 0
    {
      if !ValidText(text) {
        return Err(INVALID_TEXT), 0;
      }
      var key := GetCacheKey(text);
      if key in cache {
        return Ok(cache[key]), 0;
      }
      var result, attempts, waits := RetryWithBackoff(outcome, MAX_RETRIES);
      calls := attempts;
      match result {
        case Succeeded(vector) =>
          if |vector| != EMBEDDING_DIMENSIONS {
            r := Err(EmbedFailure("Invalid embedding dimension: expected 1536, got " + NatToString(|vector|)));
          } else {
            cache := cache[key := vector];
            r := Ok(vector);
          }
        case Rethrown(error) =>
          r := Err(EmbedFailure(error.message));
        case MaxRetriesExceeded =>
          r := Err(EmbedFailure("Max retries exceeded"));
      }
    }

    /** `clearCache`. */
    method ClearCache()
      modifies this
      ensures cache == map[]
    {
      cache := map[];
    }

    /** `getCacheSize`: the number of cached vectors. */
    method GetCacheSize() returns (size: nat)
      ensures size == |cache|
    {
      size := |cache|;
    }

    /**
     * `findSimilarLogs`: an invalid query is an error; a failure to embed the query or to run the
     * search (`rows` is `None`) gives no results; otherwise the rows the search returned, in its order.
     */
    method FindSimilarLogs(query: Text, limit: int, threshold: real, outcome: nat -> Attempt, rows: Option<seq<SearchRow>>)
      returns (r: Result<seq<SimilarLog>>)
      modifies this
      ensures !(|query| >= 1 && 1 <= limit <= 20 && 0.0 <= threshold <= 1.0) ==> r == Err(INVALID_QUERY) && cache == old(cache)
      ensures r.Ok? <==> |query| >= 1 && 1 <= limit <= 20 && 0.0 <= threshold <= 1.0
      ensures r.Ok? && rows.None? ==> r.value == []
      ensures r.Ok? && rows.Some? && ValidText(query) && CacheKey(query) in cache ==> r.value == SimilarLogs(rows.value)
      ensures r.Ok? && !(ValidText(query) && CacheKey(query) in cache) ==> r.value == []
    {
      if !(|query| >= 1 && 1 <= limit <= 20 && 0.0 <= threshold <= 1.0) {
        return Err(INVALID_QUERY);
      }
      var embedding, calls := GenerateEmbedding(query, outcome);
      if embedding.Err? || rows.None? {
        return Ok([]);
      }
      return Ok(SimilarLogs(rows.value));
    }
  }

  /**
   * Texts that collide share a cache entry: once the first is cached, the second is answered with
   * the first's vector and no call.
   */
  method CollidingTextsShareVector(s: Service, v: seq<real>) returns (r: Result<seq<real>>, calls: nat)
    requires s.cache == map[CacheKey([0, 31]) := v]
    modifies s
    ensures r == Ok(v) && calls == 0
  {
    CacheKeysCollide();
    var other: Text := [1, 0];
    r, calls := s.GenerateEmbedding(other, (k: nat) => Failure(None, ""));
  }
}
