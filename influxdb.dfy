/** The InfluxDB driver: the cursor query (`LastBuildNumber`) and the
    chunked point writer (`Batch`). The Influx HTTP client is foreign:
    its query reply is an input, and whether building a point, starting
    a batch or writing a batch fails is given by a `BatchEnv`. */
module InfluxDB {
  import opened Base
  import opened Types

  // ---------------------------------------------------------------------
  // LastBuildNumber
  // ---------------------------------------------------------------------

  /** One series of a query result: rows of column values, each value the
      text of a JSON number. */
  datatype Series = Series(values: seq<seq<string>>)

  /** One statement's result, with its own error text ("" for none). */
  datatype QueryResult = QueryResult(series: seq<Series>, err: string)

  /** What the client's `Query` call gives back: a transport error, or a
      response with its own error text and one result per statement. */
  datatype QueryReply =
    | QueryFailed
    | Response(err: string, results: seq<QueryResult>)

  /** The client's `Response.Error()`: the response's own error, or the
      error of any of its results. */
  predicate ResponseError(err: string, results: seq<QueryResult>)
  {
    err != "" || exists k :: 0 <= k < |results| && results[k].err != ""
  }

  /** A reply the driver can read without indexing out of range: an
      error-free response has a first result, and if that result has a
      series, its first row has the id in column 1. */
  predicate WellShaped(reply: QueryReply)
  {
    reply.Response? && !ResponseError(reply.err, reply.results) ==>
      |reply.results| > 0 &&
      (|reply.results[0].series| > 0 ==>
         |reply.results[0].series[0].values| > 0 &&
         |reply.results[0].series[0].values[0]| > 1)
  }

  predicate IsDigit(c: char) { '0' <= c <= '9' }

  predicate AllDigits(s: string) { forall k :: 0 <= k < |s| ==> IsDigit(s[k]) }

  /** The value of a string of decimal digits. */
  function DecimalValue(s: string): nat
    requires AllDigits(s)
  {
    if s == [] then 0
    else DecimalValue(s[..|s| - 1]) * 10 + (s[|s| - 1] as int - '0' as int)
  }

  /** `strconv.ParseInt(s, 10, 64)`: an optional sign, then one or more
      decimal digits, whose value must fit in `int64`; anything else is
      an error (None). */
  function ParseInt64(s: string): (r: Option<Int64>)
    ensures s == "+" || s == "-" ==> r.None?
    ensures r.Some? ==>
      s != [] && (s[0] == '-' || s[0] == '+' || IsDigit(s[0])) &&
      forall k | 1 <= k < |s| :: IsDigit(s[k])
    ensures r.Some? && s[0] == '-' ==> r.value + DecimalValue(s[1..]) == 0
    ensures r.Some? && s[0] == '+' ==> r.value == DecimalValue(s[1..])
    ensures r.Some? && IsDigit(s[0]) ==> r.value == DecimalValue(s)
    ensures s != [] && AllDigits(s) ==> (r.Some? <==> DecimalValue(s) <= MaxInt64)
  {
    if s == [] then None
    else
      var digits := if s[0] == '+' || s[0] == '-' then s[1..] else s;
      if digits == [] || !AllDigits(digits) then None
      else
        var v: int := if s[0] == '-' then 0 - DecimalValue(digits) else DecimalValue(digits);
        if MinInt64 <= v <= MaxInt64 then Some(v) else None
  }

  /** The decimal digits of `n`, most significant first, no leading zero. */
  function Digits(n: nat): (s: string)
    ensures |s| > 0 && AllDigits(s)
  {
    if n < 10 then [('0' as int + n) as char]
    else Digits(n / 10) + [('0' as int + n % 10) as char]
  }

  /** The decimal text of an `int64`, as a JSON number carries it. */
  function FormatInt64(x: Int64): string
  {
    if x < 0 then "-" + Digits(-(x as int)) else Digits(x)
  }

  lemma {:induction false} DigitsValue(n: nat)
    ensures DecimalValue(Digits(n)) == n
  {
    var s := Digits(n);
    if n >= 10 {
      DigitsValue(n / 10);
      assert s[..|s| - 1] == Digits(n / 10);
    }
  }

  /** Parsing undoes formatting: every `int64` survives the round trip
      through its decimal text. */
  lemma ParseFormat(x: Int64)
    ensures ParseInt64(FormatInt64(x)) == Some(x)
  {
    var s := FormatInt64(x);
    if x < 0 {
      var n: nat := -(x as int);
      DigitsValue(n);
      assert s[0] == '-' && s[1..] == Digits(n);
    } else {
      DigitsValue(x);
      assert IsDigit(s[0]);
    }
  }

  /** The cursor for a repository: the last recorded build number, read
      from the reply to the `last("BuildId")` query. Every failure (a
      transport error, an error in the response, no series, a value that
      does not parse) yields 0. */
  function LastBuildNumber(reply: QueryReply): (r: Int64)
    requires WellShaped(reply)
    ensures r != 0 ==>
      reply.Response? && !ResponseError(reply.err, reply.results) &&
      |reply.results[0].series| > 0 &&
      ParseInt64(reply.results[0].series[0].values[0][1]) == Some(r)
    ensures (reply.Response? && !ResponseError(reply.err, reply.results) &&
             |reply.results[0].series| > 0 &&
             ParseInt64(reply.results[0].series[0].values[0][1]).Some?) ==>
      r == ParseInt64(reply.results[0].series[0].values[0][1]).value
  {
    if reply.QueryFailed? then 0
    else if ResponseError(reply.err, reply.results) then 0
    else if |reply.results[0].series| > 0 then
      match ParseInt64(reply.results[0].series[0].values[0][1])
      case None => 0
      case Some(v) => v
    else 0
  }

  /** A reply that carries the number `x` yields `x`. */
  lemma LastBuildNumberReadsStoredId(x: Int64, time: string)
    ensures LastBuildNumber(Response("", [QueryResult([Series([[time, FormatInt64(x)]])], "")])) == x
  {
    var reply := Response("", [QueryResult([Series([[time, FormatInt64(x)]])], "")]);
    assert !ResponseError(reply.err, reply.results);
    ParseFormat(x);
  }

  /** Every failure path collapses to 0, so a caller cannot tell a failed
      query from a stored build number 0. */
  lemma LastBuildNumberFailuresAreZero(reply: QueryReply)
    requires WellShaped(reply)
    requires reply.QueryFailed?
      || ResponseError(reply.err, reply.results)
      || |reply.results[0].series| == 0
      || ParseInt64(reply.results[0].series[0].values[0][1]).None?
    ensures LastBuildNumber(reply) == 0
    ensures LastBuildNumber(reply) ==
      LastBuildNumber(Response("", [QueryResult([Series([["0", "0"]])], "")]))
  {
    var zero := Response("", [QueryResult([Series([["0", "0"]])], "")]);
    assert !ResponseError(zero.err, zero.results);
    assert FormatInt64(0) == "0";
    ParseFormat(0);
  }

  // ---------------------------------------------------------------------
  // Batch
  // ---------------------------------------------------------------------

  /** The counter bound: a batch is flushed once the counter exceeds it. */
  const FlushThreshold: nat := 500
  /** So every flushed batch holds this many points. */
  const ChunkSize: nat := 501

  /** The failures the Influx client can report. */
  datatype BatchError = PointError | NewBatchError | WriteError

  /** The foreign client's behaviour: whether a point can be built, and
      whether the k-th `NewBatchPoints` call and the k-th `Write` call
      (both counted from 0) succeed. */
  datatype BatchEnv = BatchEnv(
    pointOk: Point -> bool,
    newBatchOk: nat -> bool,
    writeOk: nat -> bool)

  /** The batches the client wrote successfully, in order, and the error
      `Batch` returned (None for nil). */
  datatype BatchOutcome = BatchOutcome(written: seq<seq<Point>>, err: Option<BatchError>)

  function Prepend(ws: seq<seq<Point>>, o: BatchOutcome): BatchOutcome
  {
    BatchOutcome(ws + o.written, o.err)
  }

  /** The batches `Batch` writes: consecutive runs of `ChunkSize` points
      and then the remainder, which may be empty. */
  function Chunks(s: seq<Point>): seq<seq<Point>>
    decreases |s|
  {
    if |s| <= FlushThreshold then [s] else [s[..ChunkSize]] + Chunks(s[ChunkSize..])
  }

  /** Batch `k` goes through: its `NewBatchPoints` call, the building of
      each of its points and its `Write` call all succeed. */
  predicate ChunkOk(env: BatchEnv, chunk: seq<Point>, k: nat)
  {
    env.newBatchOk(k) && (forall p | p in chunk :: env.pointOk(p)) && env.writeOk(k)
  }

  /** Writing the batches `cs`, the first of which is batch number `k`:
      each batch is started, filled and written, and the first failure
      ends the run with nothing more written. */
  function RunChunks(cs: seq<seq<Point>>, k: nat, env: BatchEnv): BatchOutcome
    decreases |cs|
  {
    if cs == [] then BatchOutcome([], None)
    else if !env.newBatchOk(k) then BatchOutcome([], Some(NewBatchError))
    else if !(forall p | p in cs[0] :: env.pointOk(p)) then BatchOutcome([], Some(PointError))
    else if !env.writeOk(k) then BatchOutcome([], Some(WriteError))
    else Prepend([cs[0]], RunChunks(cs[1..], k + 1, env))
  }

  /** What `Batch` does with `points`, batch by batch. */
  function BatchSpec(points: seq<Point>, env: BatchEnv): BatchOutcome
  {
    RunChunks(Chunks(points), 0, env)
  }

  /** There are |s| / ChunkSize + 1 batches; every one written mid-stream
      holds exactly `ChunkSize` points and the final one the remaining
      |s| % ChunkSize (at most 500; none at all when |s| is a multiple of
      `ChunkSize`, including 0). */
  lemma {:induction false} ChunkSizes(s: seq<Point>)
    ensures |Chunks(s)| == |s| / ChunkSize + 1
    ensures forall k | 0 <= k < |Chunks(s)| - 1 :: |Chunks(s)[k]| == ChunkSize
    ensures |Chunks(s)[|Chunks(s)| - 1]| == |s| % ChunkSize <= FlushThreshold
    decreases |s|
  {
    if |s| > FlushThreshold {
      var t := s[ChunkSize..];
      ChunkSizes(t);
      assert Chunks(s) == [s[..ChunkSize]] + Chunks(t);
      assert |t| == |s| - ChunkSize;
    }
  }

  /** The batches, laid end to end, are exactly the input: every point in
      order and once. */
  lemma {:induction false} ConcatChunks(s: seq<Point>)
    ensures Concat(Chunks(s)) == s
    decreases |s|
  {
    if |s| > FlushThreshold {
      ConcatChunks(s[ChunkSize..]);
      assert Chunks(s)[1..] == Chunks(s[ChunkSize..]);
      assert s == s[..ChunkSize] + s[ChunkSize..];
    }
  }

  /** What the run wrote is always a prefix of the batches, and a failed
      run stops before the last batch is written. */
  lemma {:induction false} RunChunksPrefix(cs: seq<seq<Point>>, k: nat, env: BatchEnv)
    ensures var o := RunChunks(cs, k, env);
      |o.written| <= |cs| && o.written == cs[..|o.written|] &&
      (o.err.None? <==> |o.written| == |cs|)
    decreases |cs|
  {
    if cs != [] && ChunkOk(env, cs[0], k) {
      RunChunksPrefix(cs[1..], k + 1, env);
    }
  }

  /** A run succeeds exactly when every batch goes through. */
  lemma {:induction false} RunChunksSucceedsIff(cs: seq<seq<Point>>, k: nat, env: BatchEnv)
    ensures RunChunks(cs, k, env).err.None? <==>
      forall j | 0 <= j < |cs| :: ChunkOk(env, cs[j], k + j)
    decreases |cs|
  {
    if cs != [] {
      RunChunksSucceedsIff(cs[1..], k + 1, env);
      if ChunkOk(env, cs[0], k) {
        forall j | 1 <= j < |cs| ensures cs[j] == cs[1..][j - 1] { }
      }
    }
  }

  /** `Batch` returns nil exactly when every batch goes through, and then
      it has issued |points| / 501 + 1 writes whose batches, laid end to
      end, are the input. */
  lemma BatchSucceeds(points: seq<Point>, env: BatchEnv)
    ensures var cs := Chunks(points);
      BatchSpec(points, env).err.None? <==>
        forall k | 0 <= k < |cs| :: ChunkOk(env, cs[k], k)
    ensures BatchSpec(points, env).err.None? ==>
      BatchSpec(points, env).written == Chunks(points) &&
      |BatchSpec(points, env).written| == |points| / ChunkSize + 1 &&
      Concat(BatchSpec(points, env).written) == points
  {
    var cs := Chunks(points);
    RunChunksSucceedsIff(cs, 0, env);
    forall k | 0 <= k < |cs| ensures ChunkOk(env, cs[k], 0 + k) <==> ChunkOk(env, cs[k], k) { }
    RunChunksPrefix(cs, 0, env);
    ChunkSizes(points);
    ConcatChunks(points);
  }

  /** After a failure nothing further is written: what was written is the
      first batches of the input, each a full one, i.e. a prefix of the
      points that ends on a batch boundary. */
  lemma BatchFailureWritesPrefix(points: seq<Point>, env: BatchEnv)
    requires BatchSpec(points, env).err.Some?
    ensures var w := BatchSpec(points, env).written;
      |w| < |Chunks(points)| &&
      |Concat(w)| == ChunkSize * |w| &&
      Concat(w) <= points
  {
    var cs := Chunks(points);
    var w := BatchSpec(points, env).written;
    RunChunksPrefix(cs, 0, env);
    ChunkSizes(points);
    ConcatChunks(points);
    assert cs == w + cs[|w|..];
    ConcatAppend(w, cs[|w|..]);
    ConcatLength(w);
  }

  lemma {:induction false} ConcatLength(w: seq<seq<Point>>)
    requires forall k | 0 <= k < |w| :: |w[k]| == ChunkSize
    ensures |Concat(w)| == ChunkSize * |w|
    decreases |w|
  {
    if w != [] {
      ConcatLength(w[1..]);
    }
  }

  /** Batch `k` starts at `rest`: a point at position `i` of it that
      cannot be built ends the run with that error. */
  lemma RunPointFails(rest: seq<Point>, i: nat, k: nat, env: BatchEnv)
    requires i < |rest| && i <= FlushThreshold
    requires env.newBatchOk(k) && !env.pointOk(rest[i])
    ensures RunChunks(Chunks(rest), k, env) == BatchOutcome([], Some(PointError))
  {
    var cs := Chunks(rest);
    if |rest| > FlushThreshold {
      assert cs[0][i] == rest[i];
    } else {
      assert cs[0][i] == rest[i];
    }
  }

  /** The batch that starts at `start` has just filled up at `j`, was
      started and its points built: its write decides whether the run
      stops with that error or writes it and goes on from `j + 1`. */
  lemma RunFullChunk(points: seq<Point>, start: nat, j: nat, written: seq<seq<Point>>, k: nat, env: BatchEnv)
    requires start + ChunkSize == j + 1 <= |points|
    requires env.newBatchOk(k) && forall q | start <= q <= j :: env.pointOk(points[q])
    ensures !env.writeOk(k) ==>
      Prepend(written, RunChunks(Chunks(points[start..]), k, env)) == BatchOutcome(written, Some(WriteError))
    ensures env.writeOk(k) ==>
      Prepend(written, RunChunks(Chunks(points[start..]), k, env)) ==
        Prepend(written + [points[start..j + 1]], RunChunks(Chunks(points[j + 1..]), k + 1, env))
  {
    var rest := points[start..];
    var cs := Chunks(rest);
    assert cs[0] == rest[..ChunkSize] == points[start..j + 1];
    assert forall p | p in cs[0] :: env.pointOk(p);
    assert rest[ChunkSize..] == points[j + 1..];
    assert cs[1..] == Chunks(points[j + 1..]);
  }

  /** Batch `k` starts at `rest` and is the last one, was started and its
      points built: its write decides the outcome. */
  lemma RunLastChunk(rest: seq<Point>, k: nat, env: BatchEnv)
    requires |rest| <= FlushThreshold
    requires env.newBatchOk(k) && forall q | 0 <= q < |rest| :: env.pointOk(rest[q])
    ensures RunChunks(Chunks(rest), k, env) ==
      if env.writeOk(k) then BatchOutcome([rest], None) else BatchOutcome([], Some(WriteError))
  {
    assert Chunks(rest) == [rest];
    assert forall p | p in rest :: env.pointOk(p);
    assert [rest][1..] == [];
  }

  /** The driver's `Batch`: build each point into the current batch, count
      it, and when the counter exceeds `FlushThreshold` reset it, write the
      batch and start a new one; after the loop write the last batch,
      even an empty one. The first error is returned at once. */
  method Batch(points: seq<Point>, env: BatchEnv) returns (out: BatchOutcome)
    ensures out == BatchSpec(points, env)
  {
    var flushes: nat := 0;
    if !env.newBatchOk(flushes) {
      return BatchOutcome([], Some(NewBatchError));
    }
    var bp: seq<Point> := [];
    var written: seq<seq<Point>> := [];
    var i := 0;
    ghost var start := 0;
    ghost var spec := BatchSpec(points, env);
    for j := 0 to |points|
      invariant 0 <= i <= FlushThreshold
      invariant start == j - i
      invariant bp == points[start..j]
      invariant env.newBatchOk(flushes)
      invariant forall q | start <= q < j :: env.pointOk(points[q])
      invariant spec == Prepend(written, RunChunks(Chunks(points[start..]), flushes, env))
    {
      var point := points[j];
      if !env.pointOk(point) {
        RunPointFails(points[start..], i, flushes, env);
        return BatchOutcome(written, Some(PointError));
      }
      bp := bp + [point];
      assert bp == points[start..j + 1];
      i := i + 1;
      if i > FlushThreshold {
        i := 0;
        RunFullChunk(points, start, j, written, flushes, env);
        if !env.writeOk(flushes) {
          return BatchOutcome(written, Some(WriteError));
        }
        written := written + [bp];
        flushes := flushes + 1;
        start := j + 1;
        if !env.newBatchOk(flushes) {
          assert Chunks(points[start..]) != [];
          return BatchOutcome(written, Some(NewBatchError));
        }
        bp := [];
      }
    }
    RunLastChunk(points[start..], flushes, env);
    assert bp == points[start..];
    if !env.writeOk(flushes) {
      return BatchOutcome(written, Some(WriteError));
    }
    out := BatchOutcome(written + [bp], None);
  }
}
