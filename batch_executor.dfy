/** Batch executor (src/utils/blockchain/contract.ts): runs one contract call per work
    item, in chunks that shrink from attempt to attempt, and retries a failed attempt up
    to five times.

    The network is an oracle: `net(attempt, position, call)` says what invoking
    `call` (the element at `position` of the work list) does on that attempt. Waits have
    no effect on results (the source does not await them) and are left out. */
module BatchExecutor {
  import opened Wrappers

  const MAX_BATCH_CONTRACT_PER_CHUNK: nat := 100
  const BATCH_MAX_ATTEMPTS: nat := 5

  /** One element call: `contract[method](...args)` on the contract at `target`. */
  datatype Call<A> = Call(target: string, methodName: string, args: A)

  /** What invoking a contract method does: it throws before returning a promise, or
      returns a promise that resolves with a value or rejects. */
  datatype CallOutcome<T> = Throws | Resolves(value: T) | Rejects

  /** How the promise of `contractCall` settles: fulfilled with a value or `null`
      (`None`), or rejected. */
  datatype Settled<T> = Fulfilled(value: Option<T>) | Rejected

  type Network<!A, T> = (nat, nat, Call<A>) -> CallOutcome<T>

  /** `contractCall`: the call's promise is returned without being awaited, so only a
      synchronous throw is caught and becomes `null`; a rejection passes through. */
  function ContractCall<T>(o: CallOutcome<T>): (s: Settled<T>)
    ensures s.Rejected? <==> o.Rejects?
    ensures o.Throws? ==> s == Fulfilled(None)
    ensures o.Resolves? ==> s == Fulfilled(Some(o.value))
  {
    match o
    case Throws => Fulfilled(None)
    case Resolves(v) => Fulfilled(Some(v))
    case Rejects => Rejected
  }

  /** `Promise.all(ps)`: all values in order, or a rejection (None) if any promise
      rejects. */
  function PromiseAll<T>(ps: seq<Settled<T>>): Option<seq<Option<T>>>
    decreases |ps|
  {
    if ps == [] then Some([])
    else
      var head := ps[|ps| - 1];
      match PromiseAll(ps[..|ps| - 1])
      case None => None
      case Some(vs) => if head.Rejected? then None else Some(vs + [head.value])
  }

  /** Promise.all rejects exactly when one of the promises rejects, and otherwise
      fulfils with every value, in order. */
  lemma {:induction false} PromiseAllSpec<T>(ps: seq<Settled<T>>)
    ensures PromiseAll(ps).None? <==> exists q :: 0 <= q < |ps| && ps[q].Rejected?
    ensures PromiseAll(ps).Some? ==>
              |PromiseAll(ps).value| == |ps| && forall q :: 0 <= q < |ps| ==> PromiseAll(ps).value[q] == ps[q].value
    decreases |ps|
  {
    if ps != [] {
      var init := ps[..|ps| - 1];
      PromiseAllSpec(init);
      if PromiseAll(init).None? {
        var q :| 0 <= q < |init| && init[q].Rejected?;
        assert ps[q].Rejected?;
      }
    }
  }

  // ---------------------------------------------------------------------------
  // Chunking

  function Min(a: int, b: int): int { if a <= b then a else b }

  /** Where chunk `k` starts on attempt `attempt`: the loop index `i` advances by the
      fractional step `100 / attempt` and `slice` truncates it. The model takes the exact
      start `floor(k * 100 / attempt)`; the source's accumulated floating-point sum can
      fall just short of it (see the README). Written per attempt so that each case is
      linear. */
  function Boundary(k: nat, attempt: nat): (b: nat)
    requires 1 <= attempt <= BATCH_MAX_ATTEMPTS
  {
    if attempt == 1 then k * 100
    else if attempt == 2 then k * 50
    else if attempt == 3 then k * 100 / 3
    else if attempt == 4 then k * 25
    else k * 20
  }

  /** The step `100 / attempt`, rounded down and up: the sizes a full chunk can have. */
  function MinChunk(attempt: nat): nat
    requires 1 <= attempt <= BATCH_MAX_ATTEMPTS
  {
    if attempt == 3 then 33 else 100 / attempt
  }

  function MaxChunk(attempt: nat): nat
    requires 1 <= attempt <= BATCH_MAX_ATTEMPTS
  {
    if attempt == 3 then 34 else 100 / attempt
  }

  lemma BoundaryIsFloor(k: nat, attempt: nat)
    requires 1 <= attempt <= BATCH_MAX_ATTEMPTS
    ensures Boundary(k, attempt) == k * MAX_BATCH_CONTRACT_PER_CHUNK / attempt
  {
  }

  /** Successive boundaries are `floor(100 / attempt)` or `ceil(100 / attempt)` apart. */
  lemma BoundaryStep(k: nat, attempt: nat)
    requires 1 <= attempt <= BATCH_MAX_ATTEMPTS
    ensures Boundary(0, attempt) == 0
    ensures 1 <= MinChunk(attempt) <= MaxChunk(attempt)
    ensures Boundary(k, attempt) + MinChunk(attempt) <= Boundary(k + 1, attempt)
    ensures Boundary(k + 1, attempt) <= Boundary(k, attempt) + MaxChunk(attempt)
  {
  }

  /** The nominal chunk sizes of attempts 1 to 5: 100, 50, 33 (the step is 33.3…), 25
      and 20; a chunk of attempt 3 holds 33 or 34 items. */
  lemma ChunkSizes()
    ensures Boundary(1, 1) == 100 && Boundary(1, 2) == 50 && Boundary(1, 3) == 33
    ensures Boundary(2, 3) == 66 && Boundary(3, 3) == 100
    ensures Boundary(1, 4) == 25 && Boundary(1, 5) == 20
  {
  }

  function Flatten<A>(chunks: seq<seq<A>>): seq<A>
    decreases |chunks|
  {
    if chunks == [] then [] else Flatten(chunks[..|chunks| - 1]) + chunks[|chunks| - 1]
  }

  lemma FlattenPush<A>(chunks: seq<seq<A>>, c: seq<A>)
    ensures Flatten(chunks + [c]) == Flatten(chunks) + c
  {
    assert (chunks + [c])[..|chunks|] == chunks;
  }

  /** What the chunk loop has built after `|chunks|` rounds, for chunk boundaries `b`:
      together the chunks are the items up to `b(|chunks|)`, chunk `j` is the slice
      from `b(j)` to `b(j + 1)` (cut at the end of the list), and it holds between `lo`
      and `hi` items (the last one possibly fewer). */
  ghost predicate ChunksCover<A>(items: seq<A>, chunks: seq<seq<A>>, b: nat -> nat) {
    Flatten(chunks) == items[..Min(b(|chunks|), |items|)]
  }

  ghost predicate ChunksAreSlices<A>(items: seq<A>, chunks: seq<seq<A>>, b: nat -> nat) {
    forall j :: 0 <= j < |chunks| ==>
      b(j) < |items| && b(j) < b(j + 1) && chunks[j] == items[b(j)..Min(b(j + 1), |items|)]
  }

  ghost predicate ChunkSizesWithin<A>(items: seq<A>, chunks: seq<seq<A>>, b: nat -> nat, lo: nat, hi: nat) {
    && (forall j :: 0 <= j < |chunks| ==> 1 <= |chunks[j]| <= hi)
    && (forall j :: 0 <= j < |chunks| && b(j + 1) < |items| ==> |chunks[j]| >= lo)
  }

  /** One round of the chunk loop: the chunk from `b(k)` to `b(k + 1)`. */
  function NextChunk<A>(items: seq<A>, b: nat -> nat, k: nat): seq<A>
    requires b(k) < |items| && b(k) < b(k + 1)
  {
    items[b(k)..Min(b(k + 1), |items|)]
  }

  lemma ChunksCoverPush<A>(items: seq<A>, chunks: seq<seq<A>>, b: nat -> nat)
    requires ChunksCover(items, chunks, b)
    requires b(|chunks|) < |items| && b(|chunks|) < b(|chunks| + 1)
    ensures ChunksCover(items, chunks + [NextChunk(items, b, |chunks|)], b)
  {
    var k := |chunks|;
    var start, end := b(k), Min(b(k + 1), |items|);
    assert items[..start] + items[start..end] == items[..end];
    FlattenPush(chunks, NextChunk(items, b, k));
  }

  lemma ChunksAreSlicesPush<A>(items: seq<A>, chunks: seq<seq<A>>, b: nat -> nat)
    requires ChunksAreSlices(items, chunks, b)
    requires b(|chunks|) < |items| && b(|chunks|) < b(|chunks| + 1)
    ensures ChunksAreSlices(items, chunks + [NextChunk(items, b, |chunks|)], b)
  {
    var chunks' := chunks + [NextChunk(items, b, |chunks|)];
    forall j | 0 <= j < |chunks'|
      ensures b(j) < |items| && b(j) < b(j + 1) && chunks'[j] == items[b(j)..Min(b(j + 1), |items|)]
    {
      if j < |chunks| {
        assert chunks'[j] == chunks[j];
      }
    }
  }

  lemma ChunkSizesWithinPush<A>(items: seq<A>, chunks: seq<seq<A>>, b: nat -> nat, lo: nat, hi: nat)
    requires ChunkSizesWithin(items, chunks, b, lo, hi)
    requires 1 <= lo && b(|chunks|) < |items|
    requires b(|chunks|) + lo <= b(|chunks| + 1) <= b(|chunks|) + hi
    ensures ChunkSizesWithin(items, chunks + [NextChunk(items, b, |chunks|)], b, lo, hi)
  {
    var chunks' := chunks + [NextChunk(items, b, |chunks|)];
    forall j | 0 <= j < |chunks'|
      ensures 1 <= |chunks'[j]| <= hi
      ensures b(j + 1) < |items| ==> |chunks'[j]| >= lo
    {
      if j < |chunks| {
        assert chunks'[j] == chunks[j];
      }
    }
  }

  /** The chunk loop for boundaries `b` that start at 0 and advance by `lo` to `hi`:
      `chunks.push(items.slice(i, next))` while `i < items.length`. */
  method ChunkLoop<A>(items: seq<A>, b: nat -> nat, lo: nat, hi: nat) returns (chunks: seq<seq<A>>)
    requires b(0) == 0 && 1 <= lo
    requires forall k: nat :: b(k) + lo <= b(k + 1) <= b(k) + hi
    ensures b(|chunks|) >= |items|
    ensures ChunksCover(items, chunks, b) && ChunksAreSlices(items, chunks, b)
    ensures ChunkSizesWithin(items, chunks, b, lo, hi)
  {
    var n := |items|;
    chunks := [];
    var start := 0;
    while start < n
      invariant start == b(|chunks|)
      invariant ChunksCover(items, chunks, b) && ChunksAreSlices(items, chunks, b)
      invariant ChunkSizesWithin(items, chunks, b, lo, hi)
      decreases n - start
    {
      var next := b(|chunks| + 1);
      ChunksCoverPush(items, chunks, b);
      ChunksAreSlicesPush(items, chunks, b);
      ChunkSizesWithinPush(items, chunks, b, lo, hi);
      var end := if next < n then next else n;
      assert items[start..end] == NextChunk(items, b, |chunks|);
      chunks := chunks + [items[start..end]];
      start := next;
    }
  }

  /** The boundaries of attempt `attempt` as a function of the chunk number. */
  function AttemptBoundaries(attempt: nat): nat -> nat
    requires 1 <= attempt <= BATCH_MAX_ATTEMPTS
  {
    k => Boundary(k, attempt)
  }

  /** The chunk loop of an attempt: `chunks.push(items.slice(i, i + chunkSize))` while
      `i < items.length`. The chunks are contiguous, non-empty, no longer than the
      attempt's chunk size, and concatenate to the items in order. */
  method SplitIntoChunks<A>(items: seq<A>, attempt: nat) returns (chunks: seq<seq<A>>)
    requires 1 <= attempt <= BATCH_MAX_ATTEMPTS
    ensures Flatten(chunks) == items
    ensures Boundary(|chunks|, attempt) >= |items|
    ensures forall k :: 0 <= k < |chunks| ==>
              Boundary(k, attempt) < |items| &&
              chunks[k] == items[Boundary(k, attempt)..Min(Boundary(k + 1, attempt), |items|)]
    ensures forall k :: 0 <= k < |chunks| ==> 1 <= |chunks[k]| <= MaxChunk(attempt)
    ensures forall k :: 0 <= k < |chunks| - 1 ==> |chunks[k]| >= MinChunk(attempt)
  {
    var b := AttemptBoundaries(attempt);
    forall k: nat
      ensures b(k) + MinChunk(attempt) <= b(k + 1) <= b(k) + MaxChunk(attempt)
    {
      BoundaryStep(k, attempt);
    }
    BoundaryStep(0, attempt);
    chunks := ChunkLoop(items, b, MinChunk(attempt), MaxChunk(attempt));
    assert items[..|items|] == items;
    ChunksDone(items, chunks, attempt);
  }

  /** Chunks cut at the attempt's boundaries, read chunk by chunk. */
  lemma ChunksDone<A>(items: seq<A>, chunks: seq<seq<A>>, attempt: nat)
    requires 1 <= attempt <= BATCH_MAX_ATTEMPTS
    requires AttemptBoundaries(attempt)(|chunks|) >= |items|
    requires ChunksAreSlices(items, chunks, AttemptBoundaries(attempt))
    requires ChunkSizesWithin(items, chunks, AttemptBoundaries(attempt), MinChunk(attempt), MaxChunk(attempt))
    ensures Boundary(|chunks|, attempt) >= |items|
    ensures forall k :: 0 <= k < |chunks| ==>
              Boundary(k, attempt) < |items| &&
              chunks[k] == items[Boundary(k, attempt)..Min(Boundary(k + 1, attempt), |items|)]
    ensures forall k :: 0 <= k < |chunks| ==> 1 <= |chunks[k]| <= MaxChunk(attempt)
    ensures forall k :: 0 <= k < |chunks| - 1 ==> |chunks[k]| >= MinChunk(attempt)
  {
    var n := |items|;
    var b := AttemptBoundaries(attempt);
    assert b(|chunks|) == Boundary(|chunks|, attempt);
    forall k | 0 <= k < |chunks|
      ensures Boundary(k, attempt) < n
      ensures chunks[k] == items[Boundary(k, attempt)..Min(Boundary(k + 1, attempt), n)]
    {
      assert b(k) == Boundary(k, attempt) && b(k + 1) == Boundary(k + 1, attempt);
    }
    forall k | 0 <= k < |chunks| - 1
      ensures |chunks[k]| >= MinChunk(attempt)
    {
      assert b(k + 1) == Boundary(k + 1, attempt) && b(k + 1) < n;
    }
  }

  // ---------------------------------------------------------------------------
  // One attempt

  /** Promise.all over two lists in a row is Promise.all over each, concatenated. */
  lemma {:induction false} PromiseAllConcat<T>(a: seq<Settled<T>>, b: seq<Settled<T>>)
    ensures PromiseAll(a + b) ==
            if PromiseAll(a).Some? && PromiseAll(b).Some? then Some(PromiseAll(a).value + PromiseAll(b).value)
            else None
    decreases |b|
  {
    if b == [] {
      assert a + b == a;
      assert PromiseAll(b) == Some([]);
      if PromiseAll(a).Some? {
        assert PromiseAll(a).value + [] == PromiseAll(a).value;
      }
    } else {
      var init := b[..|b| - 1];
      var head := b[|b| - 1];
      assert (a + b)[..|a + b| - 1] == a + init;
      assert (a + b)[|a + b| - 1] == head;
      PromiseAllConcat(a, init);
      if PromiseAll(a).Some? && PromiseAll(init).Some? && !head.Rejected? {
        var va, vi := PromiseAll(a).value, PromiseAll(init).value;
        assert PromiseAll(a + b) == Some((va + vi) + [head.value]);
        assert PromiseAll(b) == Some(vi + [head.value]);
        assert (va + vi) + [head.value] == va + (vi + [head.value]);
      }
    }
  }

  /** Every call of attempt `attempt` dispatched through `contractCall`, in input order. */
  function Dispatch<A, T>(calls: seq<Call<A>>, attempt: nat, net: Network<A, T>): (ps: seq<Settled<T>>)
    ensures |ps| == |calls|
    ensures forall p :: 0 <= p < |calls| ==> ps[p] == ContractCall(net(attempt, p, calls[p]))
  {
    seq(|calls|, p requires 0 <= p < |calls| => ContractCall(net(attempt, p, calls[p])))
  }

  /** Reference outcome of attempt `attempt`, without chunks: one `Promise.all` over
      every call of the work list. */
  function AttemptOutcome<A, T>(calls: seq<Call<A>>, attempt: nat, net: Network<A, T>): Option<seq<Option<T>>> {
    PromiseAll(Dispatch(calls, attempt, net))
  }

  /** An attempt fails exactly when one of its calls rejects; otherwise entry `p` is the
      value of call `p`, or `null` where that call threw synchronously. */
  lemma AttemptOutcomeSpec<A, T>(calls: seq<Call<A>>, attempt: nat, net: Network<A, T>)
    ensures var r := AttemptOutcome(calls, attempt, net);
            && (r.None? <==> exists p :: 0 <= p < |calls| && net(attempt, p, calls[p]).Rejects?)
            && (r.Some? ==> |r.value| == |calls|)
            && (r.Some? ==> forall p :: 0 <= p < |calls| ==>
                  (net(attempt, p, calls[p]).Throws? ==> r.value[p] == None) &&
                  (net(attempt, p, calls[p]).Resolves? ==> r.value[p] == Some(net(attempt, p, calls[p]).value)))
  {
    var ps := Dispatch(calls, attempt, net);
    var r := AttemptOutcome(calls, attempt, net);
    PromiseAllSpec(ps);
    if r.None? {
      var q :| 0 <= q < |ps| && ps[q].Rejected?;
      assert net(attempt, q, calls[q]).Rejects?;
    }
  }

  /** `chunk.map((c) => contractCall(...))`: the promises of one chunk, which starts at
      position `base` of the work list. */
  method DispatchChunk<A, T>(calls: seq<Call<A>>, chunk: seq<Call<A>>, base: nat, attempt: nat, net: Network<A, T>)
    returns (ps: seq<Settled<T>>)
    requires base + |chunk| <= |calls| && chunk == calls[base..base + |chunk|]
    ensures ps == Dispatch(calls, attempt, net)[base..base + |chunk|]
  {
    ghost var all := Dispatch(calls, attempt, net);
    ps := [];
    var j := 0;
    while j < |chunk|
      invariant 0 <= j <= |chunk|
      invariant ps == all[base..base + j]
    {
      assert chunk[j] == calls[base + j];
      ps := ps + [ContractCall(net(attempt, base + j, chunk[j]))];
      j := j + 1;
    }
  }

  /** The chunks before chunk `i`, concatenated, are a prefix of all of them
      concatenated. */
  lemma {:induction false} FlattenPrefix<A>(chunks: seq<seq<A>>, i: nat)
    requires i <= |chunks|
    ensures |Flatten(chunks[..i])| <= |Flatten(chunks)|
    ensures Flatten(chunks)[..|Flatten(chunks[..i])|] == Flatten(chunks[..i])
    decreases |chunks|
  {
    var m := |chunks|;
    if i == m {
      assert chunks[..i] == chunks;
    } else {
      FlattenPrefix(chunks[..m - 1], i);
      assert chunks[..m - 1][..i] == chunks[..i];
    }
  }

  /** Chunk `i` sits in the concatenation right after the chunks before it. */
  lemma ChunkPosition<A>(chunks: seq<seq<A>>, items: seq<A>, i: nat)
    requires Flatten(chunks) == items && i < |chunks|
    ensures var base := |Flatten(chunks[..i])|;
            && base + |chunks[i]| <= |items|
            && items[base..base + |chunks[i]|] == chunks[i]
            && |Flatten(chunks[..i + 1])| == base + |chunks[i]|
  {
    FlattenPrefix(chunks, i);
    FlattenPrefix(chunks, i + 1);
    assert chunks[..i + 1][..i] == chunks[..i];
    var base := |Flatten(chunks[..i])|;
    assert Flatten(chunks[..i + 1]) == Flatten(chunks[..i]) + chunks[i];
    assert items[..base + |chunks[i]|] == items[..base] + chunks[i];
  }

  /** Awaiting one more chunk: the results so far extended by the chunk's, or a
      rejection of the whole attempt. */
  lemma PromiseAllStep<T>(all: seq<Settled<T>>, base: nat, end: nat, results: seq<Option<T>>)
    requires base <= end <= |all|
    requires PromiseAll(all[..base]) == Some(results)
    ensures PromiseAll(all[base..end]).Some? ==>
              PromiseAll(all[..end]) == Some(results + PromiseAll(all[base..end]).value)
    ensures PromiseAll(all[base..end]).None? ==> PromiseAll(all) == None
  {
    assert all[..end] == all[..base] + all[base..end];
    PromiseAllConcat(all[..base], all[base..end]);
    assert all == all[..end] + all[end..];
    PromiseAllConcat(all[..end], all[end..]);
  }

  /** The awaiting loop of an attempt: dispatch every call of a chunk, await the chunk
      with `Promise.all` and append its results, chunk after chunk, stopping at the
      first rejection. Whatever the chunks, this is the reference outcome. */
  method AwaitChunks<A, T>(calls: seq<Call<A>>, chunks: seq<seq<Call<A>>>, attempt: nat, net: Network<A, T>)
    returns (r: Option<seq<Option<T>>>)
    requires Flatten(chunks) == calls
    ensures r == AttemptOutcome(calls, attempt, net)
  {
    var n := |calls|;
    ghost var all := Dispatch(calls, attempt, net);
    var results: seq<Option<T>> := [];
    var i := 0;
    var base := 0;
    while i < |chunks|
      invariant 0 <= i <= |chunks|
      invariant base == |Flatten(chunks[..i])| && base <= n
      invariant PromiseAll(all[..base]) == Some(results)
    {
      var chunk := chunks[i];
      ChunkPosition(chunks, calls, i);
      var end := base + |chunk|;
      var chunkPromises := DispatchChunk(calls, chunk, base, attempt, net);
      PromiseAllStep(all, base, end, results);
      var chunkResults := PromiseAll(chunkPromises);
      if chunkResults.None? {
        // the rejection reaches the attempt's catch
        return None;
      }
      results := results + chunkResults.value;
      i := i + 1;
      base := end;
    }
    assert chunks[..i] == chunks;
    assert all[..n] == all;
    r := Some(results);
  }

  /** The body of one attempt: chunk the work, then await the chunks in order.
      Whatever the chunk size, this is the reference outcome. */
  method RunAttempt<A, T>(calls: seq<Call<A>>, attempt: nat, net: Network<A, T>)
    returns (r: Option<seq<Option<T>>>)
    requires 1 <= attempt <= BATCH_MAX_ATTEMPTS
    ensures r == AttemptOutcome(calls, attempt, net)
  {
    var chunks := SplitIntoChunks(calls, attempt);
    r := AwaitChunks(calls, chunks, attempt, net);
  }

  // ---------------------------------------------------------------------------
  // The retry loop

  /** The outcome of the `do … while (attempt < BATCH_MAX_ATTEMPTS)` loop once `done`
      attempts have failed: the next attempt's results if it succeeds; otherwise
      nothing if the error handler threw (the outer catch ends the loop) or the attempts
      are used up, and the next attempt after that. */
  function BatchFrom<A, T>(calls: seq<Call<A>>, net: Network<A, T>, handlerThrows: nat -> bool, done: nat)
    : Option<seq<Option<T>>>
    decreases BATCH_MAX_ATTEMPTS - done
  {
    if done >= BATCH_MAX_ATTEMPTS then None
    else
      var attempt := done + 1;
      var out := AttemptOutcome(calls, attempt, net);
      if out.Some? then out
      else if handlerThrows(attempt) then None
      else BatchFrom(calls, net, handlerThrows, attempt)
  }

  /** How many attempts the loop makes once `done` attempts have failed. */
  function AttemptsFrom<A, T>(calls: seq<Call<A>>, net: Network<A, T>, handlerThrows: nat -> bool, done: nat): nat
    decreases BATCH_MAX_ATTEMPTS - done
  {
    if done >= BATCH_MAX_ATTEMPTS then done
    else
      var attempt := done + 1;
      if AttemptOutcome(calls, attempt, net).Some? || handlerThrows(attempt) then attempt
      else AttemptsFrom(calls, net, handlerThrows, attempt)
  }

  /** The retry loop shared by both entry points; `handlerThrows(n)` says whether the
      error handler of attempt `n` itself throws. */
  method RunBatch<A, T>(calls: seq<Call<A>>, net: Network<A, T>, handlerThrows: nat -> bool)
    returns (r: Option<seq<Option<T>>>, attempts: nat)
    ensures r == BatchFrom(calls, net, handlerThrows, 0)
    ensures attempts == AttemptsFrom(calls, net, handlerThrows, 0)
    ensures 1 <= attempts <= BATCH_MAX_ATTEMPTS
  {
    var attempt := 0;
    while true
      invariant 0 <= attempt < BATCH_MAX_ATTEMPTS
      invariant BatchFrom(calls, net, handlerThrows, attempt) == BatchFrom(calls, net, handlerThrows, 0)
      invariant AttemptsFrom(calls, net, handlerThrows, attempt) == AttemptsFrom(calls, net, handlerThrows, 0)
      invariant AttemptsFrom(calls, net, handlerThrows, attempt) > attempt
      decreases BATCH_MAX_ATTEMPTS - attempt
    {
      attempt := attempt + 1;
      var out := RunAttempt(calls, attempt, net);
      if out.Some? {
        return out, attempt;
      }
      if handlerThrows(attempt) {
        return None, attempt;
      }
      if attempt >= BATCH_MAX_ATTEMPTS {
        return None, attempt;
      }
    }
  }

  // ---------------------------------------------------------------------------
  // Entry points

  /** The work list of `batchCallOneContractOneFunctionMultipleParams`: one call per
      argument list, all on the same contract and method. */
  function MultipleParamsCalls<A>(target: string, methodName: string, argsArray: seq<A>): (calls: seq<Call<A>>)
    ensures |calls| == |argsArray|
    ensures forall i :: 0 <= i < |calls| ==> calls[i] == Call(target, methodName, argsArray[i])
  {
    seq(|argsArray|, i requires 0 <= i < |argsArray| => Call(target, methodName, argsArray[i]))
  }

  /** The work list of `batchCallOneFunction`: the same method and the same arguments
      on every contract. */
  function OneFunctionCalls<A>(targets: seq<string>, methodName: string, args: A): (calls: seq<Call<A>>)
    ensures |calls| == |targets|
    ensures forall i :: 0 <= i < |calls| ==> calls[i] == Call(targets[i], methodName, args)
  {
    seq(|targets|, i requires 0 <= i < |targets| => Call(targets[i], methodName, args))
  }

  /** `batchCallOneContractOneFunctionMultipleParams(contract, method, argsArray)`.
      Its error handler awaits `getNetwork()`; when that throws (`getNetworkThrows`),
      the outer catch ends all retries and the result is `undefined` (None). */
  method BatchCallOneContractOneFunctionMultipleParams<A, T>(
    target: string, methodName: string, argsArray: seq<A>,
    net: Network<A, T>, getNetworkThrows: nat -> bool)
    returns (r: Option<seq<Option<T>>>)
    ensures r == BatchFrom(MultipleParamsCalls(target, methodName, argsArray), net, getNetworkThrows, 0)
  {
    var attempts;
    r, attempts := RunBatch(MultipleParamsCalls(target, methodName, argsArray), net, getNetworkThrows);
  }

  /** `batchCallOneFunction(contracts, method, args)`: its error handler only logs. */
  method BatchCallOneFunction<A, T>(targets: seq<string>, methodName: string, args: A, net: Network<A, T>)
    returns (r: Option<seq<Option<T>>>)
    ensures r == BatchFrom(OneFunctionCalls(targets, methodName, args), net, _ => false, 0)
  {
    var attempts;
    r, attempts := RunBatch(OneFunctionCalls(targets, methodName, args), net, _ => false);
  }

  // ---------------------------------------------------------------------------
  // Properties of the retry loop

  /** Attempt `n` is reached from `done` failed attempts: every attempt in between
      failed and its error handler did not throw. */
  ghost predicate Reached<A, T>(calls: seq<Call<A>>, net: Network<A, T>, handlerThrows: nat -> bool, done: nat, n: nat) {
    forall m :: done < m < n ==> AttemptOutcome(calls, m, net).None? && !handlerThrows(m)
  }

  /** The first successful attempt that is reached supplies the result. */
  lemma {:induction false} FirstSuccessWins<A, T>(calls: seq<Call<A>>, net: Network<A, T>, handlerThrows: nat -> bool, done: nat, n: nat)
    requires done < n <= BATCH_MAX_ATTEMPTS
    requires Reached(calls, net, handlerThrows, done, n)
    requires AttemptOutcome(calls, n, net).Some?
    ensures BatchFrom(calls, net, handlerThrows, done) == AttemptOutcome(calls, n, net)
    decreases n - done
  {
    if done + 1 < n {
      FirstSuccessWins(calls, net, handlerThrows, done + 1, n);
    }
  }

  /** Every result comes from a reached, successful attempt. */
  lemma {:induction false} ResultComesFromAnAttempt<A, T>(calls: seq<Call<A>>, net: Network<A, T>, handlerThrows: nat -> bool, done: nat)
    requires BatchFrom(calls, net, handlerThrows, done).Some?
    ensures exists n :: done < n <= BATCH_MAX_ATTEMPTS && Reached(calls, net, handlerThrows, done, n) &&
                        BatchFrom(calls, net, handlerThrows, done) == AttemptOutcome(calls, n, net)
    decreases BATCH_MAX_ATTEMPTS - done
  {
    var attempt := done + 1;
    if AttemptOutcome(calls, attempt, net).Some? {
      assert Reached(calls, net, handlerThrows, done, attempt);
    } else {
      ResultComesFromAnAttempt(calls, net, handlerThrows, attempt);
      var n :| attempt < n <= BATCH_MAX_ATTEMPTS && Reached(calls, net, handlerThrows, attempt, n) &&
               BatchFrom(calls, net, handlerThrows, attempt) == AttemptOutcome(calls, n, net);
      ReachedBack(calls, net, handlerThrows, done, n);
    }
  }

  /** A failed attempt whose handler does not throw lets the loop reach whatever the
      next attempt reaches. */
  lemma ReachedBack<A, T>(calls: seq<Call<A>>, net: Network<A, T>, handlerThrows: nat -> bool, done: nat, n: nat)
    requires AttemptOutcome(calls, done + 1, net).None? && !handlerThrows(done + 1)
    requires Reached(calls, net, handlerThrows, done + 1, n)
    ensures Reached(calls, net, handlerThrows, done, n)
  {
  }

  /** A failed attempt whose error handler throws ends the batch with `undefined`. */
  lemma {:induction false} HandlerThrowEndsBatch<A, T>(calls: seq<Call<A>>, net: Network<A, T>, handlerThrows: nat -> bool, done: nat, n: nat)
    requires done < n <= BATCH_MAX_ATTEMPTS
    requires Reached(calls, net, handlerThrows, done, n)
    requires AttemptOutcome(calls, n, net).None? && handlerThrows(n)
    ensures BatchFrom(calls, net, handlerThrows, done).None?
    decreases n - done
  {
    if done + 1 < n {
      HandlerThrowEndsBatch(calls, net, handlerThrows, done + 1, n);
    }
  }

  /** A successful batch has one entry per work item, in input order: entry `i` is the
      value of call `i` on the successful attempt, or `null` where that call threw. */
  lemma BatchResultShape<A, T>(calls: seq<Call<A>>, net: Network<A, T>, handlerThrows: nat -> bool)
    requires BatchFrom(calls, net, handlerThrows, 0).Some?
    ensures var r := BatchFrom(calls, net, handlerThrows, 0).value;
            |r| == |calls| &&
            exists n :: 1 <= n <= BATCH_MAX_ATTEMPTS && Reached(calls, net, handlerThrows, 0, n) &&
              (forall i :: 0 <= i < |calls| ==> !net(n, i, calls[i]).Rejects?) &&
              (forall i :: 0 <= i < |calls| ==> r[i] == ContractCall(net(n, i, calls[i])).value)
  {
    ResultComesFromAnAttempt(calls, net, handlerThrows, 0);
    var n :| 1 <= n <= BATCH_MAX_ATTEMPTS && Reached(calls, net, handlerThrows, 0, n) &&
             BatchFrom(calls, net, handlerThrows, 0) == AttemptOutcome(calls, n, net);
    AttemptOutcomeSpec(calls, n, net);
  }

  /** When every attempt has a rejected call, the batch gives up with `undefined`. */
  lemma {:induction false} AllAttemptsFail<A, T>(calls: seq<Call<A>>, net: Network<A, T>, handlerThrows: nat -> bool, done: nat)
    requires forall n :: 1 <= n <= BATCH_MAX_ATTEMPTS ==> AttemptOutcome(calls, n, net).None?
    ensures BatchFrom(calls, net, handlerThrows, done).None?
    decreases BATCH_MAX_ATTEMPTS - done
  {
    if done < BATCH_MAX_ATTEMPTS {
      AllAttemptsFail(calls, net, handlerThrows, done + 1);
    }
  }

  /** An empty work list succeeds on the first attempt with `[]`. */
  lemma EmptyBatch<A, T>(net: Network<A, T>, handlerThrows: nat -> bool)
    ensures BatchFrom([], net, handlerThrows, 0) == Some([])
    ensures AttemptsFrom([], net, handlerThrows, 0) == 1
  {
    assert AttemptOutcome([], 1, net) == Some([]);
  }
}
