/** The producer's objects. Each method updates its fields in place and does what the rules say. */
module ProducerObjects {
  import opened Wire
  import opened ProducerRules
  import opened RetryQueues

  // ---------------------------------------------------------------- configuration

  /** The configuration after correction. */
  function Corrected(c: Config): Config {
    Config(
      if c.maxBatchSize > FIVE_MIB || c.maxBatchSize <= 0 then FIVE_MIB else c.maxBatchSize,
      if c.maxBatchCount > 40960 || c.maxBatchCount <= 0 then 40960 else c.maxBatchCount,
      if c.maxIoWorkerCount <= 0 then 50 else c.maxIoWorkerCount,
      if c.lingerMs < 100 then 2000 else c.lingerMs,
      c.retries,
      if c.maxReservedAttempts <= 0 then 11 else c.maxReservedAttempts,
      if c.baseRetryBackoffMs <= 0 then 100 else c.baseRetryBackoffMs,
      c.maxRetryBackoffMs,
      if c.totalSizeLnBytes <= 0 then 104857600 else c.totalSizeLnBytes)
  }

  /** Correction makes every configuration a validated one, and changes none that already is. */
  lemma {:induction false} CorrectedIsValidated(c: Config)
    ensures Validated(Corrected(c))
    ensures Validated(c) <==> Corrected(c) == c
  {
    if !Validated(c) { assert Validated(Corrected(c)); }
  }

  /** Value by value: one within its bounds is kept, another replaced by the default; two have no bounds. */
  lemma {:induction false} CorrectedEach(c: Config)
    ensures var v := Corrected(c);
      && (if 1 <= c.maxBatchSize <= 5 * 1024 * 1024 then v.maxBatchSize == c.maxBatchSize
          else v.maxBatchSize == 5 * 1024 * 1024)
      && (if 1 <= c.maxBatchCount <= 40960 then v.maxBatchCount == c.maxBatchCount else v.maxBatchCount == 40960)
      && (if c.maxIoWorkerCount >= 1 then v.maxIoWorkerCount == c.maxIoWorkerCount else v.maxIoWorkerCount == 50)
      && (if c.lingerMs >= 100 then v.lingerMs == c.lingerMs else v.lingerMs == 2000)
      && (if c.maxReservedAttempts >= 1 then v.maxReservedAttempts == c.maxReservedAttempts
          else v.maxReservedAttempts == 11)
      && (if c.baseRetryBackoffMs >= 1 then v.baseRetryBackoffMs == c.baseRetryBackoffMs
          else v.baseRetryBackoffMs == 100)
      && (if c.totalSizeLnBytes >= 1 then v.totalSizeLnBytes == c.totalSizeLnBytes
          else v.totalSizeLnBytes == 100 * 1024 * 1024)
      && v.retries == c.retries && v.maxRetryBackoffMs == c.maxRetryBackoffMs
  {
  }

  class ProducerConfig {
    var maxBatchSize: int
    var maxBatchCount: int
    var maxIoWorkerCount: int
    var lingerMs: int
    var retries: int
    var maxReservedAttempts: int
    var baseRetryBackoffMs: int
    var maxRetryBackoffMs: int
    var totalSizeLnBytes: int

    function Value(): Config
      reads this
    {
      Config(maxBatchSize, maxBatchCount, maxIoWorkerCount, lingerMs, retries, maxReservedAttempts,
             baseRetryBackoffMs, maxRetryBackoffMs, totalSizeLnBytes)
    }

    method Validate()
      modifies this
      ensures Value() == Corrected(old(Value())) && Validated(Value())
    {
      hide Validated;
      CorrectedIsValidated(Value());
      if maxReservedAttempts <= 0 { maxReservedAttempts := 11; }
      if maxBatchCount > 40960 || maxBatchCount <= 0 { maxBatchCount := 40960; }
      if maxBatchSize > 1024 * 1024 * 5 || maxBatchSize <= 0 { maxBatchSize := 1024 * 1024 * 5; }
      if maxIoWorkerCount <= 0 { maxIoWorkerCount := 50; }
      if baseRetryBackoffMs <= 0 { baseRetryBackoffMs := 100; }
      if totalSizeLnBytes <= 0 { totalSizeLnBytes := 100 * 1024 * 1024; }
      if lingerMs < 100 { lingerMs := 2000; }
    }
  }

  // ----------------------------------------------------------------------- batches

  class ProducerBatch {
    const id: nat
    const destination: Destination
    const createTimeMs: int
    var logs: seq<LogItem>
    var callBackList: seq<nat>
    var totalDataSize: int
    var attemptCount: int
    var nextRetryMs: int
    var attemptList: seq<bool>
    var successful: bool
    ghost var from: seq<Destination>
    ghost var held: int
    ghost var singly: bool

    ghost function Value(): Batch
      reads this
    {
      Batch(destination, logs, callBackList, totalDataSize, attemptCount, attemptList, successful, from, held, singly)
    }

    constructor (name: nat, d: Destination, s: Submission, nowMs: int)
      ensures Value() == NewBatch(d, s) && createTimeMs == nowMs && id == name
    {
      id, destination, createTimeMs := name, d, nowMs;
      logs := s.logs;
      callBackList := if s.callback.Some? then [s.callback.value] else [];
      totalDataSize := s.groupSize;
      attemptCount, nextRetryMs, attemptList, successful := 0, 0, [], false;
      from, held, singly := [d], s.groupSize, |s.logs| == 1;
    }

    /** `addLogToLogGroup` and, for a callback, `addProducerBatchCallBack` */
    method Append(d: Destination, s: Submission)
      modifies this
      ensures Value() == Appended(old(Value()), d, s) && nextRetryMs == old(nextRetryMs)
    {
      logs := logs + s.logs;
      if s.callback.Some? {
        callBackList := callBackList + [s.callback.value];
      }
      assert s.callback.None? ==> callBackList + [] == callBackList;
      from, held, singly := from + [d], held + LogBytes(s.logs), singly && |s.logs| == 1;
    }

    method AddErrorMessageToBatchAttempt(c: Config)
      modifies this
      ensures Value() == AddError(c, old(Value())) && nextRetryMs == old(nextRetryMs)
    {
      if attemptCount < c.maxReservedAttempts {
        attemptList := attemptList + [false];
      }
      successful := false;
      attemptCount := attemptCount + 1;
    }
  }

  // -------------------------------------------------------------------- task queue

  class IoThreadPool {
    var queue: seq<ProducerBatch>

    constructor ()
      ensures queue == []
    {
      queue := [];
    }

    method AddTask(batch: ProducerBatch)
      modifies this
      ensures queue == old(queue) + [batch]
    {
      queue := queue + [batch];
    }

    method PopTask() returns (batch: ProducerBatch?)
      modifies this
      ensures old(queue) == [] ==> batch == null && queue == []
      ensures old(queue) != [] ==> batch == old(queue)[0] && queue == old(queue)[1..]
    {
      if |queue| <= 0 { return null; }
      batch := queue[0];
      queue := queue[1..];
    }
  }

  // -------------------------------------------------------------------- accumulator

  class LogAccumulator {
    const config: Config
    const threadPool: IoThreadPool
    var logGroupData: map<string, ProducerBatch>
    var made: nat

    constructor (c: Config, pool: IoThreadPool)
      ensures Valid() && config == c && threadPool == pool && logGroupData == map[]
    {
      config, threadPool, logGroupData, made := c, pool, map[], 0;
    }

    /** No batch is open under two keys. */
    ghost predicate Valid()
      reads this
    {
      forall j, k :: j in logGroupData && k in logGroupData && j != k ==> logGroupData[j] != logGroupData[k]
    }

    ghost function Open(key: string): Option<Batch>
      reads this, logGroupData.Values
    {
      if key in logGroupData then Some(logGroupData[key].Value()) else None
    }

    method GetKey(d: Destination) returns (key: string)
      ensures key == GetKeyString(d)
    {
      key := "";
      key := key + d.project;
      key := key + "|";
      key := key + d.logstore;
      key := key + "|";
      key := key + d.topic;
      key := key + "|";
      key := key + d.shardHash;
      key := key + "|";
      key := key + d.source;
    }

    method InnerSendToServer(key: string, batch: ProducerBatch)
      modifies this, threadPool
      ensures threadPool.queue == old(threadPool.queue) + [batch]
      ensures logGroupData == old(logGroupData) - {key}
    {
      threadPool.AddTask(batch);
      logGroupData := logGroupData - {key};
    }

    method CreateNewProducerBatch(key: string, d: Destination, s: Submission, nowMs: int)
      modifies this
      ensures key in logGroupData && logGroupData == old(logGroupData)[key := logGroupData[key]]
      ensures fresh(logGroupData[key]) && logGroupData[key].Value() == NewBatch(d, s)
      ensures logGroupData[key].createTimeMs == nowMs && logGroupData[key].id == old(made) && made == old(made) + 1
    {
      var batch := new ProducerBatch(made, d, s, nowMs);
      made := made + 1;
      logGroupData := logGroupData[key := batch];
    }

    method AddOrSendProducerBatch(key: string, d: Destination, batch: ProducerBatch, s: Submission, nowMs: int)
      requires Valid() && key in logGroupData && logGroupData[key] == batch
      modifies this, threadPool, batch
      ensures Valid() && logGroupData - {key} == old(logGroupData) - {key}
      ensures key in logGroupData ==>
                logGroupData[key] == batch || (fresh(logGroupData[key]) && logGroupData[key].createTimeMs == nowMs)
      ensures var was := old(batch.Value());
              var r := Absorb(config, Some(was.(totalDataSize := was.totalDataSize - LogBytes(s.logs))), d, s);
              && Open(key) == r.open
              && (r.sent.None? ==> threadPool.queue == old(threadPool.queue) && logGroupData == old(logGroupData))
              && (r.sent.Some? ==> threadPool.queue == old(threadPool.queue) + [batch] && batch.Value() == r.sent.value)
    {
      var totalDataCount := |batch.logs| + 1;
      if batch.totalDataSize > config.maxBatchSize && batch.totalDataSize < 5242880
        && totalDataCount <= config.maxBatchCount {
        batch.Append(d, s);
        InnerSendToServer(key, batch);
      } else if batch.totalDataSize <= config.maxBatchSize && totalDataCount <= config.maxBatchCount {
        batch.Append(d, s);
      } else {
        InnerSendToServer(key, batch);
        CreateNewProducerBatch(key, d, s, nowMs);
      }
    }

    /** err: the shutdown flag was set. */
    method AddLogToProducerBatch(d: Destination, s: Submission, shutDownFlag: bool, nowMs: int) returns (err: bool)
      requires Valid()
      modifies this, threadPool, logGroupData.Values
      ensures Valid() && err == shutDownFlag
      ensures err ==> logGroupData == old(logGroupData) && threadPool.queue == old(threadPool.queue)
      ensures err ==> forall k :: k in logGroupData ==> logGroupData[k].Value() == old(logGroupData[k].Value())
      ensures !err && GetKeyString(d) in logGroupData ==>
                var batch := logGroupData[GetKeyString(d)];
                batch in old(logGroupData.Values) || (fresh(batch) && batch.createTimeMs == nowMs)
      ensures !err ==>
        var key := GetKeyString(d);
        var r := Absorb(config, old(Open(key)), d, s);
        && Open(key) == r.open
        && threadPool.queue == old(threadPool.queue) + (if r.sent.Some? then [old(logGroupData[key])] else [])
        && (r.sent.Some? ==> old(logGroupData[key]).Value() == r.sent.value)
        && logGroupData - {key} == old(logGroupData) - {key}
        && forall k :: k in old(logGroupData) && k != key ==>
             old(logGroupData[k]).Value() == old(logGroupData[k].Value())
    {
      if shutDownFlag { return true; }
      var key := GetKey(d);
      if key in logGroupData {
        var batch := logGroupData[key];
        var logSize := LogSize(s.logs);
        batch.totalDataSize := batch.totalDataSize + logSize;
        AddOrSendProducerBatch(key, d, batch, s, nowMs);
      } else {
        CreateNewProducerBatch(key, d, s, nowMs);
      }
      return false;
    }
  }

  /** `GetLogListSize` */
  method LogSize(logs: seq<LogItem>) returns (size: nat)
    ensures size == LogBytes(logs)
  {
    size := 0;
    var i := 0;
    while i < |logs|
      invariant 0 <= i <= |logs| && size + LogBytes(logs[i..]) == LogBytes(logs)
    {
      size := size + logs[i].size;
      i := i + 1;
    }
  }

  // ------------------------------------------------------------------------- mover

  /** Both looks at the clock find that the batch has lingered long enough. */
  predicate Lingered(batch: ProducerBatch, c: Config, nowTimeMs: int, againMs: int) {
    batch.createTimeMs + c.lingerMs - nowTimeMs <= 0 && againMs - batch.createTimeMs >= c.lingerMs
  }

  ghost function BatchesOf(m: map<string, ProducerBatch>, keys: seq<string>): seq<ProducerBatch>
    requires forall k :: k in keys ==> k in m
  {
    if keys == [] then [] else BatchesOf(m, keys[..|keys| - 1]) + [m[keys[|keys| - 1]]]
  }

  ghost predicate NoneTwice(keys: seq<string>) {
    forall i, j :: 0 <= i < j < |keys| ==> keys[i] != keys[j]
  }

  lemma {:induction false} BatchesEach(m: map<string, ProducerBatch>, keys: seq<string>, i: nat)
    requires i < |keys| && forall k :: k in keys ==> k in m
    ensures |BatchesOf(m, keys)| == |keys| && BatchesOf(m, keys)[i] == m[keys[i]]
  {
    if i < |keys| - 1 {
      BatchesEach(m, keys[..|keys| - 1], i);
    } else if i > 0 {
      BatchesEach(m, keys[..|keys| - 1], 0);
    }
  }

  lemma {:induction false} NoneSent(m: map<string, ProducerBatch>)
    ensures NoneTwice([]) && BatchesOf(m, []) == []
  {
  }

  class Mover {
    const accumulator: LogAccumulator
    const threadPool: IoThreadPool
    const config: Config

    constructor (a: LogAccumulator, pool: IoThreadPool, c: Config)
      ensures accumulator == a && threadPool == pool && config == c
    {
      accumulator, threadPool, config := a, pool, c;
    }

    /**
     * `sendToServer`: nothing for a key that is not open; else the batch is queued if the second look at the clock
     * agrees.
     */
    method SendToServer(key: string, batch: ProducerBatch, againMs: int)
      modifies accumulator, threadPool
      ensures var due := key in old(accumulator.logGroupData)
                         && againMs - old(accumulator.logGroupData)[key].createTimeMs >= config.lingerMs;
              && threadPool.queue == (if due then old(threadPool.queue) + [batch] else old(threadPool.queue))
              && accumulator.logGroupData
              == (if due then old(accumulator.logGroupData) - {key} else old(accumulator.logGroupData))
    {
      if key !in accumulator.logGroupData { return; }
      if againMs - accumulator.logGroupData[key].createTimeMs < config.lingerMs { return; }
      threadPool.AddTask(batch);
      accumulator.logGroupData := accumulator.logGroupData - {key};
    }

    /** The locked part of the mover's round: every lingering batch is queued, once, and no other leaves. */
    method FlushLingering(nowTimeMs: int, againMs: string -> int) returns (ghost sent: seq<string>)
      modifies accumulator, threadPool
      ensures NoneTwice(sent)
      ensures forall k :: k in sent <==>
                (k in old(accumulator.logGroupData)
                 && nowTimeMs - old(accumulator.logGroupData)[k].createTimeMs >= config.lingerMs
                 && againMs(k) - old(accumulator.logGroupData)[k].createTimeMs >= config.lingerMs)
      ensures accumulator.logGroupData == old(accumulator.logGroupData) - (set k | k in sent)
      ensures threadPool.queue == old(threadPool.queue) + BatchesOf(old(accumulator.logGroupData), sent)
    {
      hide BatchesOf, NoneTwice;
      ghost var was := accumulator.logGroupData;
      var keys := accumulator.logGroupData.Keys;
      sent := [];
      NoneSent(was);
      while keys != {}
        invariant keys <= was.Keys && NoneTwice(sent)
        invariant forall k :: k in sent <==> k in was && k !in keys && Lingered(was[k], config, nowTimeMs, againMs(k))
        invariant accumulator.logGroupData == was - (set k | k in sent)
        invariant threadPool.queue == old(threadPool.queue) + BatchesOf(was, sent)
        decreases keys
      {
        var key :| key in keys;
        keys := keys - {key};
        var batch := accumulator.logGroupData[key];
        if batch.createTimeMs + config.lingerMs - nowTimeMs <= 0 {
          if Lingered(batch, config, nowTimeMs, againMs(key)) {
            SendToServer(key, batch, againMs(key));
            Extended(was, sent, key);
            sent := sent + [key];
          }
        }
      }
    }

    /** The last flush: everything is queued, once. */
    method DrainAccumulator() returns (ghost sent: seq<string>)
      modifies accumulator, threadPool
      ensures NoneTwice(sent) && forall k :: k in sent <==> k in old(accumulator.logGroupData)
      ensures accumulator.logGroupData == map[]
      ensures threadPool.queue == old(threadPool.queue) + BatchesOf(old(accumulator.logGroupData), sent)
    {
      hide BatchesOf, NoneTwice;
      ghost var was := accumulator.logGroupData;
      var keys := accumulator.logGroupData.Keys;
      sent := [];
      NoneSent(was);
      while keys != {}
        invariant keys <= was.Keys && NoneTwice(sent) && accumulator.logGroupData == was
        invariant forall k :: k in sent <==> k in was && k !in keys
        invariant threadPool.queue == old(threadPool.queue) + BatchesOf(was, sent)
        decreases keys
      {
        var key :| key in keys;
        keys := keys - {key};
        threadPool.AddTask(accumulator.logGroupData[key]);
        Extended(was, sent, key);
        sent := sent + [key];
      }
      accumulator.logGroupData := map[];
    }
  }

  lemma {:induction false} Extended(m: map<string, ProducerBatch>, keys: seq<string>, k: string)
    requires k in m && k !in keys && NoneTwice(keys) && forall j :: j in keys ==> j in m
    ensures NoneTwice(keys + [k]) && (forall j :: j in keys + [k] <==> j in keys || j == k)
    ensures BatchesOf(m, keys + [k]) == BatchesOf(m, keys) + [m[k]]
    ensures m - (set j | j in keys + [k]) == m - (set j | j in keys) - {k}
  {
    assert (keys + [k])[..|keys|] == keys;
  }

  // ------------------------------------------------------------------------ worker

  /** How the service answered a request; noRetry: with a status code that is not to be retried. */
  datatype Answer = Delivered | Refused(noRetry: bool)

  datatype Call = Success(callBack: nat) | Failure(callBack: nat)

  ghost function Calls(callBackList: seq<nat>, ok: bool): seq<Call> {
    if callBackList == [] then []
    else
      var last := callBackList[|callBackList| - 1];
      Calls(callBackList[..|callBackList| - 1], ok) + [if ok then Success(last) else Failure(last)]
  }

  /** Every callback of the list is called, in order, with the outcome. */
  lemma {:induction false} CallsEach(callBackList: seq<nat>, ok: bool, i: nat)
    requires i < |callBackList|
    ensures |Calls(callBackList, ok)| == |callBackList|
    ensures Calls(callBackList, ok)[i].callBack == callBackList[i] && (Calls(callBackList, ok)[i].Success? <==> ok)
  {
    if i < |callBackList| - 1 {
      CallsEach(callBackList[..|callBackList| - 1], ok, i);
    } else if i > 0 {
      CallsEach(callBackList[..|callBackList| - 1], ok, 0);
    }
  }

  lemma {:induction false} OneMoreCall(callBackList: seq<nat>, i: nat, ok: bool)
    requires i < |callBackList|
    ensures Calls(callBackList[..i + 1], ok)
         == Calls(callBackList[..i], ok) + [if ok then Success(callBackList[i]) else Failure(callBackList[i])]
  {
    assert callBackList[..i + 1][..i] == callBackList[..i];
  }

  lemma {:induction false} OneMoreError(c: Config, b: Batch, i: nat)
    ensures AddErrors(c, b, i + 1) == AddError(c, AddErrors(c, b, i))
    decreases i
  {
    if i > 0 { OneMoreError(c, AddError(c, b), i - 1); }
  }

  class IoWorker {
    const config: Config
    const retryQueue: RetryQueue

    constructor (c: Config, queue: RetryQueue)
      ensures config == c && retryQueue == queue
    {
      config, retryQueue := c, queue;
    }

    /**
     * `sendToServer`, from the answer on. pow is `int64(math.Pow(2, attemptCount-1))`, flag the retry queue's shutdown
     * flag.
     */
    method SendToServer(
      batch: ProducerBatch, answer: Answer, flag: bool, nowMs: int, pow: int) returns (calls: seq<Call>)
      requires retryQueue.Valid() && batch.attemptCount >= 0 && IsPower(pow, batch.attemptCount + 1)
      modifies batch, retryQueue
      ensures retryQueue.Valid()
      ensures answer.Delivered? ==>
                && batch.Value() == AddSuccess(config, old(batch.Value()))
                && calls == Calls(old(batch.callBackList), true)
                && retryQueue.batch == old(retryQueue.batch)
      ensures answer.Refused? ==> batch.Value() == OnError(config, old(batch.Value()), flag, answer.noRetry).b
      ensures answer.Refused? ==>
                var again := !flag && !answer.noRetry && old(batch.attemptCount) < config.retries;
                && calls == (if again then [] else Calls(old(batch.callBackList), false))
                && (again ==> batch.nextRetryMs == nowMs + RetryWait(config, pow))
                && (again ==>
                      multiset(retryQueue.batch)
                      == multiset(old(retryQueue.batch)) + multiset{Waiting(batch.id, batch.nextRetryMs)})
                && (!again ==> retryQueue.batch == old(retryQueue.batch))
    {
      calls := [];
      match answer {
        case Delivered =>
          if batch.attemptCount < config.maxReservedAttempts {
            batch.attemptList := batch.attemptList + [true];
          }
          batch.successful := true;
          calls := CallAll(batch.callBackList, true);
        case Refused(noRetry) =>
          if flag {
            calls := FailAll(batch);
            return;
          }
          if noRetry {
            batch.AddErrorMessageToBatchAttempt(config);
            calls := CallAll(batch.callBackList, false);
            return;
          }
          if batch.attemptCount < config.retries {
            batch.AddErrorMessageToBatchAttempt(config);
            var retryWaitTime := Wrap64(config.baseRetryBackoffMs * pow);
            if retryWaitTime < config.maxRetryBackoffMs {
              batch.nextRetryMs := nowMs + retryWaitTime;
            } else {
              batch.nextRetryMs := nowMs + config.maxRetryBackoffMs;
            }
            retryQueue.SendToRetryQueue(Some(Waiting(batch.id, batch.nextRetryMs)));
          } else {
            calls := CallAll(batch.callBackList, false);
          }
      }
    }

    /** The loop over the callbacks of a finished batch. */
    method CallAll(callBackList: seq<nat>, ok: bool) returns (calls: seq<Call>)
      ensures calls == Calls(callBackList, ok)
    {
      calls := [];
      var i := 0;
      while i < |callBackList|
        invariant 0 <= i <= |callBackList| && calls == Calls(callBackList[..i], ok)
      {
        OneMoreCall(callBackList, i, ok);
        calls := calls + [if ok then Success(callBackList[i]) else Failure(callBackList[i])];
        i := i + 1;
      }
      assert callBackList[..i] == callBackList;
    }

    /** The loop of the shutdown path, which records an attempt for every callback. */
    method FailAll(batch: ProducerBatch) returns (calls: seq<Call>)
      modifies batch
      ensures batch.Value() == AddErrors(config, old(batch.Value()), |old(batch.callBackList)|)
      ensures calls == Calls(old(batch.callBackList), false) && batch.nextRetryMs == old(batch.nextRetryMs)
    {
      calls := [];
      var i := 0;
      while i < |batch.callBackList|
        invariant 0 <= i <= |batch.callBackList| && batch.callBackList == old(batch.callBackList)
        invariant batch.Value() == AddErrors(config, old(batch.Value()), i)
        invariant calls == Calls(batch.callBackList[..i], false) && batch.nextRetryMs == old(batch.nextRetryMs)
      {
        OneMoreError(config, old(batch.Value()), i);
        batch.AddErrorMessageToBatchAttempt(config);
        OneMoreCall(batch.callBackList, i, false);
        calls := calls + [Failure(batch.callBackList[i])];
        i := i + 1;
      }
      assert batch.callBackList[..i] == batch.callBackList;
    }
  }
}
