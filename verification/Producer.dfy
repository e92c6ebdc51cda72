/** The producer's rules, one function per decision: batching, retrying, backing off, naming a batch. */
module ProducerRules {
  import opened Wire

  datatype Config = Config(
    maxBatchSize: int, maxBatchCount: int, maxIoWorkerCount: int, lingerMs: int,
    retries: int, maxReservedAttempts: int, baseRetryBackoffMs: int, maxRetryBackoffMs: int, totalSizeLnBytes: int)

  const FIVE_MIB := 5242880

  /** What `validateProducerConfig` guarantees of a producer's configuration. */
  predicate Validated(c: Config) {
    && 1 <= c.maxBatchSize <= FIVE_MIB && 1 <= c.maxBatchCount <= 40960 && 1 <= c.maxIoWorkerCount
    && c.lingerMs >= 100 && 1 <= c.maxReservedAttempts && 1 <= c.baseRetryBackoffMs && 1 <= c.totalSizeLnBytes
  }

  // ------------------------------------------------------------------ destinations

  datatype Destination = Destination(
    project: string, logstore: string, topic: string, shardHash: string, source: string)

  /** The accumulator's key for a destination. */
  function GetKeyString(d: Destination): string {
    d.project + "|" + d.logstore + "|" + d.topic + "|" + d.shardHash + "|" + d.source
  }

  /** No delimiter in the fields that another field follows. */
  predicate Plain(d: Destination) {
    '|' !in d.project && '|' !in d.logstore && '|' !in d.topic && '|' !in d.shardHash
  }

  /** Where the first delimiter is. */
  function Cut(s: string): nat {
    if s == "" || s[0] == '|' then 0 else 1 + Cut(s[1..])
  }

  lemma {:induction false} CutAt(a: string, x: string)
    requires '|' !in a
    ensures Cut(a + "|" + x) == |a|
  {
    if a != "" {
      CutAt(a[1..], x);
      assert (a + "|" + x)[1..] == a[1..] + "|" + x;
    }
  }

  lemma {:induction false} SplitAtDelimiter(a: string, b: string, x: string, y: string)
    requires '|' !in a && '|' !in b && a + "|" + x == b + "|" + y
    ensures a == b && x == y
  {
    var s := a + "|" + x;
    CutAt(a, x);
    CutAt(b, y);
    assert a == s[..|a|] && b == s[..|b|];
    assert x == s[|a| + 1..] && y == s[|b| + 1..];
  }

  lemma {:induction false} KeyShape(d: Destination)
    ensures GetKeyString(d)
         == d.project + "|" + (d.logstore + "|" + (d.topic + "|" + (d.shardHash + "|" + d.source)))
  {
  }

  /** Destinations without "|" in front of a delimiter have keys of their own. */
  lemma {:induction false} KeyInjective(d: Destination, e: Destination)
    requires Plain(d) && Plain(e) && GetKeyString(d) == GetKeyString(e)
    ensures d == e
  {
    KeyShape(d);
    KeyShape(e);
    var d3, e3 := d.shardHash + "|" + d.source, e.shardHash + "|" + e.source;
    var d2, e2 := d.topic + "|" + d3, e.topic + "|" + e3;
    SplitAtDelimiter(d.project, e.project, d.logstore + "|" + d2, e.logstore + "|" + e2);
    SplitAtDelimiter(d.logstore, e.logstore, d2, e2);
    SplitAtDelimiter(d.topic, e.topic, d3, e3);
    SplitAtDelimiter(d.shardHash, e.shardHash, d.source, e.source);
  }

  /** No delimiter in any field. */
  predicate Undelimited(d: Destination) {
    Plain(d) && '|' !in d.source
  }

  function Delimiters(s: string): nat {
    multiset(s)['|']
  }

  lemma {:induction false} DelimitersOfKey(d: Destination)
    ensures Delimiters(GetKeyString(d))
         == 4 + Delimiters(d.project) + Delimiters(d.logstore) + Delimiters(d.topic) + Delimiters(d.shardHash)
            + Delimiters(d.source)
  {
    assert multiset("|")['|'] == 1;
  }

  lemma {:induction false} NoDelimiters(s: string)
    ensures Delimiters(s) == 0 <==> '|' !in s
  {
    assert '|' in s <==> '|' in multiset(s);
  }

  /** Two destinations without delimiters in one key: the other can have none either. */
  lemma {:induction false} KeyIsItsOwn(d: Destination, e: Destination)
    requires Undelimited(d) && GetKeyString(d) == GetKeyString(e)
    ensures d == e
  {
    hide GetKeyString, Delimiters;
    DelimitersOfKey(d);
    DelimitersOfKey(e);
    NoDelimiters(d.project); NoDelimiters(d.logstore); NoDelimiters(d.topic); NoDelimiters(d.shardHash);
    NoDelimiters(d.source);
    NoDelimiters(e.project); NoDelimiters(e.logstore); NoDelimiters(e.topic); NoDelimiters(e.shardHash);
    NoDelimiters(e.source);
    KeyInjective(d, e);
  }

  lemma {:induction false} AtDelimiter(s: string) returns (a: string, b: string)
    requires '|' in s
    ensures s == a + "|" + b && |a| < |s|
  {
    var i :| 0 <= i < |s| && s[i] == '|';
    a, b := s[..i], s[i + 1..];
  }

  /** A destination with a delimiter in a field: cut there instead of at another place, the key is another's too. */
  lemma {:induction false} AnotherWithThatKey(d: Destination) returns (e: Destination)
    requires !Undelimited(d)
    ensures e != d && GetKeyString(e) == GetKeyString(d)
  {
    if '|' in d.project {
      var a, b := AtDelimiter(d.project);
      e := Destination(a, b, d.logstore, d.topic, d.shardHash + "|" + d.source);
      assert GetKeyString(e) == GetKeyString(d);
    } else if '|' in d.logstore {
      var a, b := AtDelimiter(d.logstore);
      e := Destination(d.project, a, b, d.topic, d.shardHash + "|" + d.source);
      assert GetKeyString(e) == GetKeyString(d);
    } else if '|' in d.topic {
      var a, b := AtDelimiter(d.topic);
      e := Destination(d.project, d.logstore, a, b, d.shardHash + "|" + d.source);
      assert GetKeyString(e) == GetKeyString(d);
    } else if '|' in d.shardHash {
      var a, b := AtDelimiter(d.shardHash);
      e := Destination(d.project, d.logstore, d.topic, a, b + "|" + d.source);
      assert GetKeyString(e) == GetKeyString(d);
    } else {
      var a, b := AtDelimiter(d.source);
      e := Destination(d.project + "|" + d.logstore, d.topic, d.shardHash, a, b);
      assert |e.project| > |d.project|;
      assert GetKeyString(e) == GetKeyString(d);
    }
  }

  /** A destination shares its key with no other exactly if none of its fields holds the delimiter. */
  lemma {:induction false} KeyCollision(d: Destination)
    ensures (exists e :: e != d && GetKeyString(e) == GetKeyString(d)) <==> !Undelimited(d)
  {
    hide GetKeyString, Undelimited;
    if !Undelimited(d) {
      var e := AnotherWithThatKey(d);
    } else {
      forall e | GetKeyString(e) == GetKeyString(d) ensures e == d { KeyIsItsOwn(d, e); }
    }
  }

  // --------------------------------------------------------------------- batches

  /** A log, and the bytes GetLogSizeCalculate charges for it. */
  datatype LogItem = LogItem(id: nat, size: nat)

  /**
   * One call of a Send function: a log, or a list of them. groupSize is what the encoded size of a new
   * log group holding them would be.
   */
  datatype Submission = Submission(logs: seq<LogItem>, groupSize: nat, callback: Option<nat>)

  function LogBytes(logs: seq<LogItem>): nat {
    if logs == [] then 0 else logs[0].size + LogBytes(logs[1..])
  }

  /** Each log is charged its own bytes, once, whatever lists the logs come in. */
  lemma {:induction false} BytesAddUp(a: seq<LogItem>, b: seq<LogItem>, l: LogItem)
    ensures LogBytes(a + b) == LogBytes(a) + LogBytes(b) && LogBytes([l]) == l.size
  {
    if a == [] {
      assert a + b == b;
    } else {
      BytesAddUp(a[1..], b, l);
      assert (a + b)[1..] == a[1..] + b;
    }
  }

  /**
   * A ProducerBatch. The last three fields are history: whose submissions it holds, the bytes charged
   * for the logs it really holds, and whether they all came one log at a time.
   */
  datatype Batch = Batch(
    destination: Destination, logs: seq<LogItem>, callBackList: seq<nat>, totalDataSize: int,
    attemptCount: int, attemptList: seq<bool>, successful: bool,
    from: seq<Destination>, held: int, singly: bool)

  function CallBacks(s: Submission): seq<nat> {
    if s.callback.Some? then [s.callback.value] else []
  }

  /** `initProducerBatch` */
  function NewBatch(d: Destination, s: Submission): Batch {
    Batch(d, s.logs, CallBacks(s), s.groupSize, 0, [], false, [d], s.groupSize, |s.logs| == 1)
  }

  function Appended(b: Batch, d: Destination, s: Submission): Batch {
    b.(logs := b.logs + s.logs, callBackList := b.callBackList + CallBacks(s),
       from := b.from + [d], held := b.held + LogBytes(s.logs), singly := b.singly && |s.logs| == 1)
  }

  /** What becomes of a key's open batch: still open, or sent off to the task queue, or both a new one and the old. */
  datatype Absorbed = Absorbed(open: Option<Batch>, sent: Option<Batch>)

  /** The locked part of `addLogToProducerBatch`. */
  function Absorb(c: Config, open: Option<Batch>, d: Destination, s: Submission): Absorbed {
    match open
    case None => Absorbed(Some(NewBatch(d, s)), None)
    case Some(was) =>
      var b := was.(totalDataSize := was.totalDataSize + LogBytes(s.logs));
      var totalDataCount := |b.logs| + 1;
      if b.totalDataSize > c.maxBatchSize && b.totalDataSize < FIVE_MIB && totalDataCount <= c.maxBatchCount then
        Absorbed(None, Some(Appended(b, d, s)))
      else if b.totalDataSize <= c.maxBatchSize && totalDataCount <= c.maxBatchCount then
        Absorbed(Some(Appended(b, d, s)), None)
      else
        Absorbed(Some(NewBatch(d, s)), Some(b))
  }

  /** What an open batch would be charged with the submission's logs in it. */
  function Charge(b: Batch, s: Submission): int {
    b.totalDataSize + LogBytes(s.logs)
  }

  /** A batch begun with a submission, charged the encoded size of its log group. */
  predicate BegunWith(b: Batch, d: Destination, s: Submission) {
    && b.destination == d && b.logs == s.logs && b.totalDataSize == s.groupSize
    && multiset(b.callBackList) == (if s.callback.Some? then multiset{s.callback.value} else multiset{})
  }

  /** The batch with the submission's logs behind its own. */
  predicate JoinedBy(b: Batch, was: Batch, s: Submission) {
    && b.destination == was.destination && b.logs == was.logs + s.logs && b.totalDataSize == Charge(was, s)
    && multiset(b.callBackList)
    == multiset(was.callBackList) + (if s.callback.Some? then multiset{s.callback.value} else multiset{})
  }

  /**
   * Up to MaxBatchSize and MaxBatchCount a batch takes the logs and stays open; over MaxBatchSize, but below 5 MiB, it
   * takes them and is sent off; else it is sent off as it is, and a new one begun with them.
   */
  lemma {:induction false} AbsorbExactly(c: Config, was: Batch, d: Destination, s: Submission)
    ensures var r, charge, roomy := Absorb(c, Some(was), d, s), Charge(was, s), |was.logs| < c.maxBatchCount;
      && (r.sent.None? <==> charge <= c.maxBatchSize && roomy)
      && (r.open.None? <==> c.maxBatchSize < charge < FIVE_MIB && roomy)
      && (r.sent.None? ==> r.open.Some? && JoinedBy(r.open.value, was, s))
      && (r.open.None? ==> r.sent.Some? && JoinedBy(r.sent.value, was, s))
      && (r.open.Some? && r.sent.Some? ==>
            && BegunWith(r.open.value, d, s)
            && r.sent.value.logs == was.logs && r.sent.value.callBackList == was.callBackList)
    ensures var r := Absorb(c, None, d, s);
            r.sent.None? && r.open.Some? && BegunWith(r.open.value, d, s)
  {
    CallBacksOf(s);
    hide CallBacks;
    assert multiset(was.callBackList + CallBacks(s)) == multiset(was.callBackList) + multiset(CallBacks(s));
  }

  lemma {:induction false} CallBacksOf(s: Submission)
    ensures multiset(CallBacks(s)) == if s.callback.Some? then multiset{s.callback.value} else multiset{}
  {
  }

  /** Size and count limits every batch keeps; they hold when the configuration is a validated one. */
  predicate Capped(c: Config, b: Batch) {
    && |b.from| >= 1
    && (|b.from| >= 2 ==> b.held <= FIVE_MIB)
    && (b.singly ==> |b.logs| <= c.maxBatchCount)
  }

  /**
   * While a batch is open, exactly the logs it holds have been charged to it, and if more than one submission is in it
   * they do not exceed MaxBatchSize.
   */
  predicate OpenCapped(c: Config, b: Batch) {
    && Capped(c, b) && b.totalDataSize == b.held
    && (|b.from| >= 2 ==> b.totalDataSize <= c.maxBatchSize)
  }

  lemma {:induction false} AbsorbCapped(c: Config, open: Option<Batch>, d: Destination, s: Submission)
    requires Validated(c) && (open.Some? ==> OpenCapped(c, open.value))
    ensures Absorb(c, open, d, s).open.Some? ==> OpenCapped(c, Absorb(c, open, d, s).open.value)
    ensures Absorb(c, open, d, s).sent.Some? ==> Capped(c, Absorb(c, open, d, s).sent.value)
  {
  }

  // --------------------------------------------------------------------- attempts

  /** `addErrorMessageToBatchAttempt` */
  function AddError(c: Config, b: Batch): Batch {
    b.(attemptList := if b.attemptCount < c.maxReservedAttempts then b.attemptList + [false] else b.attemptList,
       successful := false, attemptCount := b.attemptCount + 1)
  }

  function AddErrors(c: Config, b: Batch, times: nat): (r: Batch)
    ensures r.callBackList == b.callBackList && r.logs == b.logs && r.attemptCount == b.attemptCount + times
    ensures times > 0 ==> !r.successful
    ensures r == b.(attemptList := r.attemptList, successful := r.successful, attemptCount := r.attemptCount)
    decreases times
  {
    if times == 0 then b else AddErrors(c, AddError(c, b), times - 1)
  }

  function AddSuccess(c: Config, b: Batch): Batch {
    b.(attemptList := if b.attemptCount < c.maxReservedAttempts then b.attemptList + [true] else b.attemptList,
       successful := true)
  }

  datatype Verdict = Retry(b: Batch) | Fail(b: Batch)

  /** The error branches of `sendToServer`; flag: what the load of retryQueueShutDownFlag returned. */
  function OnError(c: Config, b: Batch, flag: bool, noRetry: bool): Verdict {
    if flag then Fail(AddErrors(c, b, |b.callBackList|))
    else if noRetry then Fail(AddError(c, b))
    else if b.attemptCount < c.retries then Retry(AddError(c, b))
    else Fail(b)
  }

  /**
   * A refused batch is tried again exactly if the retry queue is open, the answer allows it and retries are left.
   * One failed attempt is counted; none if it is given up for want of retries, one per callback on shutdown.
   */
  lemma {:induction false} RetryExactly(c: Config, b: Batch, flag: bool, noRetry: bool)
    ensures var v := OnError(c, b, flag, noRetry);
      && (v.Retry? <==> !flag && !noRetry && b.attemptCount < c.retries)
      && v.b.attemptCount == b.attemptCount + (if flag then |b.callBackList|
                                               else if noRetry || b.attemptCount < c.retries then 1 else 0)
      && v.b.logs == b.logs && v.b.callBackList == b.callBackList && v.b.destination == b.destination
      && (!b.successful ==> !v.b.successful)
  {
    AddErrorsFails(c, b, |b.callBackList|);
  }

  lemma {:induction false} AddErrorsFails(c: Config, b: Batch, times: nat)
    ensures !b.successful ==> !AddErrors(c, b, times).successful
  {
  }

  function Failures(n: nat): seq<bool> {
    seq(n, _ => false)
  }

  /** How many of n attempts are kept. */
  function Kept(c: Config, n: int): (k: nat)
    ensures 0 <= n <= c.maxReservedAttempts ==> k == n
    ensures 0 <= c.maxReservedAttempts <= n ==> k == c.maxReservedAttempts
  {
    if n < 0 || c.maxReservedAttempts < 0 then 0
    else if n < c.maxReservedAttempts then n else c.maxReservedAttempts
  }

  /** Failed attempts are reserved up to the limit: the first ones, not the latest. */
  predicate Reserved(c: Config, b: Batch) {
    b.attemptList == Failures(Kept(c, b.attemptCount))
  }

  /** What is kept in the end: the failed attempts and, if the batch was delivered within the limit, that one too. */
  predicate Recorded(c: Config, b: Batch) {
    b.attemptList == Failures(Kept(c, b.attemptCount))
                     + (if b.successful && b.attemptCount < c.maxReservedAttempts then [true] else [])
  }

  lemma {:induction false} ErrorsReserved(c: Config, b: Batch, times: nat)
    requires Reserved(c, b) && 0 <= b.attemptCount && 0 <= c.maxReservedAttempts
    ensures Reserved(c, AddErrors(c, b, times))
    decreases times
  {
    if times > 0 {
      ErrorReserved(c, b);
      ErrorsReserved(c, AddError(c, b), times - 1);
    }
  }

  lemma {:induction false} ErrorReserved(c: Config, b: Batch)
    requires Reserved(c, b) && 0 <= b.attemptCount && 0 <= c.maxReservedAttempts
    ensures Reserved(c, AddError(c, b))
  {
    var k := Kept(c, b.attemptCount);
    assert Failures(k) + [false] == Failures(k + 1);
  }

  lemma {:induction false} SuccessRecorded(c: Config, b: Batch)
    requires Reserved(c, b) && 0 <= b.attemptCount && 0 <= c.maxReservedAttempts
    ensures Recorded(c, AddSuccess(c, b))
    ensures !b.successful ==> Recorded(c, b)
  {
    assert Failures(Kept(c, b.attemptCount)) + [] == Failures(Kept(c, b.attemptCount));
  }

  // ---------------------------------------------------------------------- backoff

  /** int64 arithmetic wraps around. */
  function Wrap64(x: int): (r: int)
    ensures -I64 <= r < I64
  {
    var t := x % U64;
    if t < I64 then t else t - U64
  }

  /**
   * pow is a possible value of `int64(math.Pow(2, n-1))`: exact if it fits, else whatever the platform's
   * conversion makes of it.
   */
  ghost predicate IsPower(pow: int, n: nat) {
    n >= 1 && -I64 <= pow < I64 && (Pow2(n - 1) < I64 ==> pow == Pow2(n - 1))
  }

  /** How long a batch waits for its next attempt. */
  function RetryWait(c: Config, pow: int): int {
    var retryWaitTime := Wrap64(c.baseRetryBackoffMs * pow);
    if retryWaitTime < c.maxRetryBackoffMs then retryWaitTime else c.maxRetryBackoffMs
  }

  function Min(a: int, b: int): int {
    if a < b then a else b
  }

  /**
   * The n-th retry waits base * 2^(n-1), at most the maximum, as long as that product fits an int64;
   * from then on exactly when what the product wraps to reaches the maximum.
   */
  lemma {:induction false} BackoffExact(c: Config, n: nat, pow: int)
    requires Validated(c) && c.maxRetryBackoffMs < I64 && IsPower(pow, n)
    ensures RetryWait(c, pow) == Min(c.baseRetryBackoffMs * Pow2(n - 1), c.maxRetryBackoffMs)
       <==> c.baseRetryBackoffMs * Pow2(n - 1) < I64 || Wrap64(c.baseRetryBackoffMs * pow) >= c.maxRetryBackoffMs
  {
    var a, q := c.baseRetryBackoffMs, Pow2(n - 1);
    hide Pow2, Wrap64;
    Scales(a, q);
    if a * q < I64 { WrapSmall(a * q); }
  }

  lemma {:induction false} Scales(a: int, q: int)
    requires a >= 1 && q >= 1
    ensures a * q >= q
  {
    assert a * q == q + (a - 1) * q;
  }

  lemma {:induction false} WrapSmall(x: int)
    requires 0 <= x < I64
    ensures Wrap64(x) == x
  {
  }

  lemma {:induction false} ScalesUp(a: int, p: int, q: int)
    requires 0 <= a && p <= q
    ensures a * p <= a * q
  {
    assert a * q == a * p + a * (q - p);
  }

  lemma {:induction false} Pow2Of57()
    ensures Pow2(57) == 144115188075855872
  {
    Pow2Of32();
    assert Pow2(25) == 0x200_0000;
    Pow2Add(32, 25);
  }

  lemma {:induction false} BackoffNondecreasing(c: Config, m: nat, n: nat, pm: int, pn: int)
    requires Validated(c) && m <= n && IsPower(pm, m) && IsPower(pn, n) && c.baseRetryBackoffMs * Pow2(n - 1) < I64
    ensures RetryWait(c, pm) <= RetryWait(c, pn)
    ensures c.maxRetryBackoffMs >= 0 ==> RetryWait(c, pm) >= 0
  {
    Pow2Monotone(m - 1, n - 1);
    var a, p, q := c.baseRetryBackoffMs, Pow2(m - 1), Pow2(n - 1);
    hide Pow2, Wrap64;
    Scales(a, q);
    Scales(a, p);
    ScalesUp(a, p, q);
    WrapSmall(a * p);
    WrapSmall(a * q);
  }

  /** The 58th retry from the default 100 ms does not wait: the product has wrapped to a negative number. */
  lemma {:induction false} BackoffWraps(c: Config, pow: int)
    requires c.baseRetryBackoffMs == 100 && IsPower(pow, 58)
    ensures RetryWait(c, pow) < 0
  {
    hide Pow2;
    Pow2Of57();
    assert 100 * pow == 14411518807585587200;
  }
}
