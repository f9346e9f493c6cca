/**
 * The health-data upload: heart rate (all samples of the last seven days, older ones thinned to
 * the first sample of each hour, sent in batches of 100), and steps, VO2 max and workouts, each
 * sent in one all-or-nothing request. Times are milliseconds since the epoch, the calendar of a
 * time is a parameter, and the outcome of each request is an input.
 */
module HealthSync {
  import opened Wrappers
  import opened JsText

  const DayMs := 24 * 60 * 60 * 1000
  const WeekMs := 7 * DayMs
  const BatchSize := 100

  /** What one sync reports. */
  datatype SyncResult = SyncResult(success: bool, synced: nat, errors: nat, message: Option<string>)

  /** The answer of a HealthKit read: the items, or the message of the error it threw. */
  datatype Fetched<T> = Fetched(items: seq<T>) | FetchFailed(message: string)

  /** The result of the catch branch of every sync. */
  function FailedSync(message: string): (r: SyncResult)
    ensures !r.success && r.synced == 0 && r.errors == 0
  {
    SyncResult(false, 0, 0, Some(message))
  }

  /** The result when there is nothing to send. */
  function NothingToSync(message: string): (r: SyncResult)
    ensures r.success && r.synced == 0 && r.errors == 0
  {
    SyncResult(true, 0, 0, Some(message))
  }

  /** A sync reports success only with no errors; every result below has this shape. */
  predicate Consistent(r: SyncResult) {
    r.success ==> r.errors == 0
  }

  // ---------------------------------------------------------------- heart rate

  /**
   * A HealthKit heart-rate sample: its id (possibly empty), its start date as given and as a
   * time, its value and how the value prints. Values are whole numbers, so Math.round keeps them.
   */
  datatype HeartRateSample = HeartRateSample(id: string, startDate: string, time: int, value: int, valueText: string)

  /** The upload record of one sample; the context is always "unknown". */
  datatype HeartRateRecord = HeartRateRecord(bpm: int, capturedAt: int, context: string, sourceRecordId: string)

  function HeartRateRecordOf(s: HeartRateSample): (r: HeartRateRecord)
    ensures r.capturedAt == s.time && r.bpm == s.value && r.context == "unknown"
    ensures s.id != "" ==> r.sourceRecordId == s.id
    ensures s.id == "" ==> r.sourceRecordId == "hr_" + s.startDate + "_" + s.valueText
  {
    HeartRateRecord(s.value, s.time, "unknown", if s.id != "" then s.id else "hr_" + s.startDate + "_" + s.valueText)
  }

  function RecordsOf(samples: seq<HeartRateSample>): (rs: seq<HeartRateRecord>)
    ensures |rs| == |samples|
    ensures forall i :: 0 <= i < |samples| ==> rs[i] == HeartRateRecordOf(samples[i])
  {
    seq(|samples|, i requires 0 <= i < |samples| => HeartRateRecordOf(samples[i]))
  }

  /** The records captured at or after the cut-off, in order. */
  function Recent(rs: seq<HeartRateRecord>, cutoff: int): seq<HeartRateRecord>
    decreases |rs|
  {
    if rs == [] then []
    else Recent(rs[..|rs| - 1], cutoff) + (if rs[|rs| - 1].capturedAt >= cutoff then [rs[|rs| - 1]] else [])
  }

  /** The records captured before the cut-off, in order. */
  function Older(rs: seq<HeartRateRecord>, cutoff: int): seq<HeartRateRecord>
    decreases |rs|
  {
    if rs == [] then []
    else Older(rs[..|rs| - 1], cutoff) + (if rs[|rs| - 1].capturedAt < cutoff then [rs[|rs| - 1]] else [])
  }

  /** The recent group holds exactly the records at or after the cut-off. */
  lemma {:induction false} RecentMembers(rs: seq<HeartRateRecord>, cutoff: int)
    ensures forall x :: x in Recent(rs, cutoff) <==> x in rs && x.capturedAt >= cutoff
    decreases |rs|
  {
    if rs != [] {
      var init := rs[..|rs| - 1];
      RecentMembers(init, cutoff);
      assert rs == init + [rs[|rs| - 1]];
    }
  }

  /** The older group holds exactly the records before the cut-off. */
  lemma {:induction false} OlderMembers(rs: seq<HeartRateRecord>, cutoff: int)
    ensures forall x :: x in Older(rs, cutoff) <==> x in rs && x.capturedAt < cutoff
    decreases |rs|
  {
    if rs != [] {
      var init := rs[..|rs| - 1];
      OlderMembers(init, cutoff);
      assert rs == init + [rs[|rs| - 1]];
    }
  }

  /** Together the two groups hold every record once. */
  lemma {:induction false} GroupsCoverAll(rs: seq<HeartRateRecord>, cutoff: int)
    ensures multiset(Recent(rs, cutoff)) + multiset(Older(rs, cutoff)) == multiset(rs)
    decreases |rs|
  {
    if rs != [] {
      var init := rs[..|rs| - 1];
      var x := rs[|rs| - 1];
      GroupsCoverAll(init, cutoff);
      assert rs == init + [x];
      assert multiset(rs) == multiset(init) + multiset{x};
    }
  }

  /**
   * Every record lands in exactly one of the two groups: the recent ones are those at or after
   * the cut-off, the older ones those before it, and together they are all the records.
   */
  lemma PartitionIsExact(rs: seq<HeartRateRecord>, cutoff: int)
    ensures multiset(Recent(rs, cutoff)) + multiset(Older(rs, cutoff)) == multiset(rs)
    ensures |Recent(rs, cutoff)| + |Older(rs, cutoff)| == |rs|
    ensures forall x :: x in Recent(rs, cutoff) <==> x in rs && x.capturedAt >= cutoff
    ensures forall x :: x in Older(rs, cutoff) <==> x in rs && x.capturedAt < cutoff
  {
    GroupsCoverAll(rs, cutoff);
    assert |multiset(Recent(rs, cutoff)) + multiset(Older(rs, cutoff))| == |multiset(rs)|;
    RecentMembers(rs, cutoff);
    OlderMembers(rs, cutoff);
  }

  /** The hour keys of a list of records. */
  function HourKeys(rs: seq<HeartRateRecord>, hourKey: int -> string): set<string> {
    set x | x in rs :: hourKey(x.capturedAt)
  }

  /** No two records share an hour key. */
  predicate DistinctHours(rs: seq<HeartRateRecord>, hourKey: int -> string) {
    forall i, j :: 0 <= i < j < |rs| ==> hourKey(rs[i].capturedAt) != hourKey(rs[j].capturedAt)
  }

  /**
   * The hourly buckets read back in insertion order: the first record of each hour, in the order
   * the hours first appear. The keys are not integer-like, so the object keeps insertion order.
   */
  function FirstPerHour(rs: seq<HeartRateRecord>, hourKey: int -> string): seq<HeartRateRecord>
    decreases |rs|
  {
    if rs == [] then []
    else
      var kept := FirstPerHour(rs[..|rs| - 1], hourKey);
      var x := rs[|rs| - 1];
      if hourKey(x.capturedAt) in HourKeys(kept, hourKey) then kept else kept + [x]
  }

  /** The last step of the thinning: the record is appended exactly when its hour is new. */
  lemma FirstPerHourStep(rs: seq<HeartRateRecord>, hourKey: int -> string)
    requires rs != []
    ensures var init := rs[..|rs| - 1];
            var x := rs[|rs| - 1];
            rs == init + [x] &&
            HourKeys(rs, hourKey) == HourKeys(init, hourKey) + {hourKey(x.capturedAt)} &&
            FirstPerHour(rs, hourKey) ==
              (if hourKey(x.capturedAt) in HourKeys(FirstPerHour(init, hourKey), hourKey)
               then FirstPerHour(init, hourKey) else FirstPerHour(init, hourKey) + [x])
  {
    var init := rs[..|rs| - 1];
    assert rs == init + [rs[|rs| - 1]];
  }

  /**
   * The thinning keeps one record per hour and every hour: its hours are those of the input, no
   * two of its records share an hour, and it is no longer than the input.
   */
  lemma {:induction false} FirstPerHourKeys(rs: seq<HeartRateRecord>, hourKey: int -> string)
    ensures HourKeys(FirstPerHour(rs, hourKey), hourKey) == HourKeys(rs, hourKey)
    ensures DistinctHours(FirstPerHour(rs, hourKey), hourKey)
    ensures |FirstPerHour(rs, hourKey)| <= |rs|
    decreases |rs|
  {
    if rs != [] {
      var init := rs[..|rs| - 1];
      var x := rs[|rs| - 1];
      var kept := FirstPerHour(init, hourKey);
      FirstPerHourKeys(init, hourKey);
      FirstPerHourStep(rs, hourKey);
      var r := FirstPerHour(rs, hourKey);
      if hourKey(x.capturedAt) !in HourKeys(kept, hourKey) {
        assert HourKeys(r, hourKey) == HourKeys(kept, hourKey) + {hourKey(x.capturedAt)};
        forall i, j | 0 <= i < j < |r| ensures hourKey(r[i].capturedAt) != hourKey(r[j].capturedAt) {
          assert r[i] == kept[i];
          if j == |kept| {
            assert r[i] in kept;
          } else {
            assert r[j] == kept[j];
          }
        }
      }
    }
  }

  /** A record whose hour has not occurred before it is kept. */
  lemma {:induction false} FirstPerHourKeepsFirsts(rs: seq<HeartRateRecord>, hourKey: int -> string)
    ensures forall i :: 0 <= i < |rs| && hourKey(rs[i].capturedAt) !in HourKeys(rs[..i], hourKey) ==>
              rs[i] in FirstPerHour(rs, hourKey)
    decreases |rs|
  {
    if rs != [] {
      var n := |rs| - 1;
      var init := rs[..n];
      FirstPerHourKeepsFirsts(init, hourKey);
      FirstPerHourKeys(init, hourKey);
      FirstPerHourStep(rs, hourKey);
      var r := FirstPerHour(rs, hourKey);
      forall i | 0 <= i < |rs| && hourKey(rs[i].capturedAt) !in HourKeys(rs[..i], hourKey)
        ensures rs[i] in r
      {
        if i < n {
          assert rs[..i] == init[..i];
          assert rs[i] == init[i];
        } else {
          assert rs[..i] == init;
        }
      }
    }
  }

  /** Every kept record is one whose hour has not occurred before it. */
  lemma {:induction false} FirstPerHourOnlyFirsts(rs: seq<HeartRateRecord>, hourKey: int -> string)
    ensures forall x :: x in FirstPerHour(rs, hourKey) ==>
              exists i :: 0 <= i < |rs| && rs[i] == x && hourKey(x.capturedAt) !in HourKeys(rs[..i], hourKey)
    decreases |rs|
  {
    if rs != [] {
      var n := |rs| - 1;
      var init := rs[..n];
      var kept := FirstPerHour(init, hourKey);
      FirstPerHourOnlyFirsts(init, hourKey);
      FirstPerHourKeys(init, hourKey);
      FirstPerHourStep(rs, hourKey);
      forall y | y in FirstPerHour(rs, hourKey)
        ensures exists i :: 0 <= i < |rs| && rs[i] == y && hourKey(y.capturedAt) !in HourKeys(rs[..i], hourKey)
      {
        if y in kept {
          var i :| 0 <= i < |init| && init[i] == y && hourKey(y.capturedAt) !in HourKeys(init[..i], hourKey);
          assert rs[i] == y && rs[..i] == init[..i];
        } else {
          var x := rs[n];
          assert FirstPerHour(rs, hourKey) == kept + [x] && y == x;
          assert hourKey(x.capturedAt) !in HourKeys(kept, hourKey);
          assert rs[..n] == init;
          assert 0 <= n < |rs| && rs[n] == y && hourKey(y.capturedAt) !in HourKeys(rs[..n], hourKey);
        }
      }
    }
  }

  /** The number of batches the loop sends: ceil(n / 100). */
  function BatchCount(n: nat): nat {
    (n + BatchSize - 1) / BatchSize
  }

  function Min(a: int, b: int): int {
    if a < b then a else b
  }

  /** `payload.slice(100 * b, 100 * b + 100)` */
  function BatchAt<T>(p: seq<T>, b: nat): (batch: seq<T>)
    requires b < BatchCount(|p|)
    ensures 1 <= |batch| <= BatchSize
  {
    p[BatchSize * b .. Min(BatchSize * b + BatchSize, |p|)]
  }

  /** The first k batches, concatenated. */
  function BatchPrefix<T>(p: seq<T>, k: nat): seq<T>
    requires k <= BatchCount(|p|)
  {
    if k == 0 then [] else BatchPrefix(p, k - 1) + BatchAt(p, k - 1)
  }

  /** The batches are consecutive slices: together they are the payload, each element once, in order. */
  lemma {:induction false} BatchesCoverPayload<T>(p: seq<T>, k: nat)
    requires k <= BatchCount(|p|)
    ensures BatchPrefix(p, k) == p[..Min(BatchSize * k, |p|)]
    ensures k == BatchCount(|p|) ==> BatchPrefix(p, k) == p
  {
    if k > 0 {
      BatchesCoverPayload(p, k - 1);
      assert p[..Min(BatchSize * k, |p|)] == p[..BatchSize * (k - 1)] + BatchAt(p, k - 1);
    }
    if k == BatchCount(|p|) {
      assert Min(BatchSize * k, |p|) == |p|;
    }
  }

  /** The records counted as synced after the first k batches, given each batch's outcome. */
  function SyncedAfter<T>(p: seq<T>, ok: nat -> bool, k: nat): nat
    requires k <= BatchCount(|p|)
  {
    if k == 0 then 0 else SyncedAfter(p, ok, k - 1) + (if ok(k - 1) then |BatchAt(p, k - 1)| else 0)
  }

  /** The records counted as errors after the first k batches. */
  function ErrorsAfter<T>(p: seq<T>, ok: nat -> bool, k: nat): nat
    requires k <= BatchCount(|p|)
  {
    if k == 0 then 0 else ErrorsAfter(p, ok, k - 1) + (if ok(k - 1) then 0 else |BatchAt(p, k - 1)|)
  }

  /**
   * Each batch adds its whole size to exactly one counter, so the two counters always add up to
   * the records sent so far, and there are no errors exactly when every batch so far succeeded.
   */
  lemma {:induction false} CountersAddUp<T>(p: seq<T>, ok: nat -> bool, k: nat)
    requires k <= BatchCount(|p|)
    ensures SyncedAfter(p, ok, k) + ErrorsAfter(p, ok, k) == Min(BatchSize * k, |p|)
    ensures ErrorsAfter(p, ok, k) == 0 <==> forall b :: 0 <= b < k ==> ok(b)
  {
    if k > 0 {
      CountersAddUp(p, ok, k - 1);
      assert |BatchAt(p, k - 1)| == Min(BatchSize * k, |p|) - BatchSize * (k - 1);
    }
  }

  /** The outcome of the heart-rate sync, with the batches it posted in order. */
  datatype HeartRateUpload = HeartRateUpload(result: SyncResult, batches: seq<seq<HeartRateRecord>>)

  /**
   * The partition of the samples into recent and older records, as the forEach pushes them.
   */
  method Partition(samples: seq<HeartRateSample>, cutoff: int) returns (recent: seq<HeartRateRecord>, older: seq<HeartRateRecord>)
    ensures recent == Recent(RecordsOf(samples), cutoff) && older == Older(RecordsOf(samples), cutoff)
  {
    ghost var rs := RecordsOf(samples);
    recent, older := [], [];
    for i := 0 to |samples|
      invariant recent == Recent(rs[..i], cutoff) && older == Older(rs[..i], cutoff)
    {
      var payload := HeartRateRecordOf(samples[i]);
      assert rs[..i + 1][..i] == rs[..i];
      if payload.capturedAt >= cutoff {
        recent := recent + [payload];
      } else {
        older := older + [payload];
      }
    }
    assert rs[..|samples|] == rs;
  }

  /**
   * The thinning loop: a record is kept when its hour has no bucket yet. The buckets are kept
   * as a map together with the order their keys were added in.
   */
  method Downsample(older: seq<HeartRateRecord>, hourKey: int -> string) returns (kept: seq<HeartRateRecord>)
    ensures kept == FirstPerHour(older, hourKey)
  {
    var buckets: map<string, HeartRateRecord> := map[];
    kept := [];
    for i := 0 to |older|
      invariant kept == FirstPerHour(older[..i], hourKey)
      invariant buckets.Keys == HourKeys(kept, hourKey)
    {
      var key := hourKey(older[i].capturedAt);
      assert older[..i + 1][..i] == older[..i];
      if key !in buckets {
        buckets := buckets[key := older[i]];
        kept := kept + [older[i]];
      }
    }
    assert older[..|older|] == older;
  }

  /** The batch loop: `for (i = 0; i < n; i += 100)`, counting each batch to one side. */
  method SendBatches(payload: seq<HeartRateRecord>, ok: nat -> bool)
    returns (synced: nat, errors: nat, sent: seq<seq<HeartRateRecord>>)
    ensures synced == SyncedAfter(payload, ok, BatchCount(|payload|))
    ensures errors == ErrorsAfter(payload, ok, BatchCount(|payload|))
    ensures |sent| == BatchCount(|payload|) && forall b :: 0 <= b < |sent| ==> sent[b] == BatchAt(payload, b)
  {
    synced, errors, sent := 0, 0, [];
    var i := 0;
    while i < |payload|
      invariant i % BatchSize == 0 && i / BatchSize <= BatchCount(|payload|)
      invariant i > |payload| ==> i / BatchSize == BatchCount(|payload|)
      invariant i < |payload| ==> i / BatchSize < BatchCount(|payload|)
      invariant synced == SyncedAfter(payload, ok, i / BatchSize) && errors == ErrorsAfter(payload, ok, i / BatchSize)
      invariant |sent| == i / BatchSize && forall b :: 0 <= b < |sent| ==> sent[b] == BatchAt(payload, b)
      decreases |payload| - i
    {
      var b := i / BatchSize;
      var batch := payload[i .. Min(i + BatchSize, |payload|)];
      assert batch == BatchAt(payload, b);
      sent := sent + [batch];
      if ok(b) {
        synced := synced + |batch|;
      } else {
        errors := errors + |batch|;
      }
      i := i + BatchSize;
    }
    assert i / BatchSize == BatchCount(|payload|);
  }

  /**
   * syncHeartRate, given the samples read and each batch's outcome: all recent records in their
   * order, then the older ones thinned to one per hour, sent in batches of 100.
   */
  method SyncHeartRate(samples: Fetched<HeartRateSample>, now: int, hourKey: int -> string, ok: nat -> bool)
    returns (up: HeartRateUpload)
    ensures samples.FetchFailed? ==> up == HeartRateUpload(FailedSync(samples.message), [])
    ensures samples.Fetched? && samples.items == [] ==> up == HeartRateUpload(NothingToSync("No heart rate data to sync"), [])
    ensures samples.Fetched? && samples.items != [] ==>
              var rs := RecordsOf(samples.items);
              var payload := Recent(rs, now - WeekMs) + FirstPerHour(Older(rs, now - WeekMs), hourKey);
              up.result.synced == SyncedAfter(payload, ok, BatchCount(|payload|)) &&
              up.result.errors == ErrorsAfter(payload, ok, BatchCount(|payload|)) &&
              (up.result.success <==> up.result.errors == 0) &&
              |up.batches| == BatchCount(|payload|) &&
              forall b :: 0 <= b < |up.batches| ==> up.batches[b] == BatchAt(payload, b)
    ensures Consistent(up.result)
  {
    if samples.FetchFailed? {
      return HeartRateUpload(FailedSync(samples.message), []);
    }
    if samples.items == [] {
      return HeartRateUpload(NothingToSync("No heart rate data to sync"), []);
    }
    var recent, older := Partition(samples.items, now - WeekMs);
    var thinned := Downsample(older, hourKey);
    var payload := recent + thinned;
    var synced, errors, sent := SendBatches(payload, ok);
    var message := if errors > 0 then Some(NatToString(errors) + " samples failed") else None;
    up := HeartRateUpload(SyncResult(errors == 0, synced, errors, message), sent);
  }

  /**
   * The heart-rate upload sends every recent record and one per older hour: the counters add up
   * to the payload's length, which is at most the number of samples.
   */
  lemma HeartRatePayloadBounds(samples: seq<HeartRateSample>, now: int, hourKey: int -> string, ok: nat -> bool)
    ensures var rs := RecordsOf(samples);
            var payload := Recent(rs, now - WeekMs) + FirstPerHour(Older(rs, now - WeekMs), hourKey);
            SyncedAfter(payload, ok, BatchCount(|payload|)) + ErrorsAfter(payload, ok, BatchCount(|payload|)) == |payload| &&
            |payload| <= |samples|
  {
    var rs := RecordsOf(samples);
    var payload := Recent(rs, now - WeekMs) + FirstPerHour(Older(rs, now - WeekMs), hourKey);
    PartitionIsExact(rs, now - WeekMs);
    FirstPerHourKeys(Older(rs, now - WeekMs), hourKey);
    CountersAddUp(payload, ok, BatchCount(|payload|));
  }

  // ---------------------------------------------------------------- single-request uploads

  /** What a single-request sync reports and, when it sent one, the records it posted. */
  datatype Upload<T> = Upload(result: SyncResult, posted: Option<seq<T>>)

  /** The all-or-nothing answer of one request carrying n records. */
  function SinglePost(n: nat, ok: bool, responseError: Option<string>): (r: SyncResult)
    ensures ok ==> r.success && r.synced == n && r.errors == 0
    ensures !ok ==> !r.success && r.synced == 0 && r.errors == n
  {
    if ok then SyncResult(true, n, 0, None) else SyncResult(false, 0, n, responseError)
  }

  /** A calendar day in local time, with a 0-based month as getMonth gives it. */
  datatype LocalDate = LocalDate(year: int, month: int, day: int)

  datatype StepRecord = StepRecord(steps: int, startMinute: string, sourceRecordId: string)

  /** `Math.ceil((end - start) / day) + 1`, the number of days read. */
  function DayCount(startMs: int, endMs: int): int {
    -((startMs - endMs) / DayMs) + 1
  }

  /** The count is one more than the ceiling of the range in days. */
  lemma DayCountIsCeiling(startMs: int, endMs: int)
    ensures var c := DayCount(startMs, endMs) - 1;
            (c - 1) * DayMs < endMs - startMs <= c * DayMs
  {
    var q := (startMs - endMs) / DayMs;
    var r := (startMs - endMs) % DayMs;
    assert startMs - endMs == q * DayMs + r && 0 <= r < DayMs;
  }

  /** The start of each day read: the start date plus i days, for i below the count. */
  function DayStarts(startMs: int, days: int): (ts: seq<int>)
    ensures |ts| == if days < 0 then 0 else days
    ensures forall i :: 0 <= i < |ts| ==> ts[i] == startMs + i * DayMs
  {
    var n := if days < 0 then 0 else days;
    seq(n, i requires 0 <= i < n => startMs + i * DayMs)
  }

  /** `${year}-${MM}-${DD}` */
  function DateText(d: LocalDate): string {
    IntToString(d.year) + "-" + PadStart2(IntToString(d.month + 1)) + "-" + PadStart2(IntToString(d.day))
  }

  function StepRecordOf(date: LocalDate, steps: int): (r: StepRecord)
    ensures r.steps == steps
    ensures r.startMinute == DateText(date) + "T00:00:00.000Z" && r.sourceRecordId == "steps_" + DateText(date)
  {
    StepRecord(steps, DateText(date) + "T00:00:00.000Z", "steps_" + DateText(date))
  }

  /** The records of the days with steps, in day order. */
  function ActiveDays(ts: seq<int>, stepsOn: int -> int, localDate: int -> LocalDate): (rs: seq<StepRecord>)
    ensures |rs| <= |ts|
    ensures forall r :: r in rs ==> r.steps > 0
    decreases |ts|
  {
    if ts == [] then []
    else (if stepsOn(ts[0]) > 0 then [StepRecordOf(localDate(ts[0]), stepsOn(ts[0]))] else []) + ActiveDays(ts[1..], stepsOn, localDate)
  }

  /** A day's record is posted exactly when the day has steps. */
  lemma {:induction false} ActiveDaysContents(ts: seq<int>, stepsOn: int -> int, localDate: int -> LocalDate, t: int)
    requires t in ts && stepsOn(t) > 0
    ensures StepRecordOf(localDate(t), stepsOn(t)) in ActiveDays(ts, stepsOn, localDate)
    decreases |ts|
  {
    if ts[0] != t {
      ActiveDaysContents(ts[1..], stepsOn, localDate, t);
    }
  }

  /** Every posted record is the record of a day of the range. */
  lemma {:induction false} ActiveDaysOrigin(ts: seq<int>, stepsOn: int -> int, localDate: int -> LocalDate, r: StepRecord)
    requires r in ActiveDays(ts, stepsOn, localDate)
    ensures exists t :: t in ts && stepsOn(t) > 0 && r == StepRecordOf(localDate(t), stepsOn(t))
    decreases |ts|
  {
    if !(stepsOn(ts[0]) > 0 && r == StepRecordOf(localDate(ts[0]), stepsOn(ts[0]))) {
      ActiveDaysOrigin(ts[1..], stepsOn, localDate, r);
      var t :| t in ts[1..] && stepsOn(t) > 0 && r == StepRecordOf(localDate(t), stepsOn(t));
      assert t in ts;
    } else {
      var t := ts[0];
      assert t in ts && stepsOn(t) > 0 && r == StepRecordOf(localDate(t), stepsOn(t));
    }
  }

  /** Two-digit numbers print in at most two characters. */
  lemma ShortNumber(n: nat)
    requires n < 100
    ensures |NatToString(n)| <= 2
  {
    if n >= 10 {
      assert NatToString(n) == NatToString(n / 10) + [DigitChar(n % 10)];
    }
  }

  /** The month and the day of a real calendar day are zero-padded to exactly two characters. */
  lemma StepIdIsPadded(date: LocalDate)
    requires 0 <= date.month < 12 && 1 <= date.day <= 31
    ensures |PadStart2(IntToString(date.month + 1))| == 2 && |PadStart2(IntToString(date.day))| == 2
    ensures DateText(date) == IntToString(date.year) + "-" + PadStart2(IntToString(date.month + 1)) + "-" + PadStart2(IntToString(date.day))
  {
    ShortNumber(date.month + 1);
    ShortNumber(date.day);
  }

  /**
   * syncSteps: the steps of every day in the range are read, days without steps are dropped,
   * and the rest go in one request; with no active day nothing is sent.
   */
  function SyncSteps(startMs: int, endMs: int, stepsOn: int -> int, localDate: int -> LocalDate, readError: Option<string>,
                     ok: bool, responseError: Option<string>): (up: Upload<StepRecord>)
    ensures readError.Some? ==> up == Upload(FailedSync(readError.value), None)
    ensures readError.None? ==>
              var rs := ActiveDays(DayStarts(startMs, DayCount(startMs, endMs)), stepsOn, localDate);
              (rs == [] ==> up == Upload(NothingToSync("No steps data to sync"), None)) &&
              (rs != [] ==> up == Upload(SinglePost(|rs|, ok, responseError), Some(rs)))
    ensures Consistent(up.result)
  {
    if readError.Some? then Upload(FailedSync(readError.value), None)
    else
      var rs := ActiveDays(DayStarts(startMs, DayCount(startMs, endMs)), stepsOn, localDate);
      if rs == [] then Upload(NothingToSync("No steps data to sync"), None)
      else Upload(SinglePost(|rs|, ok, responseError), Some(rs))
  }

  datatype Vo2Sample = Vo2Sample(id: string, startDate: string, time: int, value: real, valueText: string)

  datatype Vo2Record = Vo2Record(mlPerKgMin: real, measuredAt: int, estimationMethod: string, sourceRecordId: string)

  function Vo2RecordOf(s: Vo2Sample): (r: Vo2Record)
    ensures r.mlPerKgMin == s.value && r.measuredAt == s.time && r.estimationMethod == "apple_health"
    ensures r.sourceRecordId == if s.id != "" then s.id else "vo2_" + s.startDate + "_" + s.valueText
  {
    Vo2Record(s.value, s.time, "apple_health", if s.id != "" then s.id else "vo2_" + s.startDate + "_" + s.valueText)
  }

  /** syncVO2Max: every sample in one request, or nothing sent when there is none. */
  function SyncVo2Max(samples: Fetched<Vo2Sample>, ok: bool, responseError: Option<string>): (up: Upload<Vo2Record>)
    ensures samples.FetchFailed? ==> up == Upload(FailedSync(samples.message), None)
    ensures samples.Fetched? && samples.items == [] ==> up == Upload(NothingToSync("No VO2 Max data to sync"), None)
    ensures samples.Fetched? && samples.items != [] ==>
              up.result == SinglePost(|samples.items|, ok, responseError) && up.posted.Some? &&
              |up.posted.value| == |samples.items| &&
              forall i :: 0 <= i < |samples.items| ==> up.posted.value[i] == Vo2RecordOf(samples.items[i])
    ensures Consistent(up.result)
  {
    match samples
    case FetchFailed(message) => Upload(FailedSync(message), None)
    case Fetched(items) =>
      if items == [] then Upload(NothingToSync("No VO2 Max data to sync"), None)
      else
        var rs := seq(|items|, i requires 0 <= i < |items| => Vo2RecordOf(items[i]));
        Upload(SinglePost(|rs|, ok, responseError), Some(rs))
  }

  datatype Workout = Workout(activityType: string, startDate: string, startTime: int, endTime: int, duration: int,
                             calories: real, distance: Option<real>)

  datatype WorkoutRecord = WorkoutRecord(activityType: string, startTime: int, endTime: int, durationSeconds: int,
                                         calories: Option<real>, distanceMiles: Option<real>, sourceRecordId: string)

  /** `Math.round(ms / 1000)`: the nearest whole second, halves rounded up. */
  function RoundToSeconds(ms: int): (s: int)
    ensures 1000 * s - 500 <= ms < 1000 * s + 500
  {
    (ms + 500) / 1000
  }

  function WorkoutRecordOf(w: Workout): (r: WorkoutRecord)
    ensures r.durationSeconds == if w.duration != 0 then w.duration else RoundToSeconds(w.endTime - w.startTime)
    ensures r.calories.Some? <==> w.calories > 0.0
    ensures r.distanceMiles.Some? <==> w.distance.Some? && w.distance.value > 0.0
    ensures r.sourceRecordId == "workout_" + w.startDate + "_" + w.activityType
  {
    WorkoutRecord(
      w.activityType, w.startTime, w.endTime,
      if w.duration != 0 then w.duration else RoundToSeconds(w.endTime - w.startTime),
      if w.calories > 0.0 then Some(w.calories) else None,
      if w.distance.Some? && w.distance.value > 0.0 then w.distance else None,
      "workout_" + w.startDate + "_" + w.activityType)
  }

  /** syncWorkouts: every workout in one request, or nothing sent when there is none. */
  function SyncWorkouts(workouts: Fetched<Workout>, ok: bool, responseError: Option<string>): (up: Upload<WorkoutRecord>)
    ensures workouts.FetchFailed? ==> up == Upload(FailedSync(workouts.message), None)
    ensures workouts.Fetched? && workouts.items == [] ==> up == Upload(NothingToSync("No workouts to sync"), None)
    ensures workouts.Fetched? && workouts.items != [] ==>
              up.result == SinglePost(|workouts.items|, ok, responseError) && up.posted.Some? &&
              |up.posted.value| == |workouts.items| &&
              forall i :: 0 <= i < |workouts.items| ==> up.posted.value[i] == WorkoutRecordOf(workouts.items[i])
    ensures Consistent(up.result)
  {
    match workouts
    case FetchFailed(message) => Upload(FailedSync(message), None)
    case Fetched(items) =>
      if items == [] then Upload(NothingToSync("No workouts to sync"), None)
      else
        var rs := seq(|items|, i requires 0 <= i < |items| => WorkoutRecordOf(items[i]));
        Upload(SinglePost(|rs|, ok, responseError), Some(rs))
  }

  // ---------------------------------------------------------------- all together

  datatype Overall = Overall(success: bool, totalSynced: nat, totalErrors: nat)

  datatype AllResults = AllResults(heartRate: SyncResult, steps: SyncResult, vo2Max: SyncResult, workouts: SyncResult,
                                   overall: Overall)

  /** The overall line: the sums of the four counters and the conjunction of the four flags. */
  function Aggregate(h: SyncResult, s: SyncResult, v: SyncResult, w: SyncResult): (o: Overall)
    ensures o.success <==> h.success && s.success && v.success && w.success
    ensures o.totalSynced == h.synced + s.synced + v.synced + w.synced
    ensures o.totalErrors == h.errors + s.errors + v.errors + w.errors
  {
    Overall(h.success && s.success && v.success && w.success,
            h.synced + s.synced + v.synced + w.synced, h.errors + s.errors + v.errors + w.errors)
  }

  /**
   * An overall success means no errors anywhere. The converse fails: a HealthKit read that throws
   * gives a failure with no errors counted.
   */
  lemma OverallSuccessMeansNoErrors(h: SyncResult, s: SyncResult, v: SyncResult, w: SyncResult)
    requires Consistent(h) && Consistent(s) && Consistent(v) && Consistent(w)
    ensures Aggregate(h, s, v, w).success ==> Aggregate(h, s, v, w).totalErrors == 0
    ensures Aggregate(FailedSync("read failed"), s, v, w).totalErrors == s.errors + v.errors + w.errors
    ensures !Aggregate(FailedSync("read failed"), s, v, w).success
  {
  }

  /** syncAllHealthData: the four syncs, then the overall line. */
  method SyncAllHealthData(heartRate: Fetched<HeartRateSample>, now: int, hourKey: int -> string, batchOk: nat -> bool,
                           startMs: int, stepsOn: int -> int, localDate: int -> LocalDate, stepsReadError: Option<string>,
                           vo2: Fetched<Vo2Sample>, workouts: Fetched<Workout>,
                           stepsOk: bool, vo2Ok: bool, workoutsOk: bool, responseError: Option<string>)
    returns (all: AllResults)
    ensures heartRate.FetchFailed? ==> all.heartRate == FailedSync(heartRate.message)
    ensures heartRate.Fetched? && heartRate.items == [] ==> all.heartRate == NothingToSync("No heart rate data to sync")
    ensures Consistent(all.heartRate)
    ensures all.steps == SyncSteps(startMs, now, stepsOn, localDate, stepsReadError, stepsOk, responseError).result
    ensures all.vo2Max == SyncVo2Max(vo2, vo2Ok, responseError).result
    ensures all.workouts == SyncWorkouts(workouts, workoutsOk, responseError).result
    ensures all.overall == Aggregate(all.heartRate, all.steps, all.vo2Max, all.workouts)
    ensures all.overall.success ==> all.overall.totalErrors == 0
  {
    var h := SyncHeartRate(heartRate, now, hourKey, batchOk);
    var s := SyncSteps(startMs, now, stepsOn, localDate, stepsReadError, stepsOk, responseError).result;
    var v := SyncVo2Max(vo2, vo2Ok, responseError).result;
    var w := SyncWorkouts(workouts, workoutsOk, responseError).result;
    OverallSuccessMeansNoErrors(h.result, s, v, w);
    all := AllResults(h.result, s, v, w, Aggregate(h.result, s, v, w));
  }
}
