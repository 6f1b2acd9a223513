/**
 * What one backend entry contributes to the metric families: a job entry of
 * the `/Job` response, a VM pseudo-client entry of the
 * `/Client/VMPseudoClient` response. Each value the collector reads falls
 * back to a default when its key is missing; an entry on which a lookup,
 * a string method or a numeric conversion raises is skipped.
 */
module Entries {
  import opened Wrappers
  import opened Values
  import opened Metrics

  /**
   * The elements a `for x in value` loop visits, when they can contribute
   * at all. A list gives its items and an empty str or dict gives none. A
   * non-empty str or dict gives strings, each of which raises at its first
   * `.get` and is skipped by the entry's handler, so none contributes: None.
   * None, a bool and an int are not iterable, and the loop raises before it
   * starts: None as well.
   */
  function ElementsOf(j: Json): Option<seq<Json>> {
    match j
    case Arr(a) => Some(a)
    case Str(s) => if s == "" then Some([]) else None
    case Obj(m) => if m == map[] then Some([]) else None
    case _ => None
  }

  /**
   * The list of entries under `key` the collector walks, given the parsed
   * response (Null for "no data"). A falsy or non-dict response, a missing
   * key or a value that cannot be walked gives no entries.
   */
  function EntriesUnder(response: Json, key: string): seq<Json> {
    if !Truthy(response) || !response.Obj? || key !in response.fields then []
    else match ElementsOf(response.fields[key])
      case None => []
      case Some(items) => items
  }

  /** Without the key, or without any data, nothing is walked. */
  lemma EntriesUnderMissing(response: Json, key: string)
    requires !response.Obj? || key !in response.fields
    ensures EntriesUnder(response, key) == []
  {
  }

  // ---------------------------------------------------------------------------
  // Jobs

  /** The values read from one job summary. */
  datatype JobRecord = JobRecord(
    jobId: Json, jobType: string, clientName: Json, subclientName: Json, status: string,
    duration: int, startTime: int, endTime: int, failedFiles: int, failedFolders: int,
    percentComplete: int, applicationSize: int, mediaSize: int, alertLevel: int)

  datatype JobOutcome =
    | NoSummary          // `if not summary: continue`
    | Malformed          // a lookup or a conversion raised a caught error: the entry is skipped
    | Aborted            // `float()` raised OverflowError, which the entry's handler does not catch: the loop ends
    | Parsed(record: JobRecord)

  /** What `float()` or `int()` makes of a field's value. */
  datatype Conversion = Converted(value: int) | Rejected | Overflowed

  /**
   * 2^1024 - 2^970: the least magnitude of an int that `float()` rounds past
   * the largest double, raising OverflowError.
   */
  const FloatOverflowBound: int := 0xfffffffffffffc00000000000000000000000000000000000000000000000000000000000000000000000000000000000000000000000000000000000000000000000000000000000000000000000000000000000000000000000000000000000000000000000000000000000000000000000000000000000000000000000000

  /** `float(j)`, restricted to integer values: an int of magnitude at least the bound overflows. */
  function FloatOf(j: Json): (r: Conversion)
    ensures r.Overflowed? <==> j.Int? && (j.i >= FloatOverflowBound || -j.i >= FloatOverflowBound)
    ensures r.Converted? <==> ToNumber(j).Some? && !r.Overflowed?
    ensures r.Converted? ==> ToNumber(j) == Some(r.value)
  {
    if j.Int? && (j.i >= FloatOverflowBound || -j.i >= FloatOverflowBound) then Overflowed
    else match ToNumber(j)
      case None => Rejected
      case Some(v) => Converted(v)
  }

  /** `int(j)`: never overflows. */
  function IntOf(j: Json): (r: Conversion)
    ensures !r.Overflowed?
    ensures r.Converted? <==> ToNumber(j).Some?
    ensures r.Converted? ==> ToNumber(j) == Some(r.value)
  {
    match ToNumber(j)
    case None => Rejected
    case Some(v) => Converted(v)
  }

  /**
   * The nine numeric conversions of a summary, in the order lines 206-214
   * perform them, each field falling back to 0 and `alertColorLevel` to
   * `severity` first.
   */
  function Conversions(s: map<string, Json>): (cs: seq<Conversion>)
    ensures |cs| == 9
  {
    [FloatOf(GetOr(s, "jobElapsedTime", Int(0))), FloatOf(GetOr(s, "jobStartTime", Int(0))),
     FloatOf(GetOr(s, "jobEndTime", Int(0))), IntOf(GetOr(s, "totalFailedFiles", Int(0))),
     IntOf(GetOr(s, "totalFailedFolders", Int(0))), FloatOf(GetOr(s, "percentComplete", Int(0))),
     FloatOf(GetOr(s, "sizeOfApplication", Int(0))), FloatOf(GetOr(s, "sizeOfMediaOnDisk", Int(0))),
     IntOf(GetOr(s, "alertColorLevel", GetOr(s, "severity", Int(0))))]
  }

  /** How many conversions, from the first, succeed: the entry stops at the first that does not. */
  function ConvertedCount(cs: seq<Conversion>): (n: nat)
    ensures n <= |cs|
    ensures forall k :: 0 <= k < n ==> cs[k].Converted?
    ensures n < |cs| ==> !cs[n].Converted?
    decreases |cs|
  {
    if cs == [] || !cs[0].Converted? then 0 else 1 + ConvertedCount(cs[1..])
  }

  /** There is one first failing conversion: any index with the three properties is it. */
  lemma {:induction false} ConvertedCountUnique(cs: seq<Conversion>, j: nat)
    requires j <= |cs| && (forall k :: 0 <= k < j ==> cs[k].Converted?) && (j < |cs| ==> !cs[j].Converted?)
    ensures ConvertedCount(cs) == j
    decreases j
  {
    if j > 0 {
      assert cs[0].Converted?;
      assert forall k :: 0 <= k < j - 1 ==> cs[1..][k] == cs[k + 1];
      ConvertedCountUnique(cs[1..], j - 1);
    }
  }

  /**
   * The label values of lines 200-205 can be read: the job type and status
   * are strings and the client entity (falling back to `client`) and the
   * subclient are dicts.
   */
  predicate LabelsReadable(s: map<string, Json>) {
    GetOr(s, "jobType", Str("unknown")).Str? && GetOr(s, "clientEntity", GetOr(s, "client", EmptyObj)).Obj? &&
    GetOr(s, "subclient", EmptyObj).Obj? && GetOr(s, "status", Str("unknown")).Str?
  }

  /** The job type label: spaces become underscores, then ASCII letters become lower case. */
  function NormaliseJobType(t: string): (r: string)
    ensures |r| == |t|
    ensures forall k :: 0 <= k < |r| ==> r[k] != ' ' && !('A' <= r[k] <= 'Z')
    ensures forall k :: 0 <= k < |t| && t[k] != ' ' && !('A' <= t[k] <= 'Z') ==> r[k] == t[k]
  {
    AsciiLower(ReplaceSpaces(t))
  }

  /** How a failed conversion ends the entry: an overflow ends the loop, a rejection skips the entry. */
  function Failed(c: Conversion): JobOutcome {
    if c.Overflowed? then Aborted else Malformed
  }

  /** Reads one entry of the `jobs` list, with the fallbacks of each field. */
  function ParseJob(job: Json): JobOutcome {
    if !job.Obj? then Malformed
    else
      var summary := GetOr(job.fields, "jobSummary", EmptyObj);
      if !Truthy(summary) then NoSummary
      else if !summary.Obj? then Malformed
      else
        var s := summary.fields;
        var cs := Conversions(s);
        if !LabelsReadable(s) then Malformed
        else if !cs[0].Converted? then Failed(cs[0])
        else if !cs[1].Converted? then Failed(cs[1])
        else if !cs[2].Converted? then Failed(cs[2])
        else if !cs[3].Converted? then Failed(cs[3])
        else if !cs[4].Converted? then Failed(cs[4])
        else if !cs[5].Converted? then Failed(cs[5])
        else if !cs[6].Converted? then Failed(cs[6])
        else if !cs[7].Converted? then Failed(cs[7])
        else if !cs[8].Converted? then Failed(cs[8])
        else Parsed(JobRecord(
          Str(PyStr(GetOr(s, "jobId", Str("unknown")))),
          NormaliseJobType(GetOr(s, "jobType", Str("unknown")).s),
          GetOr(GetOr(s, "clientEntity", GetOr(s, "client", EmptyObj)).fields, "clientName", Str("unknown")),
          GetOr(GetOr(s, "subclient", EmptyObj).fields, "subclientName", Str("unknown")),
          AsciiLower(GetOr(s, "status", Str("unknown")).s),
          cs[0].value, cs[1].value, cs[2].value, cs[3].value, cs[4].value,
          cs[5].value, cs[6].value, cs[7].value, cs[8].value))
  }

  /**
   * Lines 199-205: the job id, job type and status fall back to "unknown"
   * when their key is missing.
   */
  lemma JobLabelFallbacks(job: Json)
    requires job.Obj? && "jobSummary" in job.fields && job.fields["jobSummary"].Obj?
    ensures var s := job.fields["jobSummary"].fields;
      ParseJob(job).Parsed? ==>
        var r := ParseJob(job).record;
        ("jobId" !in s ==> r.jobId == Str("unknown")) &&
        ("jobType" !in s ==> r.jobType == "unknown") &&
        ("status" !in s ==> r.status == "unknown")
  {
  }

  /** Lines 201-204: the client entity falls back to `client` and then to an empty dict, each name to "unknown". */
  lemma JobClientFallbacks(job: Json)
    requires job.Obj? && "jobSummary" in job.fields && job.fields["jobSummary"].Obj?
    ensures var s := job.fields["jobSummary"].fields;
      ParseJob(job).Parsed? ==>
        var r := ParseJob(job).record;
        ("subclient" !in s ==> r.subclientName == Str("unknown")) &&
        ("clientEntity" !in s && "client" !in s ==> r.clientName == Str("unknown")) &&
        ("clientEntity" !in s && "client" in s ==>
          s["client"].Obj? && r.clientName == GetOr(s["client"].fields, "clientName", Str("unknown")))
  {
  }

  /**
   * Lines 206-214: each number read from a summary falls back to 0 when its
   * key is missing, `alertColorLevel` to `severity` first.
   */
  lemma JobNumberFallbacks(job: Json)
    requires job.Obj? && "jobSummary" in job.fields && job.fields["jobSummary"].Obj?
    ensures var s := job.fields["jobSummary"].fields;
      ParseJob(job).Parsed? ==>
        var r := ParseJob(job).record;
        ("jobElapsedTime" !in s ==> r.duration == 0) && ("jobStartTime" !in s ==> r.startTime == 0) &&
        ("jobEndTime" !in s ==> r.endTime == 0) && ("totalFailedFiles" !in s ==> r.failedFiles == 0) &&
        ("totalFailedFolders" !in s ==> r.failedFolders == 0) && ("percentComplete" !in s ==> r.percentComplete == 0) &&
        ("sizeOfApplication" !in s ==> r.applicationSize == 0) && ("sizeOfMediaOnDisk" !in s ==> r.mediaSize == 0) &&
        ("alertColorLevel" in s ==> ToNumber(s["alertColorLevel"]) == Some(r.alertLevel)) &&
        ("alertColorLevel" !in s && "severity" in s ==> ToNumber(s["severity"]) == Some(r.alertLevel)) &&
        ("alertColorLevel" !in s && "severity" !in s ==> r.alertLevel == 0)
  {
  }

  /** A summary that is present, non-empty and a dict, with no field that raises, gives a record. */
  lemma SummaryWithoutFieldsParses(job: Json)
    requires job.Obj? && "jobSummary" in job.fields && job.fields["jobSummary"].Obj?
    requires var s := job.fields["jobSummary"].fields;
      s != map[] && "jobType" !in s && "status" !in s && "clientEntity" !in s && "client" !in s && "subclient" !in s &&
      "jobElapsedTime" !in s && "jobStartTime" !in s && "jobEndTime" !in s && "totalFailedFiles" !in s &&
      "totalFailedFolders" !in s && "percentComplete" !in s && "sizeOfApplication" !in s && "sizeOfMediaOnDisk" !in s &&
      "alertColorLevel" !in s && "severity" !in s
    ensures ParseJob(job).Parsed?
  {
  }

  /**
   * Once the labels can be read, the conversions decide the entry: it is
   * parsed when all nine succeed; otherwise the first that fails decides,
   * ending the loop when it overflowed and skipping the entry when it was
   * rejected.
   */
  lemma JobConversionsDecide(job: Json)
    requires job.Obj? && "jobSummary" in job.fields && job.fields["jobSummary"].Obj? && Truthy(job.fields["jobSummary"])
    requires LabelsReadable(job.fields["jobSummary"].fields)
    ensures var cs := Conversions(job.fields["jobSummary"].fields);
      var n := ConvertedCount(cs);
      (ParseJob(job).Parsed? <==> n == |cs|) &&
      (ParseJob(job) == Aborted <==> n < |cs| && cs[n].Overflowed?) &&
      (ParseJob(job) == Malformed <==> n < |cs| && cs[n].Rejected?)
  {
    var cs := Conversions(job.fields["jobSummary"].fields);
    var j :=
      if !cs[0].Converted? then 0 else if !cs[1].Converted? then 1 else if !cs[2].Converted? then 2
      else if !cs[3].Converted? then 3 else if !cs[4].Converted? then 4 else if !cs[5].Converted? then 5
      else if !cs[6].Converted? then 6 else if !cs[7].Converted? then 7 else if !cs[8].Converted? then 8 else 9;
    ConvertedCountUnique(cs, j);
  }

  /**
   * An entry on which a label lookup or a string method raises is skipped: a
   * `jobType` or `status` that is not a string, a client or subclient that is
   * not a dict. So is one with a numeric field that `int()`/`float()`
   * rejects, unless an earlier field overflowed and ended the loop.
   */
  lemma JobRaises(job: Json, key: string)
    requires job.Obj? && "jobSummary" in job.fields && job.fields["jobSummary"].Obj? && Truthy(job.fields["jobSummary"])
    requires var s := job.fields["jobSummary"].fields;
      key in s &&
      ((key in {"jobType", "status"} && !s[key].Str?) ||
       (key in {"subclient", "clientEntity"} && !s[key].Obj?) ||
       (key in {"jobElapsedTime", "jobStartTime", "jobEndTime", "totalFailedFiles", "totalFailedFolders",
                "percentComplete", "sizeOfApplication", "sizeOfMediaOnDisk", "alertColorLevel"} && ToNumber(s[key]).None?))
    ensures ParseJob(job) == Malformed || ParseJob(job) == Aborted
    ensures key in {"jobType", "status", "subclient", "clientEntity"} ==> ParseJob(job) == Malformed
    ensures var cs := Conversions(job.fields["jobSummary"].fields);
      (forall k :: 0 <= k < |cs| ==> !cs[k].Overflowed?) ==> ParseJob(job) == Malformed
  {
  }

  /** An elapsed time of the bound ends the loop, whatever follows it in the summary. */
  lemma ElapsedOverflowAborts(s: map<string, Json>)
    requires "jobElapsedTime" in s && s["jobElapsedTime"] == Int(FloatOverflowBound) && "jobType" !in s && "status" !in s &&
      "clientEntity" !in s && "client" !in s && "subclient" !in s
    ensures ParseJob(Obj(map["jobSummary" := Obj(s)])) == Aborted
  {
    var job := Obj(map["jobSummary" := Obj(s)]);
    assert Truthy(job.fields["jobSummary"]);
    ConvertedCountUnique(Conversions(s), 0);
  }

  const RunningStates: seq<string> := ["running", "waiting", "pending", "queued", "suspended"]
  const FailedStates: seq<string> := ["failed", "killed", "completed w/ errors", "completed w/ warnings", "no run"]

  /** The job status gauge: Completed 1, running-like 2, failed-like 0, anything else 3. */
  function ClassifyStatus(status: string): (r: int)
    ensures 0 <= r <= 3
    ensures r == 1 <==> status == "completed"
    ensures r == 2 <==> status in RunningStates
    ensures r == 0 <==> status in FailedStates
    ensures r == 3 <==> status != "completed" && status !in RunningStates && status !in FailedStates
  {
    if status == "completed" then 1
    else if status in RunningStates then 2
    else if status in FailedStates then 0
    else 3
  }

  /** The status is compared after lower-casing, so its case in the response does not matter. */
  lemma StatusExamples()
    ensures ClassifyStatus(AsciiLower("Completed")) == 1
    ensures ClassifyStatus(AsciiLower("Completed w/ errors")) == 0
    ensures ClassifyStatus(AsciiLower("RUNNING")) == 2
    ensures ClassifyStatus(AsciiLower("Killed")) == 0
    ensures ClassifyStatus(AsciiLower("Committed")) == 3
  {
    assert AsciiLower("Completed") == "completed";
    assert AsciiLower("Completed w/ errors") == "completed w/ errors";
    assert AsciiLower("RUNNING") == "running";
    assert AsciiLower("Killed") == "killed";
    assert AsciiLower("Committed") == "committed";
  }

  /** The ten job families. */
  datatype JobMetric =
    | JobStatus | JobDuration | JobStartTime | JobEndTime | JobFailedFiles
    | JobFailedFolders | JobPercentComplete | JobApplicationSize | JobMediaSize | JobAlertLevel

  /** The number of label values a job sample of family `m` carries before the target's name. */
  function JobArity(m: JobMetric): nat {
    match m
    case JobStatus => 4
    case JobDuration => 3
    case _ => 2
  }

  /** The sample a parsed job contributes to family `m`. */
  function JobRow(r: JobRecord, m: JobMetric): (row: Row)
    ensures |row.labels| == JobArity(m)
    ensures row.labels[0] == r.jobId && row.labels[1] == Str(r.jobType)
  {
    match m
    case JobStatus => Row([r.jobId, Str(r.jobType), r.clientName, r.subclientName], ClassifyStatus(r.status))
    case JobDuration => Row([r.jobId, Str(r.jobType), r.clientName], r.duration)
    case JobStartTime => Row([r.jobId, Str(r.jobType)], r.startTime)
    case JobEndTime => Row([r.jobId, Str(r.jobType)], r.endTime)
    case JobFailedFiles => Row([r.jobId, Str(r.jobType)], r.failedFiles)
    case JobFailedFolders => Row([r.jobId, Str(r.jobType)], r.failedFolders)
    case JobPercentComplete => Row([r.jobId, Str(r.jobType)], r.percentComplete)
    case JobApplicationSize => Row([r.jobId, Str(r.jobType)], r.applicationSize)
    case JobMediaSize => Row([r.jobId, Str(r.jobType)], r.mediaSize)
    case JobAlertLevel => Row([r.jobId, Str(r.jobType)], r.alertLevel)
  }

  /** The samples of family `m` the job entries contribute, in order. */
  function JobRows(jobs: seq<Json>, m: JobMetric): seq<Row>
    decreases |jobs|
  {
    if jobs == [] then []
    else
      var last := ParseJob(jobs[|jobs| - 1]);
      JobRows(jobs[..|jobs| - 1], m) + (if last.Parsed? then [JobRow(last.record, m)] else [])
  }

  /** The number of job entries that were processed. */
  function JobsProcessed(jobs: seq<Json>): nat
    decreases |jobs|
  {
    if jobs == [] then 0
    else JobsProcessed(jobs[..|jobs| - 1]) + (if ParseJob(jobs[|jobs| - 1]).Parsed? then 1 else 0)
  }

  /** A job without a summary, or a malformed one, adds nothing; a well-formed one adds one sample to each family. */
  lemma SingleJobRows(job: Json, m: JobMetric)
    ensures ParseJob(job).Parsed? ==> JobRows([job], m) == [JobRow(ParseJob(job).record, m)]
    ensures !ParseJob(job).Parsed? ==> JobRows([job], m) == []
    ensures JobsProcessed([job]) == if ParseJob(job).Parsed? then 1 else 0
  {
    assert [job][..0] == [];
  }

  /** A job entry without `jobSummary`, or with an empty one, adds nothing. */
  lemma NoSummaryAddsNothing(job: Json, m: JobMetric)
    requires job.Obj? && !Truthy(GetOr(job.fields, "jobSummary", EmptyObj))
    ensures ParseJob(job) == NoSummary && JobRows([job], m) == []
  {
    SingleJobRows(job, m);
  }

  /** Job entries are independent: the samples of a list are those of its parts, concatenated. */
  lemma {:induction false} JobRowsAppend(a: seq<Json>, b: seq<Json>, m: JobMetric)
    ensures JobRows(a + b, m) == JobRows(a, m) + JobRows(b, m)
    ensures JobsProcessed(a + b) == JobsProcessed(a) + JobsProcessed(b)
    decreases |b|
  {
    if b == [] {
      assert a + b == a;
    } else {
      var b' := b[..|b| - 1];
      assert (a + b)[..|a + b| - 1] == a + b';
      assert (a + b)[|a + b| - 1] == b[|b| - 1];
      JobRowsAppend(a, b', m);
    }
  }

  /** Walking the entries in order, entry `i` contributes after the entries before it. */
  lemma JobRowsPrefix(jobs: seq<Json>, i: nat, m: JobMetric)
    requires i < |jobs|
    ensures var step := ParseJob(jobs[i]);
      JobRows(jobs[..i + 1], m) == JobRows(jobs[..i], m) + (if step.Parsed? then [JobRow(step.record, m)] else [])
  {
    assert jobs[..i + 1][..i] == jobs[..i];
    assert jobs[..i + 1][i] == jobs[i];
  }

  /** One entry more is processed exactly when it is well-formed. */
  lemma JobsProcessedPrefix(jobs: seq<Json>, i: nat)
    requires i < |jobs|
    ensures JobsProcessed(jobs[..i + 1]) == JobsProcessed(jobs[..i]) + (if ParseJob(jobs[i]).Parsed? then 1 else 0)
  {
    assert jobs[..i + 1][..i] == jobs[..i];
    assert jobs[..i + 1][i] == jobs[i];
  }

  /** The records of the processed job entries, in order. */
  function ParsedJobs(jobs: seq<Json>): seq<JobRecord>
    decreases |jobs|
  {
    if jobs == [] then []
    else
      var last := ParseJob(jobs[|jobs| - 1]);
      ParsedJobs(jobs[..|jobs| - 1]) + (if last.Parsed? then [last.record] else [])
  }

  /**
   * Every job family holds exactly one sample per processed job, in the same
   * order: the k-th sample of each family comes from the k-th processed job.
   */
  lemma {:induction false} JobRowsOfParsed(jobs: seq<Json>, m: JobMetric)
    ensures |JobRows(jobs, m)| == |ParsedJobs(jobs)| == JobsProcessed(jobs)
    ensures forall k :: 0 <= k < |ParsedJobs(jobs)| ==> JobRows(jobs, m)[k] == JobRow(ParsedJobs(jobs)[k], m)
    decreases |jobs|
  {
    if jobs != [] {
      var init := jobs[..|jobs| - 1];
      var last := ParseJob(jobs[|jobs| - 1]);
      JobRowsOfParsed(init, m);
      var rows := JobRows(jobs, m);
      var parsed := ParsedJobs(jobs);
      assert rows == JobRows(init, m) + (if last.Parsed? then [JobRow(last.record, m)] else []);
      assert parsed == ParsedJobs(init) + (if last.Parsed? then [last.record] else []);
      forall k | 0 <= k < |parsed| ensures rows[k] == JobRow(parsed[k], m) {
        if k < |ParsedJobs(init)| {
          assert rows[k] == JobRows(init, m)[k] && parsed[k] == ParsedJobs(init)[k];
        }
      }
    }
  }

  /** How many elements, from the first, come before the first that `stop` holds of. */
  function StopIndex<T>(xs: seq<T>, stop: T -> bool): (n: nat)
    ensures n <= |xs|
    decreases |xs|
  {
    if xs == [] || stop(xs[0]) then 0 else 1 + StopIndex(xs[1..], stop)
  }

  /** `stop` holds of no element before the stop index, and of the element at it. */
  lemma {:induction false} StopIndexSpec<T>(xs: seq<T>, stop: T -> bool)
    ensures forall k :: 0 <= k < StopIndex(xs, stop) ==> !stop(xs[k])
    ensures StopIndex(xs, stop) < |xs| ==> stop(xs[StopIndex(xs, stop)])
    decreases |xs|
  {
    if xs != [] && !stop(xs[0]) {
      StopIndexSpec(xs[1..], stop);
      assert forall k :: 0 <= k < |xs| - 1 ==> xs[1..][k] == xs[k + 1];
    }
  }

  /** An element at or before the stop index is the stop exactly when it is at the index. */
  lemma StopIndexAt<T>(xs: seq<T>, stop: T -> bool, i: nat)
    requires i <= StopIndex(xs, stop) && i < |xs|
    ensures stop(xs[i]) <==> i == StopIndex(xs, stop)
  {
    StopIndexSpec(xs, stop);
  }

  /** A stop in the first part of a list is the stop of the whole list. */
  lemma {:induction false} StopIndexStops<T>(a: seq<T>, b: seq<T>, stop: T -> bool)
    requires StopIndex(a, stop) < |a|
    ensures StopIndex(a + b, stop) == StopIndex(a, stop)
    decreases |a|
  {
    assert (a + b)[0] == a[0];
    if !stop(a[0]) {
      assert (a + b)[1..] == a[1..] + b;
      StopIndexStops(a[1..], b, stop);
    }
  }

  /** Without a stop in the first part of a list, the stop is searched for in the second. */
  lemma {:induction false} StopIndexGoesOn<T>(a: seq<T>, b: seq<T>, stop: T -> bool)
    requires StopIndex(a, stop) == |a|
    ensures StopIndex(a + b, stop) == |a| + StopIndex(b, stop)
    decreases |a|
  {
    if a == [] {
      assert a + b == b;
    } else {
      assert (a + b)[0] == a[0];
      assert (a + b)[1..] == a[1..] + b;
      StopIndexGoesOn(a[1..], b, stop);
    }
  }

  /** A prefix reaching into the second part of a list keeps the whole first part. */
  lemma PrefixOfAppend<T>(a: seq<T>, b: seq<T>, m: nat)
    requires m <= |b|
    ensures (a + b)[..|a| + m] == a + b[..m]
  {
  }

  /** An entry whose conversion overflows: the loop ends at it. */
  predicate EndsWalk(job: Json) {
    ParseJob(job) == Aborted
  }

  /**
   * How many entries, from the first, the loop finishes: it ends at the
   * first entry whose conversion overflows, keeping the samples of the
   * entries before it.
   */
  function WalkedCount(jobs: seq<Json>): (n: nat)
    ensures n <= |jobs|
  {
    StopIndex(jobs, EndsWalk)
  }

  /** The entries the loop finishes, in order. */
  function Walked(jobs: seq<Json>): seq<Json> {
    jobs[..WalkedCount(jobs)]
  }

  /** The loop finishes every entry before the one where it ends, and ends at an overflow. */
  lemma WalkedCountSpec(jobs: seq<Json>)
    ensures forall k :: 0 <= k < WalkedCount(jobs) ==> ParseJob(jobs[k]) != Aborted
    ensures WalkedCount(jobs) < |jobs| ==> ParseJob(jobs[WalkedCount(jobs)]) == Aborted
  {
    StopIndexSpec(jobs, EndsWalk);
  }

  /** Within the walk, an entry ends it exactly when it is the one where the walk stops. */
  lemma WalkedCountAt(jobs: seq<Json>, i: nat)
    requires i <= WalkedCount(jobs) && i < |jobs|
    ensures ParseJob(jobs[i]) == Aborted <==> i == WalkedCount(jobs)
  {
    StopIndexAt(jobs, EndsWalk, i);
  }

  /**
   * Walking a list is walking its first part and, when that part finished,
   * its second part after it: an overflow in the first part ends the walk
   * there.
   */
  lemma WalkedAppend(a: seq<Json>, b: seq<Json>)
    ensures WalkedCount(a) < |a| ==> Walked(a + b) == Walked(a)
    ensures WalkedCount(a) == |a| ==> Walked(a + b) == a + Walked(b)
  {
    if WalkedCount(a) < |a| {
      StopIndexStops(a, b, EndsWalk);
      assert (a + b)[..WalkedCount(a)] == a[..WalkedCount(a)];
    } else {
      StopIndexGoesOn(a, b, EndsWalk);
      PrefixOfAppend(a, b, WalkedCount(b));
    }
  }

  /** An entry whose conversion overflows ends the walk: nothing from it on contributes. */
  lemma AbortEndsWalk(a: seq<Json>, bad: Json, b: seq<Json>)
    requires forall k :: 0 <= k < |a| ==> ParseJob(a[k]) != Aborted
    requires ParseJob(bad) == Aborted
    ensures Walked(a + [bad] + b) == a
  {
    assert a + [bad] + b == a + ([bad] + b);
    assert StopIndex(a, EndsWalk) == |a| by {
      StopIndexSpec(a, EndsWalk);
    }
    assert StopIndex([bad] + b, EndsWalk) == 0;
    StopIndexGoesOn(a, [bad] + b, EndsWalk);
  }

  /** An entry that does not end the loop is walked, and the walk goes on after it. */
  lemma WalkedPast(job: Json, b: seq<Json>)
    requires ParseJob(job) != Aborted
    ensures Walked([job] + b) == [job] + Walked(b)
  {
    assert ([job] + b)[1..] == b;
    assert StopIndex([job] + b, EndsWalk) == 1 + StopIndex(b, EndsWalk);
  }

  /** A skipped entry in front of others adds neither samples nor a count. */
  lemma SkippedAddsNothing(job: Json, w: seq<Json>, m: JobMetric)
    requires !ParseJob(job).Parsed?
    ensures JobRows([job] + w, m) == JobRows(w, m)
    ensures JobsProcessed([job] + w) == JobsProcessed(w)
  {
    JobRowsAppend([job], w, m);
    SingleJobRows(job, m);
  }

  /** A malformed entry, or one without a summary, among walked siblings removes exactly its own samples. */
  lemma MalformedSiblingIgnored(a: seq<Json>, bad: Json, b: seq<Json>, m: JobMetric)
    requires ParseJob(bad) == Malformed || ParseJob(bad) == NoSummary
    ensures JobRows(Walked(a + [bad] + b), m) == JobRows(Walked(a + b), m)
    ensures JobsProcessed(Walked(a + [bad] + b)) == JobsProcessed(Walked(a + b))
  {
    assert a + [bad] + b == a + ([bad] + b);
    WalkedAppend(a, [bad] + b);
    WalkedAppend(a, b);
    if WalkedCount(a) == |a| {
      var w := Walked(b);
      WalkedPast(bad, b);
      SkippedAddsNothing(bad, w, m);
      JobRowsAppend(a, [bad] + w, m);
      JobRowsAppend(a, w, m);
    }
  }

  // ---------------------------------------------------------------------------
  // VM pseudo-clients

  /** The values read from one VM pseudo-client entry before its status sample is added. */
  datatype VmHeader = VmHeader(clientId: Json, clientName: Json, hostName: Json, instanceName: Json, statusString: Json, statusValue: int)

  /**
   * The status gauge: 1 when the status code is "0" or "1", otherwise 1 when
   * the status string lower-cases to "configured" and 0 when it does not.
   * The string is only lower-cased when the code does not decide it, and
   * lower-casing a value that is not a string raises (None).
   */
  function VmStatusValue(code: string, statusString: Json): Option<int> {
    if code == "0" || code == "1" then Some(1)
    else if !statusString.Str? then None
    else if AsciiLower(statusString.s) == "configured" then Some(1)
    else Some(0)
  }

  /** The VM status is 1 exactly when the code is "0" or "1" or the string is "configured" in any case, and 0 otherwise. */
  lemma VmStatusValueSpec(code: string, statusString: Json)
    ensures VmStatusValue(code, statusString).Some? <==> code == "0" || code == "1" || statusString.Str?
    ensures VmStatusValue(code, statusString) == Some(1) <==>
      code == "0" || code == "1" || (statusString.Str? && AsciiLower(statusString.s) == "configured")
    ensures VmStatusValue(code, statusString).Some? ==> VmStatusValue(code, statusString).value in {0, 1}
  {
  }

  /** Reads the fields of one VM pseudo-client entry, with their fallbacks; None when a lookup raises. */
  function ParseVmHeader(client: Json): Option<VmHeader> {
    if !client.Obj? then None
    else
      var f := client.fields;
      var c := GetOr(f, "client", EmptyObj);
      if !c.Obj? then None
      else
        var entity := GetOr(c.fields, "clientEntity", c);
        var instance := GetOr(f, "instance", EmptyObj);
        var statusInfo := GetOr(f, "statusInfo", EmptyObj);
        if !entity.Obj? || !instance.Obj? || !statusInfo.Obj? then None
        else
          var code := PyStr(GetOr(statusInfo.fields, "status", GetOr(f, "status", Str("unknown"))));
          var statusString := GetOr(statusInfo.fields, "statusString", Str(code));
          match VmStatusValue(code, statusString)
          case None => None
          case Some(v) => Some(VmHeader(
            Str(PyStr(GetOr(entity.fields, "clientId", Str("unknown")))),
            GetOr(entity.fields, "clientName", Str("unknown")),
            GetOr(entity.fields, "hostName", Str("unknown")),
            GetOr(instance.fields, "instanceName", Str("unknown")),
            statusString, v))
  }

  /**
   * Lines 160-166, once the client, instance and status information are dicts
   * (or missing): the entity falls back to the client itself; the status
   * code to the entry's own `status` and then to "unknown"; the status
   * string to the code; every name to "unknown". The entry is read exactly
   * when the entity is a dict and its status decides without lower-casing a
   * non-string.
   */
  lemma VmStatusFallbacks(client: Json)
    requires client.Obj?
    requires var f := client.fields;
      GetOr(f, "client", EmptyObj).Obj? && GetOr(f, "instance", EmptyObj).Obj? && GetOr(f, "statusInfo", EmptyObj).Obj?
    ensures var f := client.fields;
      var c := GetOr(f, "client", EmptyObj).fields;
      var instance := GetOr(f, "instance", EmptyObj).fields;
      var si := GetOr(f, "statusInfo", EmptyObj).fields;
      var entity := if "clientEntity" in c then c["clientEntity"] else Obj(c);
      var code := PyStr(if "status" in si then si["status"] else if "status" in f then f["status"] else Str("unknown"));
      var text := if "statusString" in si then si["statusString"] else Str(code);
      (ParseVmHeader(client).Some? <==> entity.Obj? && (code == "0" || code == "1" || text.Str?)) &&
      (ParseVmHeader(client).Some? ==>
        var h := ParseVmHeader(client).value;
        h.statusString == text &&
        (h.statusValue == 1 <==> code == "0" || code == "1" || (text.Str? && AsciiLower(text.s) == "configured")) &&
        (h.statusValue == 0 || h.statusValue == 1) &&
        h.clientId == Str(PyStr(if "clientId" in entity.fields then entity.fields["clientId"] else Str("unknown"))) &&
        ("clientName" !in entity.fields ==> h.clientName == Str("unknown")) &&
        ("hostName" !in entity.fields ==> h.hostName == Str("unknown")) &&
        ("instanceName" !in instance ==> h.instanceName == Str("unknown")))
  {
  }

  /** Lines 160-164: an entry that is not a dict, or whose client, instance or status information is not one, is skipped. */
  lemma VmHeaderRaises(client: Json)
    ensures !client.Obj? ==> ParseVmHeader(client).None?
    ensures client.Obj? && "client" in client.fields && !client.fields["client"].Obj? ==> ParseVmHeader(client).None?
    ensures client.Obj? && "instance" in client.fields && !client.fields["instance"].Obj? ==> ParseVmHeader(client).None?
    ensures client.Obj? && "statusInfo" in client.fields && !client.fields["statusInfo"].Obj? ==> ParseVmHeader(client).None?
  {
  }

  /** The status sample of a VM pseudo-client. */
  function VmStatusRow(h: VmHeader): Row {
    Row([h.clientId, h.clientName, h.hostName, h.instanceName, h.statusString], h.statusValue)
  }

  /** `clientActivityControl.activityControlOptions`, as the activity loop walks it. */
  function ActivityOptions(client: Json): Option<seq<Json>>
    requires client.Obj?
  {
    var control := GetOr(client.fields, "clientActivityControl", EmptyObj);
    if !control.Obj? then None
    else ElementsOf(GetOr(control.fields, "activityControlOptions", Arr([])))
  }

  /** The activity sample for one option: its type as a string, and 1 or 0 with the same digit as its label. */
  function ActivityRow(h: VmHeader, activity: Json): (row: Row)
    requires activity.Obj?
    ensures |row.labels| == 4 && row.labels[..2] == [h.clientId, h.clientName]
    ensures row.value in {0, 1} && row.labels[3] == Str(PyStr(Int(row.value)))
    ensures row.value == 1 <==> Truthy(GetOr(activity.fields, "enableActivityType", Bool(false)))
  {
    var enabled := if Truthy(GetOr(activity.fields, "enableActivityType", Bool(false))) then 1 else 0;
    Row([h.clientId, h.clientName, Str(PyStr(GetOr(activity.fields, "activityType", Str("unknown")))), Str(PyStr(Int(enabled)))], enabled)
  }

  /** How many options, from the first, are dicts: the loop raises at the first that is not. */
  function LeadingObjCount(opts: seq<Json>): (n: nat)
    ensures n <= |opts|
    ensures forall k :: 0 <= k < n ==> opts[k].Obj?
    ensures n < |opts| ==> !opts[n].Obj?
    decreases |opts|
  {
    if opts == [] || !opts[0].Obj? then 0 else 1 + LeadingObjCount(opts[1..])
  }

  /** The activity samples for the options, one each. */
  function ActivityRows(h: VmHeader, opts: seq<Json>): (rows: seq<Row>)
    requires forall k :: 0 <= k < |opts| ==> opts[k].Obj?
    ensures |rows| == |opts|
    ensures forall k :: 0 <= k < |opts| ==> rows[k] == ActivityRow(h, opts[k])
  {
    seq(|opts|, k requires 0 <= k < |opts| => ActivityRow(h, opts[k]))
  }

  /** What one VM entry contributes: its status sample, its activity samples, and whether it was counted. */
  datatype VmContribution = VmContribution(statusRows: seq<Row>, activityRows: seq<Row>, processed: nat)

  /**
   * One VM entry. An entry whose fields cannot be read adds nothing. Otherwise
   * its status sample is added first; the activity samples follow for the
   * options that are dicts, up to the first that is not, where the loop
   * raises and the entry is not counted, keeping the samples already added.
   */
  function VmEntry(client: Json): VmContribution {
    match ParseVmHeader(client)
    case None => VmContribution([], [], 0)
    case Some(h) =>
      match ActivityOptions(client)
      case None => VmContribution([VmStatusRow(h)], [], 0)
      case Some(opts) =>
        var n := LeadingObjCount(opts);
        VmContribution([VmStatusRow(h)], ActivityRows(h, opts[..n]), if n == |opts| then 1 else 0)
  }

  function Plus(a: VmContribution, b: VmContribution): VmContribution {
    VmContribution(a.statusRows + b.statusRows, a.activityRows + b.activityRows, a.processed + b.processed)
  }

  /** What the VM entries contribute, in order. */
  function VmEntries(clients: seq<Json>): VmContribution
    decreases |clients|
  {
    if clients == [] then VmContribution([], [], 0)
    else Plus(VmEntries(clients[..|clients| - 1]), VmEntry(clients[|clients| - 1]))
  }

  /** Walking the entries in order, entry `i` contributes after the entries before it. */
  lemma VmEntriesPrefix(clients: seq<Json>, i: nat)
    requires i < |clients|
    ensures VmEntries(clients[..i + 1]) == Plus(VmEntries(clients[..i]), VmEntry(clients[i]))
  {
    assert clients[..i + 1][..i] == clients[..i];
    assert clients[..i + 1][i] == clients[i];
  }

  /** Contributions add up in any grouping. */
  lemma PlusAssociative(x: VmContribution, y: VmContribution, z: VmContribution)
    ensures Plus(Plus(x, y), z) == Plus(x, Plus(y, z))
  {
    assert (x.statusRows + y.statusRows) + z.statusRows == x.statusRows + (y.statusRows + z.statusRows);
    assert (x.activityRows + y.activityRows) + z.activityRows == x.activityRows + (y.activityRows + z.activityRows);
  }

  /** The last entry of a list contributes after the others. */
  lemma VmEntriesLast(a: seq<Json>, b: seq<Json>)
    requires b != []
    ensures VmEntries(a + b) == Plus(VmEntries(a + b[..|b| - 1]), VmEntry(b[|b| - 1]))
  {
    assert (a + b)[..|a + b| - 1] == a + b[..|b| - 1];
    assert (a + b)[|a + b| - 1] == b[|b| - 1];
  }

  /** VM entries are independent: the samples of a list are those of its parts, concatenated. */
  lemma {:induction false} VmEntriesAppend(a: seq<Json>, b: seq<Json>)
    ensures VmEntries(a + b) == Plus(VmEntries(a), VmEntries(b))
    decreases |b|
  {
    if b == [] {
      assert a + b == a;
      var x := VmEntries(a);
      assert x.statusRows + [] == x.statusRows && x.activityRows + [] == x.activityRows;
    } else {
      var b' := b[..|b| - 1];
      VmEntriesLast(a, b);
      VmEntriesAppend(a, b');
      PlusAssociative(VmEntries(a), VmEntries(b'), VmEntry(b[|b| - 1]));
    }
  }

  /**
   * A VM entry whose fields can be read adds exactly one status sample with
   * a 0/1 value; when all its options are dicts it adds one activity sample
   * per option and is counted.
   */
  lemma VmEntrySpec(client: Json)
    ensures ParseVmHeader(client).None? ==> VmEntry(client) == VmContribution([], [], 0)
    ensures ParseVmHeader(client).Some? ==>
      var h := ParseVmHeader(client).value;
      VmEntry(client).statusRows == [VmStatusRow(h)] && h.statusValue in {0, 1}
    ensures VmEntry(client).processed == 1 ==>
      client.Obj? && ParseVmHeader(client).Some? && ActivityOptions(client).Some? &&
      |VmEntry(client).activityRows| == |ActivityOptions(client).value|
  {
    if ParseVmHeader(client).Some? {
      var f := client.fields;
      var statusInfo := GetOr(f, "statusInfo", EmptyObj).fields;
      var code := PyStr(GetOr(statusInfo, "status", GetOr(f, "status", Str("unknown"))));
      VmStatusValueSpec(code, GetOr(statusInfo, "statusString", Str(code)));
    }
  }

  /** Every VM sample has its family's arity: five labels for status, four for activity. */
  lemma {:induction false} VmEntriesArity(clients: seq<Json>)
    ensures forall k :: 0 <= k < |VmEntries(clients).statusRows| ==> |VmEntries(clients).statusRows[k].labels| == 5
    ensures forall k :: 0 <= k < |VmEntries(clients).activityRows| ==> |VmEntries(clients).activityRows[k].labels| == 4
    decreases |clients|
  {
    if clients != [] {
      VmEntriesArity(clients[..|clients| - 1]);
    }
  }
}
