/**
 * The per-probe collector: it owns the fifteen gauge families of one target,
 * fills them from the backend's responses and hands them over in a fixed
 * order. Each family's samples carry the target's name as their last label.
 *
 * The backend's answers to `GET /Client/VMPseudoClient` and `GET /Job` are
 * parameters (Null for "no data"), as is the measured scrape duration.
 */
module Collector {
  import opened Wrappers
  import opened Values
  import opened Metrics
  import opened Entries
  import ApiClient

  /** The label names the VM families are declared with, before the target label. */
  const SystemInfoLabels: seq<string> := ["version", "commserve_name"]
  const VmStatusLabels: seq<string> := ["client_id", "client_name", "host_name", "instance_name", "status"]
  const VmActivityLabels: seq<string> := ["client_id", "client_name", "activity_type", "enabled"]

  /** The five families that are not about jobs, as `__init__` declares them (see `DeclaredWithTargetLabel`). */
  const ScrapeDurationFamily: MetricFamily :=
    MetricFamily("commvault_scrape_duration_seconds", "Time the Commvault scrape took for this target", [TargetLabel], [])
  const ScrapeSuccessFamily: MetricFamily :=
    MetricFamily("commvault_scrape_success", "Whether the Commvault scrape succeeded for this target (1 for success, 0 for failure)", [TargetLabel], [])
  const SystemInfoFamily: MetricFamily :=
    MetricFamily("commvault_info", "Commvault system information for this target", SystemInfoLabels + [TargetLabel], [])
  const VmClientStatusFamily: MetricFamily :=
    MetricFamily("commvault_vm_client_status", "Status of VM Pseudo Clients", VmStatusLabels + [TargetLabel], [])
  const VmClientActivityFamily: MetricFamily :=
    MetricFamily("commvault_vm_client_activity_control", "Activity control status for VM Pseudo Clients", VmActivityLabels + [TargetLabel], [])

  /** The label names of job family `m`, before the target label. */
  function JobLabels(m: JobMetric): (labels: seq<string>)
    ensures |labels| == JobArity(m) && TargetLabel !in labels
  {
    match m
    case JobStatus => ["jobId", "jobType", "clientName", "subclientName"]
    case JobDuration => ["jobId", "jobType", "clientName"]
    case _ => ["jobId", "jobType"]
  }

  /** The name of job family `m`. */
  function JobName(m: JobMetric): string {
    match m
    case JobStatus => "commvault_job_status"
    case JobDuration => "commvault_job_duration_seconds"
    case JobStartTime => "commvault_job_start_time_seconds"
    case JobEndTime => "commvault_job_end_time_seconds"
    case JobFailedFiles => "commvault_job_failed_files_total"
    case JobFailedFolders => "commvault_job_failed_folders_total"
    case JobPercentComplete => "commvault_job_percent_complete"
    case JobApplicationSize => "commvault_job_size_application_bytes"
    case JobMediaSize => "commvault_job_size_media_bytes"
    case JobAlertLevel => "commvault_job_alert_level"
  }

  /** The help text of job family `m`. */
  function JobHelp(m: JobMetric): string {
    match m
    case JobStatus => "Gauge tracking job status (Completed=1, Failed=0, Running=2, Other=3)"
    case JobDuration => "Gauge measuring job duration in seconds"
    case JobStartTime => "Gauge for job start time (Unix timestamp)"
    case JobEndTime => "Gauge for job end time (Unix timestamp)"
    case JobFailedFiles => "Gauge for the number of failed files in the last job run"
    case JobFailedFolders => "Gauge for the number of failed folders in the last job run"
    case JobPercentComplete => "Gauge for job completion percentage (0-100)"
    case JobApplicationSize => "Gauge for the size of the application data processed (bytes)"
    case JobMediaSize => "Gauge for the size of media on disk (bytes)"
    case JobAlertLevel => "Gauge for alert severity (0=normal, higher=issues)"
  }

  /** The job family of metric `m` as declared, with no samples yet. */
  function JobSchema(m: JobMetric): MetricFamily {
    MetricFamily(JobName(m), JobHelp(m), JobLabels(m) + [TargetLabel], [])
  }

  /** The job families in the order they are yielded. */
  const JobMetrics: seq<JobMetric> := [
    JobStatus, JobDuration, JobStartTime, JobEndTime, JobFailedFiles,
    JobFailedFolders, JobPercentComplete, JobApplicationSize, JobMediaSize, JobAlertLevel
  ]

  /** The fifteen families in the order `collect` yields them, before any sample. */
  function FamilySchemas(): seq<MetricFamily> {
    FixedFamilies + JobSchemas()
  }

  /** The five families declared first. */
  const FixedFamilies: seq<MetricFamily> :=
    [ScrapeDurationFamily, ScrapeSuccessFamily, SystemInfoFamily, VmClientStatusFamily, VmClientActivityFamily]

  /** The ten job families as declared, in order. */
  function JobSchemas(): (fs: seq<MetricFamily>)
    ensures |fs| == 10 && forall k :: 0 <= k < 10 ==> fs[k] == JobSchema(JobMetrics[k])
  {
    seq(10, k requires 0 <= k < 10 => JobSchema(JobMetrics[k]))
  }

  /** The system-information sample: the target's version and server name, or their fallbacks. */
  function SystemInfoRows(hasClient: bool, targetConfig: Json, targetName: string): (rows: seq<Row>)
    ensures |rows| <= 1
    ensures |rows| == 1 <==> hasClient && targetConfig.Obj?
    ensures |rows| == 1 ==> |rows[0].labels| == 2 && rows[0].value == 1
  {
    if hasClient && targetConfig.Obj? then
      [Row([GetOr(targetConfig.fields, "version", Str("unknown")), GetOr(targetConfig.fields, "commserve_name", Str(targetName))], 1)]
    else []
  }

  /** The configuration's own version and server name are used when given, and the fallbacks otherwise. */
  lemma SystemInfoFallbacks(targetConfig: Json, targetName: string)
    requires targetConfig.Obj? && "version" !in targetConfig.fields && "commserve_name" !in targetConfig.fields
    ensures SystemInfoRows(true, targetConfig, targetName) == [Row([Str("unknown"), Str(targetName)], 1)]
    ensures SystemInfoRows(false, targetConfig, targetName) == []
  {
  }

  /** What the VM pseudo-client collection contributes: nothing without a client. */
  function VmCollected(hasClient: bool, response: Json): VmContribution {
    if hasClient then VmEntries(EntriesUnder(response, "VSPseudoClientsList")) else VmContribution([], [], 0)
  }

  /** The jobs the job collection finishes: none without a client, and none from the first overflow on. */
  function JobsCollected(hasClient: bool, response: Json): seq<Json> {
    if hasClient then Walked(EntriesUnder(response, "jobs")) else []
  }

  /** The loop over the activity options stops exactly after the leading dicts. */
  lemma {:induction false} LeadingObjCountUnique(opts: seq<Json>, j: nat)
    requires j <= |opts| && (forall k :: 0 <= k < j ==> opts[k].Obj?) && (j < |opts| ==> !opts[j].Obj?)
    ensures LeadingObjCount(opts) == j
    decreases j
  {
    if j > 0 {
      assert opts[0].Obj?;
      assert forall k :: 0 <= k < j - 1 ==> opts[1..][k] == opts[k + 1];
      LeadingObjCountUnique(opts[1..], j - 1);
    }
  }

  /** The five fixed families start empty, with the target label appended to their own labels. */
  lemma SchemaArities(target: string)
    ensures ScrapeDurationFamily.samples == [] && Holds(ScrapeDurationFamily, 0, target)
    ensures ScrapeSuccessFamily.samples == [] && Holds(ScrapeSuccessFamily, 0, target)
    ensures SystemInfoFamily.samples == [] && Holds(SystemInfoFamily, 2, target)
    ensures VmClientStatusFamily.samples == [] && Holds(VmClientStatusFamily, 5, target)
    ensures VmClientActivityFamily.samples == [] && Holds(VmClientActivityFamily, 4, target)
  {
  }

  /** Every fixed family is `add_target_label` applied to its declared labels: the target label is appended once, last. */
  lemma DeclaredWithTargetLabel()
    ensures ScrapeDurationFamily == NewGauge(ScrapeDurationFamily.name, ScrapeDurationFamily.documentation, [])
    ensures ScrapeSuccessFamily == NewGauge(ScrapeSuccessFamily.name, ScrapeSuccessFamily.documentation, [])
    ensures SystemInfoFamily == NewGauge(SystemInfoFamily.name, SystemInfoFamily.documentation, SystemInfoLabels)
    ensures VmClientStatusFamily == NewGauge(VmClientStatusFamily.name, VmClientStatusFamily.documentation, VmStatusLabels)
    ensures VmClientActivityFamily == NewGauge(VmClientActivityFamily.name, VmClientActivityFamily.documentation, VmActivityLabels)
  {
    var t := TargetLabel;
    assert t !in SystemInfoLabels && t !in VmStatusLabels && t !in VmActivityLabels by {
      assert |t| == 16;
      ShorterLabels(SystemInfoLabels);
      ShorterLabels(VmStatusLabels);
      ShorterLabels(VmActivityLabels);
    }
  }

  /** A list of label names that are all shorter than the target label cannot hold it. */
  lemma ShorterLabels(labels: seq<string>)
    ensures (forall k :: 0 <= k < |labels| ==> |labels[k]| < |TargetLabel|) ==> TargetLabel !in labels
  {
  }

  /** Every job family is `add_target_label` applied to its declared labels, and has that metric's arity. */
  lemma JobsDeclaredWithTargetLabel()
    ensures forall m :: JobSchema(m) == NewGauge(JobName(m), JobHelp(m), JobLabels(m))
    ensures forall m :: JobSchema(m).samples == [] && |JobSchema(m).labelNames| == JobArity(m) + 1
  {
  }

  /** The job rows of any entries fit their family. */
  lemma JobRowsHold(f: MetricFamily, jobs: seq<Json>, m: JobMetric, target: string)
    requires Holds(f, JobArity(m), target)
    ensures Holds(AddRows(f, JobRows(jobs, m), target), JobArity(m), target)
  {
    JobRowsOfParsed(jobs, m);
    AddRowsHolds(f, JobRows(jobs, m), JobArity(m), target);
  }

  /** The ten job gauges, `self.job_status` to `self.job_alert_level`. */
  datatype JobGauges = JobGauges(
    status: MetricFamily, duration: MetricFamily, startTime: MetricFamily, endTime: MetricFamily,
    failedFiles: MetricFamily, failedFolders: MetricFamily, percentComplete: MetricFamily,
    applicationBytes: MetricFamily, mediaBytes: MetricFamily, alertLevel: MetricFamily)
  {
    /** The gauge of job metric `m`. */
    function Of(m: JobMetric): MetricFamily {
      match m
      case JobStatus => status
      case JobDuration => duration
      case JobStartTime => startTime
      case JobEndTime => endTime
      case JobFailedFiles => failedFiles
      case JobFailedFolders => failedFolders
      case JobPercentComplete => percentComplete
      case JobApplicationSize => applicationBytes
      case JobMediaSize => mediaBytes
      case JobAlertLevel => alertLevel
    }

    /** The ten gauges in the order `collect` yields them. */
    function InOrder(): (fs: seq<MetricFamily>)
      ensures |fs| == 10 && forall k :: 0 <= k < 10 ==> fs[k] == Of(JobMetrics[k])
    {
      [status, duration, startTime, endTime, failedFiles, failedFolders, percentComplete, applicationBytes, mediaBytes, alertLevel]
    }
  }

  /** Two sets of job gauges with the same gauge for every metric are the same. */
  lemma JobGaugesExt(a: JobGauges, b: JobGauges)
    requires forall m :: a.Of(m) == b.Of(m)
    ensures a == b
  {
    assert a.Of(JobStatus) == b.Of(JobStatus) && a.Of(JobDuration) == b.Of(JobDuration);
    assert a.Of(JobStartTime) == b.Of(JobStartTime) && a.Of(JobEndTime) == b.Of(JobEndTime);
    assert a.Of(JobFailedFiles) == b.Of(JobFailedFiles) && a.Of(JobFailedFolders) == b.Of(JobFailedFolders);
    assert a.Of(JobPercentComplete) == b.Of(JobPercentComplete) && a.Of(JobApplicationSize) == b.Of(JobApplicationSize);
    assert a.Of(JobMediaSize) == b.Of(JobMediaSize) && a.Of(JobAlertLevel) == b.Of(JobAlertLevel);
  }

  /** The job gauges `__init__` declares. */
  function InitialJobGauges(): JobGauges {
    JobGauges(JobSchema(JobStatus), JobSchema(JobDuration), JobSchema(JobStartTime), JobSchema(JobEndTime),
      JobSchema(JobFailedFiles), JobSchema(JobFailedFolders), JobSchema(JobPercentComplete),
      JobSchema(JobApplicationSize), JobSchema(JobMediaSize), JobSchema(JobAlertLevel))
  }

  /** Every job gauge has its metric's number of labels before the target label, and its samples end with the target's name. */
  predicate JobsHold(g: JobGauges, target: string) {
    forall m :: Holds(g.Of(m), JobArity(m), target)
  }

  /** Each declared job gauge is its metric's schema, with no samples yet. */
  lemma InitialJobGaugesSpec()
    ensures forall m :: InitialJobGauges().Of(m) == JobSchema(m)
  {
    forall m ensures InitialJobGauges().Of(m) == JobSchema(m) {
      match m
      case JobStatus =>
      case JobDuration =>
      case JobStartTime =>
      case JobEndTime =>
      case JobFailedFiles =>
      case JobFailedFolders =>
      case JobPercentComplete =>
      case JobApplicationSize =>
      case JobMediaSize =>
      case JobAlertLevel =>
    }
  }

  /** The declared job gauges hold no samples and have their metrics' arities. */
  lemma InitialJobGaugesHold(target: string)
    ensures JobsHold(InitialJobGauges(), target)
  {
    InitialJobGaugesSpec();
    JobsDeclaredWithTargetLabel();
    forall m ensures Holds(InitialJobGauges().Of(m), JobArity(m), target) {
      assert InitialJobGauges().Of(m) == JobSchema(m);
    }
  }

  /** Lines 221-233: one parsed job's sample added to each job gauge. */
  function WithJob(g: JobGauges, r: JobRecord, target: string): JobGauges {
    JobGauges(
      WithTarget(g.status, JobRow(r, JobStatus).labels, JobRow(r, JobStatus).value, target),
      WithTarget(g.duration, JobRow(r, JobDuration).labels, JobRow(r, JobDuration).value, target),
      WithTarget(g.startTime, JobRow(r, JobStartTime).labels, JobRow(r, JobStartTime).value, target),
      WithTarget(g.endTime, JobRow(r, JobEndTime).labels, JobRow(r, JobEndTime).value, target),
      WithTarget(g.failedFiles, JobRow(r, JobFailedFiles).labels, JobRow(r, JobFailedFiles).value, target),
      WithTarget(g.failedFolders, JobRow(r, JobFailedFolders).labels, JobRow(r, JobFailedFolders).value, target),
      WithTarget(g.percentComplete, JobRow(r, JobPercentComplete).labels, JobRow(r, JobPercentComplete).value, target),
      WithTarget(g.applicationBytes, JobRow(r, JobApplicationSize).labels, JobRow(r, JobApplicationSize).value, target),
      WithTarget(g.mediaBytes, JobRow(r, JobMediaSize).labels, JobRow(r, JobMediaSize).value, target),
      WithTarget(g.alertLevel, JobRow(r, JobAlertLevel).labels, JobRow(r, JobAlertLevel).value, target))
  }

  /** Every job gauge after the samples of the job entries have been added. */
  function AddJobRows(g: JobGauges, jobs: seq<Json>, target: string): JobGauges {
    JobGauges(
      AddRows(g.status, JobRows(jobs, JobStatus), target),
      AddRows(g.duration, JobRows(jobs, JobDuration), target),
      AddRows(g.startTime, JobRows(jobs, JobStartTime), target),
      AddRows(g.endTime, JobRows(jobs, JobEndTime), target),
      AddRows(g.failedFiles, JobRows(jobs, JobFailedFiles), target),
      AddRows(g.failedFolders, JobRows(jobs, JobFailedFolders), target),
      AddRows(g.percentComplete, JobRows(jobs, JobPercentComplete), target),
      AddRows(g.applicationBytes, JobRows(jobs, JobApplicationSize), target),
      AddRows(g.mediaBytes, JobRows(jobs, JobMediaSize), target),
      AddRows(g.alertLevel, JobRows(jobs, JobAlertLevel), target))
  }

  /** Each job gauge receives the sample of its own metric for the parsed job. */
  lemma WithJobOf(g: JobGauges, r: JobRecord, target: string)
    ensures forall m :: WithJob(g, r, target).Of(m) == WithTarget(g.Of(m), JobRow(r, m).labels, JobRow(r, m).value, target)
  {
  }

  /** Each job gauge receives the rows of its own metric. */
  lemma AddJobRowsOf(g: JobGauges, jobs: seq<Json>, target: string)
    ensures forall m :: AddJobRows(g, jobs, target).Of(m) == AddRows(g.Of(m), JobRows(jobs, m), target)
  {
    forall m ensures AddJobRows(g, jobs, target).Of(m) == AddRows(g.Of(m), JobRows(jobs, m), target) {
      match m
      case JobStatus =>
      case JobDuration =>
      case JobStartTime =>
      case JobEndTime =>
      case JobFailedFiles =>
      case JobFailedFolders =>
      case JobPercentComplete =>
      case JobApplicationSize =>
      case JobMediaSize =>
      case JobAlertLevel =>
    }
  }

  /** No job entries leave the gauges as they are. */
  lemma AddJobRowsNone(g: JobGauges, target: string)
    ensures AddJobRows(g, [], target) == g
  {
    AddJobRowsOf(g, [], target);
    forall m ensures AddJobRows(g, [], target).Of(m) == g.Of(m) {
      assert g.Of(m).samples + [] == g.Of(m).samples;
    }
    JobGaugesExt(AddJobRows(g, [], target), g);
  }

  /** Walking the entries in order: a well-formed entry adds its sample to each gauge, any other entry adds nothing. */
  lemma AddJobRowsStep(g: JobGauges, jobs: seq<Json>, i: nat, target: string)
    requires i < |jobs|
    ensures var step := ParseJob(jobs[i]);
      var before := AddJobRows(g, jobs[..i], target);
      AddJobRows(g, jobs[..i + 1], target) == if step.Parsed? then WithJob(before, step.record, target) else before
  {
    var step := ParseJob(jobs[i]);
    var before := AddJobRows(g, jobs[..i], target);
    var after := if step.Parsed? then WithJob(before, step.record, target) else before;
    AddJobRowsOf(g, jobs[..i + 1], target);
    AddJobRowsOf(g, jobs[..i], target);
    if step.Parsed? {
      WithJobOf(before, step.record, target);
    }
    forall m ensures AddJobRows(g, jobs[..i + 1], target).Of(m) == after.Of(m) {
      JobRowsPrefix(jobs, i, m);
      if step.Parsed? {
        AddRowsStep(g.Of(m), JobRows(jobs[..i], m), JobRow(step.record, m), target);
      } else {
        assert JobRows(jobs[..i], m) + [] == JobRows(jobs[..i], m);
      }
    }
    JobGaugesExt(AddJobRows(g, jobs[..i + 1], target), after);
  }

  /** Adding the samples of any job entries keeps every job gauge tagged with the target. */
  lemma AddJobRowsHolds(g: JobGauges, jobs: seq<Json>, target: string)
    requires JobsHold(g, target)
    ensures JobsHold(AddJobRows(g, jobs, target), target)
  {
    AddJobRowsOf(g, jobs, target);
    forall m ensures Holds(AddJobRows(g, jobs, target).Of(m), JobArity(m), target) {
      JobRowsHold(g.Of(m), jobs, m, target);
    }
  }

  /**
   * The families `collect` yields on a freshly built collector whose client
   * exists: the duration, a success of 1, the system information, the two VM
   * families and the ten job families, each holding the samples the
   * backend's answers give.
   */
  function Scraped(name: string, config: Json, vmResponse: Json, jobResponse: Json, duration: int): seq<MetricFamily> {
    ScrapedFixed(name, config, vmResponse, duration) + ScrapedJobs(name, jobResponse)
  }

  /** The families a freshly built collector holds after collecting with a client are those of `Scraped`. */
  lemma ScrapedFrom(d: MetricFamily, s: MetricFamily, i: MetricFamily, vs: MetricFamily, va: MetricFamily, g: JobGauges,
                    name: string, config: Json, vmResponse: Json, jobResponse: Json, duration: int)
    requires d == WithTarget(ScrapeDurationFamily, [], duration, name) && s == WithTarget(ScrapeSuccessFamily, [], 1, name)
    requires i == AddRows(SystemInfoFamily, SystemInfoRows(true, config, name), name)
    requires vs == AddRows(VmClientStatusFamily, VmCollected(true, vmResponse).statusRows, name)
    requires va == AddRows(VmClientActivityFamily, VmCollected(true, vmResponse).activityRows, name)
    requires g == AddJobRows(InitialJobGauges(), JobsCollected(true, jobResponse), name)
    ensures [d, s, i, vs, va] + g.InOrder() == Scraped(name, config, vmResponse, jobResponse, duration)
  {
    assert [d, s, i, vs, va] == ScrapedFixed(name, config, vmResponse, duration);
    assert g.InOrder() == ScrapedJobs(name, jobResponse);
  }

  /** The first five families of a scrape: duration, success, system information and the two VM families. */
  function ScrapedFixed(name: string, config: Json, vmResponse: Json, duration: int): seq<MetricFamily> {
    var vm := VmCollected(true, vmResponse);
    [WithTarget(ScrapeDurationFamily, [], duration, name),
     WithTarget(ScrapeSuccessFamily, [], 1, name),
     AddRows(SystemInfoFamily, SystemInfoRows(true, config, name), name),
     AddRows(VmClientStatusFamily, vm.statusRows, name),
     AddRows(VmClientActivityFamily, vm.activityRows, name)]
  }

  /** The ten job families of a scrape, in declaration order. */
  function ScrapedJobs(name: string, jobResponse: Json): seq<MetricFamily> {
    AddJobRows(InitialJobGauges(), JobsCollected(true, jobResponse), name).InOrder()
  }

  /**
   * Every family of a scrape keeps the labels it was declared with, in the
   * order `collect` yields them, and carries the target's name last in every
   * sample.
   */
  lemma ScrapedTagged(name: string, config: Json, vmResponse: Json, jobResponse: Json, duration: int)
    ensures var fs := Scraped(name, config, vmResponse, jobResponse, duration);
      |fs| == 15 && forall k :: 0 <= k < 15 ==> Tagged(fs[k], name) && Schema(fs[k]) == FamilySchemas()[k]
  {
    FixedTagged(name, config, vmResponse, duration);
    JobsTagged(name, jobResponse);
    ConcatTagged(ScrapedFixed(name, config, vmResponse, duration), ScrapedJobs(name, jobResponse), FixedFamilies, JobSchemas(), name);
  }

  /** Two runs of tagged families with their schemas give a tagged concatenation. */
  lemma ConcatTagged(a: seq<MetricFamily>, b: seq<MetricFamily>, sa: seq<MetricFamily>, sb: seq<MetricFamily>, name: string)
    requires |a| == |sa| && forall k :: 0 <= k < |a| ==> Tagged(a[k], name) && Schema(a[k]) == sa[k]
    requires |b| == |sb| && forall k :: 0 <= k < |b| ==> Tagged(b[k], name) && Schema(b[k]) == sb[k]
    ensures |a + b| == |sa + sb| && forall k :: 0 <= k < |a + b| ==> Tagged((a + b)[k], name) && Schema((a + b)[k]) == (sa + sb)[k]
  {
    forall k | 0 <= k < |a + b| ensures Tagged((a + b)[k], name) && Schema((a + b)[k]) == (sa + sb)[k] {
      if k >= |a| {
        assert (a + b)[k] == b[k - |a|] && (sa + sb)[k] == sb[k - |a|];
      }
    }
  }

  lemma FixedTagged(name: string, config: Json, vmResponse: Json, duration: int)
    ensures var fs := ScrapedFixed(name, config, vmResponse, duration);
      |fs| == 5 && forall k :: 0 <= k < 5 ==> Tagged(fs[k], name) && Schema(fs[k]) == FixedFamilies[k]
  {
    SchemaArities(name);
    VmEntriesArity(EntriesUnder(vmResponse, "VSPseudoClientsList"));
    FiveTagged(ScrapeDurationFamily, ScrapeSuccessFamily, SystemInfoFamily, VmClientStatusFamily, VmClientActivityFamily,
      VmCollected(true, vmResponse), config, name, duration);
  }

  /** The fixed part of a scrape over any five families of the right arities. */
  lemma FiveTagged(d: MetricFamily, s: MetricFamily, i: MetricFamily, vs: MetricFamily, va: MetricFamily,
                   vm: VmContribution, config: Json, name: string, duration: int)
    requires Holds(d, 0, name) && Holds(s, 0, name) && Holds(i, 2, name) && Holds(vs, 5, name) && Holds(va, 4, name)
    requires OfArity(vm.statusRows, 5) && OfArity(vm.activityRows, 4)
    ensures var fs := [WithTarget(d, [], duration, name), WithTarget(s, [], 1, name),
                       AddRows(i, SystemInfoRows(true, config, name), name),
                       AddRows(vs, vm.statusRows, name), AddRows(va, vm.activityRows, name)];
      forall k :: 0 <= k < 5 ==> Tagged(fs[k], name) && Schema(fs[k]) == [Schema(d), Schema(s), Schema(i), Schema(vs), Schema(va)][k]
  {
    WithTargetHolds(d, [], duration, name);
    WithTargetHolds(s, [], 1, name);
    AddRowsHolds(i, SystemInfoRows(true, config, name), 2, name);
    AddRowsHolds(vs, vm.statusRows, 5, name);
    AddRowsHolds(va, vm.activityRows, 4, name);
  }

  /** The job part of a scrape: every family tagged, with its metric's declared schema. */
  lemma JobsTagged(name: string, jobResponse: Json)
    ensures var fs := ScrapedJobs(name, jobResponse);
      |fs| == 10 && forall k :: 0 <= k < 10 ==> Tagged(fs[k], name) && Schema(fs[k]) == JobSchemas()[k]
  {
    var jobs := JobsCollected(true, jobResponse);
    var g := AddJobRows(InitialJobGauges(), jobs, name);
    InitialJobGaugesSpec();
    InitialJobGaugesHold(name);
    AddJobRowsHolds(InitialJobGauges(), jobs, name);
    AddJobRowsOf(InitialJobGauges(), jobs, name);
    var fs := g.InOrder();
    forall k | 0 <= k < 10 ensures Tagged(fs[k], name) && Schema(fs[k]) == JobSchema(JobMetrics[k]) {
      var m := JobMetrics[k];
      assert fs[k] == g.Of(m);
      assert Holds(g.Of(m), JobArity(m), name);
    }
  }

  /** `CommvaultCollector(target_name, target_config)`, which raises ValueError (null) for a falsy configuration. */
  method NewCollector(name: string, config: Json) returns (c: CommvaultCollector?)
    ensures c == null <==> !Truthy(config)
    ensures c != null ==>
      fresh(c) && c.targetName == name && c.targetConfig == config && c.apiClient == null && c.Declared() && c.Valid()
  {
    if !Truthy(config) {
      c := null;
      return;
    }
    c := new CommvaultCollector(name, config);
  }

  class CommvaultCollector {
    const targetName: string
    const targetConfig: Json
    var apiClient: ApiClient.CommvaultAPIClient?

    var scrapeDuration: MetricFamily
    var scrapeSuccess: MetricFamily
    var systemInfo: MetricFamily
    var vmClientStatus: MetricFamily
    var vmClientActivity: MetricFamily
    var jobGauges: JobGauges

    /** All fifteen families, in the order `collect` yields them. */
    function Families(): (fs: seq<MetricFamily>)
      reads this
      ensures |fs| == 15 && fs[..5] == [scrapeDuration, scrapeSuccess, systemInfo, vmClientStatus, vmClientActivity]
      ensures fs[5..] == jobGauges.InOrder()
    {
      [scrapeDuration, scrapeSuccess, systemInfo, vmClientStatus, vmClientActivity] + jobGauges.InOrder()
    }

    /** The VM families have five and four labels before the target label, and their samples end with the target's name. */
    ghost predicate VmValid()
      reads this`vmClientStatus, this`vmClientActivity
    {
      Holds(vmClientStatus, 5, targetName) && Holds(vmClientActivity, 4, targetName)
    }

    /** Every family has its own number of labels before the target label, and every sample ends with the target's name. */
    ghost predicate Valid()
      reads this`scrapeDuration, this`scrapeSuccess, this`systemInfo, this`vmClientStatus, this`vmClientActivity, this`jobGauges
    {
      Holds(scrapeDuration, 0, targetName) && Holds(scrapeSuccess, 0, targetName) &&
      Holds(systemInfo, 2, targetName) && VmValid() && JobsHold(jobGauges, targetName)
    }

    /** In a valid collector every sample of every family ends with the target's name, and so does every sample `collect` yields. */
    lemma FamiliesTagged()
      requires Valid()
      ensures forall k :: 0 <= k < |Families()| ==> Tagged(Families()[k], targetName)
      ensures Tagged(scrapeSuccess, targetName) && Tagged(scrapeDuration, targetName)
    {
      var fs := Families();
      forall k | 5 <= k < 15 ensures Tagged(fs[k], targetName) {
        assert fs[k] == jobGauges.Of(JobMetrics[k - 5]);
      }
    }

    /** Every family as `__init__` declares it, with no samples. */
    ghost predicate Declared()
      reads this`scrapeDuration, this`scrapeSuccess, this`systemInfo, this`vmClientStatus, this`vmClientActivity, this`jobGauges
    {
      scrapeDuration == ScrapeDurationFamily && scrapeSuccess == ScrapeSuccessFamily && systemInfo == SystemInfoFamily &&
      vmClientStatus == VmClientStatusFamily && vmClientActivity == VmClientActivityFamily && jobGauges == InitialJobGauges()
    }

    /** `__init__` for a target whose configuration is truthy: no client yet, and every family empty. */
    constructor (name: string, config: Json)
      requires Truthy(config)
      ensures targetName == name && targetConfig == config && apiClient == null
      ensures Declared() && Valid()
    {
      targetName := name;
      targetConfig := config;
      apiClient := null;
      scrapeDuration := ScrapeDurationFamily;
      scrapeSuccess := ScrapeSuccessFamily;
      systemInfo := SystemInfoFamily;
      vmClientStatus := VmClientStatusFamily;
      vmClientActivity := VmClientActivityFamily;
      jobGauges := InitialJobGauges();
      new;
      SchemaArities(targetName);
      InitialJobGaugesHold(targetName);
    }

    /** `initialize_client`: an existing client is kept; otherwise one is built from the target's dict, which fails for anything else. */
    method InitializeClient() returns (ok: bool)
      modifies this`apiClient
      ensures old(apiClient) != null ==> ok && apiClient == old(apiClient)
      ensures old(apiClient) == null ==> (ok <==> targetConfig.Obj?)
      ensures old(apiClient) == null && ok ==>
        fresh(apiClient) && apiClient.settings == ApiClient.SettingsFromTarget(targetConfig).value && apiClient.authToken == Null
      ensures !ok ==> apiClient == null
    {
      ok := true;
      if apiClient == null {
        var settings := ApiClient.SettingsFromTarget(targetConfig);
        if settings.None? {
          ok := false;
          return;
        }
        apiClient := new ApiClient.CommvaultAPIClient.FromSettings(settings.value);
      }
    }

    /** `_collect_system_info`. */
    method CollectSystemInfo()
      modifies this`systemInfo
      ensures Holds(old(systemInfo), 2, targetName) ==> Holds(systemInfo, 2, targetName)
      ensures systemInfo == AddRows(old(systemInfo), SystemInfoRows(apiClient != null, targetConfig, targetName), targetName)
    {
      if Holds(systemInfo, 2, targetName) {
        AddRowsHolds(systemInfo, SystemInfoRows(apiClient != null, targetConfig, targetName), 2, targetName);
      }
      if apiClient == null || !targetConfig.Obj? {
        assert SystemInfoRows(apiClient != null, targetConfig, targetName) == [];
        assert old(systemInfo).samples + [] == old(systemInfo).samples;
        return;
      }
      var version := GetOr(targetConfig.fields, "version", Str("unknown"));
      var commserveName := GetOr(targetConfig.fields, "commserve_name", Str(targetName));
      AddRowsStep(systemInfo, [], Row([version, commserveName], 1), targetName);
      assert systemInfo.samples + [] == systemInfo.samples;
      systemInfo := WithTarget(systemInfo, [version, commserveName], 1, targetName);
    }

    /** `_collect_vm_pseudo_clients`: `count` is the number of entries processed in full. */
    method CollectVmPseudoClients(response: Json) returns (count: nat)
      modifies this`vmClientStatus, this`vmClientActivity
      ensures old(VmValid()) ==> VmValid()
      ensures var c := VmCollected(apiClient != null, response);
        vmClientStatus == AddRows(old(vmClientStatus), c.statusRows, targetName) &&
        vmClientActivity == AddRows(old(vmClientActivity), c.activityRows, targetName) &&
        count == c.processed
    {
      if VmValid() {
        var c := VmCollected(apiClient != null, response);
        VmEntriesArity(EntriesUnder(response, "VSPseudoClientsList"));
        AddRowsHolds(vmClientStatus, c.statusRows, 5, targetName);
        AddRowsHolds(vmClientActivity, c.activityRows, 4, targetName);
      }
      count := 0;
      assert old(vmClientStatus).samples + [] == old(vmClientStatus).samples;
      assert old(vmClientActivity).samples + [] == old(vmClientActivity).samples;
      if apiClient == null || !Truthy(response) || !response.Obj? || "VSPseudoClientsList" !in response.fields {
        return;
      }
      var listed := ElementsOf(response.fields["VSPseudoClientsList"]);
      if listed.None? {
        return;
      }
      var clients := listed.value;
      var i := 0;
      while i < |clients|
        invariant 0 <= i <= |clients|
        invariant vmClientStatus == AddRows(old(vmClientStatus), VmEntries(clients[..i]).statusRows, targetName)
        invariant vmClientActivity == AddRows(old(vmClientActivity), VmEntries(clients[..i]).activityRows, targetName)
        invariant count == VmEntries(clients[..i]).processed
      {
        ghost var before := VmEntries(clients[..i]);
        VmEntriesPrefix(clients, i);
        AddRowsAppend(old(vmClientStatus), before.statusRows, VmEntry(clients[i]).statusRows, targetName);
        AddRowsAppend(old(vmClientActivity), before.activityRows, VmEntry(clients[i]).activityRows, targetName);
        var processed := CollectVmEntry(clients[i]);
        count := count + processed;
        i := i + 1;
      }
      assert clients[..i] == clients;
    }

    /** Lines 160-177, one VM entry: its status sample, then one activity sample per option while the options are dicts. */
    method CollectVmEntry(client: Json) returns (processed: nat)
      modifies this`vmClientStatus, this`vmClientActivity
      ensures vmClientStatus == AddRows(old(vmClientStatus), VmEntry(client).statusRows, targetName)
      ensures vmClientActivity == AddRows(old(vmClientActivity), VmEntry(client).activityRows, targetName)
      ensures processed == VmEntry(client).processed
    {
      processed := 0;
      assert vmClientStatus.samples + [] == vmClientStatus.samples;
      assert vmClientActivity.samples + [] == vmClientActivity.samples;
      var header := ParseVmHeader(client);
      if header.None? {
        assert VmEntry(client) == VmContribution([], [], 0);
        return;
      }
      var h := header.value;
      AddRowsStep(vmClientStatus, [], VmStatusRow(h), targetName);
      vmClientStatus := WithTarget(vmClientStatus, VmStatusRow(h).labels, h.statusValue, targetName);
      var options := ActivityOptions(client);
      if options.None? {
        assert VmEntry(client) == VmContribution([VmStatusRow(h)], [], 0);
        return;
      }
      var opts := options.value;
      var j := CollectActivity(h, opts);
      LeadingObjCountUnique(opts, j);
      assert VmEntry(client) == VmContribution([VmStatusRow(h)], ActivityRows(h, opts[..j]), if j == |opts| then 1 else 0);
      if j == |opts| {
        processed := 1;
      }
    }

    /** Lines 171-176: one activity sample per option, up to the first option that is not a dict, where the loop raises. */
    method CollectActivity(h: VmHeader, opts: seq<Json>) returns (j: nat)
      modifies this`vmClientActivity
      ensures j <= |opts| && (forall k :: 0 <= k < j ==> opts[k].Obj?) && (j < |opts| ==> !opts[j].Obj?)
      ensures vmClientActivity == AddRows(old(vmClientActivity), ActivityRows(h, opts[..j]), targetName)
    {
      j := 0;
      assert vmClientActivity.samples + [] == vmClientActivity.samples;
      while j < |opts| && opts[j].Obj?
        invariant 0 <= j <= |opts|
        invariant forall k :: 0 <= k < j ==> opts[k].Obj?
        invariant vmClientActivity == AddRows(old(vmClientActivity), ActivityRows(h, opts[..j]), targetName)
      {
        var row := ActivityRow(h, opts[j]);
        assert ActivityRows(h, opts[..j + 1]) == ActivityRows(h, opts[..j]) + [row];
        AddRowsStep(old(vmClientActivity), ActivityRows(h, opts[..j]), row, targetName);
        vmClientActivity := WithTarget(vmClientActivity, row.labels, row.value, targetName);
        j := j + 1;
      }
    }

    /** `_collect_job_metrics`: `count` is the number of jobs processed. */
    method CollectJobMetrics(response: Json) returns (count: nat)
      modifies this`jobGauges
      ensures JobsHold(old(jobGauges), targetName) ==> JobsHold(jobGauges, targetName)
      ensures var jobs := JobsCollected(apiClient != null, response);
        jobGauges == AddJobRows(old(jobGauges), jobs, targetName) && count == JobsProcessed(jobs)
    {
      if JobsHold(jobGauges, targetName) {
        AddJobRowsHolds(jobGauges, JobsCollected(apiClient != null, response), targetName);
      }
      AddJobRowsNone(jobGauges, targetName);
      count := 0;
      if apiClient == null || !Truthy(response) || !response.Obj? || "jobs" !in response.fields {
        return;
      }
      var listed := ElementsOf(response.fields["jobs"]);
      if listed.None? {
        return;
      }
      var aborted;
      count, aborted := CollectJobs(listed.value);
    }

    /**
     * Lines 195-236, the loop over the job entries: each is parsed and, when
     * well-formed, adds one sample to each job gauge. A conversion that
     * overflows raises out of the loop (`aborted`), keeping the samples
     * already added.
     */
    method CollectJobs(jobs: seq<Json>) returns (count: nat, aborted: bool)
      modifies this`jobGauges
      ensures jobGauges == AddJobRows(old(jobGauges), Walked(jobs), targetName) && count == JobsProcessed(Walked(jobs))
      ensures aborted <==> WalkedCount(jobs) < |jobs|
    {
      count := 0;
      aborted := false;
      ghost var initial := jobGauges;
      AddJobRowsNone(initial, targetName);
      var i := 0;
      while i < |jobs|
        invariant 0 <= i <= |jobs|
        invariant i <= WalkedCount(jobs)
        invariant jobGauges == AddJobRows(initial, jobs[..i], targetName)
        invariant count == JobsProcessed(jobs[..i])
        invariant !aborted
      {
        var outcome := ParseJob(jobs[i]);
        assert outcome.Aborted? <==> i == WalkedCount(jobs) by {
          WalkedCountAt(jobs, i);
        }
        if outcome.Aborted? {
          aborted := true;
          break;
        }
        if outcome.Parsed? {
          jobGauges := WithJob(jobGauges, outcome.record, targetName);
          count := count + 1;
        }
        assert jobGauges == AddJobRows(initial, jobs[..i + 1], targetName) by {
          AddJobRowsStep(initial, jobs, i, targetName);
        }
        assert count == JobsProcessed(jobs[..i + 1]) by {
          JobsProcessedPrefix(jobs, i);
        }
        i := i + 1;
      }
    }

    /**
     * `collect`. Without a client it adds a 0 to the success and duration
     * families and yields just those two. Otherwise it runs the three
     * collections, adds the duration and a success of 1 (every collection
     * handles its own errors), and yields all fifteen families in order.
     */
    method Collect(vmResponse: Json, jobResponse: Json, duration: int) returns (families: seq<MetricFamily>)
      requires Valid()
      modifies this`scrapeDuration, this`scrapeSuccess, this`systemInfo, this`vmClientStatus, this`vmClientActivity, this`jobGauges
      ensures Valid()
      ensures apiClient == null ==>
        families == [scrapeSuccess, scrapeDuration] &&
        scrapeSuccess == WithTarget(old(scrapeSuccess), [], 0, targetName) &&
        scrapeDuration == WithTarget(old(scrapeDuration), [], 0, targetName) &&
        systemInfo == old(systemInfo) && vmClientStatus == old(vmClientStatus) && vmClientActivity == old(vmClientActivity) &&
        jobGauges == old(jobGauges)
      ensures apiClient != null ==>
        var vm := VmCollected(true, vmResponse);
        families == Families() &&
        scrapeDuration == WithTarget(old(scrapeDuration), [], duration, targetName) &&
        scrapeSuccess == WithTarget(old(scrapeSuccess), [], 1, targetName) &&
        systemInfo == AddRows(old(systemInfo), SystemInfoRows(true, targetConfig, targetName), targetName) &&
        vmClientStatus == AddRows(old(vmClientStatus), vm.statusRows, targetName) &&
        vmClientActivity == AddRows(old(vmClientActivity), vm.activityRows, targetName) &&
        jobGauges == AddJobRows(old(jobGauges), JobsCollected(true, jobResponse), targetName)
      ensures apiClient != null && old(Declared()) ==> families == Scraped(targetName, targetConfig, vmResponse, jobResponse, duration)
    {
      if apiClient == null {
        families := ScrapeUnavailable();
      } else {
        families := ScrapeAvailable(vmResponse, jobResponse, duration);
        if old(Declared()) {
          ScrapedFrom(scrapeDuration, scrapeSuccess, systemInfo, vmClientStatus, vmClientActivity, jobGauges,
            targetName, targetConfig, vmResponse, jobResponse, duration);
        }
      }
    }

    /** Lines 254-282: with a client, the three collections run, then the duration and a success of 1 are added. */
    method ScrapeAvailable(vmResponse: Json, jobResponse: Json, duration: int) returns (families: seq<MetricFamily>)
      requires apiClient != null && Valid()
      modifies this`scrapeDuration, this`scrapeSuccess, this`systemInfo, this`vmClientStatus, this`vmClientActivity, this`jobGauges
      ensures Valid()
      ensures var vm := VmCollected(true, vmResponse);
        families == Families() &&
        scrapeDuration == WithTarget(old(scrapeDuration), [], duration, targetName) &&
        scrapeSuccess == WithTarget(old(scrapeSuccess), [], 1, targetName) &&
        systemInfo == AddRows(old(systemInfo), SystemInfoRows(true, targetConfig, targetName), targetName) &&
        vmClientStatus == AddRows(old(vmClientStatus), vm.statusRows, targetName) &&
        vmClientActivity == AddRows(old(vmClientActivity), vm.activityRows, targetName) &&
        jobGauges == AddJobRows(old(jobGauges), JobsCollected(true, jobResponse), targetName)
    {
      CollectSystemInfo();
      var vmCount := CollectVmPseudoClients(vmResponse);
      var jobCount := CollectJobMetrics(jobResponse);
      var overallSuccess := true;
      WithTargetHolds(scrapeDuration, [], duration, targetName);
      WithTargetHolds(scrapeSuccess, [], 1, targetName);
      scrapeDuration := WithTarget(scrapeDuration, [], duration, targetName);
      scrapeSuccess := WithTarget(scrapeSuccess, [], if overallSuccess then 1 else 0, targetName);
      families := Families();
    }

    /** Lines 246-252: without a client, a 0 is added to the success and duration families, which are yielded alone. */
    method ScrapeUnavailable() returns (families: seq<MetricFamily>)
      requires Holds(scrapeSuccess, 0, targetName) && Holds(scrapeDuration, 0, targetName)
      modifies this`scrapeSuccess, this`scrapeDuration
      ensures Holds(scrapeSuccess, 0, targetName) && Holds(scrapeDuration, 0, targetName)
      ensures scrapeSuccess == WithTarget(old(scrapeSuccess), [], 0, targetName)
      ensures scrapeDuration == WithTarget(old(scrapeDuration), [], 0, targetName)
      ensures families == [scrapeSuccess, scrapeDuration]
    {
      WithTargetHolds(scrapeSuccess, [], 0, targetName);
      WithTargetHolds(scrapeDuration, [], 0, targetName);
      scrapeSuccess := WithTarget(scrapeSuccess, [], 0, targetName);
      scrapeDuration := WithTarget(scrapeDuration, [], 0, targetName);
      families := [scrapeSuccess, scrapeDuration];
    }
  }
}
