/** One reconciliation pass of CostPolicyReconciler.Reconcile
    (pkg/controllers/costpolicy_controller.go). The policy store, the AWS
    configuration loader, the EC2 describe calls and the clock are inputs:
    the outcome of fetching the policy, the outcome of each describe call,
    the store's reply to each status update, and `now`. The pass returns the
    requeue delay, the error, and a trace of every sub-scan it invokes and
    every status update it issues, in order. */
module Controllers {
  import opened Wrappers
  import opened Seqs
  import opened CostV1
  import opened AwsScanner

  /** A time.Duration, in nanoseconds. */
  type Duration = int

  const Minute: Duration := 60 * 1_000_000_000
  const Hour: Duration := 60 * Minute

  /** ctrl.Result; the empty result has RequeueAfter 0. */
  datatype ReconcileResult = ReconcileResult(requeueAfter: Duration)

  const NoRequeue := ReconcileResult(0)

  /** What reading the policy from the API server gives. */
  datatype FetchOutcome = NotFound | FetchFailed(error: string) | Found(policy: CostPolicy)

  /** The replies the pass gets from AWS: loading the configuration for the
      region (None when it loads), DescribeVolumes for the orphaned-volume
      scan, DescribeInstances for the idle-instance scan, and
      DescribeInstances again inside the untagged-resource scan. */
  datatype Cloud = Cloud(
    loadConfig: Option<string>,
    describeVolumes: Result<seq<Volume>>,
    describeIdle: Result<seq<Reservation>>,
    describeTagged: Result<seq<Reservation>>)

  /** The store's replies to the first and the second status update (None
      when the update succeeds). */
  datatype StoreReplies = StoreReplies(first: Option<string>, second: Option<string>)

  datatype ScanKind = OrphanedVolumesScan | IdleInstancesScan | UntaggedResourcesScan

  datatype Event = SubScan(kind: ScanKind) | StatusUpdate(policy: CostPolicy)

  /** The sub-scans the spec enables, in the order the pass runs them. */
  function EnabledScans(spec: CostPolicySpec): seq<Event>
  {
    (if spec.orphanedVolumes.enabled then [SubScan(OrphanedVolumesScan)] else [])
    + (if spec.idleInstances.enabled then [SubScan(IdleInstancesScan)] else [])
    + (if spec.taggingPolicy.enabled then [SubScan(UntaggedResourcesScan)] else [])
  }

  /** The status updates of a trace, in order. */
  function Updates(trace: seq<Event>): seq<CostPolicy>
  {
    if trace == [] then []
    else
      var e := trace[|trace| - 1];
      Updates(trace[..|trace| - 1]) + (if e.StatusUpdate? then [e.policy] else [])
  }

  /** The phases written, in order. */
  function Phases(trace: seq<Event>): seq<string>
  {
    var updates := Updates(trace);
    seq(|updates|, i requires 0 <= i < |updates| => updates[i].status.phase)
  }

  /** The count each sub-scan contributes: the number of items it reports
      when it is enabled and succeeds, 0 when it is disabled or fails. */
  function OrphanedCount(spec: CostPolicySpec, cloud: Cloud): nat
  {
    if spec.orphanedVolumes.enabled && cloud.describeVolumes.Ok? then |cloud.describeVolumes.value| else 0
  }

  function IdleCount(spec: CostPolicySpec, cloud: Cloud): nat
  {
    if spec.idleInstances.enabled && cloud.describeIdle.Ok? then SumLengths(cloud.describeIdle.value) else 0
  }

  function UntaggedCount(spec: CostPolicySpec, cloud: Cloud): nat
    reads spec.taggingPolicy.requiredTags
  {
    if spec.taggingPolicy.enabled && cloud.describeTagged.Ok?
    then CountUntagged(RequiredTagList(spec.taggingPolicy), Flatten(cloud.describeTagged.value))
    else 0
  }

  /** The three guarded sub-scans, in order. A disabled sub-scan is not
      invoked and a failing one is passed over; either leaves its count at
      0 and the later sub-scans still run. */
  method RunSubScans(scanner: Scanner, spec: CostPolicySpec, cloud: Cloud)
    returns (orphanedCount: int, idleCount: int, untaggedCount: int, scans: seq<Event>)
    ensures scans == EnabledScans(spec)
    ensures orphanedCount == OrphanedCount(spec, cloud)
    ensures idleCount == IdleCount(spec, cloud)
    ensures untaggedCount == UntaggedCount(spec, cloud)
  {
    scans := [];
    orphanedCount, idleCount, untaggedCount := 0, 0, 0;

    if spec.orphanedVolumes.enabled {
      scans := scans + [SubScan(OrphanedVolumesScan)];
      var volumes, scanErr := scanner.ScanOrphanedVolumes(cloud.describeVolumes);
      if scanErr.None? {
        orphanedCount := |volumes|;
      }
    }

    if spec.idleInstances.enabled {
      scans := scans + [SubScan(IdleInstancesScan)];
      var instances, scanErr := scanner.ScanIdleInstances(cloud.describeIdle);
      if scanErr.None? {
        idleCount := |instances|;
      }
    }

    if spec.taggingPolicy.enabled {
      scans := scans + [SubScan(UntaggedResourcesScan)];
      var requiredTags := RequiredTagList(spec.taggingPolicy);
      var count, scanErr := scanner.ScanUntaggedResources(cloud.describeTagged, requiredTags);
      if scanErr.None? {
        untaggedCount := count;
      }
    }
  }

  method Reconcile(fetch: FetchOutcome, cloud: Cloud, now: Time, store: StoreReplies)
    returns (result: ReconcileResult, err: Option<string>, trace: seq<Event>)
    // The policy is gone: nothing is written and nothing is reported.
    ensures fetch.NotFound? ==> result == NoRequeue && err == None && trace == []
    // Any other read error is returned, with nothing written.
    ensures fetch.FetchFailed? ==> result == NoRequeue && err == Some(fetch.error) && trace == []
    // No scanner: one update setting only Phase and Message, no sub-scan,
    // and a retry in ten minutes unless that update fails.
    ensures fetch.Found? && cloud.loadConfig.Some? ==>
      var p := fetch.policy;
      && trace == [StatusUpdate(p.(status := p.status.(
           phase := "Failed",
           message := "Failed to create AWS scanner: " + cloud.loadConfig.value)))]
      && (store.first.None? ==> result == ReconcileResult(10 * Minute) && err == None)
      && (store.first.Some? ==> result == NoRequeue && err == store.first)
    // Otherwise the Scanning update comes first, before any sub-scan.
    ensures fetch.Found? && cloud.loadConfig.None? ==>
      var p := fetch.policy;
      var scanning := p.status.(phase := "Scanning", message := "Scanning AWS resources...", lastScanTime := now);
      && |trace| >= 1
      && trace[0] == StatusUpdate(p.(status := scanning))
      // A failed Scanning update ends the pass.
      && (store.first.Some? ==> trace == [trace[0]] && result == NoRequeue && err == store.first)
      // Else the enabled sub-scans run in order, each contributing its own
      // count or 0, and the Ready update carries the three counts.
      && (store.first.None? ==>
           && trace == [trace[0]] + EnabledScans(p.spec) + [StatusUpdate(p.(status := scanning.(
                orphanedVolumes := OrphanedCount(p.spec, cloud),
                idleInstances := IdleCount(p.spec, cloud),
                untaggedResources := UntaggedCount(p.spec, cloud),
                phase := "Ready",
                message := "Scan completed successfully")))]
           && (store.second.None? ==> result == ReconcileResult(Hour) && err == None)
           && (store.second.Some? ==> result == NoRequeue && err == store.second))
    // At most two status updates, with one of these phase sequences.
    ensures |Updates(trace)| <= 2
    ensures Phases(trace) in {[], ["Failed"], ["Scanning"], ["Scanning", "Ready"]}
    // Neither the spec nor TotalSavings is ever changed.
    ensures forall u :: u in Updates(trace) ==>
      fetch.Found? && u.spec == fetch.policy.spec && u.status.totalSavings == fetch.policy.status.totalSavings
  {
    trace := [];
    assert Updates(trace) == [] && Phases(trace) == [];
    if fetch.NotFound? {
      return NoRequeue, None, trace;
    }
    if fetch.FetchFailed? {
      return NoRequeue, Some(fetch.error), trace;
    }
    var costPolicy := fetch.policy;

    var scanner := NewScanner(costPolicy.spec.region, cloud.loadConfig);
    if scanner.Err? {
      costPolicy := costPolicy.(status := costPolicy.status.(phase := "Failed"));
      costPolicy := costPolicy.(status := costPolicy.status.(message := "Failed to create AWS scanner: " + scanner.error));
      trace := trace + [StatusUpdate(costPolicy)];
      assert trace == PassTrace(costPolicy, [], None);
      PassTraceFacts(fetch.policy, costPolicy, [], None);
      assert Phases(trace) == ["Failed"];
      if store.first.Some? {
        return NoRequeue, store.first, trace;
      }
      return ReconcileResult(10 * Minute), None, trace;
    }

    result, err, trace := ScanAndReport(costPolicy, scanner.value, cloud, now, store);
  }

  /** The part of the pass after the scanner is created: the Scanning
      update, the sub-scans and the Ready update. */
  method ScanAndReport(p: CostPolicy, scanner: Scanner, cloud: Cloud, now: Time, store: StoreReplies)
    returns (result: ReconcileResult, err: Option<string>, trace: seq<Event>)
    // The Scanning update comes first, stamped with now.
    ensures |trace| >= 1
    ensures trace[0] == StatusUpdate(p.(status := p.status.(
      phase := "Scanning", message := "Scanning AWS resources...", lastScanTime := now)))
    // If it fails, nothing else happens and its error is returned.
    ensures store.first.Some? ==> trace == [trace[0]] && result == NoRequeue && err == store.first
    // Otherwise the enabled sub-scans, then the Ready update with the counts.
    ensures store.first.None? ==>
      trace == [trace[0]] + EnabledScans(p.spec) + [StatusUpdate(p.(status := p.status.(
        lastScanTime := now,
        orphanedVolumes := OrphanedCount(p.spec, cloud),
        idleInstances := IdleCount(p.spec, cloud),
        untaggedResources := UntaggedCount(p.spec, cloud),
        phase := "Ready",
        message := "Scan completed successfully")))]
    ensures store.first.None? && store.second.None? ==> result == ReconcileResult(Hour) && err == None
    ensures store.first.None? && store.second.Some? ==> result == NoRequeue && err == store.second
    ensures |Updates(trace)| <= 2
    ensures Phases(trace) in {["Scanning"], ["Scanning", "Ready"]}
    ensures forall u :: u in Updates(trace) ==> u.spec == p.spec && u.status.totalSavings == p.status.totalSavings
  {
    var costPolicy := p;
    costPolicy := costPolicy.(status := costPolicy.status.(phase := "Scanning"));
    costPolicy := costPolicy.(status := costPolicy.status.(message := "Scanning AWS resources..."));
    costPolicy := costPolicy.(status := costPolicy.status.(lastScanTime := now));
    trace := [StatusUpdate(costPolicy)];
    assert trace == PassTrace(costPolicy, [], None);
    PassTraceFacts(p, costPolicy, [], None);
    assert Phases(trace) == ["Scanning"];
    if store.first.Some? {
      return NoRequeue, store.first, trace;
    }
    ghost var scanning := costPolicy;

    var orphanedCount, idleCount, untaggedCount, scans := RunSubScans(scanner, costPolicy.spec, cloud);
    trace := trace + scans;

    costPolicy := costPolicy.(status := costPolicy.status.(orphanedVolumes := orphanedCount));
    costPolicy := costPolicy.(status := costPolicy.status.(idleInstances := idleCount));
    costPolicy := costPolicy.(status := costPolicy.status.(untaggedResources := untaggedCount));
    costPolicy := costPolicy.(status := costPolicy.status.(phase := "Ready"));
    costPolicy := costPolicy.(status := costPolicy.status.(message := "Scan completed successfully"));
    assert costPolicy.status == scanning.status.(
      orphanedVolumes := orphanedCount, idleInstances := idleCount, untaggedResources := untaggedCount,
      phase := "Ready", message := "Scan completed successfully");
    trace := trace + [StatusUpdate(costPolicy)];
    assert trace == PassTrace(scanning, scans, Some(costPolicy));
    PassTraceFacts(p, scanning, scans, Some(costPolicy));
    assert Phases(trace) == ["Scanning", "Ready"];
    if store.second.Some? {
      return NoRequeue, store.second, trace;
    }
    return ReconcileResult(Hour), None, trace;
  }

  /** The trace of a pass that gets as far as its first status update:
      that update, the sub-scans, and the final update if there is one. */
  function PassTrace(first: CostPolicy, scans: seq<Event>, last: Option<CostPolicy>): seq<Event>
  {
    [StatusUpdate(first)] + scans + (if last.Some? then [StatusUpdate(last.value)] else [])
  }

  /** Such a trace issues exactly its first and its last update, whatever
      the sub-scans between them, and keeps whatever the updates keep. */
  lemma PassTraceFacts(p: CostPolicy, first: CostPolicy, scans: seq<Event>, last: Option<CostPolicy>)
    requires forall e :: e in scans ==> e.SubScan?
    requires first.spec == p.spec && first.status.totalSavings == p.status.totalSavings
    requires last.Some? ==> last.value.spec == p.spec && last.value.status.totalSavings == p.status.totalSavings
    ensures Updates(PassTrace(first, scans, last)) == [first] + (if last.Some? then [last.value] else [])
    ensures Phases(PassTrace(first, scans, last)) ==
      [first.status.phase] + (if last.Some? then [last.value.status.phase] else [])
    ensures forall u :: u in Updates(PassTrace(first, scans, last)) ==>
      u.spec == p.spec && u.status.totalSavings == p.status.totalSavings
  {
    var t := PassTrace(first, scans, last);
    UpdatesOfScans([StatusUpdate(first)], scans);
    assert [StatusUpdate(first)][..0] == [];
    if last.Some? {
      assert t[..|scans| + 1] == [StatusUpdate(first)] + scans;
      assert Updates(t) == [first, last.value];
    } else {
      assert t == [StatusUpdate(first)] + scans;
      assert Updates(t) == [first];
    }
  }

  lemma {:induction false} UpdatesOfScans(prefix: seq<Event>, scans: seq<Event>)
    requires forall e :: e in scans ==> e.SubScan?
    ensures Updates(prefix + scans) == Updates(prefix)
    ensures prefix == [] ==> Phases(prefix + scans) == []
  {
    if scans != [] {
      var n := |scans| - 1;
      assert (prefix + scans)[..|prefix + scans| - 1] == prefix + scans[..n];
      assert scans[n] in scans;
      UpdatesOfScans(prefix, scans[..n]);
    } else {
      assert prefix + scans == prefix;
    }
  }
}
