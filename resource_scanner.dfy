/** AWSResourceScanner of src/aws_scanner.py. The boto3 replies
    (describe_volumes, describe_instances) are inputs, as Result values whose
    Err stands for a raised exception; the CloudWatch query is a function
    from instance id to its outcome, and the CPU-average comparison against
    the threshold is a predicate on the datapoints. */
module ResourceScanner {
  import opened Wrappers
  import opened Seqs

  datatype Tag = Tag(key: string, value: string)

  /** An EC2 instance as described; tags is None when the reply has no
      'Tags' entry. */
  datatype Instance = Instance(instanceId: string, instanceType: string, launchTime: string, tags: Option<seq<Tag>>)

  datatype Volume = Volume(volumeId: string, size: int, createTime: string, volumeType: string, tags: Option<seq<Tag>>)

  type Reservation = seq<Instance>

  datatype OrphanedVolume = OrphanedVolume(volumeId: string, size: int, createdDate: string, volumeType: string)

  datatype IdleInstance = IdleInstance(instanceId: string, instanceType: string, launchTime: string)

  datatype UntaggedResource = UntaggedResource(resourceType: string, resourceId: string, missingTags: seq<string>)

  /** The outcome of one CloudWatch CPU query. */
  datatype CpuMetrics = Raised(error: string) | Datapoints(averages: seq<real>)

  const Ec2RequiredTags: seq<string> := ["Environment", "Project", "Owner"]
  const EbsRequiredTags: seq<string> := ["Environment", "Project"]

  /** resource.get('Tags', []) */
  function TagsOf(tags: Option<seq<Tag>>): seq<Tag>
  {
    if tags.Some? then tags.value else []
  }

  /** The keys of the tags, in order; values are not read. */
  function TagKeys(tags: seq<Tag>): (keys: seq<string>)
    ensures |keys| == |tags|
    ensures forall i :: 0 <= i < |tags| ==> keys[i] == tags[i].key
  {
    if tags == [] then [] else TagKeys(tags[..|tags| - 1]) + [tags[|tags| - 1].key]
  }

  /** The required tags absent from the keys, in the order of required. */
  function MissingTags(required: seq<string>, keys: seq<string>): (missing: seq<string>)
    ensures |missing| <= |required|
  {
    if required == [] then []
    else
      var t := required[|required| - 1];
      MissingTags(required[..|required| - 1], keys) + (if t in keys then [] else [t])
  }

  /** missing_tags of a resource with the given Tags entry: the required
      tags absent from the keys of resource.get('Tags', []). */
  function ResourceMissingTags(requiredTags: seq<string>, tags: Option<seq<Tag>>): seq<string>
  {
    MissingTags(requiredTags, TagKeys(TagsOf(tags)))
  }

  /** missing_tags of an instance and of a volume. */
  function InstanceMissingTags(instance: Instance): seq<string>
  {
    ResourceMissingTags(Ec2RequiredTags, instance.tags)
  }

  function VolumeMissingTags(volume: Volume): seq<string>
  {
    ResourceMissingTags(EbsRequiredTags, volume.tags)
  }

  /** The entry reported for an instance or a volume that misses any of the
      given required tags: the body of each loop of scan_untagged_resources. */
  function InstanceCheck(requiredTags: seq<string>): Instance -> Option<UntaggedResource>
  {
    (instance: Instance) =>
      var missing := ResourceMissingTags(requiredTags, instance.tags);
      if missing != [] then Some(UntaggedResource("EC2", instance.instanceId, missing)) else None
  }

  function VolumeCheck(requiredTags: seq<string>): Volume -> Option<UntaggedResource>
  {
    (volume: Volume) =>
      var missing := ResourceMissingTags(requiredTags, volume.tags);
      if missing != [] then Some(UntaggedResource("EBS", volume.volumeId, missing)) else None
  }

  /** The two checks with the scanner's own required tags. */
  const CheckInstance: Instance -> Option<UntaggedResource> := InstanceCheck(Ec2RequiredTags)
  const CheckVolume: Volume -> Option<UntaggedResource> := VolumeCheck(EbsRequiredTags)

  /** The record reported for an instance whose CPU query succeeds with at
      least one datapoint and whose average is below the threshold. */
  function CheckIdle(instance: Instance, query: string -> CpuMetrics, belowThreshold: seq<real> -> bool): Option<IdleInstance>
  {
    match query(instance.instanceId)
    case Raised(_) => None
    case Datapoints(averages) =>
      if averages != [] && belowThreshold(averages)
      then Some(IdleInstance(instance.instanceId, instance.instanceType, instance.launchTime))
      else None
  }

  function ToOrphaned(volume: Volume): OrphanedVolume
  {
    OrphanedVolume(volume.volumeId, volume.size, volume.createTime, volume.volumeType)
  }

  /** One record per described volume, in order; the exception of the
      describe call propagates. */
  method ScanOrphanedVolumes(describe: Result<seq<Volume>>) returns (r: Result<seq<OrphanedVolume>>)
    ensures describe.Err? ==> r == Err(describe.error)
    ensures describe.Ok? ==> r.Ok? && |r.value| == |describe.value|
    ensures describe.Ok? ==> forall i :: 0 <= i < |describe.value| ==>
      r.value[i] == OrphanedVolume(describe.value[i].volumeId, describe.value[i].size,
                                   describe.value[i].createTime, describe.value[i].volumeType)
  {
    if describe.Err? {
      return Err(describe.error);
    }
    var volumes := describe.value;
    var orphanedVolumes: seq<OrphanedVolume> := [];
    for i := 0 to |volumes|
      invariant |orphanedVolumes| == i
      invariant forall j :: 0 <= j < i ==> orphanedVolumes[j] == ToOrphaned(volumes[j])
    {
      orphanedVolumes := orphanedVolumes + [ToOrphaned(volumes[i])];
    }
    return Ok(orphanedVolumes);
  }

  /** The running instances that CheckIdle reports, in order; an instance
      whose query raises is skipped and the rest are still examined. */
  method ScanIdleInstances(describe: Result<seq<Reservation>>, query: string -> CpuMetrics, belowThreshold: seq<real> -> bool)
    returns (r: Result<seq<IdleInstance>>)
    ensures describe.Err? ==> r == Err(describe.error)
    ensures describe.Ok? ==> r == Ok(FilterMap(Flatten(describe.value), i => CheckIdle(i, query, belowThreshold)))
  {
    if describe.Err? {
      return Err(describe.error);
    }
    var reservations := describe.value;
    var check := i => CheckIdle(i, query, belowThreshold);
    var idleInstances: seq<IdleInstance> := [];
    for n := 0 to |reservations|
      invariant idleInstances == FilterMap(Flatten(reservations[..n]), check)
    {
      var reservation := reservations[n];
      assert Flatten(reservations[..n]) + reservation[..0] == Flatten(reservations[..n]);
      for k := 0 to |reservation|
        invariant idleInstances == FilterMap(Flatten(reservations[..n]) + reservation[..k], check)
      {
        var instance := reservation[k];
        FilterMapPrefixStep(Flatten(reservations[..n]), reservation, k, check);
        var metrics := query(instance.instanceId);
        if metrics.Datapoints? && metrics.averages != [] {
          if belowThreshold(metrics.averages) {
            idleInstances := idleInstances + [IdleInstance(instance.instanceId, instance.instanceType, instance.launchTime)];
          }
        }
      }
      assert reservation[..|reservation|] == reservation;
      FlattenStep(reservations, n);
    }
    assert reservations[..|reservations|] == reservations;
    return Ok(idleInstances);
  }

  /** The EC2 entries, then the EBS entries, each group in input order; the
      exception of either describe call propagates. */
  method ScanUntaggedResources(describeInstances: Result<seq<Reservation>>, describeVolumes: Result<seq<Volume>>)
    returns (r: Result<seq<UntaggedResource>>)
    ensures describeInstances.Err? ==> r == Err(describeInstances.error)
    ensures describeInstances.Ok? && describeVolumes.Err? ==> r == Err(describeVolumes.error)
    ensures describeInstances.Ok? && describeVolumes.Ok? ==>
      r == Ok(FilterMap(Flatten(describeInstances.value), CheckInstance) + FilterMap(describeVolumes.value, CheckVolume))
  {
    var untaggedResources: seq<UntaggedResource> := [];
    if describeInstances.Err? {
      return Err(describeInstances.error);
    }
    untaggedResources := AppendFilterMapFlatten(untaggedResources, describeInstances.value, CheckInstance);
    ghost var ec2 := FilterMap(Flatten(describeInstances.value), CheckInstance);
    assert untaggedResources == ec2;
    if describeVolumes.Err? {
      return Err(describeVolumes.error);
    }
    untaggedResources := AppendFilterMap(untaggedResources, describeVolumes.value, CheckVolume);
    return Ok(untaggedResources);
  }

  /** A tag is reported missing exactly when it is required and not among
      the keys. */
  lemma {:induction false} MissingTagsMember(required: seq<string>, keys: seq<string>, t: string)
    ensures t in MissingTags(required, keys) <==> t in required && t !in keys
  {
    if required != [] {
      var n := |required| - 1;
      MissingTagsMember(required[..n], keys, t);
      assert required == required[..n] + [required[n]];
    }
  }

  /** With no tag keys at all, every required tag is missing, in order. */
  lemma {:induction false} MissingTagsNoKeys(required: seq<string>)
    ensures MissingTags(required, []) == required
  {
    if required != [] {
      var n := |required| - 1;
      MissingTagsNoKeys(required[..n]);
      assert required == required[..n] + [required[n]];
    }
  }

  /** An instance's missing_tags: those of Environment, Project, Owner that
      are not tag keys, in that order. */
  lemma Ec2MissingTags(keys: seq<string>)
    ensures MissingTags(Ec2RequiredTags, keys) ==
      (if "Environment" in keys then [] else ["Environment"])
      + (if "Project" in keys then [] else ["Project"])
      + (if "Owner" in keys then [] else ["Owner"])
  {
    assert Ec2RequiredTags[..2] == EbsRequiredTags;
    EbsMissingTags(keys);
  }

  /** A volume's missing_tags: those of Environment, Project that are not
      tag keys, in that order. */
  lemma EbsMissingTags(keys: seq<string>)
    ensures MissingTags(EbsRequiredTags, keys) ==
      (if "Environment" in keys then [] else ["Environment"])
      + (if "Project" in keys then [] else ["Project"])
  {
    assert EbsRequiredTags[..1] == ["Environment"];
    assert ["Environment"][..0] == [];
  }

  /** An instance without a Tags entry misses every required EC2 tag. */
  lemma InstanceNoTagsAllMissing(instance: Instance)
    requires instance.tags.None?
    ensures CheckInstance(instance) == Some(UntaggedResource("EC2", instance.instanceId, Ec2RequiredTags))
  {
    MissingTagsNoKeys(Ec2RequiredTags);
  }

  /** A volume without a Tags entry misses every required EBS tag. */
  lemma VolumeNoTagsAllMissing(volume: Volume)
    requires volume.tags.None?
    ensures CheckVolume(volume) == Some(UntaggedResource("EBS", volume.volumeId, EbsRequiredTags))
  {
    MissingTagsNoKeys(EbsRequiredTags);
  }

  /** Only tag keys are examined: replacing an instance's or a volume's tags
      by tags with the same keys, whatever their values, changes nothing. */
  lemma ValuesNotRead(instance: Instance, volume: Volume, tags: seq<Tag>, tags': seq<Tag>)
    requires |tags| == |tags'|
    requires forall i :: 0 <= i < |tags| ==> tags[i].key == tags'[i].key
    ensures CheckInstance(instance.(tags := Some(tags))) == CheckInstance(instance.(tags := Some(tags')))
    ensures CheckVolume(volume.(tags := Some(tags))) == CheckVolume(volume.(tags := Some(tags')))
  {
    assert TagKeys(tags) == TagKeys(tags');
  }

  /** An instance is reported exactly when its missing_tags is non-empty,
      and then with that list. */
  lemma InstanceReportedIff(instances: seq<Instance>, e: UntaggedResource)
    ensures e in FilterMap(instances, CheckInstance) <==>
      exists i :: 0 <= i < |instances| && InstanceMissingTags(instances[i]) != []
        && e == UntaggedResource("EC2", instances[i].instanceId, InstanceMissingTags(instances[i]))
  {
    FilterMapMember(instances, CheckInstance, e);
    if e in FilterMap(instances, CheckInstance) {
      var i :| 0 <= i < |instances| && CheckInstance(instances[i]) == Some(e);
      assert InstanceMissingTags(instances[i]) != [];
    }
    if exists i :: 0 <= i < |instances| && InstanceMissingTags(instances[i]) != []
        && e == UntaggedResource("EC2", instances[i].instanceId, InstanceMissingTags(instances[i])) {
      var i :| 0 <= i < |instances| && InstanceMissingTags(instances[i]) != []
        && e == UntaggedResource("EC2", instances[i].instanceId, InstanceMissingTags(instances[i]));
      assert CheckInstance(instances[i]) == Some(e);
    }
  }

  /** A volume is reported exactly when its missing_tags is non-empty, and
      then with that list. */
  lemma VolumeReportedIff(volumes: seq<Volume>, e: UntaggedResource)
    ensures e in FilterMap(volumes, CheckVolume) <==>
      exists i :: 0 <= i < |volumes| && VolumeMissingTags(volumes[i]) != []
        && e == UntaggedResource("EBS", volumes[i].volumeId, VolumeMissingTags(volumes[i]))
  {
    FilterMapMember(volumes, CheckVolume, e);
    if e in FilterMap(volumes, CheckVolume) {
      var i :| 0 <= i < |volumes| && CheckVolume(volumes[i]) == Some(e);
      assert VolumeMissingTags(volumes[i]) != [];
    }
    if exists i :: 0 <= i < |volumes| && VolumeMissingTags(volumes[i]) != []
        && e == UntaggedResource("EBS", volumes[i].volumeId, VolumeMissingTags(volumes[i])) {
      var i :| 0 <= i < |volumes| && VolumeMissingTags(volumes[i]) != []
        && e == UntaggedResource("EBS", volumes[i].volumeId, VolumeMissingTags(volumes[i]));
      assert CheckVolume(volumes[i]) == Some(e);
    }
  }

  /** All EC2 entries come before all EBS entries, and there are at most as
      many entries as resources. */
  lemma UntaggedOrderAndBound(instances: seq<Instance>, volumes: seq<Volume>)
    ensures var r := FilterMap(instances, CheckInstance) + FilterMap(volumes, CheckVolume);
      && |r| <= |instances| + |volumes|
      && forall j, k :: 0 <= j < k < |r| && r[k].resourceType == "EC2" ==> r[j].resourceType == "EC2"
  {
    var ec2 := FilterMap(instances, CheckInstance);
    var ebs := FilterMap(volumes, CheckVolume);
    FilterMapLength(instances, CheckInstance);
    FilterMapLength(volumes, CheckVolume);
    forall j | 0 <= j < |ec2|
      ensures ec2[j].resourceType == "EC2"
    {
      FilterMapMember(instances, CheckInstance, ec2[j]);
    }
    forall j | 0 <= j < |ebs|
      ensures ebs[j].resourceType == "EBS"
    {
      FilterMapMember(volumes, CheckVolume, ebs[j]);
    }
  }

  /** An instance is reported idle exactly when its query returned at least
      one datapoint and the average is below the threshold; an instance with
      no datapoints or whose query raised is never reported. */
  lemma IdleReportedIff(instances: seq<Instance>, query: string -> CpuMetrics, belowThreshold: seq<real> -> bool, e: IdleInstance)
    ensures e in FilterMap(instances, i => CheckIdle(i, query, belowThreshold)) <==>
      exists i :: 0 <= i < |instances|
        && query(instances[i].instanceId).Datapoints?
        && query(instances[i].instanceId).averages != []
        && belowThreshold(query(instances[i].instanceId).averages)
        && e == IdleInstance(instances[i].instanceId, instances[i].instanceType, instances[i].launchTime)
  {
    FilterMapMember(instances, i => CheckIdle(i, query, belowThreshold), e);
  }

  /** An instance whose query raises is skipped, and the instances before and
      after it are processed as if it were not there. */
  lemma IdleSkipsFailedQuery(before: seq<Instance>, x: Instance, after: seq<Instance>,
                             query: string -> CpuMetrics, belowThreshold: seq<real> -> bool)
    requires query(x.instanceId).Raised?
    ensures FilterMap(before + [x] + after, i => CheckIdle(i, query, belowThreshold))
         == FilterMap(before, i => CheckIdle(i, query, belowThreshold)) + FilterMap(after, i => CheckIdle(i, query, belowThreshold))
  {
    var check := i => CheckIdle(i, query, belowThreshold);
    FilterMapAppend(before + [x], after, check);
    FilterMapStep(before, x, check);
  }
}
