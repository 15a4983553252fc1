/** The CostPolicy API types of pkg/apis/cost/v1/types.go and their deep
    copies. Go structs are datatypes (copied by value); the slices that a
    plain struct copy would share, RequiredTags and Items, are arrays, with
    null for a nil slice; a struct pointer *T is an Option<T>, with None for
    nil. */
module CostV1 {
  import opened Wrappers

  /** metav1.Time, as an instant on a number line. */
  type Time = int

  datatype OrphanedVolumePolicy = OrphanedVolumePolicy(enabled: bool, autoDelete: bool, maxAgeDays: int)

  /** cpuThreshold is a float64 in the source; here it is only carried. */
  datatype IdleInstancePolicy = IdleInstancePolicy(enabled: bool, cpuThreshold: real, monitoringDays: int, autoStop: bool)

  datatype TaggingPolicy = TaggingPolicy(enabled: bool, requiredTags: array?<string>)

  datatype CostPolicySpec = CostPolicySpec(
    region: string,
    scanSchedule: string,
    orphanedVolumes: OrphanedVolumePolicy,
    idleInstances: IdleInstancePolicy,
    taggingPolicy: TaggingPolicy)

  datatype CostPolicyStatus = CostPolicyStatus(
    lastScanTime: Time,
    orphanedVolumes: int,
    idleInstances: int,
    untaggedResources: int,
    totalSavings: string,
    phase: string,
    message: string)

  datatype CostPolicy = CostPolicy(spec: CostPolicySpec, status: CostPolicyStatus)

  datatype CostPolicyList = CostPolicyList(items: array?<CostPolicy>)

  /** What a slice holds: None for a nil slice. */
  function SliceContents<T>(a: array?<T>): Option<seq<T>>
    reads a
  {
    if a == null then None else Some(a[..])
  }

  /** The required tags as the scanner ranges over them: a nil slice has no
      elements. */
  function RequiredTagList(p: TaggingPolicy): seq<string>
    reads p.requiredTags
  {
    if p.requiredTags == null then [] else p.requiredTags[..]
  }

  /** Equal as values: same fields, and slices with the same nil-ness and the
      same elements in the same order, whether or not they share storage. */
  predicate SameTaggingPolicy(x: TaggingPolicy, y: TaggingPolicy)
    reads x.requiredTags, y.requiredTags
  {
    x.enabled == y.enabled && SliceContents(x.requiredTags) == SliceContents(y.requiredTags)
  }

  predicate SameSpec(x: CostPolicySpec, y: CostPolicySpec)
    reads x.taggingPolicy.requiredTags, y.taggingPolicy.requiredTags
  {
    && x.region == y.region
    && x.scanSchedule == y.scanSchedule
    && x.orphanedVolumes == y.orphanedVolumes
    && x.idleInstances == y.idleInstances
    && SameTaggingPolicy(x.taggingPolicy, y.taggingPolicy)
  }

  predicate SamePolicy(x: CostPolicy, y: CostPolicy)
    reads x.spec.taggingPolicy.requiredTags, y.spec.taggingPolicy.requiredTags
  {
    SameSpec(x.spec, y.spec) && x.status == y.status
  }

  /** Go's built-in copy: copies min(len(dst), len(src)) elements from the
      front of src into dst and returns that number. */
  method Copy<T>(dst: array<T>, src: array<T>) returns (n: int)
    modifies dst
    ensures n == if dst.Length < src.Length then dst.Length else src.Length
    ensures dst[..n] == src[..n]
    ensures dst[n..] == old(dst[n..])
  {
    n := if dst.Length < src.Length then dst.Length else src.Length;
    for i := 0 to n
      invariant dst[..i] == src[..i]
      invariant dst[i..] == old(dst[i..])
    {
      dst[i] := src[i];
    }
  }

  method OrphanedVolumePolicyDeepCopyInto(src: OrphanedVolumePolicy) returns (dst: OrphanedVolumePolicy)
    ensures dst == src
  {
    dst := src;
  }

  method OrphanedVolumePolicyDeepCopy(src: Option<OrphanedVolumePolicy>) returns (dst: Option<OrphanedVolumePolicy>)
    ensures src.None? ==> dst.None?
    ensures src.Some? ==> dst == Some(src.value)
  {
    if src.None? {
      return None;
    }
    var copy := OrphanedVolumePolicyDeepCopyInto(src.value);
    dst := Some(copy);
  }

  method IdleInstancePolicyDeepCopyInto(src: IdleInstancePolicy) returns (dst: IdleInstancePolicy)
    ensures dst == src
  {
    dst := src;
  }

  method IdleInstancePolicyDeepCopy(src: Option<IdleInstancePolicy>) returns (dst: Option<IdleInstancePolicy>)
    ensures src.None? ==> dst.None?
    ensures src.Some? ==> dst == Some(src.value)
  {
    if src.None? {
      return None;
    }
    var copy := IdleInstancePolicyDeepCopyInto(src.value);
    dst := Some(copy);
  }

  /** A nil RequiredTags stays nil; a non-nil one is copied into a freshly
      allocated array of the same length and elements. */
  method TaggingPolicyDeepCopyInto(src: TaggingPolicy) returns (dst: TaggingPolicy)
    ensures SameTaggingPolicy(dst, src)
    ensures dst.requiredTags != null ==> fresh(dst.requiredTags)
  {
    dst := src;
    if src.requiredTags != null {
      var tags := new string[src.requiredTags.Length];
      var n := Copy(tags, src.requiredTags);
      assert tags[..] == tags[..n] && src.requiredTags[..] == src.requiredTags[..n];
      dst := dst.(requiredTags := tags);
    }
  }

  method TaggingPolicyDeepCopy(src: Option<TaggingPolicy>) returns (dst: Option<TaggingPolicy>)
    ensures src.None? ==> dst.None?
    ensures src.Some? ==> dst.Some? && SameTaggingPolicy(dst.value, src.value)
    ensures dst.Some? && dst.value.requiredTags != null ==> fresh(dst.value.requiredTags)
  {
    if src.None? {
      return None;
    }
    var copy := TaggingPolicyDeepCopyInto(src.value);
    dst := Some(copy);
  }

  method CostPolicySpecDeepCopyInto(src: CostPolicySpec) returns (dst: CostPolicySpec)
    ensures SameSpec(dst, src)
    ensures dst.taggingPolicy.requiredTags != null ==> fresh(dst.taggingPolicy.requiredTags)
  {
    dst := src;
    var orphaned := OrphanedVolumePolicyDeepCopyInto(src.orphanedVolumes);
    var idle := IdleInstancePolicyDeepCopyInto(src.idleInstances);
    var tagging := TaggingPolicyDeepCopyInto(src.taggingPolicy);
    dst := dst.(orphanedVolumes := orphaned, idleInstances := idle, taggingPolicy := tagging);
  }

  method CostPolicySpecDeepCopy(src: Option<CostPolicySpec>) returns (dst: Option<CostPolicySpec>)
    ensures src.None? ==> dst.None?
    ensures src.Some? ==> dst.Some? && SameSpec(dst.value, src.value)
    ensures dst.Some? && dst.value.taggingPolicy.requiredTags != null ==> fresh(dst.value.taggingPolicy.requiredTags)
  {
    if src.None? {
      return None;
    }
    var copy := CostPolicySpecDeepCopyInto(src.value);
    dst := Some(copy);
  }

  /** Every status field, LastScanTime included, is copied as it is. */
  method CostPolicyStatusDeepCopyInto(src: CostPolicyStatus) returns (dst: CostPolicyStatus)
    ensures dst.lastScanTime == src.lastScanTime
    ensures dst.orphanedVolumes == src.orphanedVolumes && dst.idleInstances == src.idleInstances
    ensures dst.untaggedResources == src.untaggedResources
    ensures dst.totalSavings == src.totalSavings && dst.phase == src.phase && dst.message == src.message
  {
    dst := src;
    dst := dst.(lastScanTime := src.lastScanTime);
  }

  method CostPolicyStatusDeepCopy(src: Option<CostPolicyStatus>) returns (dst: Option<CostPolicyStatus>)
    ensures src.None? ==> dst.None?
    ensures src.Some? ==> dst == Some(src.value)
  {
    if src.None? {
      return None;
    }
    var copy := CostPolicyStatusDeepCopyInto(src.value);
    dst := Some(copy);
  }

  method CostPolicyDeepCopyInto(src: CostPolicy) returns (dst: CostPolicy)
    ensures SamePolicy(dst, src)
    ensures dst.spec.taggingPolicy.requiredTags != null ==> fresh(dst.spec.taggingPolicy.requiredTags)
  {
    dst := src;
    var spec := CostPolicySpecDeepCopyInto(src.spec);
    var status := CostPolicyStatusDeepCopyInto(src.status);
    dst := dst.(spec := spec, status := status);
  }

  method CostPolicyDeepCopy(src: Option<CostPolicy>) returns (dst: Option<CostPolicy>)
    ensures src.None? ==> dst.None?
    ensures src.Some? ==> dst.Some? && SamePolicy(dst.value, src.value)
    ensures dst.Some? && dst.value.spec.taggingPolicy.requiredTags != null ==> fresh(dst.value.spec.taggingPolicy.requiredTags)
  {
    if src.None? {
      return None;
    }
    var copy := CostPolicyDeepCopyInto(src.value);
    dst := Some(copy);
  }

  /** Nil Items stays nil; otherwise Items is a fresh array of the same length
      whose every element is a deep copy of the corresponding source element,
      with its own freshly allocated RequiredTags. */
  method CostPolicyListDeepCopyInto(src: CostPolicyList) returns (dst: CostPolicyList)
    ensures (dst.items == null) == (src.items == null)
    ensures dst.items != null ==> fresh(dst.items) && dst.items.Length == src.items.Length
    ensures dst.items != null ==> forall i :: 0 <= i < dst.items.Length ==>
      SamePolicy(dst.items[i], src.items[i])
      && (dst.items[i].spec.taggingPolicy.requiredTags != null ==> fresh(dst.items[i].spec.taggingPolicy.requiredTags))
    ensures dst.items != null ==> forall i, j :: 0 <= i < j < dst.items.Length && dst.items[i].spec.taggingPolicy.requiredTags != null ==>
      dst.items[i].spec.taggingPolicy.requiredTags != dst.items[j].spec.taggingPolicy.requiredTags
  {
    dst := src;
    if src.items != null {
      var items := new CostPolicy[src.items.Length];
      for i := 0 to items.Length
        invariant forall j :: 0 <= j < i ==>
          SamePolicy(items[j], src.items[j])
          && (items[j].spec.taggingPolicy.requiredTags != null ==> fresh(items[j].spec.taggingPolicy.requiredTags))
        invariant forall j, k :: 0 <= j < k < i && items[j].spec.taggingPolicy.requiredTags != null ==>
          items[j].spec.taggingPolicy.requiredTags != items[k].spec.taggingPolicy.requiredTags
      {
        var copy := CostPolicyDeepCopyInto(src.items[i]);
        items[i] := copy;
      }
      dst := dst.(items := items);
    }
  }

  method CostPolicyListDeepCopy(src: Option<CostPolicyList>) returns (dst: Option<CostPolicyList>)
    ensures src.None? ==> dst.None?
    ensures src.Some? ==> dst.Some? && (dst.value.items == null) == (src.value.items == null)
    ensures src.Some? && dst.value.items != null ==> fresh(dst.value.items) && dst.value.items.Length == src.value.items.Length
    ensures src.Some? && dst.value.items != null ==> forall i :: 0 <= i < dst.value.items.Length ==>
      SamePolicy(dst.value.items[i], src.value.items[i])
      && (dst.value.items[i].spec.taggingPolicy.requiredTags != null ==> fresh(dst.value.items[i].spec.taggingPolicy.requiredTags))
    ensures src.Some? && dst.value.items != null ==> forall i, j :: 0 <= i < j < dst.value.items.Length && dst.value.items[i].spec.taggingPolicy.requiredTags != null ==>
      dst.value.items[i].spec.taggingPolicy.requiredTags != dst.value.items[j].spec.taggingPolicy.requiredTags
  {
    if src.None? {
      return None;
    }
    var copy := CostPolicyListDeepCopyInto(src.value);
    dst := Some(copy);
  }

  /** The copy shares no storage with the original: writing an element of the
      copy's RequiredTags leaves the original's tags as they were. */
  method TaggingPolicyCopyIsIndependent(src: TaggingPolicy, i: nat, tag: string) returns (copy: TaggingPolicy)
    requires src.requiredTags != null && i < src.requiredTags.Length
    ensures src.requiredTags[..] == old(src.requiredTags[..])
    ensures copy.requiredTags != null && copy.requiredTags[..] == old(src.requiredTags[..])[i := tag]
  {
    copy := TaggingPolicyDeepCopyInto(src);
    assert |SliceContents(copy.requiredTags).value| == |SliceContents(src.requiredTags).value|;
    copy.requiredTags[i] := tag;
  }

  /** Replacing an item of the copied list leaves the original list as it
      was, and the other items of the copy still equal the originals. */
  method CostPolicyListCopyIsIndependent(src: CostPolicyList, i: nat, p: CostPolicy) returns (copy: CostPolicyList)
    requires src.items != null && i < src.items.Length
    ensures src.items[..] == old(src.items[..])
    ensures copy.items != null && copy.items.Length == src.items.Length && copy.items[i] == p
    ensures forall j :: 0 <= j < copy.items.Length && j != i ==> SamePolicy(copy.items[j], src.items[j])
  {
    copy := CostPolicyListDeepCopyInto(src);
    copy.items[i] := p;
  }
}
