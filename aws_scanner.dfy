/** The EC2 scanner of pkg/aws/scanner.go. The SDK calls (loading the AWS
    configuration, DescribeVolumes, DescribeInstances) are foreign network
    calls; their replies are inputs here, as Result values. */
module AwsScanner {
  import opened Wrappers
  import opened Seqs

  /** An EC2 tag: key and value are nullable string pointers in the SDK. */
  datatype Tag = Tag(key: Option<string>, value: Option<string>)

  datatype Instance = Instance(instanceId: string, tags: seq<Tag>)

  datatype Volume = Volume(volumeId: string)

  /** A reservation of a DescribeInstances reply is its list of instances. */
  type Reservation = seq<Instance>

  /** A scanner bound to a region. The EC2 client it holds is the source of
      the describe replies that its methods take as parameters. */
  datatype Scanner = Scanner(region: string)
  {
    /** Volumes reported as available; a nil slice and the error when the
        describe call fails. */
    method ScanOrphanedVolumes(describe: Result<seq<Volume>>) returns (volumes: seq<Volume>, err: Option<string>)
      ensures describe.Err? ==> volumes == [] && err == Some(describe.error)
      ensures describe.Ok? ==> volumes == describe.value && err == None
    {
      if describe.Err? {
        return [], Some(describe.error);
      }
      return describe.value, None;
    }

    /** All running instances: the instance lists of every reservation,
        concatenated in order. */
    method ScanIdleInstances(describe: Result<seq<Reservation>>) returns (instances: seq<Instance>, err: Option<string>)
      ensures describe.Err? ==> instances == [] && err == Some(describe.error)
      ensures describe.Ok? ==> instances == Flatten(describe.value) && err == None
      ensures describe.Ok? ==> |instances| == SumLengths(describe.value)
    {
      if describe.Err? {
        return [], Some(describe.error);
      }
      var reservations := describe.value;
      instances := [];
      for i := 0 to |reservations|
        invariant instances == Flatten(reservations[..i])
      {
        assert reservations[..i + 1][..i] == reservations[..i];
        instances := instances + reservations[i];
      }
      assert reservations[..|reservations|] == reservations;
      FlattenLength(reservations);
      err := None;
    }

    /** The number of running instances that lack at least one required tag
        key; (0, err) when listing the instances fails. */
    method ScanUntaggedResources(describe: Result<seq<Reservation>>, requiredTags: seq<string>)
      returns (untagged: int, err: Option<string>)
      ensures describe.Err? ==> untagged == 0 && err == Some(describe.error)
      ensures describe.Ok? ==> err == None && untagged == CountUntagged(requiredTags, Flatten(describe.value))
    {
      var instances, listErr := ScanIdleInstances(describe);
      if listErr.Some? {
        return 0, listErr;
      }
      untagged := 0;
      for n := 0 to |instances|
        invariant untagged == CountUntagged(requiredTags, instances[..n])
      {
        var instance := instances[n];
        var tagMap: map<string, string> := map[];
        for j := 0 to |instance.tags|
          invariant tagMap == TagMap(instance.tags[..j])
        {
          assert instance.tags[..j + 1][..j] == instance.tags[..j];
          var tag := instance.tags[j];
          if tag.key.Some? && tag.value.Some? {
            tagMap := tagMap[tag.key.value := tag.value.value];
          }
        }
        assert instance.tags[..|instance.tags|] == instance.tags;
        ghost var before := untagged;
        for k := 0 to |requiredTags|
          invariant untagged == before
          invariant forall m :: 0 <= m < k ==> requiredTags[m] in tagMap
        {
          if requiredTags[k] !in tagMap {
            untagged := untagged + 1;
            break;
          }
        }
        assert untagged == before + (if IsUntagged(requiredTags, instance.tags) then 1 else 0);
        assert instances[..n + 1][..n] == instances[..n];
      }
      assert instances[..|instances|] == instances;
      err := None;
    }
  }

  /** Builds a scanner for the region unless loading the AWS configuration
      failed, in which case that error is returned. */
  function NewScanner(region: string, loadConfig: Option<string>): (r: Result<Scanner>)
    ensures r.Ok? <==> loadConfig.None?
    ensures r.Ok? ==> r.value.region == region
    ensures r.Err? ==> r.error == loadConfig.value
  {
    if loadConfig.Some? then Err(loadConfig.value) else Ok(Scanner(region))
  }

  /** The key/value map built from an instance's tags: tags with a nil key or
      a nil value are skipped, and a later tag overrides an earlier one. */
  function TagMap(tags: seq<Tag>): map<string, string>
  {
    if tags == [] then map[]
    else
      var t := tags[|tags| - 1];
      var m := TagMap(tags[..|tags| - 1]);
      if t.key.Some? && t.value.Some? then m[t.key.value := t.value.value] else m
  }

  /** Reference reading of "the instance has tag k": some tag has key k and
      a non-nil value. */
  predicate HasTag(tags: seq<Tag>, k: string)
  {
    exists i :: 0 <= i < |tags| && tags[i].key == Some(k) && tags[i].value.Some?
  }

  /** The instance misses at least one required key of the tag map. */
  predicate IsUntagged(requiredTags: seq<string>, tags: seq<Tag>)
  {
    exists m :: 0 <= m < |requiredTags| && requiredTags[m] !in TagMap(tags)
  }

  /** The number of instances that are untagged. */
  function CountUntagged(requiredTags: seq<string>, instances: seq<Instance>): nat
  {
    if instances == [] then 0
    else
      CountUntagged(requiredTags, instances[..|instances| - 1])
      + (if IsUntagged(requiredTags, instances[|instances| - 1].tags) then 1 else 0)
  }

  /** A key is in the tag map exactly when some tag carries it with a
      non-nil value. */
  lemma {:induction false} TagMapHasKey(tags: seq<Tag>, k: string)
    ensures k in TagMap(tags) <==> HasTag(tags, k)
  {
    if tags != [] {
      var n := |tags| - 1;
      TagMapHasKey(tags[..n], k);
      if HasTag(tags, k) {
        var i :| 0 <= i < |tags| && tags[i].key == Some(k) && tags[i].value.Some?;
        if i < n {
          assert tags[..n][i] == tags[i];
        }
      }
      if HasTag(tags[..n], k) {
        var i :| 0 <= i < n && tags[..n][i].key == Some(k) && tags[..n][i].value.Some?;
        assert tags[i] == tags[..n][i];
      }
    }
  }

  /** An instance is untagged exactly when some required key is carried by
      none of its tags with a non-nil value. */
  lemma UntaggedIff(requiredTags: seq<string>, tags: seq<Tag>)
    ensures IsUntagged(requiredTags, tags) <==> exists m :: 0 <= m < |requiredTags| && !HasTag(tags, requiredTags[m])
  {
    forall m | 0 <= m < |requiredTags| {
      TagMapHasKey(tags, requiredTags[m]);
    }
  }

  /** A required key whose only tags have a nil value counts as missing. */
  lemma NilValueIsMissing(requiredTags: seq<string>, tags: seq<Tag>, m: nat)
    requires m < |requiredTags|
    requires forall i :: 0 <= i < |tags| && tags[i].key == Some(requiredTags[m]) ==> tags[i].value.None?
    ensures IsUntagged(requiredTags, tags)
  {
    TagMapHasKey(tags, requiredTags[m]);
  }

  /** Tag values are not inspected: two tag lists with the same keys and nil
      values in the same places give the same verdict. */
  lemma ValuesNotInspected(requiredTags: seq<string>, tags: seq<Tag>, tags': seq<Tag>)
    requires |tags| == |tags'|
    requires forall i :: 0 <= i < |tags| ==> tags[i].key == tags'[i].key && tags[i].value.Some? == tags'[i].value.Some?
    ensures IsUntagged(requiredTags, tags) == IsUntagged(requiredTags, tags')
  {
    forall m | 0 <= m < |requiredTags|
      ensures requiredTags[m] in TagMap(tags) <==> requiredTags[m] in TagMap(tags')
    {
      TagMapHasKey(tags, requiredTags[m]);
      TagMapHasKey(tags', requiredTags[m]);
      if HasTag(tags, requiredTags[m]) {
        var i :| 0 <= i < |tags| && tags[i].key == Some(requiredTags[m]) && tags[i].value.Some?;
        assert tags'[i].key == Some(requiredTags[m]) && tags'[i].value.Some?;
      }
      if HasTag(tags', requiredTags[m]) {
        var i :| 0 <= i < |tags'| && tags'[i].key == Some(requiredTags[m]) && tags'[i].value.Some?;
        assert tags[i].key == Some(requiredTags[m]) && tags[i].value.Some?;
      }
    }
  }

  /** Each instance adds at most one to the count, so the count never
      exceeds the number of instances. */
  lemma {:induction false} CountUntaggedBound(requiredTags: seq<string>, instances: seq<Instance>)
    ensures CountUntagged(requiredTags, instances) <= |instances|
  {
    if instances != [] {
      CountUntaggedBound(requiredTags, instances[..|instances| - 1]);
    }
  }

  /** With no required tags nothing is counted. */
  lemma {:induction false} CountUntaggedNoRequired(instances: seq<Instance>)
    ensures CountUntagged([], instances) == 0
  {
    if instances != [] {
      CountUntaggedNoRequired(instances[..|instances| - 1]);
    }
  }

  /** The count over two lists of instances is the sum of their counts. */
  lemma {:induction false} CountUntaggedAppend(requiredTags: seq<string>, xs: seq<Instance>, ys: seq<Instance>)
    ensures CountUntagged(requiredTags, xs + ys) == CountUntagged(requiredTags, xs) + CountUntagged(requiredTags, ys)
  {
    if ys == [] {
      assert xs + ys == xs;
    } else {
      var n := |ys| - 1;
      assert (xs + ys)[..|xs + ys| - 1] == xs + ys[..n];
      CountUntaggedAppend(requiredTags, xs, ys[..n]);
    }
  }

  /** One instance is counted once if it misses any required key, however
      many it misses, and otherwise not at all. */
  lemma CountUntaggedSingle(requiredTags: seq<string>, instance: Instance)
    ensures CountUntagged(requiredTags, [instance]) == (if exists m :: 0 <= m < |requiredTags| && !HasTag(instance.tags, requiredTags[m]) then 1 else 0)
  {
    assert [instance][..0] == [];
    UntaggedIff(requiredTags, instance.tags);
  }

  /** The tag check's example: with required keys env and owner, tags
      {env: prod} are untagged and {env: prod, owner: x} are not. */
  lemma TagCheckExample()
    ensures IsUntagged(["env", "owner"], [Tag(Some("env"), Some("prod"))])
    ensures !IsUntagged(["env", "owner"], [Tag(Some("env"), Some("prod")), Tag(Some("owner"), Some("x"))])
  {
    var one := [Tag(Some("env"), Some("prod"))];
    var two := one + [Tag(Some("owner"), Some("x"))];
    assert one[..0] == [];
    assert two[..1] == one;
    var required := ["env", "owner"];
    assert required[1] !in TagMap(one);
    assert TagMap(two) == map["env" := "prod", "owner" := "x"];
  }
}
