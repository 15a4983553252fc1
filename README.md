# Cost-governance operator: reconciliation pass, scanners and API types

A Dafny model of the core of a Kubernetes operator that keeps a `CostPolicy`
resource's status in step with an AWS account. It models:

- **The reconciliation pass** (`CostPolicyReconciler.Reconcile`):
  1. It fetches the policy and builds an EC2 scanner for its region.
  2. It writes a `Scanning` status, then runs the enabled sub-scans (orphaned volumes, idle instances, untagged resources).
  3. It writes a `Ready` status with the three counts, or a `Failed` status when no scanner could be built.
  4. It returns a requeue delay or an error.

  The policy store, the AWS configuration loader, the EC2 describe calls and the clock are inputs. The method returns a trace of every sub-scan it runs and every status update it issues, in order.
- **The Go EC2 scanner** (`pkg/aws/scanner.go`):
  - Orphaned volumes are the describe reply as is.
  - Running instances are the reservations' instance lists, flattened.
  - The untagged count is the number of instances whose tag map lacks at least one required key.
- **The API types** (`pkg/apis/cost/v1/types.go`) and their `DeepCopy`/`DeepCopyInto` methods. The `RequiredTags` and `Items` slices are arrays, so copying them, and not sharing them, is visible in the model. A nil slice is `null`; a nil struct pointer is `None`.
- **The Python scanner** (`src/aws_scanner.py`): the `missing_tags` computation for EC2 instances and EBS volumes, the per-volume records, and the per-instance skip on a failed CloudWatch query. A boto3 exception is an `Err` reply.

Files:

| file | contents |
|---|---|
| `wrappers.dfy` | `Option`, `Result` |
| `seqs.dfy` | `Flatten`, `FilterMap` (keep-some-and-map), the loops that build them, and their lemmas |
| `cost_v1.dfy` | module `CostV1`: the API types and deep copies |
| `aws_scanner.dfy` | module `AwsScanner`: the Go scanner |
| `costpolicy_controller.dfy` | module `Controllers`: the reconciliation pass |
| `resource_scanner.dfy` | module `ResourceScanner`: the Python scanner |

The model states these behaviours of the Go code, which a reader might not expect:

- The Scanning message is `"Scanning AWS resources..."`.
- The Failed message is `"Failed to create AWS scanner: "` followed by the error.
- When the Failed-status update is rejected, the pass returns that update's error with an empty result, not the scanner error.
- A pass issues zero, one or two status updates, never three.
- The Failed status keeps the previous counts and `LastScanTime`. Only `Phase` and `Message` are set.

## Model

Some functions are the reference definitions that the contracts below are stated against. They carry no contract of their own:
- `AwsScanner.TagMap` is the tag map built at pkg/aws/scanner.go:78-83.
- `AwsScanner.HasTag` is the reference reading of "the instance has the tag".
- `AwsScanner.CountUntagged` is the count of pkg/aws/scanner.go:76-93.
- `ResourceScanner.CheckIdle` is the per-instance decision of src/aws_scanner.py:54-76.
- `ResourceScanner.InstanceCheck` and `ResourceScanner.VolumeCheck` are the loop bodies of src/aws_scanner.py:89-101 and 106-117.
- `Seqs.Flatten` and `Seqs.FilterMap` are the flattening and keep-and-map operations.

| member | source | states |
|---|---|---|
| Controllers.Reconcile | pkg/controllers/costpolicy_controller.go:26-125 | Each exit path, stated outright. NotFound: empty result, nil error, no update. Any other read error: that error is returned, no update. Scanner failure: exactly one update, setting only Phase "Failed" and Message "Failed to create AWS scanner: <err>", and no sub-scan. That update then gives a 10-minute requeue, or, if it fails, its error. Otherwise the trace starts with the Scanning update (LastScanTime = now); a failed Scanning update ends the pass with its error. Then the enabled sub-scans in order, then the Ready update carrying the three counts and the Scanning timestamp; that update gives a 1-hour requeue or its error. In all cases: at most two updates, phases one of [], [Failed], [Scanning], [Scanning, Ready], and no update changes Spec or TotalSavings |
| Controllers.ScanAndReport | pkg/controllers/costpolicy_controller.go:60-124 | The normal path after the scanner exists. The Scanning update comes first; a failed first write returns its error with nothing else issued. Otherwise: the enabled sub-scans, then the Ready update with the three counts, and a 1-hour requeue unless that update fails. The phases are [Scanning] or [Scanning, Ready], and Spec and TotalSavings are kept |
| Controllers.RunSubScans | pkg/controllers/costpolicy_controller.go:72-105 | The sub-scans run are exactly the enabled ones, in the order volumes, instances, tags. Each count is its scan's result when the scan is enabled and succeeds, and 0 when it is disabled or fails. A failure does not stop the later scans |
| Controllers.PassTraceFacts | pkg/controllers/costpolicy_controller.go:49-116 | A trace of an update, sub-scans and an optional last update issues exactly those updates, with exactly their phases, and keeps the Spec and TotalSavings that both updates keep |
| Controllers.UpdatesOfScans | pkg/controllers/costpolicy_controller.go:74-105 | Sub-scans add no status update to a trace |
| AwsScanner.NewScanner | pkg/aws/scanner.go:17-27 | A scanner exists exactly when the configuration loads, and is bound to the requested region; otherwise the load error is returned |
| AwsScanner.Scanner.ScanOrphanedVolumes | pkg/aws/scanner.go:29-45 | On a failed describe call: a nil slice and the error; otherwise the reply's volumes and a nil error |
| AwsScanner.Scanner.ScanIdleInstances | pkg/aws/scanner.go:47-68 | On a failed describe call: a nil slice and the error; otherwise every reservation's instances concatenated in order, whose length is the sum of the reservation lengths |
| AwsScanner.Scanner.ScanUntaggedResources | pkg/aws/scanner.go:70-94 | (0, err) when listing the instances fails; otherwise the number of instances with a required key missing from the tag map |
| AwsScanner.TagMapHasKey | pkg/aws/scanner.go:78-83 | A key is in an instance's tag map exactly when some tag has that key and a non-nil value; tags with a nil key or value are skipped |
| AwsScanner.UntaggedIff | pkg/aws/scanner.go:85-90 | An instance is counted exactly when at least one required key has no tag with a non-nil value |
| AwsScanner.NilValueIsMissing | pkg/aws/scanner.go:79-83 | A required key whose tags all have nil values counts as missing |
| AwsScanner.ValuesNotInspected | pkg/aws/scanner.go:78-90 | The count depends only on the tag keys and on whether each value is nil, never on the value's text |
| AwsScanner.CountUntaggedBound | pkg/aws/scanner.go:76-93 | The count is at most the number of instances |
| AwsScanner.CountUntaggedNoRequired | pkg/aws/scanner.go:85-90 | With no required tags the count is 0 |
| AwsScanner.CountUntaggedAppend | pkg/aws/scanner.go:77-91 | The count over two instance lists is the sum of the counts |
| AwsScanner.CountUntaggedSingle | pkg/aws/scanner.go:85-90 | One instance adds exactly 1 when any required key is missing and 0 otherwise, however many keys are missing (the loop breaks after the first miss) |
| AwsScanner.TagCheckExample | pkg/aws/scanner.go:77-91 | With required [env, owner], an instance tagged only env is untagged, and one tagged env and owner is not |
| CostV1.Copy | pkg/apis/cost/v1/types.go:141 | Go's copy: min(len) elements copied from the front and that number returned; the rest of the destination is unchanged |
| CostV1.OrphanedVolumePolicyDeepCopyInto | pkg/apis/cost/v1/types.go:105-108 | The copy equals the source |
| CostV1.OrphanedVolumePolicyDeepCopy | pkg/apis/cost/v1/types.go:110-118 | nil gives nil; otherwise a copy equal to the source |
| CostV1.IdleInstancePolicyDeepCopyInto | pkg/apis/cost/v1/types.go:120-123 | The copy equals the source |
| CostV1.IdleInstancePolicyDeepCopy | pkg/apis/cost/v1/types.go:125-133 | nil gives nil; otherwise a copy equal to the source |
| CostV1.TaggingPolicyDeepCopyInto | pkg/apis/cost/v1/types.go:135-143 | Enabled is copied; a nil RequiredTags stays nil; a non-nil one becomes a freshly allocated array with the same length and elements in the same order |
| CostV1.TaggingPolicyDeepCopy | pkg/apis/cost/v1/types.go:145-153 | nil gives nil; otherwise a deep copy whose RequiredTags, if any, is fresh |
| CostV1.CostPolicySpecDeepCopyInto | pkg/apis/cost/v1/types.go:87-93 | Every spec field and sub-policy equals the source's; RequiredTags is copied into fresh storage |
| CostV1.CostPolicySpecDeepCopy | pkg/apis/cost/v1/types.go:95-103 | nil gives nil; otherwise such a deep copy |
| CostV1.CostPolicyStatusDeepCopyInto | pkg/apis/cost/v1/types.go:155-159 | Every status field is copied: LastScanTime, the three counts, TotalSavings, Phase, Message |
| CostV1.CostPolicyStatusDeepCopy | pkg/apis/cost/v1/types.go:161-169 | nil gives nil; otherwise a copy equal to the source |
| CostV1.CostPolicyDeepCopyInto | pkg/apis/cost/v1/types.go:78-85 | Spec and status equal the source's as values, with fresh RequiredTags |
| CostV1.CostPolicyDeepCopy | pkg/apis/cost/v1/types.go:68-76 | nil gives nil; otherwise such a deep copy |
| CostV1.CostPolicyListDeepCopyInto | pkg/apis/cost/v1/types.go:195-207 | Nil Items stays nil. Otherwise Items is a fresh array of the same length whose every element is a deep copy of the source element, with its own fresh RequiredTags, no two items sharing a RequiredTags array |
| CostV1.CostPolicyListDeepCopy | pkg/apis/cost/v1/types.go:185-193 | nil gives nil; otherwise such a list copy |
| CostV1.TaggingPolicyCopyIsIndependent | pkg/apis/cost/v1/types.go:138-142 | After a deep copy, writing an element of the copy's RequiredTags changes only the copy; the original's tags are as before |
| CostV1.CostPolicyListCopyIsIndependent | pkg/apis/cost/v1/types.go:200-206 | After a deep copy, replacing an item of the copy leaves the original's items as before; the other items still equal the originals |
| ResourceScanner.ScanOrphanedVolumes | src/aws_scanner.py:19-35 | A raised describe call propagates; otherwise exactly one record per described volume, in order, holding that volume's id, size, creation time and type |
| ResourceScanner.ScanIdleInstances | src/aws_scanner.py:37-80 | A raised describe call propagates; otherwise the records of the running instances, in order, that have datapoints and an average below the threshold |
| ResourceScanner.ScanUntaggedResources | src/aws_scanner.py:81-120 | An exception from either describe call propagates; otherwise the EC2 entries of all instances followed by the EBS entries of all volumes, each group in input order |
| ResourceScanner.TagKeys | src/aws_scanner.py:91 | One key per tag, the i-th key being the i-th tag's key |
| ResourceScanner.MissingTags | src/aws_scanner.py:94 | The missing_tags comprehension (also at line 110): never more tags than are required; which tags and in what order is stated by the lemmas below |
| ResourceScanner.MissingTagsMember | src/aws_scanner.py:94 | A tag is reported missing exactly when it is required and not among the keys |
| ResourceScanner.MissingTagsNoKeys | src/aws_scanner.py:90-94 | With no tag keys every required tag is missing, in order |
| ResourceScanner.Ec2MissingTags | src/aws_scanner.py:93-94 | An instance's missing_tags is exactly those of Environment, Project, Owner not among its keys, in that order |
| ResourceScanner.EbsMissingTags | src/aws_scanner.py:109-110 | A volume's missing_tags is exactly those of Environment, Project not among its keys, in that order |
| ResourceScanner.InstanceNoTagsAllMissing | src/aws_scanner.py:90-101 | An instance without a Tags entry is reported with all of Environment, Project, Owner missing |
| ResourceScanner.VolumeNoTagsAllMissing | src/aws_scanner.py:106-117 | A volume without a Tags entry is reported with both Environment and Project missing |
| ResourceScanner.ValuesNotRead | src/aws_scanner.py:90-110 | Replacing tags by tags with the same keys, whatever the values, changes nothing |
| ResourceScanner.InstanceReportedIff | src/aws_scanner.py:88-101 | An EC2 entry is reported exactly for an instance whose missing_tags is non-empty, and carries that list |
| ResourceScanner.VolumeReportedIff | src/aws_scanner.py:105-117 | An EBS entry is reported exactly for a volume whose missing_tags is non-empty, and carries that list |
| ResourceScanner.UntaggedOrderAndBound | src/aws_scanner.py:86-117 | Every EC2 entry precedes every EBS entry, and there are at most #instances + #volumes entries |
| ResourceScanner.IdleReportedIff | src/aws_scanner.py:59-74 | An instance is reported idle exactly when its query returned at least one datapoint and the average is below the threshold, so one without datapoints is never reported |
| ResourceScanner.IdleSkipsFailedQuery | src/aws_scanner.py:58-76 | An instance whose query raises is skipped, and the instances around it are reported as if it were absent |
| Seqs.AppendFilterMap | src/aws_scanner.py:105-117 | The loop appends, in order, an entry for each element the check keeps |
| Seqs.AppendFilterMapFlatten | src/aws_scanner.py:88-101 | The nested loop appends, in order, an entry for each kept element of each reservation |
| Seqs.FlattenLength | pkg/aws/scanner.go:62-65 | A flattening's length is the sum of the inner lengths |
| Seqs.FlattenAt | pkg/aws/scanner.go:62-65 | Element j of reservation i sits right after all instances of the earlier reservations |
| Seqs.FilterMapMember | src/aws_scanner.py:96-101 | An entry is in the result exactly when some element is mapped to it |
| Seqs.FilterMapAppend | src/aws_scanner.py:86-117 | Filtering two lists one after the other gives the two results one after the other |
| Seqs.FilterMapLength | src/aws_scanner.py:86-117 | A filtered result is never longer than its input |

## Left out

- The AWS SDK and boto3 calls are left out: loading the configuration, DescribeVolumes, DescribeInstances and CloudWatch get_metric_statistics are network calls. Their replies are inputs, as `Result` values, and the request filters ("status", "instance-state-name") matter only to the remote API.
- The policy store is replaced by inputs: the fetch outcome and the reply to each status update. Optimistic-concurrency conflicts are simply a failed update.
- The clock is the input `now`.
- `ResourceScanner.ScanIdleInstances`: the CPU average, its threshold and its rounding are floating-point arithmetic. They are a predicate `belowThreshold` on the datapoints, and the `avg_cpu_utilization` field of a record is not modelled.
- Timestamps are kept as the strings `isoformat` would produce.
- `AwsScanner.Scanner.ScanUntaggedResources` and `Controllers.Reconcile`: Go `int` counts are unbounded integers here. Each count is bounded by the length of a reply.
- `IdleInstancePolicy.CPUThreshold` is a `float64` in the source. Here it is a `real` that is only carried and copied.
- The EC2 client held by the Go scanner is not a field of `AwsScanner.Scanner`. Its replies are the parameters of the scanner's methods.
- The Go SDK records keep the instance id and tags and the volume id; the scanner itself reads only the tags, and returns the volumes without looking inside them.
- The loops of `scan_untagged_resources` run through `Seqs.AppendFilterMapFlatten` and `Seqs.AppendFilterMap`, with the loop body as the check function `CheckInstance` or `CheckVolume`. Those functions compute `tag_keys` and `missing_tags` exactly as the loop body does. The required-tag list is a parameter of the check (`InstanceCheck`, `VolumeCheck`), and the scanner's own lists are the constants `Ec2RequiredTags` and `EbsRequiredTags`.
- `Controllers.RunSubScans` and `Controllers.ScanAndReport` are parts of the single Go function `Reconcile`, split out so that each part is proved on its own.
- Logging, Prometheus gauges and histograms, `full_scan`, `__init__`, and the HTTP server in `src/main.py` are left out. They are observability side effects or server plumbing, with no bearing on results.
- `SetupWithManager`, the controller-runtime work queue and requeue scheduling are framework plumbing. The requeue is only the returned delay.
- `DeepCopyObject` only wraps `DeepCopy` as a `runtime.Object`.
- The deep copies of `ObjectMeta`, `TypeMeta`, `ListMeta` and `metav1.Time` are library code. Those fields are not in the model; `LastScanTime` is an integer instant copied by value.
- Each `DeepCopyInto(out *T)` is a method that returns a new value rather than writing into an existing destination, so overwriting a destination and the aliased call `x.DeepCopyInto(x)` are not modelled. In Go that call makes the new `RequiredTags` (or `Items`) slice before copying into it, which blanks the elements; nothing in the modelled core calls a deep copy that way.
- JSON tags and `omitempty` serialisation are left out.
- Context cancellation and per-policy concurrency are left out: they are the dispatcher's concern.
- Sub-scans are run in the fixed order of the source; no parallel schedule is modelled.
