# AWS Auto Scaling Group target plugin — Dafny model

This project models the decision-and-reconciliation layer of the Nomad
Autoscaler's `aws-asg` target plugin:

- **calculateDirection** turns the group's current desired capacity and the
  strategy's requested count into a magnitude and a direction tag. Scale-in
  gets a *delta* (`current - requested`). Scale-out gets the *absolute* target
  (`requested`). No scaling is the empty tag with magnitude 0.
- **Scale** checks that the `asg_name` configuration key is present. It
  describes the group once and computes the direction from that one snapshot.
  It then calls exactly one executor (scale-in or scale-out), or reports
  "scaling not required" with both counts. An executor error comes back
  wrapped as a scaling failure.
- **Status** checks `asg_name`, then describes the group and its scaling
  activities. It reduces them to a verdict: ready, count, and optional
  metadata holding the latest activity's end time.

Modules:

- `Wrappers` (`wrappers.dfy`): `Option` and `Result`.
- `GoInt` (`goint.dfy`): the int64 range and Go's wrapping int64 subtraction.
- `Decimal` (`decimal.dfy`): `strconv.FormatInt(n, 10)`, plus a reference
  parser that inverts it.
- `AwsAsgPlugin` (`plugin.dfy`): the configuration keys, the data model,
  `CalculateDirection`, `StatusVerdict`, the provider, and the plugin.

The provider is the class `Cloud`. It stands for the AWS autoscaling and EC2
clients together with the Nomad scale-in helper. Each of its four
capabilities (describe group, describe activities, scale in, scale out)
returns a fixed answer held in `Cloud.answers` and appends a `Call` record to
the ghost trace `Cloud.calls`. The contracts of `TargetPlugin.Scale` and
`TargetPlugin.Status` use that trace to say which calls are made, in what
order, and with what arguments.

Notes on the code:

- The scale-in magnitude is `asgDesired - strategyDesired`, computed in Go
  int64 arithmetic (`plugins/builtin/target/aws-asg/plugin/plugin.go:175`). It
  is strictly positive when both counts are non-negative; when the difference
  exceeds the int64 range it wraps around to a negative delta.
- The no-scaling direction is the empty string
  (`plugins/builtin/target/aws-asg/plugin/plugin.go:180`), which Scale's
  `switch` sends to its `default` branch.
- Readiness is `flag absent || latest progress == 100`
  (`plugins/builtin/target/aws-asg/plugin/plugin.go:163`). The comment at
  `plugins/builtin/target/aws-asg/plugin/plugin.go:159-161` says an unfinished
  latest activity makes the group not ready, but the code does not do that.
  `UnfinishedLatestActivityStillReady` shows a group that is ready even
  though its latest activity is at 40%.

## Model

| member | source | states |
|---|---|---|
| `GoInt.Sub64` | plugins/builtin/target/aws-asg/plugin/plugin.go:175 | int64 subtraction: the exact difference when it fits in int64, and always congruent to it modulo 2^64 (two's-complement wrap) |
| `Decimal.FormatInt` | plugins/builtin/target/aws-asg/plugin/plugin.go:165 | the base-10 rendering is non-empty, starts with `-` exactly for negative numbers, is all digits exactly for non-negative ones, and starts with `0` only for zero (no leading zeros) |
| `Decimal.FormatIntRoundTrip` | plugins/builtin/target/aws-asg/plugin/plugin.go:165 | every rendered integer parses back to itself, so the metadata value carries the end time losslessly |
| `Decimal.FormatIntInjective` | plugins/builtin/target/aws-asg/plugin/plugin.go:165 | distinct end times are rendered as distinct metadata strings |
| `AwsAsgPlugin.CalculateDirection` | plugins/builtin/target/aws-asg/plugin/plugin.go:172-181 | exactly one of three outcomes: `in` iff requested < current, with the int64 delta current - requested; `out` iff requested > current, with the absolute requested count; the empty tag iff equal, with 0 |
| `AwsAsgPlugin.DecisionReachesStrategyCount` | plugins/builtin/target/aws-asg/plugin/plugin.go:172-181 | for non-negative counts the magnitude is strictly positive whenever scaling is chosen, and removing the delta (in) or setting the absolute count (out) yields exactly the requested count |
| `AwsAsgPlugin.ScaleInDeltaWrapsWhenDifferenceOverflows` | plugins/builtin/target/aws-asg/plugin/plugin.go:175 | for every pair whose difference current - requested exceeds MaxInt64, the request is negative, the direction is `in`, and the delta is that difference minus 2^64, a negative number; this is why positivity needs non-negative counts |
| `AwsAsgPlugin.StatusVerdict` | plugins/builtin/target/aws-asg/plugin/plugin.go:154-167 | count is the snapshot's desired capacity; metadata is present iff activities are present; it then holds only the last-event key, whose value is the base-10 rendering of the latest activity's end time in nanoseconds and parses back to it |
| `AwsAsgPlugin.ReadyIffFlagAbsentOrLatestComplete` | plugins/builtin/target/aws-asg/plugin/plugin.go:155-163 | ready iff the provider's status flag is absent, or activities are present and the latest is at progress 100 |
| `AwsAsgPlugin.ReadyNeverBelowFlag` | plugins/builtin/target/aws-asg/plugin/plugin.go:163 | an absent status flag always gives ready; with no activity list readiness is exactly the flag's verdict |
| `AwsAsgPlugin.UnfinishedLatestActivityStillReady` | plugins/builtin/target/aws-asg/plugin/plugin.go:159-163 | a group with no status flag whose latest activity is at 40% is still reported ready, contrary to the comment |
| `AwsAsgPlugin.Cloud.DescribeAsg` | plugins/builtin/target/aws-asg/plugin/plugin.go:106 | returns the provider's group answer and records one describe call for the given name |
| `AwsAsgPlugin.Cloud.DescribeActivities` | plugins/builtin/target/aws-asg/plugin/plugin.go:149 | returns the provider's activities answer (nil or a list) and records one activities call for the given name |
| `AwsAsgPlugin.Cloud.ScaleIn` | plugins/builtin/target/aws-asg/plugin/plugin.go:118 | returns the scale-in executor's error answer and records the snapshot, delta and config it was given |
| `AwsAsgPlugin.Cloud.ScaleOut` | plugins/builtin/target/aws-asg/plugin/plugin.go:120 | returns the scale-out executor's error answer and records the snapshot and absolute count it was given |
| `AwsAsgPlugin.TargetPlugin.Scale` | plugins/builtin/target/aws-asg/plugin/plugin.go:93-132 | missing `asg_name`: config error naming it, no provider call; describe failure: wrapped describe error after exactly one describe, no executor; otherwise one describe and then, from that snapshot's capacity, scale-in with the delta, scale-out with the absolute count, or a not-required error carrying both counts and no executor; success iff the executor succeeded, its error wrapped as a scaling failure |
| `AwsAsgPlugin.TargetPlugin.Status` | plugins/builtin/target/aws-asg/plugin/plugin.go:135-170 | missing `asg_name`: config error, no provider call, whatever the provider would answer; describe failure: describe error after one call; otherwise describe then activities, an activities error, or exactly the `StatusVerdict` of the snapshot and the activity list |
| `AwsAsgPlugin.StatusTwice` | plugins/builtin/target/aws-asg/plugin/plugin.go:135-170 | two Status calls with no provider change in between give identical results, on every path including the early errors |
| `AwsAsgPlugin.ScaleInScenario` | plugins/builtin/target/aws-asg/plugin/plugin.go:114-118 | capacity 5, request 3: one describe, then scale-in called with delta 2, and success |
| `AwsAsgPlugin.ScaleOutScenario` | plugins/builtin/target/aws-asg/plugin/plugin.go:114-120 | capacity 3, request 7: one describe, then scale-out called with the absolute count 7, and success |
| `AwsAsgPlugin.MissingNameScenario` | plugins/builtin/target/aws-asg/plugin/plugin.go:95-99 | without `asg_name`, whatever the provider would answer, Scale and Status both fail with the config error naming the key and the provider sees no call |

## Left out

- `SetConfig`, `setupAWSClients`, `NewAWSASGPlugin`, `PluginInfo` and the
  `PluginConfig`/`pluginInfo` registration values are plugin wiring and client
  construction. The plugin's stored `config` field is not used by Scale or
  Status.
- The bodies of `describeASG`, `describeActivities`, `scaleIn` and `scaleOut`
  are not part of this model. They hold the AWS SDK calls, the Nomad drain
  helper, instance termination and waiting for convergence. Each is an
  abstract capability with a fixed answer. Their effect on the group is not
  modelled, so the trace records what was asked but not what changed.
- Drain deadlines, timeouts and concurrent calls on the same group are not
  modelled. None of them is implemented in the plugin file itself.
- `context.Background()`, `hclog` logging and the text of the `fmt.Errorf`
  messages are not modelled. Errors are the tagged `Error` datatype, which
  keeps each message's payload (key, cause, or the two counts).
- `strconv.FormatInt` and `time.UnixNano` are not called as library code. The
  end time is an int64 count of nanoseconds. `Decimal.FormatInt` is its
  base-10 rendering. `Decimal.ParseDecimal` is a reference inverse used only
  in proofs.
- `MetaKeyLastEvent` is defined in the autoscaler's `target` package, which is
  not part of this model. Its text is taken as `nomad_autoscaler.last_event`.
- `AwsAsgPlugin.TargetPlugin.Status`: requires that a non-nil activity list
  is non-empty, but only when `asg_name` is present and the group was
  described, the one path that reads `events[0]`. The code guards
  `events[0]` only with `events != nil`, so an empty non-nil slice there
  would panic.
- The dereferences of the `DesiredCapacity`, `Progress` and `EndTime` fields are
  treated as always present. The model has no nil-pointer panic.
- `strategy.Action` is reduced to its `Count` field, the only one the plugin
  reads.
