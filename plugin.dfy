/** The AWS Auto Scaling Group target plugin: how a scaling request is turned
    into exactly one provider action, and how a group snapshot plus its
    activity history are reduced to a status verdict. The AWS and Nomad
    clients are an abstract provider (class Cloud) that answers each
    capability with a fixed value and records every call it receives. */
module AwsAsgPlugin {
  import opened Wrappers
  import opened GoInt
  import Decimal

  // Configuration keys: the group name Scale and Status require, and keys
  // the executors read from the same configuration.
  const ConfigKeyRegion := "region"
  const ConfigKeyAsgName := "asg_name"
  const ConfigKeyDrainDeadline := "drain_deadline"

  /** The status metadata key under which the last activity's end time is reported. */
  const MetaKeyLastEvent := "nomad_autoscaler.last_event"

  // The direction tags calculateDirection produces; no scaling is the empty tag.
  const DirectionIn := "in"
  const DirectionOut := "out"
  const DirectionNone := ""

  /** The strategy's request: the number of instances the group should have. */
  datatype Action = Action(count: Int64)

  /** A snapshot of the group: its desired capacity and the provider's status
      flag (present while the provider itself is transitioning the group). */
  datatype Group = Group(name: string, desiredCapacity: Int64, status: Option<string>)

  /** One scaling activity: completion percentage and end time in Unix nanoseconds. */
  datatype Activity = Activity(progress: Int64, endTimeNanos: Int64)

  /** The plugin's errors, one variant per failing step. */
  datatype Error =
    | ConfigMissing(key: string)
    | DescribeFailed(cause: string)
    | ActivitiesFailed(cause: string)
    | NotRequired(asgCount: Int64, desiredCount: Int64)
    | ScalingFailed(cause: string)

  /** What Status reports to the autoscaler. */
  datatype TargetStatus = TargetStatus(ready: bool, count: Int64, meta: Option<map<string, string>>)

  /** The result of calculateDirection: a magnitude and a direction tag. */
  datatype Decision = Decision(amount: Int64, direction: string)

  /** One call the plugin made on the provider. */
  datatype Call =
    | DescribeAsgCall(asgName: string)
    | DescribeActivitiesCall(asgName: string)
    | ScaleInCall(group: Group, num: Int64, config: map<string, string>)
    | ScaleOutCall(group: Group, num: Int64)

  /** The provider's answer to each capability. A present activity list is
      a non-nil slice; None is a nil slice. */
  datatype Answers = Answers(
    describeAsg: Result<Group, string>,
    describeActivities: Result<Option<seq<Activity>>, string>,
    scaleIn: Option<string>,
    scaleOut: Option<string>)

  /** Scale-in is given a delta to remove, scale-out the absolute capacity to
      reach; no scaling is the empty tag with amount 0. */
  function CalculateDirection(asgDesired: Int64, strategyDesired: Int64): (d: Decision)
    ensures d.direction == DirectionIn <==> strategyDesired < asgDesired
    ensures d.direction == DirectionOut <==> strategyDesired > asgDesired
    ensures d.direction == DirectionNone <==> strategyDesired == asgDesired
    ensures d.direction == DirectionIn ==> d.amount == Sub64(asgDesired, strategyDesired)
    ensures d.direction == DirectionOut ==> d.amount == strategyDesired
    ensures d.direction == DirectionNone ==> d.amount == 0
  {
    if strategyDesired < asgDesired then Decision(Sub64(asgDesired, strategyDesired), DirectionIn)
    else if strategyDesired > asgDesired then Decision(strategyDesired, DirectionOut)
    else Decision(0, DirectionNone)
  }

  /** The desired capacity the group is driven to by the executor the decision
      selects: scale-in removes `amount` instances, each removal decrementing
      the desired capacity by one; scale-out sets the desired capacity to
      `amount`; no scaling leaves it alone. */
  function CapacityAfter(asgDesired: int, d: Decision): int {
    if d.direction == DirectionIn then asgDesired - d.amount
    else if d.direction == DirectionOut then d.amount
    else asgDesired
  }

  /** For counts that are not negative, the in/out asymmetry is consistent:
      the magnitude is positive whenever some scaling is chosen, and either
      executor brings the group to exactly the strategy's count. */
  lemma DecisionReachesStrategyCount(asgDesired: Int64, strategyDesired: Int64)
    requires 0 <= asgDesired && 0 <= strategyDesired
    ensures var d := CalculateDirection(asgDesired, strategyDesired);
      && (d.direction != DirectionNone ==> d.amount > 0)
      && CapacityAfter(asgDesired, d) == strategyDesired
  {
  }

  /** The scale-in delta is computed with Go's int64 subtraction: whenever
      the difference exceeds the int64 range (possible only for a negative
      request), the delta wraps around to a negative number. */
  lemma ScaleInDeltaWrapsWhenDifferenceOverflows(asgDesired: Int64, strategyDesired: Int64)
    requires strategyDesired < asgDesired && asgDesired - strategyDesired > MaxInt64
    ensures strategyDesired < 0
    ensures var d := CalculateDirection(asgDesired, strategyDesired);
      && d.direction == DirectionIn
      && d.amount == asgDesired - strategyDesired - TwoTo64
      && d.amount < 0
  {
  }

  /** A non-nil activity slice that is empty makes `events[0]` panic; the
      provider must not hand one back. */
  predicate NonNilActivitiesNonEmpty(a: Result<Option<seq<Activity>>, string>) {
    a.Success? && a.value.Some? ==> |a.value.value| > 0
  }

  /** Status reads `events[0]` only after the group name was found and the
      group was described; only on that path must the list be well formed. */
  predicate StatusIndexesSafely(config: map<string, string>, answers: Answers) {
    ConfigKeyAsgName in config && answers.describeAsg.Success? ==>
      NonNilActivitiesNonEmpty(answers.describeActivities)
  }

  /** The verdict Status builds from a snapshot and the activity history:
      ready when the provider's status flag is absent or the latest activity
      is complete, the group's desired capacity as the count, and the latest
      activity's end time as the only metadata entry when activities exist. */
  function StatusVerdict(g: Group, events: Option<seq<Activity>>): (s: TargetStatus)
    requires events.Some? ==> |events.value| > 0
    ensures s.count == g.desiredCapacity
    ensures s.meta.Some? <==> events.Some?
    ensures events.Some? ==>
      && s.meta.value.Keys == {MetaKeyLastEvent}
      && s.meta.value[MetaKeyLastEvent] == Decimal.FormatInt(events.value[0].endTimeNanos)
      && Decimal.ParseDecimal(s.meta.value[MetaKeyLastEvent]) == Some(events.value[0].endTimeNanos as int)
  {
    var base := TargetStatus(g.status.None?, g.desiredCapacity, None);
    match events
    case None => base
    case Some(es) =>
      Decimal.FormatIntRoundTrip(es[0].endTimeNanos);
      base.(ready := base.ready || es[0].progress == 100,
            meta := Some(map[MetaKeyLastEvent := Decimal.FormatInt(es[0].endTimeNanos)]))
  }

  /** Readiness is the provider's flag being absent, or a present activity
      history whose latest entry is complete. */
  lemma ReadyIffFlagAbsentOrLatestComplete(g: Group, events: Option<seq<Activity>>)
    requires events.Some? ==> |events.value| > 0
    ensures StatusVerdict(g, events).ready <==>
      g.status.None? || (events.Some? && events.value[0].progress == 100)
  {
  }

  /** The activity history can only raise readiness above the flag's verdict. */
  lemma ReadyNeverBelowFlag(g: Group, events: Option<seq<Activity>>)
    requires events.Some? ==> |events.value| > 0
    ensures g.status.None? ==> StatusVerdict(g, events).ready
    ensures StatusVerdict(g, None).ready == g.status.None?
  {
  }

  /** An unfinished latest activity does not make the group unready when the
      provider's status flag is absent. */
  lemma UnfinishedLatestActivityStillReady()
    ensures StatusVerdict(Group("g", 2, None), Some([Activity(40, 7)])).ready
  {
  }

  /** The provider: the autoscaling and EC2 clients together with the Nomad
      scale-in helper. Each capability returns its fixed answer and appends
      the call to the trace. */
  class Cloud {
    const answers: Answers
    ghost var calls: seq<Call>

    constructor (answers: Answers)
      ensures this.answers == answers && calls == []
    {
      this.answers := answers;
      calls := [];
    }

    method DescribeAsg(asgName: string) returns (r: Result<Group, string>)
      modifies this
      ensures r == answers.describeAsg
      ensures calls == old(calls) + [DescribeAsgCall(asgName)]
    {
      r := answers.describeAsg;
      calls := calls + [DescribeAsgCall(asgName)];
    }

    method DescribeActivities(asgName: string) returns (r: Result<Option<seq<Activity>>, string>)
      modifies this
      ensures r == answers.describeActivities
      ensures calls == old(calls) + [DescribeActivitiesCall(asgName)]
    {
      r := answers.describeActivities;
      calls := calls + [DescribeActivitiesCall(asgName)];
    }

    method ScaleIn(group: Group, num: Int64, config: map<string, string>) returns (err: Option<string>)
      modifies this
      ensures err == answers.scaleIn
      ensures calls == old(calls) + [ScaleInCall(group, num, config)]
    {
      err := answers.scaleIn;
      calls := calls + [ScaleInCall(group, num, config)];
    }

    method ScaleOut(group: Group, num: Int64) returns (err: Option<string>)
      modifies this
      ensures err == answers.scaleOut
      ensures calls == old(calls) + [ScaleOutCall(group, num)]
    {
      err := answers.scaleOut;
      calls := calls + [ScaleOutCall(group, num)];
    }
  }

  class TargetPlugin {
    const cloud: Cloud

    constructor (cloud: Cloud)
      ensures this.cloud == cloud
    {
      this.cloud := cloud;
    }

    /** Scale validates the group name, describes the group once, and hands
        that single snapshot to exactly one executor; None is success. */
    method Scale(action: Action, config: map<string, string>) returns (err: Option<Error>)
      modifies cloud
      ensures ConfigKeyAsgName !in config ==>
        err == Some(ConfigMissing(ConfigKeyAsgName)) && cloud.calls == old(cloud.calls)
      ensures ConfigKeyAsgName in config && cloud.answers.describeAsg.Failure? ==>
        && err == Some(DescribeFailed(cloud.answers.describeAsg.error))
        && cloud.calls == old(cloud.calls) + [DescribeAsgCall(config[ConfigKeyAsgName])]
      ensures ConfigKeyAsgName in config && cloud.answers.describeAsg.Success? ==>
        var asgName, g := config[ConfigKeyAsgName], cloud.answers.describeAsg.value;
        && (action.count < g.desiredCapacity ==>
              && cloud.calls == old(cloud.calls) + [DescribeAsgCall(asgName),
                   ScaleInCall(g, Sub64(g.desiredCapacity, action.count), config)]
              && (err.None? <==> cloud.answers.scaleIn.None?)
              && (err.Some? ==> err.value == ScalingFailed(cloud.answers.scaleIn.value)))
        && (action.count > g.desiredCapacity ==>
              && cloud.calls == old(cloud.calls) + [DescribeAsgCall(asgName), ScaleOutCall(g, action.count)]
              && (err.None? <==> cloud.answers.scaleOut.None?)
              && (err.Some? ==> err.value == ScalingFailed(cloud.answers.scaleOut.value)))
        && (action.count == g.desiredCapacity ==>
              && err == Some(NotRequired(g.desiredCapacity, action.count))
              && cloud.calls == old(cloud.calls) + [DescribeAsgCall(asgName)])
    {
      if ConfigKeyAsgName !in config {
        return Some(ConfigMissing(ConfigKeyAsgName));
      }
      var asgName := config[ConfigKeyAsgName];

      var curAsg := cloud.DescribeAsg(asgName);
      if curAsg.Failure? {
        return Some(DescribeFailed(curAsg.error));
      }
      var g := curAsg.value;

      var decision := CalculateDirection(g.desiredCapacity, action.count);
      var scaleErr: Option<string>;
      if decision.direction == DirectionIn {
        scaleErr := cloud.ScaleIn(g, decision.amount, config);
      } else if decision.direction == DirectionOut {
        scaleErr := cloud.ScaleOut(g, decision.amount);
      } else {
        return Some(NotRequired(g.desiredCapacity, action.count));
      }

      err := None;
      if scaleErr.Some? {
        err := Some(ScalingFailed(scaleErr.value));
      }
    }

    /** Status validates the group name, describes the group and its
        activities, and reduces them to a verdict. */
    method Status(config: map<string, string>) returns (r: Result<TargetStatus, Error>)
      requires StatusIndexesSafely(config, cloud.answers)
      modifies cloud
      ensures ConfigKeyAsgName !in config ==>
        r == Failure(ConfigMissing(ConfigKeyAsgName)) && cloud.calls == old(cloud.calls)
      ensures ConfigKeyAsgName in config && cloud.answers.describeAsg.Failure? ==>
        && r == Failure(DescribeFailed(cloud.answers.describeAsg.error))
        && cloud.calls == old(cloud.calls) + [DescribeAsgCall(config[ConfigKeyAsgName])]
      ensures ConfigKeyAsgName in config && cloud.answers.describeAsg.Success? ==>
        var asgName := config[ConfigKeyAsgName];
        && cloud.calls == old(cloud.calls) + [DescribeAsgCall(asgName), DescribeActivitiesCall(asgName)]
        && (cloud.answers.describeActivities.Failure? ==>
              r == Failure(ActivitiesFailed(cloud.answers.describeActivities.error)))
        && (cloud.answers.describeActivities.Success? ==>
              r == Success(StatusVerdict(cloud.answers.describeAsg.value, cloud.answers.describeActivities.value)))
    {
      if ConfigKeyAsgName !in config {
        return Failure(ConfigMissing(ConfigKeyAsgName));
      }
      var asgName := config[ConfigKeyAsgName];

      var asg := cloud.DescribeAsg(asgName);
      if asg.Failure? {
        return Failure(DescribeFailed(asg.error));
      }
      var g := asg.value;

      var events := cloud.DescribeActivities(asgName);
      if events.Failure? {
        return Failure(ActivitiesFailed(events.error));
      }

      var resp := TargetStatus(g.status.None?, g.desiredCapacity, None);
      if events.value.Some? {
        var latest := events.value.value[0];
        resp := resp.(ready := resp.ready || latest.progress == 100);
        resp := resp.(meta := Some(map[MetaKeyLastEvent := Decimal.FormatInt(latest.endTimeNanos)]));
      }
      r := Success(resp);
    }
  }

  /** With no change at the provider in between, two Status calls give the
      same verdict. */
  method StatusTwice(plugin: TargetPlugin, config: map<string, string>)
    returns (first: Result<TargetStatus, Error>, second: Result<TargetStatus, Error>)
    requires StatusIndexesSafely(config, plugin.cloud.answers)
    modifies plugin.cloud
    ensures first == second
  {
    first := plugin.Status(config);
    second := plugin.Status(config);
  }

  /** Current capacity 5, request 3: one describe, then scale-in by a delta of 2. */
  method ScaleInScenario() returns (err: Option<Error>, ghost calls: seq<Call>)
    ensures err == None
    ensures calls == [DescribeAsgCall("workers"),
                      ScaleInCall(Group("workers", 5, None), 2, map[ConfigKeyAsgName := "workers"])]
  {
    var cloud := new Cloud(Answers(Success(Group("workers", 5, None)), Success(None), None, None));
    var plugin := new TargetPlugin(cloud);
    err := plugin.Scale(Action(3), map[ConfigKeyAsgName := "workers"]);
    calls := cloud.calls;
  }

  /** Current capacity 3, request 7: one describe, then scale-out to the absolute count 7. */
  method ScaleOutScenario() returns (err: Option<Error>, ghost calls: seq<Call>)
    ensures err == None
    ensures calls == [DescribeAsgCall("workers"), ScaleOutCall(Group("workers", 3, None), 7)]
  {
    var cloud := new Cloud(Answers(Success(Group("workers", 3, None)), Success(None), None, None));
    var plugin := new TargetPlugin(cloud);
    err := plugin.Scale(Action(7), map[ConfigKeyAsgName := "workers"]);
    calls := cloud.calls;
  }

  /** Without a group name neither Scale nor Status reaches the provider. */
  method MissingNameScenario(answers: Answers)
    returns (scaleErr: Option<Error>, status: Result<TargetStatus, Error>, ghost calls: seq<Call>)
    ensures scaleErr == Some(ConfigMissing(ConfigKeyAsgName))
    ensures status == Failure(ConfigMissing(ConfigKeyAsgName))
    ensures calls == []
  {
    var cloud := new Cloud(answers);
    var plugin := new TargetPlugin(cloud);
    scaleErr := plugin.Scale(Action(4), map[ConfigKeyDrainDeadline := "5m"]);
    status := plugin.Status(map[ConfigKeyRegion := "us-east-1"]);
    calls := cloud.calls;
  }
}
