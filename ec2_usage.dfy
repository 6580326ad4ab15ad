/**
 * The EC2 inventory report: every instance of every reservation, as a
 * record of its id, type, state and launch time, written as a dated JSON
 * file to the report bucket.
 */
module Ec2Usage {
  import opened Wrappers
  import opened Services

  const ReportBucket: string := "cloudguard360-usage-logs"

  /** An instance as `describe_instances` describes it; its launch time is given in ISO form. */
  datatype Instance = Instance(instanceId: string, instanceType: string, stateName: string, launchTime: string)

  /** One entry of the report. */
  datatype InstanceRecord = InstanceRecord(instanceId: string, instanceType: string, state: string, launchTime: string)

  /** A request the handler sends. */
  datatype Call =
    | DescribeInstances
    | PutObject(bucket: string, key: string, body: seq<InstanceRecord>, contentType: string)

  datatype Summary = Summary(savedToS3: string, count: nat)

  function RecordOf(instance: Instance): InstanceRecord
  {
    InstanceRecord(instance.instanceId, instance.instanceType, instance.stateName, instance.launchTime)
  }

  /** The records of one reservation's instances, in order. */
  function Records(instances: seq<Instance>): seq<InstanceRecord>
  {
    seq(|instances|, k requires 0 <= k < |instances| => RecordOf(instances[k]))
  }

  /** The records of all instances, reservation by reservation. */
  function Flatten(reservations: seq<seq<Instance>>): seq<InstanceRecord>
  {
    if |reservations| == 0 then []
    else Flatten(reservations[..|reservations| - 1]) + Records(reservations[|reservations| - 1])
  }

  /** The number of instances over all reservations. */
  function TotalInstances(reservations: seq<seq<Instance>>): nat
  {
    if |reservations| == 0 then 0
    else TotalInstances(reservations[..|reservations| - 1]) + |reservations[|reservations| - 1]|
  }

  function ReportKey(day: string): string
  {
    "ec2-usage-" + day + ".json"
  }

  /**
   * The handler.  `described` is the reservations `describe_instances`
   * returns (each the list of its instances) or the error it raises, `day`
   * the UTC date as `%Y-%m-%d`, and `putError` the error writing the report
   * raises, if any.  No error is caught.
   */
  method Handle(described: Result<seq<seq<Instance>>>, day: string, putError: Option<string>, log: Log<Call>)
    returns (r: Invocation<Summary>)
    modifies log
    ensures described.Failure? ==> r == Raised(described.error) && log.entries == old(log.entries) + [DescribeInstances]
    ensures described.Success? ==>
              var instances := Flatten(described.value);
              log.entries == old(log.entries) + [DescribeInstances, PutObject(ReportBucket, ReportKey(day), instances, "application/json")] &&
              r == (if putError.Some? then Raised(putError.value) else Returned(Summary(ReportKey(day), |instances|)))
  {
    log.Append(DescribeInstances);
    if described.Failure? {
      return Raised(described.error);
    }
    var reservations := described.value;
    var instances: seq<InstanceRecord> := [];

    var i := 0;
    while i < |reservations|
      invariant 0 <= i <= |reservations|
      invariant instances == Flatten(reservations[..i])
    {
      var reservation := reservations[i];
      var j := 0;
      while j < |reservation|
        invariant 0 <= j <= |reservation|
        invariant instances == Flatten(reservations[..i]) + Records(reservation[..j])
      {
        var instance := reservation[j];
        var instanceData := InstanceRecord(instance.instanceId, instance.instanceType, instance.stateName, instance.launchTime);
        assert Records(reservation[..j + 1]) == Records(reservation[..j]) + [instanceData];
        instances := instances + [instanceData];
        j := j + 1;
      }
      assert reservation[..|reservation|] == reservation;
      assert reservations[..i + 1][..i] == reservations[..i];
      i := i + 1;
    }
    assert reservations[..|reservations|] == reservations;

    var filename := "ec2-usage-" + day + ".json";
    log.Append(PutObject(ReportBucket, filename, instances, "application/json"));
    if putError.Some? {
      return Raised(putError.value);
    }
    return Returned(Summary(filename, |instances|));
  }

  // ---------------------------------------------------------------------
  // Properties of the report

  /** The count is the total number of instances. */
  lemma {:induction false} FlattenLength(reservations: seq<seq<Instance>>)
    ensures |Flatten(reservations)| == TotalInstances(reservations)
  {
    if |reservations| > 0 {
      FlattenLength(reservations[..|reservations| - 1]);
    }
  }

  /**
   * Instance j of reservation k is record number TotalInstances(before k) + j:
   * records follow reservation-then-instance order, and each copies its
   * instance.
   */
  lemma {:induction false} FlattenAt(reservations: seq<seq<Instance>>, k: nat, j: nat)
    requires k < |reservations| && j < |reservations[k]|
    ensures TotalInstances(reservations[..k]) + j < |Flatten(reservations)|
    ensures Flatten(reservations)[TotalInstances(reservations[..k]) + j] == RecordOf(reservations[k][j])
  {
    var n := |reservations|;
    var init := reservations[..n - 1];
    FlattenLength(init);
    FlattenLength(reservations[..k]);
    if k < n - 1 {
      assert init[..k] == reservations[..k];
      FlattenAt(init, k, j);
    } else {
      assert init == reservations[..k];
    }
  }

  /** Reservations without instances give an empty report (which is still written). */
  lemma {:induction false} FlattenOfEmptyReservations(reservations: seq<seq<Instance>>)
    requires forall k :: 0 <= k < |reservations| ==> reservations[k] == []
    ensures Flatten(reservations) == []
  {
    if |reservations| > 0 {
      FlattenOfEmptyReservations(reservations[..|reservations| - 1]);
    }
  }
}
