/**
 * The S3 usage report: for every bucket, the number of objects and their
 * total size, written as a dated JSON file to the report bucket.  A bucket
 * whose objects cannot be listed is left out of the report.
 */
module S3Usage {
  import opened Wrappers
  import opened Services

  const ReportBucket: string := "cloudguard360-usage-logs"
  const FailureMessage: string := "Failed to generate usage report"

  /** `1024 ** 3`: bytes in a gigabyte. */
  const BytesPerGB: real := 1073741824.0

  /** One entry of the report; the size is in gigabytes, before `toFixed(2)` rounds it. */
  datatype BucketUsage = BucketUsage(bucketName: string, objectCount: nat, totalSizeGB: real)

  /** A request the handler sends. */
  datatype Call =
    | ListBuckets
    | ListObjects(bucket: string)
    | PutObject(bucket: string, key: string, body: seq<BucketUsage>, contentType: string)

  /** What the handler returns. */
  datatype Report = Saved(savedToS3: string, bucketCount: nat) | Failed(error: string)

  /** The sizes of a listing's objects; an absent `Contents` lists none. */
  function Objects(contents: Option<seq<int>>): seq<int>
  {
    if contents.Some? then contents.value else []
  }

  function TotalSize(sizes: seq<int>): int
  {
    if |sizes| == 0 then 0 else TotalSize(sizes[..|sizes| - 1]) + sizes[|sizes| - 1]
  }

  /** The report entry of a bucket whose objects were listed. */
  function UsageOf(name: string, contents: Option<seq<int>>): BucketUsage
  {
    BucketUsage(name, |Objects(contents)|, TotalSize(Objects(contents)) as real / BytesPerGB)
  }

  /**
   * The report for a list of buckets: `listObjects` gives, per bucket, its
   * `Contents` (the object sizes, or nothing) or the error the call raises.
   */
  function Usage(names: seq<string>, listObjects: string -> Result<Option<seq<int>>>): seq<BucketUsage>
  {
    if |names| == 0 then []
    else
      var last := names[|names| - 1];
      Usage(names[..|names| - 1], listObjects) +
        (if listObjects(last).Success? then [UsageOf(last, listObjects(last).value)] else [])
  }

  /** The buckets whose objects were listed, in the order given. */
  function Listed(names: seq<string>, listObjects: string -> Result<Option<seq<int>>>): seq<string>
  {
    if |names| == 0 then []
    else
      var last := names[|names| - 1];
      Listed(names[..|names| - 1], listObjects) + (if listObjects(last).Success? then [last] else [])
  }

  /** The listing requests for the given buckets, in order. */
  function ListRequests(names: seq<string>): seq<Call>
  {
    seq(|names|, i requires 0 <= i < |names| => ListObjects(names[i]))
  }

  /** `toISOString().split('T')[0]`: the part of a timestamp before its first 'T'. */
  function DatePart(timestamp: string): (d: string)
    ensures |d| <= |timestamp| && d == timestamp[..|d|]
    ensures 'T' !in d
    ensures |d| < |timestamp| ==> timestamp[|d|] == 'T'
  {
    if |timestamp| == 0 || timestamp[0] == 'T' then ""
    else [timestamp[0]] + DatePart(timestamp[1..])
  }

  function ReportKey(timestamp: string): string
  {
    "s3-usage-" + DatePart(timestamp) + ".json"
  }

  /**
   * The handler.  `buckets` is the outcome of listing the buckets, `now`
   * the ISO timestamp of the clock, and `putError` the error writing the
   * report raises, if any.
   */
  method Handle(buckets: Result<seq<string>>, listObjects: string -> Result<Option<seq<int>>>,
                now: string, putError: Option<string>, log: Log<Call>)
    returns (r: Report)
    modifies log
    ensures buckets.Failure? ==> r == Failed(FailureMessage) && log.entries == old(log.entries) + [ListBuckets]
    ensures buckets.Success? ==>
              var usage := Usage(buckets.value, listObjects);
              log.entries == old(log.entries) + [ListBuckets] + ListRequests(buckets.value) +
                             [PutObject(ReportBucket, ReportKey(now), usage, "application/json")] &&
              r == (if putError.Some? then Failed(FailureMessage) else Saved(ReportKey(now), |usage|))
  {
    var usageData: seq<BucketUsage> := [];
    log.Append(ListBuckets);
    if buckets.Failure? {
      return Failed(FailureMessage);
    }
    var names := buckets.value;

    var i := 0;
    while i < |names|
      invariant 0 <= i <= |names|
      invariant usageData == Usage(names[..i], listObjects)
      invariant log.entries == old(log.entries) + [ListBuckets] + ListRequests(names[..i])
    {
      var name := names[i];
      var size := 0;
      var count := 0;

      assert names[..i + 1][..i] == names[..i];
      assert ListRequests(names[..i + 1]) == ListRequests(names[..i]) + [ListObjects(name)];
      log.Append(ListObjects(name));
      var objects := listObjects(name);
      if objects.Failure? {
        i := i + 1;
        continue;
      }
      if objects.value.Some? {
        var contents := objects.value.value;
        var j := 0;
        while j < |contents|
          invariant 0 <= j <= |contents|
          invariant size == TotalSize(contents[..j])
          invariant count == j
        {
          assert contents[..j + 1][..j] == contents[..j];
          size := size + contents[j];
          count := count + 1;
          j := j + 1;
        }
        assert contents[..|contents|] == contents;
      }

      usageData := usageData + [BucketUsage(name, count, size as real / BytesPerGB)];
      i := i + 1;
    }
    assert names[..|names|] == names;

    var timestamp := DatePart(now);
    var filename := "s3-usage-" + timestamp + ".json";
    log.Append(PutObject(ReportBucket, filename, usageData, "application/json"));
    if putError.Some? {
      return Failed(FailureMessage);
    }
    return Saved(filename, |usageData|);
  }

  // ---------------------------------------------------------------------
  // Properties of the report

  /** The report of two lists of buckets is the two reports in sequence. */
  lemma {:induction false} UsageAppend(names: seq<string>, more: seq<string>, listObjects: string -> Result<Option<seq<int>>>)
    ensures Usage(names + more, listObjects) == Usage(names, listObjects) + Usage(more, listObjects)
  {
    if |more| == 0 {
      assert names + more == names;
    } else {
      assert (names + more)[..|names + more| - 1] == names + more[..|more| - 1];
      UsageAppend(names, more[..|more| - 1], listObjects);
    }
  }

  /**
   * A bucket whose listing fails is skipped, and the buckets after it are
   * reported as if it were absent.
   */
  lemma FailedBucketSkipped(before: seq<string>, name: string, after: seq<string>,
                            listObjects: string -> Result<Option<seq<int>>>)
    requires listObjects(name).Failure?
    ensures Usage(before + [name] + after, listObjects) == Usage(before + after, listObjects)
  {
    UsageAppend(before + [name], after, listObjects);
    UsageAppend(before, [name], listObjects);
    UsageAppend(before, after, listObjects);
    assert [name][..0] == [];
  }

  /**
   * The report has one entry per listed bucket, in order; each entry counts
   * that bucket's objects and adds up their sizes.
   */
  lemma {:induction false} UsageFollowsListedBuckets(names: seq<string>, listObjects: string -> Result<Option<seq<int>>>)
    ensures |Usage(names, listObjects)| == |Listed(names, listObjects)| <= |names|
    ensures forall k :: 0 <= k < |Usage(names, listObjects)| ==>
              var name := Listed(names, listObjects)[k];
              name in names && listObjects(name).Success? &&
              Usage(names, listObjects)[k] == UsageOf(name, listObjects(name).value)
  {
    if |names| > 0 {
      UsageFollowsListedBuckets(names[..|names| - 1], listObjects);
      var init := names[..|names| - 1];
      assert forall n :: n in init ==> n in names;
    }
  }

  /** A bucket listed without `Contents` reports no objects and no size. */
  lemma EmptyListingReportsZero(name: string)
    ensures UsageOf(name, None) == BucketUsage(name, 0, 0.0)
  {
  }

  /** The total size is additive over the objects. */
  lemma {:induction false} TotalSizeAppend(sizes: seq<int>, more: seq<int>)
    ensures TotalSize(sizes + more) == TotalSize(sizes) + TotalSize(more)
  {
    if |more| == 0 {
      assert sizes + more == sizes;
    } else {
      assert (sizes + more)[..|sizes + more| - 1] == sizes + more[..|more| - 1];
      TotalSizeAppend(sizes, more[..|more| - 1]);
    }
  }

  /** The key of a report written at `<date>T<time>` names that date. */
  lemma {:induction false} ReportKeyNamesDate(date: string, time: string)
    requires 'T' !in date
    ensures DatePart(date + "T" + time) == date
    ensures ReportKey(date + "T" + time) == "s3-usage-" + date + ".json"
  {
    var timestamp := date + "T" + time;
    if |date| == 0 {
      assert timestamp[0] == 'T';
    } else {
      assert timestamp[1..] == date[1..] + "T" + time;
      ReportKeyNamesDate(date[1..], time);
      assert date == [date[0]] + date[1..];
    }
  }
}
