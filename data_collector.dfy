/** The default telemetry sink of
    `cna_sim/components/data_collectors/default_data_collector.py`. When an
    exchange ends, `record_ended_request` derives a few records from the
    request context: one `count` record and, when the timestamps they need are
    set and non-zero, the queue, computation and response times. `record`
    itself only writes a log line, which is left out. */
module DataCollectors {
  import opened Common
  import opened Request

  /** The tags every record of a request carries. */
  datatype Tags = Tags(hostName: Option<string>, instanceName: Option<string>, endpointName: Option<string>,
                       status: Option<string>, timestampType: string)

  /** One `record(measurement, tags, {'value': value}, time)` call. */
  datatype Record = Record(measurement: string, tags: Tags, value: real, time: real)

  /** Python truthiness of an optional timestamp: set and not zero. */
  predicate Truthy(x: Option<real>)
  {
    x.Some? && x.value != 0.0
  }

  /** The status tag: TIMEOUT when the client timed out, the request's own
      status otherwise. */
  function StatusTag(v: RcView): (s: Option<string>)
    ensures v.isTimeout ==> s == Some(TIMEOUT)
    ensures !v.isTimeout ==> s == v.status
  {
    if v.isTimeout then Some(TIMEOUT) else v.status
  }

  function RequestTags(v: RcView): Tags
  {
    Tags(v.hostName, v.instanceName, v.endpointName, StatusTag(v), "req_sent")
  }

  /** `record(measurement, tags, fields, time)`: a missing time is the
      current time. */
  function MakeRecord(measurement: string, tags: Tags, value: real, time: Option<real>, now: real): (r: Record)
    ensures time.None? ==> r.time == now
    ensures time.Some? ==> r.time == time.value
    ensures r.measurement == measurement && r.tags == tags && r.value == value
  {
    Record(measurement, tags, value, if time.None? then now else time.value)
  }

  /** Whether some record has the given measurement. */
  predicate Emits(rs: seq<Record>, measurement: string)
  {
    exists x :: x in rs && x.measurement == measurement
  }

  /** The `value` record of a time between two timestamps: written only
      when both are truthy, and then their difference. */
  function Interval(measurement: string, tags: Tags, later: Option<real>, earlier: Option<real>, time: real): (s: seq<Record>)
    ensures |s| <= 1 && (s != [] <==> Truthy(later) && Truthy(earlier))
    ensures forall i :: 0 <= i < |s| ==> s[i] == Record(measurement, tags, later.value - earlier.value, time)
  {
    if Truthy(later) && Truthy(earlier) then [Record(measurement, tags, later.value - earlier.value, time)] else []
  }

  /** `record_ended_request(rc)`: nothing for an unmarked request or one
      that was never sent; otherwise a count record followed by the queue,
      computation and response times whose operands are both truthy, all
      stamped with the send time. */
  function EndedRequestRecords(v: RcView): (rs: seq<Record>)
    ensures !v.mark || v.reqSent.None? ==> rs == []
    ensures v.mark && v.reqSent.Some? ==> |rs| > 0 && rs[0] == Record("count", RequestTags(v), 1.0, v.reqSent.value)
    ensures forall i :: 0 <= i < |rs| ==> rs[i].time == v.reqSent.value && rs[i].tags == RequestTags(v)
    ensures forall x :: x in rs && x.measurement == "queue_time" ==>
              v.procStarted.Some? && v.reqArrived.Some? && x.value == v.procStarted.value - v.reqArrived.value
    ensures forall x :: x in rs && x.measurement == "computation_time" ==>
              v.procCompleted.Some? && v.procStarted.Some? && x.value == v.procCompleted.value - v.procStarted.value
    ensures forall x :: x in rs && x.measurement == "response_time" ==>
              v.respArrived.Some? && v.reqSent.Some? && x.value == v.respArrived.value - v.reqSent.value
  {
    if !v.mark || v.reqSent.None? then []
    else
      var sent := v.reqSent;
      var tags := RequestTags(v);
      var now := sent.value;
      [MakeRecord("count", tags, 1.0, sent, now)] +
      Interval("queue_time", tags, v.procStarted, v.reqArrived, now) +
      Interval("computation_time", tags, v.procCompleted, v.procStarted, now) +
      Interval("response_time", tags, v.respArrived, v.reqSent, now)
  }

  /** Which measurements a record is a value of, in the order they are
      written. */
  function Rank(measurement: string): int
  {
    if measurement == "count" then 0
    else if measurement == "queue_time" then 1
    else if measurement == "computation_time" then 2
    else if measurement == "response_time" then 3
    else 4
  }

  /** Records in strictly increasing rank: each measurement at most once,
      in the order they are written. */
  predicate RankOrdered(rs: seq<Record>)
  {
    forall i, j :: 0 <= i < j < |rs| ==> Rank(rs[i].measurement) < Rank(rs[j].measurement)
  }

  lemma RankOrderedAppend(a: seq<Record>, b: seq<Record>)
    requires RankOrdered(a) && RankOrdered(b)
    requires forall x, y :: x in a && y in b ==> Rank(x.measurement) < Rank(y.measurement)
    ensures RankOrdered(a + b)
  {
    forall i, j | 0 <= i < j < |a + b|
      ensures Rank((a + b)[i].measurement) < Rank((a + b)[j].measurement)
    {
      if j < |a| {
        assert (a + b)[i] == a[i] && (a + b)[j] == a[j];
      } else if i >= |a| {
        assert (a + b)[i] == b[i - |a|] && (a + b)[j] == b[j - |a|];
      } else {
        assert (a + b)[i] in a && (a + b)[j] in b;
      }
    }
  }

  /** Each measurement is written at most once, in the fixed order count,
      queue, computation, response. */
  lemma EndedRequestRecordsOrdered(v: RcView)
    ensures RankOrdered(EndedRequestRecords(v))
  {
    if v.mark && v.reqSent.Some? {
      var tags := RequestTags(v);
      var now := v.reqSent.value;
      var c := [MakeRecord("count", tags, 1.0, v.reqSent, now)];
      var q := Interval("queue_time", tags, v.procStarted, v.reqArrived, now);
      var p := Interval("computation_time", tags, v.procCompleted, v.procStarted, now);
      var r := Interval("response_time", tags, v.respArrived, v.reqSent, now);
      RankOrderedAppend(c, q);
      RankOrderedAppend(c + q, p);
      RankOrderedAppend(c + q + p, r);
    }
  }

  /** A time is written exactly when the request is reported and both of its
      timestamps are truthy. */
  lemma EndedRequestRecordsTimes(v: RcView)
    ensures Emits(EndedRequestRecords(v), "queue_time") <==>
              v.mark && v.reqSent.Some? && Truthy(v.reqArrived) && Truthy(v.procStarted)
    ensures Emits(EndedRequestRecords(v), "computation_time") <==>
              v.mark && v.reqSent.Some? && Truthy(v.procStarted) && Truthy(v.procCompleted)
    ensures Emits(EndedRequestRecords(v), "response_time") <==> v.mark && Truthy(v.reqSent) && Truthy(v.respArrived)
  {
    if v.mark && v.reqSent.Some? {
      var tags := RequestTags(v);
      var now := v.reqSent.value;
      var q := Interval("queue_time", tags, v.procStarted, v.reqArrived, now);
      var p := Interval("computation_time", tags, v.procCompleted, v.procStarted, now);
      var r := Interval("response_time", tags, v.respArrived, v.reqSent, now);
      assert q != [] ==> q[0] in EndedRequestRecords(v);
      assert p != [] ==> p[0] in EndedRequestRecords(v);
      assert r != [] ==> r[0] in EndedRequestRecords(v);
    }
  }

  /** A request whose status is TIMEOUT-tagged is still counted once, and
      its tags keep the identifiers the context carries. */
  lemma TimedOutRequestCountedOnce(v: RcView)
    requires v.mark && v.reqSent.Some? && v.isTimeout
    ensures var rs := EndedRequestRecords(v);
            rs[0].measurement == "count" && rs[0].tags.status == Some(TIMEOUT) &&
            forall i :: 1 <= i < |rs| ==> rs[i].measurement != "count"
  {
    EndedRequestRecordsOrdered(v);
    var rs := EndedRequestRecords(v);
    forall i | 1 <= i < |rs|
      ensures rs[i].measurement != "count"
    {
      assert Rank(rs[0].measurement) < Rank(rs[i].measurement);
    }
  }

  /** A send time of exactly 0.0 still yields the count record but never a
      response time, because 0.0 is falsy. */
  lemma ZeroSendTimeSuppressesResponseTime(v: RcView)
    requires v.mark && v.reqSent == Some(0.0)
    ensures EndedRequestRecords(v) != [] && !Emits(EndedRequestRecords(v), "response_time")
  {
    EndedRequestRecordsTimes(v);
  }
}
