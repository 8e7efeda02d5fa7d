/**
 * The receipt store of lib/db.js: a table of job receipts that is unique on
 * the idempotency key and only ever inserted into, the timeline of one job,
 * and the grouping of the latest receipts by job.
 *
 * The Prisma queries are not modelled: the rows they return are the input
 * sequences of `GetJobTimeline` and `GetAllJobs`. A row's `metadataJson`
 * column is kept as the metadata value it was written from; the text round
 * trip through `JSON.stringify` and `JSON.parse` would also drop the value's
 * undefined members, which this model keeps.
 */
module Db {
  import opened JsValue

  /** A row of the job receipts table. */
  datatype Receipt = Receipt(
    idempotencyKey: string,
    jobId: Value,
    eventType: string,
    taskType: Value,
    executor: Value,
    occurredAt: string,
    metadata: Value,
    txHash: Value,
    nid: Value,
    chain: string,
    // the event's own columns: inputHash and gpuType, or outputHash and gpuUtilization
    columns: seq<Member>)

  datatype SaveResult =
    | Saved(id: nat)
    | DuplicateKey
    | StoreFailed(message: string)

  /** The job receipts table, keyed by idempotency key. */
  class ReceiptStore {
    var rows: map<string, Receipt>
    var nextId: nat

    /** Every row is filed under its own idempotency key. */
    ghost predicate Valid()
      reads this
    {
      forall k :: k in rows ==> rows[k].idempotencyKey == k
    }

    constructor ()
      ensures rows == map[] && Valid()
    {
      rows := map[];
      nextId := 0;
    }

    /**
     * `prisma.jobReceipt.create`: inserts a row, or fails with the unique
     * constraint on the idempotency key, or fails for another reason
     * (`fault`); an existing row is never updated.
     */
    method SaveJobReceipt(receipt: Receipt, fault: Option<string>) returns (res: SaveResult)
      requires Valid()
      modifies this
      ensures Valid()
      ensures fault.Some? ==> res == StoreFailed(fault.value) && rows == old(rows) && nextId == old(nextId)
      ensures fault.None? && receipt.idempotencyKey in old(rows) ==>
                res == DuplicateKey && rows == old(rows) && nextId == old(nextId)
      ensures fault.None? && receipt.idempotencyKey !in old(rows) ==>
                res == Saved(old(nextId)) && rows == old(rows)[receipt.idempotencyKey := receipt]
                && nextId == old(nextId) + 1
      ensures forall k :: k in old(rows) ==> k in rows && rows[k] == old(rows)[k]
    {
      if fault.Some? {
        return StoreFailed(fault.value);
      }
      if receipt.idempotencyKey in rows {
        return DuplicateKey;
      }
      rows := rows[receipt.idempotencyKey := receipt];
      res := Saved(nextId);
      nextId := nextId + 1;
    }
  }

  // ---------------------------------------------------------------------------
  // The timeline of one job

  const ProfileBase: string := "https://verify.numbersprotocol.io/asset-profile/"

  /** A receipt with its explorer link, as the timeline lists it. */
  datatype TimelineEntry = TimelineEntry(receipt: Receipt, explorerUrl: string)

  /** `receipts.map(receipt => ({ ...receipt, metadata, explorerUrl }))` */
  function GetJobTimeline(receipts: seq<Receipt>): (t: seq<TimelineEntry>)
    ensures |t| == |receipts|
    ensures forall i :: 0 <= i < |t| ==> t[i].receipt == receipts[i]
    ensures forall i :: 0 <= i < |t| ==> t[i].explorerUrl == ProfileBase + ToStr(receipts[i].nid)
  {
    if receipts == [] then []
    else [TimelineEntry(receipts[0], ProfileBase + ToStr(receipts[0].nid))] + GetJobTimeline(receipts[1..])
  }

  // ---------------------------------------------------------------------------
  // Grouping by job

  datatype Event = Event(eventType: string, nid: Value, occurredAt: string, metadata: Value)

  datatype JobGroup = JobGroup(jobId: Value, taskType: Value, executor: Value, events: seq<Event>)

  function EventOf(r: Receipt): Event
  {
    Event(r.eventType, r.nid, r.occurredAt, r.metadata)
  }

  /** The property name `jobsMap[receipt.jobId]` uses. */
  function GroupKey(r: Receipt): string
  {
    ToStr(r.jobId)
  }

  /** The distinct group keys of the rows, in order of first appearance. */
  function Keys(rs: seq<Receipt>): (ks: seq<string>)
    ensures forall k :: k in ks <==> exists j :: 0 <= j < |rs| && GroupKey(rs[j]) == k
  {
    if rs == [] then []
    else
      var init := rs[..|rs| - 1];
      var ks := Keys(init);
      assert forall j :: 0 <= j < |init| ==> init[j] == rs[j];
      if GroupKey(rs[|rs| - 1]) in ks then ks else ks + [GroupKey(rs[|rs| - 1])]
  }

  /** Where the first row of a group stands. */
  function FirstIndex(rs: seq<Receipt>, k: string): (i: nat)
    requires k in Keys(rs)
    ensures i < |rs| && GroupKey(rs[i]) == k
    ensures forall j :: 0 <= j < i ==> GroupKey(rs[j]) != k
  {
    var init := rs[..|rs| - 1];
    assert forall j :: 0 <= j < |init| ==> init[j] == rs[j];
    if k in Keys(init) then FirstIndex(init, k) else |rs| - 1
  }

  /** The events of the rows of one group, in the rows' order. */
  function EventsOf(rs: seq<Receipt>, k: string): seq<Event>
  {
    if rs == [] then []
    else
      var last := rs[|rs| - 1];
      EventsOf(rs[..|rs| - 1], k) + (if GroupKey(last) == k then [EventOf(last)] else [])
  }

  /** One group: named after its first row, with the events of all its rows. */
  function GroupOf(rs: seq<Receipt>, k: string): JobGroup
    requires k in Keys(rs)
  {
    var first := rs[FirstIndex(rs, k)];
    JobGroup(first.jobId, first.taskType, first.executor, EventsOf(rs, k))
  }

  /** What `getAllJobs` returns for the rows `rs`: one group per key, in order of first appearance. */
  function Grouping(rs: seq<Receipt>): seq<JobGroup>
  {
    var ks := Keys(rs);
    seq(|ks|, i requires 0 <= i < |ks| => GroupOf(rs, ks[i]))
  }

  /** Adding a row leaves the groups named so far as they were named. */
  lemma KeysSnoc(rs: seq<Receipt>, r: Receipt)
    ensures (rs + [r])[..|rs|] == rs
    ensures GroupKey(r) in Keys(rs) ==> Keys(rs + [r]) == Keys(rs)
    ensures GroupKey(r) !in Keys(rs) ==> Keys(rs + [r]) == Keys(rs) + [GroupKey(r)]
    ensures forall k :: k in Keys(rs) ==> FirstIndex(rs + [r], k) == FirstIndex(rs, k)
    ensures forall k :: EventsOf(rs + [r], k) == EventsOf(rs, k) + (if GroupKey(r) == k then [EventOf(r)] else [])
  {
    assert (rs + [r])[..|rs|] == rs;
  }

  /** One more row adds its event to its group, or opens a group of its own. */
  lemma GroupOfSnoc(rs: seq<Receipt>, r: Receipt)
    ensures forall k :: k in Keys(rs) && k != GroupKey(r) ==> GroupOf(rs + [r], k) == GroupOf(rs, k)
    ensures GroupKey(r) in Keys(rs) ==>
              GroupOf(rs + [r], GroupKey(r)) == GroupOf(rs, GroupKey(r)).(events := GroupOf(rs, GroupKey(r)).events + [EventOf(r)])
    ensures GroupKey(r) !in Keys(rs) ==>
              GroupOf(rs + [r], GroupKey(r)) == JobGroup(r.jobId, r.taskType, r.executor, [EventOf(r)])
  {
    KeysSnoc(rs, r);
    if GroupKey(r) !in Keys(rs) {
      EventsOfAbsent(rs, GroupKey(r));
    }
  }

  /** `jobsMap` and its insertion order hold the groups of the rows `rs`. */
  ghost predicate GroupsSoFar(jobsMap: map<string, JobGroup>, order: seq<string>, rs: seq<Receipt>)
  {
    && order == Keys(rs)
    && (forall k :: k in jobsMap <==> k in order)
    && (forall k :: k in jobsMap ==> k in Keys(rs) && jobsMap[k] == GroupOf(rs, k))
  }

  /** One step of the `forEach`: open the row's group if it is new, then push its event. */
  method AddRow(jobsMap: map<string, JobGroup>, order: seq<string>, ghost rs: seq<Receipt>, r: Receipt)
    returns (jobsMap': map<string, JobGroup>, order': seq<string>)
    requires GroupsSoFar(jobsMap, order, rs)
    ensures GroupsSoFar(jobsMap', order', rs + [r])
  {
    var k := GroupKey(r);
    KeysSnoc(rs, r);
    GroupOfSnoc(rs, r);
    jobsMap', order' := jobsMap, order;
    if k !in jobsMap' {
      jobsMap' := jobsMap'[k := JobGroup(r.jobId, r.taskType, r.executor, [])];
      order' := order' + [k];
    }
    jobsMap' := jobsMap'[k := jobsMap'[k].(events := jobsMap'[k].events + [EventOf(r)])];
  }

  /**
   * The error `jobsMap[receipt.jobId].events.push(…)` throws when the job id
   * names an inherited member: the truthy inherited value stops a group from
   * being opened, and it has no `events`.
   */
  const PushError: string := ReadError(Undefined, "push")

  /** No row's job id names a member of `Object.prototype`. */
  predicate OwnKeysOnly(rs: seq<Receipt>)
  {
    forall j :: 0 <= j < |rs| ==> !Inherited(GroupKey(rs[j]))
  }

  /**
   * `getAllJobs` over the fetched rows: a dictionary of groups filled in row
   * order, then its values in insertion order. A row whose job id names a
   * member of `Object.prototype` makes the whole call throw.
   */
  method GetAllJobs(receipts: seq<Receipt>) returns (groups: Outcome<seq<JobGroup>>)
    ensures !OwnKeysOnly(receipts) ==> groups == Throw(PushError)
    ensures OwnKeysOnly(receipts) ==> groups == Ok(Grouping(receipts))
  {
    var jobsMap: map<string, JobGroup> := map[];
    var order: seq<string> := [];
    for i := 0 to |receipts|
      invariant GroupsSoFar(jobsMap, order, receipts[..i])
      invariant OwnKeysOnly(receipts[..i])
    {
      if Inherited(GroupKey(receipts[i])) {
        assert !OwnKeysOnly(receipts);
        return Throw(PushError);
      }
      assert receipts[..i + 1] == receipts[..i] + [receipts[i]];
      jobsMap, order := AddRow(jobsMap, order, receipts[..i], receipts[i]);
    }
    assert receipts[..|receipts|] == receipts;
    var values := seq(|order|, j requires 0 <= j < |order| => jobsMap[order[j]]);
    assert values == Grouping(receipts);
    groups := Ok(values);
  }

  // ---------------------------------------------------------------------------
  // What the grouping promises

  /** No job is listed twice. */
  lemma {:induction false} KeysDistinct(rs: seq<Receipt>)
    ensures forall i, j :: 0 <= i < j < |Keys(rs)| ==> Keys(rs)[i] != Keys(rs)[j]
  {
    if rs != [] {
      var init := rs[..|rs| - 1];
      KeysDistinct(init);
      KeysSnoc(init, rs[|rs| - 1]);
      assert init + [rs[|rs| - 1]] == rs;
    }
  }

  /** Exactly one group per distinct job among the rows, each named after its first row. */
  lemma GroupingGroups(rs: seq<Receipt>)
    ensures |Grouping(rs)| == |Keys(rs)|
    ensures forall j :: 0 <= j < |rs| ==> GroupKey(rs[j]) in Keys(rs)
    ensures forall k :: k in Keys(rs) ==> exists j :: 0 <= j < |rs| && GroupKey(rs[j]) == k
    ensures forall i :: 0 <= i < |Grouping(rs)| ==>
              var first := rs[FirstIndex(rs, Keys(rs)[i])];
              && Grouping(rs)[i].jobId == first.jobId
              && Grouping(rs)[i].taskType == first.taskType
              && Grouping(rs)[i].executor == first.executor
              && Grouping(rs)[i].events == EventsOf(rs, Keys(rs)[i])
  {
  }

  /** Groups come in the order in which their jobs first appear among the rows. */
  lemma {:induction false} GroupsInFirstAppearanceOrder(rs: seq<Receipt>)
    ensures forall i, j :: 0 <= i < j < |Keys(rs)| ==> FirstIndex(rs, Keys(rs)[i]) < FirstIndex(rs, Keys(rs)[j])
  {
    if rs != [] {
      var init := rs[..|rs| - 1];
      var r := rs[|rs| - 1];
      assert init + [r] == rs;
      GroupsInFirstAppearanceOrder(init);
      KeysSnoc(init, r);
      forall i, j | 0 <= i < j < |Keys(rs)|
        ensures FirstIndex(rs, Keys(rs)[i]) < FirstIndex(rs, Keys(rs)[j])
      {
        assert Keys(rs)[i] in Keys(init);
        if j < |Keys(init)| {
          assert Keys(rs)[j] == Keys(init)[j];
        }
      }
    }
  }

  /** The number of events in the groups of the keys `ks`. */
  function EventCount(rs: seq<Receipt>, ks: seq<string>): nat
  {
    if ks == [] then 0 else EventCount(rs, ks[..|ks| - 1]) + |EventsOf(rs, ks[|ks| - 1])|
  }

  /** A key outside the rows has no events. */
  lemma {:induction false} EventsOfAbsent(rs: seq<Receipt>, k: string)
    requires k !in Keys(rs)
    ensures EventsOf(rs, k) == []
  {
    if rs != [] {
      var init := rs[..|rs| - 1];
      KeysSnoc(init, rs[|rs| - 1]);
      assert init + [rs[|rs| - 1]] == rs;
      EventsOfAbsent(init, k);
    }
  }

  /** One more row adds one event to the count of any list of distinct keys that holds its key. */
  lemma {:induction false} EventCountSnoc(rs: seq<Receipt>, r: Receipt, ks: seq<string>)
    requires forall i, j :: 0 <= i < j < |ks| ==> ks[i] != ks[j]
    ensures EventCount(rs + [r], ks) == EventCount(rs, ks) + (if GroupKey(r) in ks then 1 else 0)
  {
    if ks != [] {
      var init := ks[..|ks| - 1];
      EventCountSnoc(rs, r, init);
      KeysSnoc(rs, r);
      assert GroupKey(r) in ks <==> GroupKey(r) in init || GroupKey(r) == ks[|ks| - 1];
    }
  }

  /** Every row appears as exactly one event: the groups' events add up to the rows. */
  lemma {:induction false} EveryReceiptOnce(rs: seq<Receipt>)
    ensures EventCount(rs, Keys(rs)) == |rs|
  {
    if rs != [] {
      var init := rs[..|rs| - 1];
      var r := rs[|rs| - 1];
      assert init + [r] == rs;
      EveryReceiptOnce(init);
      KeysSnoc(init, r);
      KeysDistinct(init);
      EventCountSnoc(init, r, Keys(init));
      if GroupKey(r) !in Keys(init) {
        var ks := Keys(init) + [GroupKey(r)];
        assert ks[..|ks| - 1] == Keys(init);
        EventsOfAbsent(init, GroupKey(r));
      }
    }
  }
}
