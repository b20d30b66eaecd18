/**
 * The event-routing part of the export pipeline stack: the RDS event and
 * snapshot-type enumerations, the environment the exporter Lambda is given
 * (comma-joined, index-aligned lists derived from the stack's bindings), and
 * the choice of the single RDS event subscription.  All of it is pure.
 */
module Events {
  import opened Wrappers
  import Text

  datatype RdsEventId =
    | DbAutomatedAuroraSnapshotCreated
    | DbAutomatedSnapshotCreated
    | DbManualSnapshotCreated
    | DbBackupSnapshotFinishedCopy

  /** The RDS event code each enumeration member stands for. */
  function EventCode(id: RdsEventId): string
  {
    match id
    case DbAutomatedAuroraSnapshotCreated => "RDS-EVENT-0169"
    case DbAutomatedSnapshotCreated => "RDS-EVENT-0091"
    case DbManualSnapshotCreated => "RDS-EVENT-0042"
    case DbBackupSnapshotFinishedCopy => "RDS-EVENT-0197"
  }

  /** Reads an event code back; every code names at most one member. */
  function ParseEventCode(code: string): (r: Option<RdsEventId>)
    ensures forall id :: r == Some(id) <==> EventCode(id) == code
  {
    if code == "RDS-EVENT-0169" then Some(DbAutomatedAuroraSnapshotCreated)
    else if code == "RDS-EVENT-0091" then Some(DbAutomatedSnapshotCreated)
    else if code == "RDS-EVENT-0042" then Some(DbManualSnapshotCreated)
    else if code == "RDS-EVENT-0197" then Some(DbBackupSnapshotFinishedCopy)
    else None
  }

  datatype RdsSnapshotType =
    | DbAutomatedSnapshot
    | DbBackupSnapshot
    | DbManualSnapshot

  function SnapshotTypeName(t: RdsSnapshotType): string
  {
    match t
    case DbAutomatedSnapshot => "AUTOMATED"
    case DbBackupSnapshot => "BACKUP"
    case DbManualSnapshot => "MANUAL"
  }

  function ParseSnapshotType(name: string): (r: Option<RdsSnapshotType>)
    ensures forall t :: r == Some(t) <==> SnapshotTypeName(t) == name
  {
    if name == "AUTOMATED" then Some(DbAutomatedSnapshot)
    else if name == "BACKUP" then Some(DbBackupSnapshot)
    else if name == "MANUAL" then Some(DbManualSnapshot)
    else None
  }

  /** Distinct members have distinct codes and names. */
  lemma EnumerationsInjective(a: RdsEventId, b: RdsEventId, s: RdsSnapshotType, t: RdsSnapshotType)
    ensures EventCode(a) == EventCode(b) <==> a == b
    ensures SnapshotTypeName(s) == SnapshotTypeName(t) <==> s == t
  {
    assert ParseEventCode(EventCode(a)) == Some(a);
    assert ParseSnapshotType(SnapshotTypeName(s)) == Some(s);
  }

  /** One binding of the stack's `rdsEvents` property. */
  datatype RdsSnapshot = RdsSnapshot(rdsEventId: RdsEventId, rdsSnapshotType: RdsSnapshotType)

  predicate IsAuroraAutomated(e: RdsSnapshot)
  {
    e.rdsEventId == DbAutomatedAuroraSnapshotCreated
  }

  /** The export API target of an event: cluster snapshots for the Aurora event only. */
  function SnapshotKind(id: RdsEventId): string
  {
    if id == DbAutomatedAuroraSnapshotCreated then "cluster-snapshot" else "snapshot"
  }

  function EventCodes(rdsEvents: seq<RdsSnapshot>): seq<string>
  {
    seq(|rdsEvents|, i requires 0 <= i < |rdsEvents| => EventCode(rdsEvents[i].rdsEventId))
  }

  function SnapshotTypeNames(rdsEvents: seq<RdsSnapshot>): seq<string>
  {
    seq(|rdsEvents|, i requires 0 <= i < |rdsEvents| => SnapshotTypeName(rdsEvents[i].rdsSnapshotType))
  }

  function SnapshotKinds(rdsEvents: seq<RdsSnapshot>): seq<string>
  {
    seq(|rdsEvents|, i requires 0 <= i < |rdsEvents| => SnapshotKind(rdsEvents[i].rdsEventId))
  }

  /** The environment variables of the exporter Lambda function. */
  function ExporterEnvironment(dbName: string, rdsEvents: seq<RdsSnapshot>, bucketName: string,
                               taskRoleArn: string, taskKeyArn: string): map<string, string>
  {
    map[
      "RDS_EVENT_IDS" := Text.Join(EventCodes(rdsEvents), ','),
      "RDS_SNAPSHOT_TYPES" := Text.Join(SnapshotTypeNames(rdsEvents), ','),
      "DB_NAME" := dbName,
      "LOG_LEVEL" := "INFO",
      "SNAPSHOT_BUCKET_NAME" := bucketName,
      "SNAPSHOT_TASK_ROLE" := taskRoleArn,
      "SNAPSHOT_TASK_KEY" := taskKeyArn,
      "DB_SNAPSHOT_TYPES" := Text.Join(SnapshotKinds(rdsEvents), ',')
    ]
  }

  /** No enumeration value contains the list separator. */
  lemma CommaFree(rdsEvents: seq<RdsSnapshot>)
    ensures forall i :: 0 <= i < |rdsEvents| ==> ',' !in EventCodes(rdsEvents)[i]
    ensures forall i :: 0 <= i < |rdsEvents| ==> ',' !in SnapshotTypeNames(rdsEvents)[i]
    ensures forall i :: 0 <= i < |rdsEvents| ==> ',' !in SnapshotKinds(rdsEvents)[i]
  {
  }

  /**
   * Splitting the three list variables on ',' gives back one entry per
   * binding, and the i-th entries of all three come from the i-th binding.
   */
  lemma ExporterEnvironmentAligned(dbName: string, rdsEvents: seq<RdsSnapshot>, bucketName: string,
                                   taskRoleArn: string, taskKeyArn: string)
    requires |rdsEvents| >= 1
    ensures var env := ExporterEnvironment(dbName, rdsEvents, bucketName, taskRoleArn, taskKeyArn);
            var ids := Text.Split(env["RDS_EVENT_IDS"], ',');
            var types := Text.Split(env["RDS_SNAPSHOT_TYPES"], ',');
            var kinds := Text.Split(env["DB_SNAPSHOT_TYPES"], ',');
            |ids| == |rdsEvents| && |types| == |rdsEvents| && |kinds| == |rdsEvents| &&
            forall i :: 0 <= i < |rdsEvents| ==>
              ids[i] == EventCode(rdsEvents[i].rdsEventId) &&
              types[i] == SnapshotTypeName(rdsEvents[i].rdsSnapshotType) &&
              (kinds[i] == "cluster-snapshot" <==> IsAuroraAutomated(rdsEvents[i])) &&
              (kinds[i] == "snapshot" <==> !IsAuroraAutomated(rdsEvents[i]))
  {
    CommaFree(rdsEvents);
    Text.SplitJoin(EventCodes(rdsEvents), ',');
    Text.SplitJoin(SnapshotTypeNames(rdsEvents), ',');
    Text.SplitJoin(SnapshotKinds(rdsEvents), ',');
  }

  /**
   * With no bindings the three variables are empty strings, and splitting
   * each gives one empty entry rather than none.
   */
  lemma ExporterEnvironmentWithoutBindings(dbName: string, bucketName: string,
                                           taskRoleArn: string, taskKeyArn: string)
    ensures var env := ExporterEnvironment(dbName, [], bucketName, taskRoleArn, taskKeyArn);
            Text.Split(env["RDS_EVENT_IDS"], ',') == [""] &&
            Text.Split(env["RDS_SNAPSHOT_TYPES"], ',') == [""] &&
            Text.Split(env["DB_SNAPSHOT_TYPES"], ',') == [""]
  {
  }

  /** Pairs up event codes and snapshot-type names, position by position. */
  function ParseBindingLists(ids: seq<string>, types: seq<string>): (r: Option<seq<RdsSnapshot>>)
    ensures r.Some? ==> |r.value| == |ids| == |types|
    ensures r.Some? ==> forall i :: 0 <= i < |ids| ==>
              EventCode(r.value[i].rdsEventId) == ids[i] &&
              SnapshotTypeName(r.value[i].rdsSnapshotType) == types[i]
    decreases |ids|
  {
    if |ids| != |types| then None
    else if |ids| == 0 then Some([])
    else
      match (ParseEventCode(ids[0]), ParseSnapshotType(types[0]), ParseBindingLists(ids[1..], types[1..]))
      case (Some(e), Some(t), Some(rest)) => Some([RdsSnapshot(e, t)] + rest)
      case _ => None
  }

  /** The bindings as a reader of RDS_EVENT_IDS and RDS_SNAPSHOT_TYPES recovers them. */
  function ParseBindings(eventIds: string, snapshotTypes: string): Option<seq<RdsSnapshot>>
  {
    ParseBindingLists(Text.Split(eventIds, ','), Text.Split(snapshotTypes, ','))
  }

  lemma {:induction false} ParseBindingListsOfCodes(rdsEvents: seq<RdsSnapshot>)
    ensures ParseBindingLists(EventCodes(rdsEvents), SnapshotTypeNames(rdsEvents)) == Some(rdsEvents)
  {
    if |rdsEvents| > 0 {
      ParseBindingListsOfCodes(rdsEvents[1..]);
      assert EventCodes(rdsEvents)[1..] == EventCodes(rdsEvents[1..]);
      assert SnapshotTypeNames(rdsEvents)[1..] == SnapshotTypeNames(rdsEvents[1..]);
      assert ParseEventCode(EventCode(rdsEvents[0].rdsEventId)) == Some(rdsEvents[0].rdsEventId);
      assert ParseSnapshotType(SnapshotTypeName(rdsEvents[0].rdsSnapshotType)) == Some(rdsEvents[0].rdsSnapshotType);
      assert [rdsEvents[0]] + rdsEvents[1..] == rdsEvents;
    }
  }

  /**
   * The exporter can recover the stack's bindings, in order, from its
   * environment exactly when there is at least one binding.
   */
  lemma ExporterEnvironmentRoundTrip(dbName: string, rdsEvents: seq<RdsSnapshot>, bucketName: string,
                                     taskRoleArn: string, taskKeyArn: string)
    ensures var env := ExporterEnvironment(dbName, rdsEvents, bucketName, taskRoleArn, taskKeyArn);
            ParseBindings(env["RDS_EVENT_IDS"], env["RDS_SNAPSHOT_TYPES"]) ==
              if |rdsEvents| >= 1 then Some(rdsEvents) else None
  {
    if |rdsEvents| >= 1 {
      CommaFree(rdsEvents);
      Text.SplitJoin(EventCodes(rdsEvents), ',');
      Text.SplitJoin(SnapshotTypeNames(rdsEvents), ',');
      ParseBindingListsOfCodes(rdsEvents);
    } else {
      assert ParseEventCode("") == None;
    }
  }

  /** `Array.prototype.find`: the first element satisfying p, if any. */
  function Find<T>(xs: seq<T>, p: T -> bool): (r: Option<T>)
    ensures r.None? <==> forall i :: 0 <= i < |xs| ==> !p(xs[i])
    ensures r.Some? ==> exists k :: 0 <= k < |xs| && xs[k] == r.value && p(xs[k]) &&
                                    forall j :: 0 <= j < k ==> !p(xs[j])
    decreases |xs|
  {
    if |xs| == 0 then None
    else if p(xs[0]) then Some(xs[0])
    else
      var r := Find(xs[1..], p);
      assert forall i :: 1 <= i < |xs| ==> xs[i] == xs[1..][i - 1];
      r
  }

  datatype EventSubscription = EventSubscription(
    snsTopicArn: string,
    enabled: bool,
    eventCategories: seq<string>,
    sourceType: string)

  /**
   * The one RDS event subscription of a pipeline: cluster backups when some
   * binding is the Aurora automated-snapshot event, instance snapshot
   * creation otherwise.
   */
  function SelectSubscription(rdsEvents: seq<RdsSnapshot>, snsTopicArn: string): (sub: EventSubscription)
    ensures sub.snsTopicArn == snsTopicArn && sub.enabled
    ensures (exists i :: 0 <= i < |rdsEvents| && IsAuroraAutomated(rdsEvents[i])) ==>
              sub.eventCategories == ["backup"] && sub.sourceType == "db-cluster-snapshot"
    ensures (forall i :: 0 <= i < |rdsEvents| ==> !IsAuroraAutomated(rdsEvents[i])) ==>
              sub.eventCategories == ["creation"] && sub.sourceType == "db-snapshot"
  {
    if Find(rdsEvents, IsAuroraAutomated).Some? then
      EventSubscription(snsTopicArn, true, ["backup"], "db-cluster-snapshot")
    else
      EventSubscription(snsTopicArn, true, ["creation"], "db-snapshot")
  }
}
