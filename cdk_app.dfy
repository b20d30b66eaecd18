/**
 * The CDK application: for every configured database, a destination stack
 * in sa-east-1 and an export pipeline stack, wired together by the bucket
 * base name and the destination key's ARN.  Both stacks of a database are
 * named after its base name, the part of its identifier before the first '-'.
 */
module CdkApp {
  import opened Wrappers
  import Text
  import opened Events
  import opened Resources
  import opened PipelineStack
  import opened DestinationStack

  /** `dbName.split('-')[0]` */
  function BaseName(dbName: string): string
  {
    Text.Split(dbName, '-')[0]
  }

  /**
   * The base name has no '-', is a prefix of the identifier, and is the whole
   * identifier exactly when the identifier has no '-'.
   */
  lemma BaseNameProperties(dbName: string)
    ensures '-' !in BaseName(dbName)
    ensures BaseName(dbName) <= dbName
    ensures BaseName(dbName) == dbName <==> '-' !in dbName
  {
    Text.SplitHeadIsPrefix(dbName, '-');
    if '-' !in dbName {
      Text.SplitSeparatorFree(dbName, '-');
    }
  }

  /** The base name of `<base>-<rest>` is `<base>`. */
  lemma BaseNameOfSegments(base: string, rest: string)
    requires '-' !in base
    ensures BaseName(base + "-" + rest) == base
  {
    Text.SplitAtSeparator(base, rest, '-');
  }

  function BucketBaseName(baseName: string): string
  {
    "s3-rds-rdp-" + baseName
  }

  function DestinationStackId(baseName: string): string
  {
    "RdsSnapshotDestinationBucket-" + baseName
  }

  function PipelineStackId(baseName: string): string
  {
    "RdsSnapshotExportToS3Pipeline-" + baseName
  }

  /** Stack ids of one kind repeat exactly when base names do; the two kinds never meet. */
  lemma StackIdsDistinct(a: string, b: string)
    ensures DestinationStackId(a) == DestinationStackId(b) <==> a == b
    ensures PipelineStackId(a) == PipelineStackId(b) <==> a == b
    ensures DestinationStackId(a) != PipelineStackId(b)
  {
    var d, p := "RdsSnapshotDestinationBucket-", "RdsSnapshotExportToS3Pipeline-";
    if DestinationStackId(a) == DestinationStackId(b) {
      assert a == DestinationStackId(a)[|d|..];
    }
    if PipelineStackId(a) == PipelineStackId(b) {
      assert a == PipelineStackId(a)[|p|..];
    }
    assert DestinationStackId(a)[11] != PipelineStackId(b)[11];
  }

  /** The bindings every pipeline of the application is given. */
  function DefaultBindings(): seq<RdsSnapshot>
  {
    [RdsSnapshot(DbAutomatedAuroraSnapshotCreated, DbAutomatedSnapshot),
     RdsSnapshot(DbManualSnapshotCreated, DbManualSnapshot)]
  }

  /**
   * With those bindings a pipeline subscribes to cluster-snapshot backup
   * events only, and its exporter sees the two bindings in order.
   */
  lemma DefaultBindingsRouting(dbName: string, bucketName: string, taskRoleArn: string,
                               taskKeyArn: string, snsTopicArn: string)
    ensures var sub := SelectSubscription(DefaultBindings(), snsTopicArn);
            sub.eventCategories == ["backup"] && sub.sourceType == "db-cluster-snapshot"
    ensures var env := ExporterEnvironment(dbName, DefaultBindings(), bucketName, taskRoleArn, taskKeyArn);
            && env["RDS_EVENT_IDS"] == "RDS-EVENT-0169,RDS-EVENT-0042"
            && env["RDS_SNAPSHOT_TYPES"] == "AUTOMATED,MANUAL"
            && env["DB_SNAPSHOT_TYPES"] == "cluster-snapshot,snapshot"
  {
    assert IsAuroraAutomated(DefaultBindings()[0]);
    assert EventCodes(DefaultBindings()) == ["RDS-EVENT-0169", "RDS-EVENT-0042"];
    assert Text.Join(["RDS-EVENT-0169", "RDS-EVENT-0042"], ',') == "RDS-EVENT-0169" + [','] + "RDS-EVENT-0042";
    assert SnapshotTypeNames(DefaultBindings()) == ["AUTOMATED", "MANUAL"];
    assert Text.Join(["AUTOMATED", "MANUAL"], ',') == "AUTOMATED" + [','] + "MANUAL";
    assert SnapshotKinds(DefaultBindings()) == ["cluster-snapshot", "snapshot"];
    assert Text.Join(["cluster-snapshot", "snapshot"], ',') == "cluster-snapshot" + [','] + "snapshot";
  }

  /** The databases the application is configured with. */
  const Databases: seq<string> := ["userbets0-production-psql", "userbets1-production-psql", "betting-production-psql"]

  predicate DistinctBaseNames(databases: seq<string>)
  {
    forall i, j :: 0 <= i < j < |databases| ==> BaseName(databases[i]) != BaseName(databases[j])
  }

  lemma BaseNameOfUserbets0()
    ensures BaseName(Databases[0]) == "userbets0"
  {
    BaseNameOfSegments("userbets0", "production-psql");
    assert "userbets0" + "-" + "production-psql" == Databases[0];
  }

  lemma BaseNameOfUserbets1()
    ensures BaseName(Databases[1]) == "userbets1"
  {
    BaseNameOfSegments("userbets1", "production-psql");
    assert "userbets1" + "-" + "production-psql" == Databases[1];
  }

  lemma BaseNameOfBetting()
    ensures BaseName(Databases[2]) == "betting"
  {
    BaseNameOfSegments("betting", "production-psql");
    assert "betting" + "-" + "production-psql" == Databases[2];
  }

  lemma DistinctBaseNamesOfThree(databases: seq<string>)
    requires |databases| == 3
    requires BaseName(databases[0]) != BaseName(databases[1])
    requires BaseName(databases[0]) != BaseName(databases[2])
    requires BaseName(databases[1]) != BaseName(databases[2])
    ensures DistinctBaseNames(databases)
  {
  }

  /** The configured databases have the base names userbets0, userbets1 and betting. */
  lemma ConfiguredBaseNames()
    ensures BaseName(Databases[0]) == "userbets0"
    ensures BaseName(Databases[1]) == "userbets1"
    ensures BaseName(Databases[2]) == "betting"
    ensures DistinctBaseNames(Databases)
  {
    BaseNameOfUserbets0();
    BaseNameOfUserbets1();
    BaseNameOfBetting();
    assert "userbets0"[8] != "userbets1"[8];
    assert "userbets0"[0] != "betting"[0];
    assert "userbets1"[0] != "betting"[0];
    DistinctBaseNamesOfThree(Databases);
  }

  /** The ids of the stacks the loop defines, in the order it defines them. */
  function StackIds(databases: seq<string>): seq<string>
  {
    if |databases| == 0 then []
    else
      var baseName := BaseName(databases[|databases| - 1]);
      StackIds(databases[..|databases| - 1]) + [DestinationStackId(baseName), PipelineStackId(baseName)]
  }

  /** A stack id is taken exactly when an earlier database has the same base name. */
  lemma {:induction false} StackIdsMembership(databases: seq<string>, baseName: string)
    ensures DestinationStackId(baseName) in StackIds(databases) <==>
              exists k :: 0 <= k < |databases| && BaseName(databases[k]) == baseName
    ensures PipelineStackId(baseName) in StackIds(databases) <==>
              exists k :: 0 <= k < |databases| && BaseName(databases[k]) == baseName
  {
    if |databases| > 0 {
      var n := |databases| - 1;
      var prefix := databases[..n];
      StackIdsMembership(prefix, baseName);
      StackIdsDistinct(baseName, BaseName(databases[n]));
      StackIdsDistinct(BaseName(databases[n]), baseName);
      assert forall k :: 0 <= k < n ==> prefix[k] == databases[k];
    }
  }

  /** What the loop establishes between a database and its two stacks. */
  ghost predicate Wired(dbName: string, destination: DestinationBucketStack,
                        pipeline: RdsSnapshotExportPipelineStack, account: string)
  {
    var baseName := BaseName(dbName);
    && destination.stackId == DestinationStackId(baseName)
    && destination.region == DestinationRegion
    && destination.account == account
    && destination.bucket.bucketName == BucketBaseName(baseName) + "-" + DestinationRegion
    && destination.kmsKey.alias == BucketBaseName(baseName) + "-key"
    && pipeline.stackId == PipelineStackId(baseName)
    && pipeline.props == PipelineProps(BucketBaseName(baseName), dbName, DefaultBindings())
    && pipeline.account == account
    // the key ARN handoff
    && pipeline.kmsKeyArn == destination.kmsKey.keyArn
    // the bucket the pipeline replicates to is the one the destination stack creates
    && pipeline.destinationBucketName == destination.bucket.bucketName
    && BucketArn(pipeline.destinationBucketName) == destination.bucket.bucketArn
    && pipeline.eventSubscription.eventCategories == ["backup"]
    && pipeline.eventSubscription.sourceType == "db-cluster-snapshot"
    && "DB_SNAPSHOT_TYPES" in pipeline.exporterFunction.environment
    && pipeline.exporterFunction.environment["DB_SNAPSHOT_TYPES"] == "cluster-snapshot,snapshot"
  }

  /**
   * Every database has its two stacks, wired together, each with its
   * resource policies as its constructor leaves them.
   */
  ghost predicate AllWired(databases: seq<string>, destinations: seq<DestinationBucketStack>,
                           pipelines: seq<RdsSnapshotExportPipelineStack>, account: string)
    decreases |databases|
  {
    && |destinations| == |databases| && |pipelines| == |databases|
    && (|databases| > 0 ==>
          var n := |databases| - 1;
          && AllWired(databases[..n], destinations[..n], pipelines[..n], account)
          && Wired(databases[n], destinations[n], pipelines[n], account))
  }

  lemma {:induction false} AllWiredAt(databases: seq<string>, destinations: seq<DestinationBucketStack>,
                                      pipelines: seq<RdsSnapshotExportPipelineStack>, account: string)
    requires AllWired(databases, destinations, pipelines, account)
    ensures |destinations| == |databases| && |pipelines| == |databases|
    ensures forall i :: 0 <= i < |databases| ==> Wired(databases[i], destinations[i], pipelines[i], account)
    decreases |databases|
  {
    if |databases| > 0 {
      var n := |databases| - 1;
      AllWiredAt(databases[..n], destinations[..n], pipelines[..n], account);
      forall i | 0 <= i < n
        ensures Wired(databases[i], destinations[i], pipelines[i], account)
      {
        assert databases[..n][i] == databases[i];
        assert destinations[..n][i] == destinations[i] && pipelines[..n][i] == pipelines[i];
      }
    }
  }

  lemma AllWiredExtend(earlier: seq<string>, destinations: seq<DestinationBucketStack>,
                       pipelines: seq<RdsSnapshotExportPipelineStack>, dbName: string,
                       destination: DestinationBucketStack, pipeline: RdsSnapshotExportPipelineStack, account: string)
    requires AllWired(earlier, destinations, pipelines, account)
    requires Wired(dbName, destination, pipeline, account)
    ensures AllWired(earlier + [dbName], destinations + [destination], pipelines + [pipeline], account)
  {
    var n := |earlier|;
    assert (earlier + [dbName])[..n] == earlier;
    assert (destinations + [destination])[..n] == destinations && (pipelines + [pipeline])[..n] == pipelines;
  }

  /** The application: its stacks, and the construct ids already taken. */
  class App {
    var stackIds: seq<string>
    var destinations: seq<DestinationBucketStack>
    var pipelines: seq<RdsSnapshotExportPipelineStack>

    constructor ()
      ensures stackIds == [] && destinations == [] && pipelines == []
    {
      stackIds, destinations, pipelines := [], [], [];
    }

    /** Adds a stack, unless its id is taken (where CDK throws). */
    method AddDestination(stack: DestinationBucketStack) returns (added: bool)
      modifies this
      ensures added == (stack.stackId !in old(stackIds))
      ensures stackIds == if added then old(stackIds) + [stack.stackId] else old(stackIds)
      ensures destinations == if added then old(destinations) + [stack] else old(destinations)
      ensures pipelines == old(pipelines)
    {
      added := stack.stackId !in stackIds;
      if added {
        stackIds := stackIds + [stack.stackId];
        destinations := destinations + [stack];
      }
    }

    method AddPipeline(stack: RdsSnapshotExportPipelineStack) returns (added: bool)
      modifies this
      ensures added == (stack.stackId !in old(stackIds))
      ensures stackIds == if added then old(stackIds) + [stack.stackId] else old(stackIds)
      ensures pipelines == if added then old(pipelines) + [stack] else old(pipelines)
      ensures destinations == old(destinations)
    {
      added := stack.stackId !in stackIds;
      if added {
        stackIds := stackIds + [stack.stackId];
        pipelines := pipelines + [stack];
      }
    }
  }

  /** The destination stack of one database (the loop body's first statement). */
  method NewDestinationStack(baseName: string, account: string, arnOf: (string, LogicalId) -> string)
    returns (destination: DestinationBucketStack)
    ensures destination.stackId == DestinationStackId(baseName)
    ensures destination.region == DestinationRegion && destination.account == account
    ensures destination.bucket.bucketName == BucketBaseName(baseName) + "-" + DestinationRegion
    ensures destination.bucket.bucketArn == BucketArn(destination.bucket.bucketName)
    ensures destination.kmsKey.alias == BucketBaseName(baseName) + "-key"
  {
    destination := new DestinationBucketStack(DestinationStackId(baseName),
                                              Some(DestinationBucketStackProps(BucketBaseName(baseName))),
                                              account, arnOf);
  }

  /**
   * The name the pipeline stack gives its replication destination is the
   * name the destination stack gives its bucket.
   */
  lemma DestinationNamesAgree(bucketBaseName: string)
    ensures bucketBaseName + DestinationRegionSuffix == bucketBaseName + "-" + DestinationRegion
  {
    assert DestinationRegionSuffix == "-" + DestinationRegion;
  }

  /**
   * The destination stack's policies admit what the replication role is
   * granted on the destination side: each destination-bucket action on the
   * same two resources, and both actions on the destination key.
   */
  lemma DestinationPoliciesAdmitReplication(account: string, bucketArn: string, destinationBucketName: string,
                                            exportKeyArn: string, kmsKeyArn: string)
    ensures var destinationArn := BucketArn(destinationBucketName);
            var role := ReplicationRolePolicy(bucketArn, destinationArn, exportKeyArn, kmsKeyArn);
            forall a :: a in ReplicationDestinationActions() ==>
              && a in DestinationBucketActions()
              && ResourcesOf(role, a) == ResourcesOf([DestinationBucketStatement(account, destinationArn)], a)
    ensures ActionSet(ReplicaKeyStatement(kmsKeyArn).actions) <= ActionsOn([DestinationKeyStatement(account)], kmsKeyArn)
  {
    var destinationArn := BucketArn(destinationBucketName);
    ReplicationRoleDestinationBucketGrants(bucketArn, destinationArn, exportKeyArn, kmsKeyArn);
    DestinationBucketPolicyGrants(account, destinationBucketName);
    var keyPolicy := [DestinationKeyStatement(account)];
    GrantsOfSuffix(keyPolicy, 0);
    assert keyPolicy[0..] == keyPolicy && keyPolicy[1..] == [];
    DestinationKeyActionsCollapse();
  }

  /** The pipeline stack of one database, handed the destination key's ARN. */
  method NewPipelineStack(dbName: string, destination: DestinationBucketStack, account: string,
                          arnOf: (string, LogicalId) -> string)
    returns (pipeline: RdsSnapshotExportPipelineStack)
    requires destination.stackId == DestinationStackId(BaseName(dbName))
    requires destination.region == DestinationRegion && destination.account == account
    requires destination.bucket.bucketName == BucketBaseName(BaseName(dbName)) + "-" + DestinationRegion
    requires destination.bucket.bucketArn == BucketArn(destination.bucket.bucketName)
    requires destination.kmsKey.alias == BucketBaseName(BaseName(dbName)) + "-key"
    ensures Wired(dbName, destination, pipeline, account)
  {
    var baseName := BaseName(dbName);
    var bucketBaseName := BucketBaseName(baseName);
    pipeline := new RdsSnapshotExportPipelineStack(PipelineStackId(baseName),
                                                   PipelineProps(bucketBaseName, dbName, DefaultBindings()),
                                                   destination.kmsKey.keyArn, account, arnOf);
    DefaultBindingsRouting(dbName, bucketBaseName, pipeline.snapshotExportTaskRole.roleArn,
                           pipeline.snapshotExportEncryptionKey.keyArn, pipeline.snapshotEventTopic.topicArn);
    assert pipeline.stackId == PipelineStackId(baseName);
    assert pipeline.props == PipelineProps(bucketBaseName, dbName, DefaultBindings());
    assert pipeline.kmsKeyArn == destination.kmsKey.keyArn;
    DestinationNamesAgree(bucketBaseName);
    assert pipeline.destinationBucketName == destination.bucket.bucketName;
    assert BucketArn(pipeline.destinationBucketName) == destination.bucket.bucketArn;
    assert pipeline.eventSubscription.eventCategories == ["backup"];
    assert pipeline.eventSubscription.sourceType == "db-cluster-snapshot";
    assert "DB_SNAPSHOT_TYPES" in pipeline.exporterFunction.environment;
    assert pipeline.exporterFunction.environment["DB_SNAPSHOT_TYPES"] == "cluster-snapshot,snapshot";
  }

  /**
   * One more database: its two stack ids follow the earlier ones; they are
   * new exactly when its base name is, and then the base names stay distinct.
   */
  lemma PrefixStep(databases: seq<string>, i: nat)
    requires i < |databases|
    ensures var baseName, earlier := BaseName(databases[i]), StackIds(databases[..i]);
            && StackIds(databases[..i + 1]) == earlier + [DestinationStackId(baseName), PipelineStackId(baseName)]
            && (DestinationStackId(baseName) in earlier ==> !DistinctBaseNames(databases))
            && (DestinationStackId(baseName) !in earlier ==>
                  && PipelineStackId(baseName) !in earlier + [DestinationStackId(baseName)]
                  && (DistinctBaseNames(databases[..i]) ==> DistinctBaseNames(databases[..i + 1])))
  {
    var baseName := BaseName(databases[i]);
    var prefix := databases[..i];
    assert databases[..i + 1][..i] == prefix;
    StackIdsMembership(prefix, baseName);
    StackIdsDistinct(baseName, baseName);
    if DestinationStackId(baseName) in StackIds(prefix) {
      var k :| 0 <= k < i && BaseName(prefix[k]) == baseName;
      assert BaseName(databases[k]) == BaseName(databases[i]);
    } else if DistinctBaseNames(prefix) {
      var extended := databases[..i + 1];
      forall j, k | 0 <= j < k < |extended|
        ensures BaseName(extended[j]) != BaseName(extended[k])
      {
        assert prefix[j] == extended[j];
        if k < i {
          assert prefix[k] == extended[k];
        }
      }
    }
  }

  /**
   * The body of the per-database loop: the destination stack, then the
   * pipeline stack handed its key's ARN.  It stops where a stack id is
   * already taken.
   */
  method SynthesizeDatabase(app: App, ghost earlier: seq<string>, dbName: string, account: string,
                            arnOf: (string, LogicalId) -> string)
    returns (added: bool)
    requires AllWired(earlier, app.destinations, app.pipelines, account)
    modifies app
    ensures var baseName := BaseName(dbName);
            added == (DestinationStackId(baseName) !in old(app.stackIds) &&
                      PipelineStackId(baseName) !in old(app.stackIds) + [DestinationStackId(baseName)])
    ensures added ==> app.stackIds == old(app.stackIds) + [DestinationStackId(BaseName(dbName)), PipelineStackId(BaseName(dbName))]
    ensures added ==> |app.destinations| == |old(app.destinations)| + 1 && |app.pipelines| == |old(app.pipelines)| + 1
    ensures added ==> app.destinations[..|old(app.destinations)|] == old(app.destinations)
    ensures added ==> app.pipelines[..|old(app.pipelines)|] == old(app.pipelines)
    ensures added ==> AllWired(earlier + [dbName], app.destinations, app.pipelines, account)
  {
    ghost var destinations, pipelines := app.destinations, app.pipelines;
    var baseName := BaseName(dbName);
    var destination := NewDestinationStack(baseName, account, arnOf);
    added := app.AddDestination(destination);
    if !added {
      return;
    }
    var pipeline := NewPipelineStack(dbName, destination, account, arnOf);
    added := app.AddPipeline(pipeline);
    if added {
      AllWiredExtend(earlier, destinations, pipelines, dbName, destination, pipeline, account);
    }
  }

  /**
   * The per-database loop.  It completes exactly when the databases' base
   * names are pairwise distinct; otherwise a destination stack id repeats and
   * synthesis stops there.
   */
  method Synthesize(databases: seq<string>, account: string, arnOf: (string, LogicalId) -> string)
    returns (app: App, ok: bool)
    ensures ok <==> DistinctBaseNames(databases)
    ensures ok ==> app.stackIds == StackIds(databases)
    ensures ok ==> |app.destinations| == |databases| && |app.pipelines| == |databases|
    ensures ok ==> forall i :: 0 <= i < |databases| ==> Wired(databases[i], app.destinations[i], app.pipelines[i], account)
  {
    app := new App();
    ok := true;
    var i := 0;
    while i < |databases|
      invariant 0 <= i <= |databases|
      invariant DistinctBaseNames(databases[..i])
      invariant app.stackIds == StackIds(databases[..i])
      invariant AllWired(databases[..i], app.destinations, app.pipelines, account)
    {
      PrefixStep(databases, i);
      assert databases[..i + 1] == databases[..i] + [databases[i]];
      var added := SynthesizeDatabase(app, databases[..i], databases[i], account, arnOf);
      if !added {
        ok := false;
        return;
      }
      i := i + 1;
    }
    assert databases[..i] == databases;
    AllWiredAt(databases, app.destinations, app.pipelines, account);
  }

  /** The application as configured synthesizes every stack. */
  method SynthesizeConfigured(account: string, arnOf: (string, LogicalId) -> string) returns (app: App, ok: bool)
    ensures ok && |app.pipelines| == 3 && |app.destinations| == 3
  {
    ConfiguredBaseNames();
    app, ok := Synthesize(Databases, account, arnOf);
  }
}
