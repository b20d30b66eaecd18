/**
 * The export pipeline stack: one per database.  Its constructor creates the
 * export key, four roles, the export bucket, the replication wiring to the
 * destination bucket, the exporter Lambda and the single RDS event
 * subscription, in that order, appending policy statements as it goes.
 * The statements are functions below so that the least-privilege facts can
 * be proved about them once, for every stack.
 */
module PipelineStack {
  import opened Wrappers
  import opened Events
  import opened Resources

  datatype PipelineProps = PipelineProps(s3BucketName: string, dbName: string, rdsEvents: seq<RdsSnapshot>)

  datatype Topic = Topic(displayName: string, topicArn: string)

  datatype LambdaFunction = LambdaFunction(
    functionName: string,
    runtime: string,
    handler: string,
    environment: map<string, string>,
    roleArn: string,
    timeoutSeconds: nat,
    eventSourceTopicArn: string)

  const DestinationRegionSuffix := "-sa-east-1"

  // Role descriptions.

  function TaskRoleDescription(): string
  {
    "Role used by RDS to perform snapshot exports to S3"
  }

  function CrawlerRoleDescription(): string
  {
    "Role used by Glue to crawl snapshot exports"
  }

  function LambdaRoleDescription(dbName: string): string
  {
    "RdsSnapshotExportToS3 Lambda execution role for the \"" + dbName + "\" database."
  }

  // Statements of the Lambda execution role.

  function ExportTaskStatement(): PolicyStatement
  {
    PolicyStatement([], ["rds:StartExportTask", "rds:DescribeDBSnapshots", "rds:DescribeDBClusterSnapshots"], ["*"])
  }

  function LogsStatement(): PolicyStatement
  {
    PolicyStatement([], ["logs:CreateLogGroup", "logs:CreateLogStream", "logs:PutLogEvents"], ["*"])
  }

  function PassRoleStatement(taskRoleArn: string): PolicyStatement
  {
    PolicyStatement([], ["iam:PassRole"], [taskRoleArn])
  }

  function LambdaRolePolicy(taskRoleArn: string): seq<PolicyStatement>
  {
    [ExportTaskStatement(), LogsStatement(), PassRoleStatement(taskRoleArn)]
  }

  // Statement of the export-task role.

  function ExportBucketActions(): seq<string>
  {
    ["s3:PutObject*", "s3:ListBucket", "s3:GetObject*", "s3:DeleteObject*", "s3:GetBucketLocation"]
  }

  function ExportBucketStatement(bucketArn: string): PolicyStatement
  {
    PolicyStatement([], ExportBucketActions(), [bucketArn, ObjectsArn(bucketArn)])
  }

  function TaskRolePolicy(bucketArn: string): seq<PolicyStatement>
  {
    [ExportBucketStatement(bucketArn)]
  }

  // Statements of the replication role.

  function ReplicationSourceActions(): seq<string>
  {
    ["s3:GetReplicationConfiguration", "s3:ListBucket", "s3:GetObjectVersionForReplication",
     "s3:GetObjectVersionAcl", "s3:GetObjectVersionTagging", "s3:GetObjectVersion"]
  }

  function ReplicationDestinationActions(): seq<string>
  {
    ["s3:ReplicateObject", "s3:ReplicateDelete", "s3:ReplicateTags", "s3:ObjectOwnerOverrideToBucketOwner"]
  }

  function ReplicationSourceStatement(bucketArn: string): PolicyStatement
  {
    PolicyStatement([], ReplicationSourceActions(), [bucketArn, ObjectsArn(bucketArn)])
  }

  function ReplicationDestinationStatement(destinationBucketArn: string): PolicyStatement
  {
    PolicyStatement([], ReplicationDestinationActions(), [destinationBucketArn, ObjectsArn(destinationBucketArn)])
  }

  function SourceKeyDecryptStatement(exportKeyArn: string): PolicyStatement
  {
    PolicyStatement([], ["kms:Decrypt"], [exportKeyArn])
  }

  function ReplicaKeyStatement(kmsKeyArn: string): PolicyStatement
  {
    PolicyStatement([], ["kms:Encrypt", "kms:GenerateDataKey*"], [kmsKeyArn])
  }

  function ReplicationRolePolicy(bucketArn: string, destinationBucketArn: string,
                                 exportKeyArn: string, kmsKeyArn: string): seq<PolicyStatement>
  {
    [ReplicationSourceStatement(bucketArn), ReplicationDestinationStatement(destinationBucketArn),
     SourceKeyDecryptStatement(exportKeyArn), ReplicaKeyStatement(kmsKeyArn)]
  }

  // Statements of the export key's resource policy.

  function ExportKeyActions(): seq<string>
  {
    ["kms:Encrypt", "kms:Decrypt", "kms:ReEncrypt*", "kms:GenerateDataKey*",
     "kms:CreateGrant", "kms:ListGrants", "kms:DescribeKey"]
  }

  function ExportKeyUsersStatement(lambdaRoleArn: string, crawlerRoleArn: string, replicationRoleArn: string)
    : PolicyStatement
  {
    PolicyStatement([ArnPrincipal(lambdaRoleArn), ArnPrincipal(crawlerRoleArn), ArnPrincipal(replicationRoleArn)],
                    ExportKeyActions(), ["*"])
  }

  function ExportKeyReplicationStatement(replicationRoleArn: string): PolicyStatement
  {
    PolicyStatement([ArnPrincipal(replicationRoleArn)], ["kms:Decrypt", "kms:GenerateDataKey"], ["*"])
  }

  function ExportKeyPolicy(lambdaRoleArn: string, crawlerRoleArn: string, replicationRoleArn: string)
    : seq<PolicyStatement>
  {
    [ExportKeyUsersStatement(lambdaRoleArn, crawlerRoleArn, replicationRoleArn),
     ExportKeyReplicationStatement(replicationRoleArn)]
  }

  /**
   * The export bucket's replication configuration: one enabled rule that
   * replicates the SSE-KMS objects to the destination bucket, encrypts the
   * replicas with the destination key, and hands object ownership to the
   * destination account.
   */
  function CrossRegionReplication(roleArn: string, destinationBucketArn: string, kmsKeyArn: string, account: string)
    : ReplicationConfiguration
  {
    ReplicationConfiguration(roleArn, [
      ReplicationRule("CrossRegionReplicationRule", Enabled,
                      ReplicationDestination(destinationBucketArn, kmsKeyArn, account, "Destination"),
                      Enabled)])
  }

  /** The export-task and crawler roles, created without statements. */
  method NewExportRoles(taskRoleArn: string, crawlerRoleArn: string) returns (taskRole: Role, crawlerRole: Role)
    ensures fresh(taskRole) && fresh(crawlerRole) && taskRole != crawlerRole
    ensures taskRole.assumedBy == ServicePrincipal("export.rds.amazonaws.com") && taskRole.roleArn == taskRoleArn
    ensures taskRole.description == Some(TaskRoleDescription()) && taskRole.statements == []
    ensures crawlerRole.assumedBy == ServicePrincipal("glue.amazonaws.com") && crawlerRole.roleArn == crawlerRoleArn
    ensures crawlerRole.description == Some(CrawlerRoleDescription()) && crawlerRole.statements == []
  {
    taskRole := new Role(ServicePrincipal("export.rds.amazonaws.com"), Some(TaskRoleDescription()), taskRoleArn);
    crawlerRole := new Role(ServicePrincipal("glue.amazonaws.com"), Some(CrawlerRoleDescription()), crawlerRoleArn);
  }

  /** The Lambda execution role with its three statements, in the order the stack adds them. */
  method NewLambdaExecutionRole(dbName: string, roleArn: string, taskRoleArn: string) returns (role: Role)
    ensures fresh(role)
    ensures role.assumedBy == ServicePrincipal("lambda.amazonaws.com") && role.roleArn == roleArn
    ensures role.description == Some(LambdaRoleDescription(dbName))
    ensures role.statements == LambdaRolePolicy(taskRoleArn)
  {
    role := new Role(ServicePrincipal("lambda.amazonaws.com"),
                     Some(LambdaRoleDescription(dbName)),
                     roleArn);
    role.AddToPolicy(ExportTaskStatement());
    role.AddToPolicy(LogsStatement());
    role.AddToPolicy(PassRoleStatement(taskRoleArn));
  }

  /** Appends the replication role's four statements, in the order the stack adds them. */
  method AttachReplicationPolicy(role: Role, bucketArn: string, destinationBucketArn: string,
                                 exportKeyArn: string, kmsKeyArn: string)
    modifies role
    ensures role.statements ==
              old(role.statements) + ReplicationRolePolicy(bucketArn, destinationBucketArn, exportKeyArn, kmsKeyArn)
  {
    role.AddToPolicy(ReplicationSourceStatement(bucketArn));
    role.AddToPolicy(ReplicationDestinationStatement(destinationBucketArn));
    role.AddToPolicy(SourceKeyDecryptStatement(exportKeyArn));
    role.AddToPolicy(ReplicaKeyStatement(kmsKeyArn));
  }

  /** Appends the export-task role's statement, then the replication role's four. */
  method AddRolePolicies(taskRole: Role, replicationRole: Role, bucketArn: string, destinationBucketArn: string,
                         exportKeyArn: string, kmsKeyArn: string)
    requires taskRole != replicationRole
    modifies taskRole, replicationRole
    ensures taskRole.statements == old(taskRole.statements) + TaskRolePolicy(bucketArn)
    ensures replicationRole.statements ==
              old(replicationRole.statements) + ReplicationRolePolicy(bucketArn, destinationBucketArn, exportKeyArn, kmsKeyArn)
  {
    taskRole.AddToPolicy(ExportBucketStatement(bucketArn));
    AttachReplicationPolicy(replicationRole, bucketArn, destinationBucketArn, exportKeyArn, kmsKeyArn);
  }

  /** Appends the two statements of the export key's resource policy. */
  method AttachExportKeyPolicy(key: Key, lambdaRoleArn: string, crawlerRoleArn: string, replicationRoleArn: string)
    modifies key
    ensures key.resourcePolicy == old(key.resourcePolicy) + ExportKeyPolicy(lambdaRoleArn, crawlerRoleArn, replicationRoleArn)
  {
    key.AddToResourcePolicy(ExportKeyUsersStatement(lambdaRoleArn, crawlerRoleArn, replicationRoleArn));
    key.AddToResourcePolicy(ExportKeyReplicationStatement(replicationRoleArn));
  }

  /**
   * Steps 3 to 7 of the stack: the export bucket, the destination bucket by
   * name, the replication role, the export-task and replication roles'
   * statements, the export key's statements and the replication rule.
   */
  method NewReplicatedBucket(bucketName: string, destinationName: string, replicationRoleArn: string,
                             key: Key, taskRole: Role, crawlerRoleArn: string, lambdaRoleArn: string,
                             kmsKeyArn: string, account: string)
    returns (exportBucket: Bucket, replication: Role)
    modifies key, taskRole
    ensures fresh(exportBucket) && fresh(replication)
    ensures exportBucket.bucketName == bucketName
    ensures exportBucket.blockAllPublicAccess && exportBucket.versioned
    ensures exportBucket.encryption == Kms && exportBucket.encryptionKey == key
    ensures exportBucket.removalPolicy == Retain
    ensures exportBucket.resourcePolicy == []
    ensures exportBucket.replicationConfiguration ==
              Some(CrossRegionReplication(replication.roleArn, BucketArn(destinationName), kmsKeyArn, account))
    ensures replication.assumedBy == ServicePrincipal("s3.amazonaws.com") && replication.description == None
    ensures replication.roleArn == replicationRoleArn
    ensures replication.statements ==
              ReplicationRolePolicy(exportBucket.bucketArn, BucketArn(destinationName), key.keyArn, kmsKeyArn)
    ensures taskRole.statements == old(taskRole.statements) + TaskRolePolicy(exportBucket.bucketArn)
    ensures key.resourcePolicy == old(key.resourcePolicy) + ExportKeyPolicy(lambdaRoleArn, crawlerRoleArn, replicationRoleArn)
  {
    // 3. the export bucket, and the destination bucket by name
    exportBucket := new Bucket(bucketName, true, true, Kms, key, Retain);
    var destinationArn := BucketArn(destinationName);

    // 4. the replication role, without policies
    replication := new Role(ServicePrincipal("s3.amazonaws.com"), None, replicationRoleArn);

    // 5. the export-task role's policy, then the replication role's
    AddRolePolicies(taskRole, replication, exportBucket.bucketArn, destinationArn, key.keyArn, kmsKeyArn);

    // 6. the export key's resource policy
    AttachExportKeyPolicy(key, lambdaRoleArn, crawlerRoleArn, replication.roleArn);

    // 7. replication
    exportBucket.SetReplicationConfiguration(CrossRegionReplication(replication.roleArn, destinationArn, kmsKeyArn, account));
  }

  class RdsSnapshotExportPipelineStack {
    const stackId: string
    const props: PipelineProps
    const account: string
    /** The destination key's ARN, handed over from the destination stack. */
    const kmsKeyArn: string
    const snapshotExportEncryptionKey: Key
    const snapshotExportTaskRole: Role
    const snapshotExportGlueCrawlerRole: Role
    const lambdaExecutionRole: Role
    const bucket: Bucket
    /** The name under which the destination bucket is referenced (not created) here. */
    const destinationBucketName: string
    const replicationRole: Role
    const snapshotEventTopic: Topic
    const exporterFunction: LambdaFunction
    const eventSubscription: EventSubscription

    /** The trust graph as the constructor leaves it. */
    ghost predicate Valid()
      reads this, snapshotExportEncryptionKey, snapshotExportTaskRole, snapshotExportGlueCrawlerRole,
            lambdaExecutionRole, replicationRole, bucket
    {
      && snapshotExportEncryptionKey.resourcePolicy ==
           ExportKeyPolicy(lambdaExecutionRole.roleArn, snapshotExportGlueCrawlerRole.roleArn, replicationRole.roleArn)
      && snapshotExportTaskRole.statements == TaskRolePolicy(bucket.bucketArn)
      && snapshotExportGlueCrawlerRole.statements == []
      && lambdaExecutionRole.statements == LambdaRolePolicy(snapshotExportTaskRole.roleArn)
      && replicationRole.statements ==
           ReplicationRolePolicy(bucket.bucketArn, BucketArn(destinationBucketName),
                                 snapshotExportEncryptionKey.keyArn, kmsKeyArn)
      && bucket.resourcePolicy == []
      && bucket.replicationConfiguration ==
           Some(CrossRegionReplication(replicationRole.roleArn, BucketArn(destinationBucketName), kmsKeyArn, account))
    }

    constructor (stackId: string, props: PipelineProps, kmsKeyArn: string, account: string,
                 arnOf: (string, LogicalId) -> string)
      ensures this.stackId == stackId && this.props == props
      ensures this.kmsKeyArn == kmsKeyArn && this.account == account
      ensures fresh(snapshotExportEncryptionKey) && fresh(bucket)
      ensures fresh(snapshotExportTaskRole) && fresh(snapshotExportGlueCrawlerRole)
      ensures fresh(lambdaExecutionRole) && fresh(replicationRole)
      ensures Valid()
      // export key
      ensures snapshotExportEncryptionKey.alias == props.dbName + "-snapshot-exports"
      ensures snapshotExportEncryptionKey.enableKeyRotation
      ensures snapshotExportEncryptionKey.removalPolicy == None
      ensures snapshotExportEncryptionKey.keyArn == arnOf(stackId, SnapshotExportEncryptionKey)
      // roles: each assumable by exactly one service
      ensures snapshotExportTaskRole.assumedBy == ServicePrincipal("export.rds.amazonaws.com")
      ensures snapshotExportTaskRole.roleArn == arnOf(stackId, SnapshotExportTaskRole)
      ensures snapshotExportTaskRole.description == Some(TaskRoleDescription())
      ensures snapshotExportGlueCrawlerRole.assumedBy == ServicePrincipal("glue.amazonaws.com")
      ensures snapshotExportGlueCrawlerRole.roleArn == arnOf(stackId, SnapshotExportsGlueCrawlerRole)
      ensures snapshotExportGlueCrawlerRole.description == Some(CrawlerRoleDescription())
      ensures lambdaExecutionRole.assumedBy == ServicePrincipal("lambda.amazonaws.com")
      ensures lambdaExecutionRole.roleArn == arnOf(stackId, RdsSnapshotExporterLambdaExecutionRole)
      ensures lambdaExecutionRole.description == Some(LambdaRoleDescription(props.dbName))
      ensures replicationRole.assumedBy == ServicePrincipal("s3.amazonaws.com")
      ensures replicationRole.roleArn == arnOf(stackId, ReplicationRole)
      ensures replicationRole.description == None
      // export bucket and the destination it replicates to
      ensures bucket.bucketName == props.s3BucketName && bucket.bucketArn == BucketArn(props.s3BucketName)
      ensures bucket.blockAllPublicAccess && bucket.versioned
      ensures bucket.encryption == Kms && bucket.encryptionKey == snapshotExportEncryptionKey
      ensures bucket.removalPolicy == Retain
      ensures destinationBucketName == props.s3BucketName + DestinationRegionSuffix
      // exporter and its trigger
      ensures snapshotEventTopic == Topic("rds-snapshot-creation", arnOf(stackId, SnapshotEventTopic))
      ensures exporterFunction.functionName == props.dbName + "-rds-snapshot-exporter"
      ensures exporterFunction.runtime == "python3.8" && exporterFunction.handler == "main.handler"
      ensures exporterFunction.timeoutSeconds == 30
      ensures exporterFunction.roleArn == lambdaExecutionRole.roleArn
      ensures exporterFunction.eventSourceTopicArn == snapshotEventTopic.topicArn
      ensures exporterFunction.environment ==
                ExporterEnvironment(props.dbName, props.rdsEvents, bucket.bucketName,
                                    snapshotExportTaskRole.roleArn, snapshotExportEncryptionKey.keyArn)
      ensures eventSubscription == SelectSubscription(props.rdsEvents, snapshotEventTopic.topicArn)
    {
      // 1. the export key
      var key := new Key(props.dbName + "-snapshot-exports", arnOf(stackId, SnapshotExportEncryptionKey), true, None);

      // 2. the roles, without policies
      var taskRole, crawlerRole := NewExportRoles(arnOf(stackId, SnapshotExportTaskRole),
                                                  arnOf(stackId, SnapshotExportsGlueCrawlerRole));
      var lambdaRole := NewLambdaExecutionRole(props.dbName, arnOf(stackId, RdsSnapshotExporterLambdaExecutionRole),
                                               taskRole.roleArn);

      // 3-7. the export bucket, the replication role, the policies and replication
      var destinationName := props.s3BucketName + DestinationRegionSuffix;
      var exportBucket, replication :=
        NewReplicatedBucket(props.s3BucketName, destinationName, arnOf(stackId, ReplicationRole),
                            key, taskRole, crawlerRole.roleArn, lambdaRole.roleArn, kmsKeyArn, account);

      // 8. topic and exporter
      var topic := Topic("rds-snapshot-creation", arnOf(stackId, SnapshotEventTopic));
      var exporter := LambdaFunction(
        props.dbName + "-rds-snapshot-exporter", "python3.8", "main.handler",
        ExporterEnvironment(props.dbName, props.rdsEvents, exportBucket.bucketName, taskRole.roleArn, key.keyArn),
        lambdaRole.roleArn, 30, topic.topicArn);

      // 9. the event subscription
      var subscription := SelectSubscription(props.rdsEvents, topic.topicArn);

      this.stackId := stackId;
      this.props := props;
      this.account := account;
      this.kmsKeyArn := kmsKeyArn;
      snapshotExportEncryptionKey := key;
      snapshotExportTaskRole := taskRole;
      snapshotExportGlueCrawlerRole := crawlerRole;
      lambdaExecutionRole := lambdaRole;
      bucket := exportBucket;
      destinationBucketName := destinationName;
      replicationRole := replication;
      snapshotEventTopic := topic;
      exporterFunction := exporter;
      eventSubscription := subscription;
    }
  }

  /** iam:PassRole is granted on the export-task role and on nothing else. */
  lemma PassRoleScopedToTaskRole(taskRoleArn: string)
    ensures ResourcesOf(LambdaRolePolicy(taskRoleArn), "iam:PassRole") == {taskRoleArn}
  {
    var p := LambdaRolePolicy(taskRoleArn);
    GrantsOfSuffix(p, 0);
    GrantsOfSuffix(p, 1);
    GrantsOfSuffix(p, 2);
    assert p[0..] == p && p[3..] == [];
    assert StatementResourcesOf(p[2], "iam:PassRole") == {taskRoleArn};
    assert StatementResourcesOf(p[1], "iam:PassRole") == {};
    assert StatementResourcesOf(p[0], "iam:PassRole") == {};
    assert ResourcesOf([], "iam:PassRole") == {};
  }

  /**
   * The export-task role can act on the export bucket and its objects and on
   * no other resource.
   */
  lemma TaskRoleConfinedToBucket(bucketName: string)
    ensures var bucketArn := BucketArn(bucketName);
            var policy := TaskRolePolicy(bucketArn);
            && (forall r :: ActionsOn(policy, r) ==
                  if r == bucketArn || r == ObjectsArn(bucketArn) then ActionSet(ExportBucketActions()) else {})
            && (forall a :: a in ExportBucketActions() ==> ResourcesOf(policy, a) == {bucketArn, ObjectsArn(bucketArn)})
  {
    var bucketArn := BucketArn(bucketName);
    var policy := TaskRolePolicy(bucketArn);
    BucketArnInjective(bucketName, bucketName);
    GrantsOfSuffix(policy, 0);
    assert policy[0..] == policy && policy[1..] == [];
  }

  /**
   * On the destination key the replication role may only encrypt and
   * generate data keys: it never decrypts with it.
   */
  lemma ReplicationRoleDestinationKeyGrants(bucketName: string, destinationBucketName: string,
                                            exportKeyArn: string, kmsKeyArn: string)
    requires kmsKeyArn != exportKeyArn && exportKeyArn != "*"
    requires var b, d := BucketArn(bucketName), BucketArn(destinationBucketName);
             kmsKeyArn !in {b, ObjectsArn(b), d, ObjectsArn(d)}
    ensures var policy := ReplicationRolePolicy(BucketArn(bucketName), BucketArn(destinationBucketName),
                                                exportKeyArn, kmsKeyArn);
            ActionsOn(policy, kmsKeyArn) == {"kms:Encrypt", "kms:GenerateDataKey*"}
  {
    var p := ReplicationRolePolicy(BucketArn(bucketName), BucketArn(destinationBucketName), exportKeyArn, kmsKeyArn);
    var r := kmsKeyArn;
    BucketArnInjective(bucketName, destinationBucketName);
    BucketArnInjective(destinationBucketName, bucketName);
    assert ActionsOn(p[3..], r) == {"kms:Encrypt", "kms:GenerateDataKey*"} by {
      GrantsOfSuffix(p, 3);
      assert p[4..] == [];
      assert StatementActionsOn(p[3], r) == {"kms:Encrypt", "kms:GenerateDataKey*"};
    }
    assert ActionsOn(p[2..], r) == ActionsOn(p[3..], r) by {
      GrantsOfSuffix(p, 2);
      assert StatementActionsOn(p[2], r) == {};
    }
    assert ActionsOn(p[1..], r) == ActionsOn(p[2..], r) by {
      GrantsOfSuffix(p, 1);
      assert StatementActionsOn(p[1], r) == {};
    }
    assert ActionsOn(p[0..], r) == ActionsOn(p[1..], r) by {
      GrantsOfSuffix(p, 0);
      assert StatementActionsOn(p[0], r) == {};
    }
    assert p[0..] == p;
  }

  /** The replication role may decrypt with the export key and with nothing else. */
  lemma ReplicationRoleDecryptScope(bucketArn: string, destinationBucketArn: string,
                                    exportKeyArn: string, kmsKeyArn: string)
    ensures var policy := ReplicationRolePolicy(bucketArn, destinationBucketArn, exportKeyArn, kmsKeyArn);
            ResourcesOf(policy, "kms:Decrypt") == {exportKeyArn}
  {
    var p := ReplicationRolePolicy(bucketArn, destinationBucketArn, exportKeyArn, kmsKeyArn);
    GrantsOfSuffix(p, 0);
    GrantsOfSuffix(p, 1);
    GrantsOfSuffix(p, 2);
    GrantsOfSuffix(p, 3);
    assert p[0..] == p && p[4..] == [];
    assert StatementResourcesOf(p[2], "kms:Decrypt") == {exportKeyArn};
  }

  /** The replication role's six read actions apply to the export bucket and its objects only. */
  lemma ReplicationRoleSourceBucketGrants(bucketArn: string, destinationBucketArn: string,
                                          exportKeyArn: string, kmsKeyArn: string)
    ensures var policy := ReplicationRolePolicy(bucketArn, destinationBucketArn, exportKeyArn, kmsKeyArn);
            forall a :: a in ReplicationSourceActions() ==>
              ResourcesOf(policy, a) == {bucketArn, ObjectsArn(bucketArn)}
  {
    var p := ReplicationRolePolicy(bucketArn, destinationBucketArn, exportKeyArn, kmsKeyArn);
    ResourcesOfFour(p);
    forall a | a in ReplicationSourceActions()
      ensures ResourcesOf(p, a) == {bucketArn, ObjectsArn(bucketArn)}
    {
      assert a !in p[1].actions && a !in p[2].actions && a !in p[3].actions;
    }
  }

  /** The replication role's four replicate actions apply to the destination bucket and its objects only. */
  lemma ReplicationRoleDestinationBucketGrants(bucketArn: string, destinationBucketArn: string,
                                               exportKeyArn: string, kmsKeyArn: string)
    ensures var policy := ReplicationRolePolicy(bucketArn, destinationBucketArn, exportKeyArn, kmsKeyArn);
            forall a :: a in ReplicationDestinationActions() ==>
              ResourcesOf(policy, a) == {destinationBucketArn, ObjectsArn(destinationBucketArn)}
  {
    var p := ReplicationRolePolicy(bucketArn, destinationBucketArn, exportKeyArn, kmsKeyArn);
    ResourcesOfFour(p);
    forall a | a in ReplicationDestinationActions()
      ensures ResourcesOf(p, a) == {destinationBucketArn, ObjectsArn(destinationBucketArn)}
    {
      assert a !in p[0].actions && a !in p[2].actions && a !in p[3].actions;
    }
  }

  /** No statement of the replication role uses the "*" resource. */
  lemma ReplicationRoleHasNoWildcard(bucketName: string, destinationBucketName: string,
                                     exportKeyArn: string, kmsKeyArn: string)
    requires exportKeyArn != "*" && kmsKeyArn != "*"
    ensures var policy := ReplicationRolePolicy(BucketArn(bucketName), BucketArn(destinationBucketName),
                                                exportKeyArn, kmsKeyArn);
            forall i :: 0 <= i < |policy| ==> "*" !in policy[i].resources
  {
    BucketArnInjective(bucketName, destinationBucketName);
    BucketArnInjective(destinationBucketName, bucketName);
  }

  /**
   * The export key's resource policy: the Lambda, crawler and replication
   * roles get the seven key actions, the replication role additionally
   * kms:GenerateDataKey, and no other principal is named.
   */
  lemma ExportKeyPolicyPrincipals(lambdaRoleArn: string, crawlerRoleArn: string, replicationRoleArn: string)
    requires lambdaRoleArn != replicationRoleArn && crawlerRoleArn != replicationRoleArn
    ensures var policy := ExportKeyPolicy(lambdaRoleArn, crawlerRoleArn, replicationRoleArn);
            && ActionsFor(policy, ArnPrincipal(lambdaRoleArn)) == ActionSet(ExportKeyActions())
            && ActionsFor(policy, ArnPrincipal(crawlerRoleArn)) == ActionSet(ExportKeyActions())
            && ActionsFor(policy, ArnPrincipal(replicationRoleArn)) == ActionSet(ExportKeyActions()) + {"kms:GenerateDataKey"}
            && (forall q :: q !in {ArnPrincipal(lambdaRoleArn), ArnPrincipal(crawlerRoleArn), ArnPrincipal(replicationRoleArn)}
                  ==> ActionsFor(policy, q) == {})
  {
    var p := ExportKeyPolicy(lambdaRoleArn, crawlerRoleArn, replicationRoleArn);
    GrantsOfSuffix(p, 0);
    GrantsOfSuffix(p, 1);
    assert p[0..] == p && p[2..] == [];
  }

  /**
   * The least-privilege facts, applied to a stack as its constructor leaves
   * it: the task role is confined to the export bucket, the Lambda role may
   * pass only the task role, and the replication role may decrypt with the
   * export key only and only encrypt with the destination key.  The ARNs the
   * deployment assigns to the two keys must differ from each other and from
   * the bucket ARNs.
   */
  lemma BuiltStackLeastPrivilege(s: RdsSnapshotExportPipelineStack)
    requires s.Valid() && s.bucket.bucketArn == BucketArn(s.props.s3BucketName)
    requires s.kmsKeyArn != s.snapshotExportEncryptionKey.keyArn && s.snapshotExportEncryptionKey.keyArn != "*"
    requires var b, d := s.bucket.bucketArn, BucketArn(s.destinationBucketName);
             s.kmsKeyArn !in {b, ObjectsArn(b), d, ObjectsArn(d)}
    ensures var b := s.bucket.bucketArn;
            forall r :: ActionsOn(s.snapshotExportTaskRole.statements, r) ==
              if r == b || r == ObjectsArn(b) then ActionSet(ExportBucketActions()) else {}
    ensures ResourcesOf(s.lambdaExecutionRole.statements, "iam:PassRole") == {s.snapshotExportTaskRole.roleArn}
    ensures ResourcesOf(s.replicationRole.statements, "kms:Decrypt") == {s.snapshotExportEncryptionKey.keyArn}
    ensures ActionsOn(s.replicationRole.statements, s.kmsKeyArn) == {"kms:Encrypt", "kms:GenerateDataKey*"}
  {
    TaskRoleConfinedToBucket(s.props.s3BucketName);
    PassRoleScopedToTaskRole(s.snapshotExportTaskRole.roleArn);
    ReplicationRoleDecryptScope(s.bucket.bucketArn, BucketArn(s.destinationBucketName),
                                s.snapshotExportEncryptionKey.keyArn, s.kmsKeyArn);
    ReplicationRoleDestinationKeyGrants(s.props.s3BucketName, s.destinationBucketName,
                                        s.snapshotExportEncryptionKey.keyArn, s.kmsKeyArn);
  }
}
