/**
 * The AWS constructs the stacks create, reduced to what the stacks set on
 * them: IAM roles with an identity policy, KMS keys and S3 buckets with a
 * resource policy, and a bucket's replication configuration.  Policies grow
 * only by appending statements.  ARNs that CloudFormation generates are
 * opaque strings given to the constructors.
 */
module Resources {
  import opened Wrappers

  /**
   * The construct ids the stacks give the resources whose ARNs are only
   * known at deploy time; such an ARN is `arnOf(stackId, id)`.
   */
  datatype LogicalId =
    | SnapshotExportEncryptionKey
    | SnapshotExportTaskRole
    | SnapshotExportsGlueCrawlerRole
    | RdsSnapshotExporterLambdaExecutionRole
    | ReplicationRole
    | SnapshotEventTopic
    | DestinationKey

  datatype Principal =
    | ServicePrincipal(service: string)
    | ArnPrincipal(arn: string)
    | AccountPrincipal(accountId: string)

  /** An IAM policy statement; identity-policy statements have no principals. */
  datatype PolicyStatement = PolicyStatement(
    principals: seq<Principal>,
    actions: seq<string>,
    resources: seq<string>)

  datatype RemovalPolicy = Retain | Destroy

  datatype BucketEncryption = Unencrypted | S3Managed | Kms

  datatype Status = Enabled | Disabled

  datatype ReplicationDestination = ReplicationDestination(
    bucket: string,
    replicaKmsKeyId: string,
    account: string,
    owner: string)

  datatype ReplicationRule = ReplicationRule(
    id: string,
    status: Status,
    destination: ReplicationDestination,
    sseKmsEncryptedObjects: Status)

  datatype ReplicationConfiguration = ReplicationConfiguration(role: string, rules: seq<ReplicationRule>)

  const S3ArnPrefix := "arn:aws:s3:::"

  /** The ARN of the bucket with the given name. */
  function BucketArn(bucketName: string): (arn: string)
    ensures |arn| == |S3ArnPrefix| + |bucketName|
    ensures arn[..|S3ArnPrefix|] == S3ArnPrefix && arn[|S3ArnPrefix|..] == bucketName
  {
    S3ArnPrefix + bucketName
  }

  /** The resource pattern for every object in a bucket. */
  function ObjectsArn(bucketArn: string): string
  {
    bucketArn + "/*"
  }

  /** Distinct buckets have distinct ARNs, and no bucket ARN is the wildcard. */
  lemma BucketArnInjective(a: string, b: string)
    ensures BucketArn(a) == BucketArn(b) <==> a == b
    ensures BucketArn(a) != "*" && ObjectsArn(BucketArn(a)) != "*"
  {
    if BucketArn(a) == BucketArn(b) {
      assert a == BucketArn(a)[|S3ArnPrefix|..];
    }
    assert BucketArn(a)[0] == 'a';
    assert ObjectsArn(BucketArn(a))[0] == 'a';
  }

  function ActionSet(actions: seq<string>): set<string>
  {
    set a | a in actions
  }

  /** A statement applies to a resource it lists, and to every resource when it lists "*". */
  predicate Covers(statement: PolicyStatement, resource: string)
  {
    resource in statement.resources || "*" in statement.resources
  }

  /** The actions one statement allows on a resource. */
  function StatementActionsOn(statement: PolicyStatement, resource: string): set<string>
  {
    if Covers(statement, resource) then ActionSet(statement.actions) else {}
  }

  /** The resource patterns on which one statement allows an action. */
  function StatementResourcesOf(statement: PolicyStatement, action: string): set<string>
  {
    if action in statement.actions then set r | r in statement.resources else {}
  }

  /** The actions one resource-policy statement allows a principal. */
  function StatementActionsFor(statement: PolicyStatement, principal: Principal): set<string>
  {
    if principal in statement.principals then ActionSet(statement.actions) else {}
  }

  /** Every action a list of statements allows on one resource. */
  function ActionsOn(statements: seq<PolicyStatement>, resource: string): set<string>
  {
    if |statements| == 0 then {}
    else StatementActionsOn(statements[0], resource) + ActionsOn(statements[1..], resource)
  }

  /** Every resource pattern on which a list of statements allows one action. */
  function ResourcesOf(statements: seq<PolicyStatement>, action: string): set<string>
  {
    if |statements| == 0 then {}
    else StatementResourcesOf(statements[0], action) + ResourcesOf(statements[1..], action)
  }

  /** Every action a list of resource-policy statements allows one principal. */
  function ActionsFor(statements: seq<PolicyStatement>, principal: Principal): set<string>
  {
    if |statements| == 0 then {}
    else StatementActionsFor(statements[0], principal) + ActionsFor(statements[1..], principal)
  }

  /** Appending statements only adds grants: the policy's meaning is the union. */
  lemma {:induction false} GrantsOfAppend(a: seq<PolicyStatement>, b: seq<PolicyStatement>,
                                          resource: string, action: string, principal: Principal)
    ensures ActionsOn(a + b, resource) == ActionsOn(a, resource) + ActionsOn(b, resource)
    ensures ResourcesOf(a + b, action) == ResourcesOf(a, action) + ResourcesOf(b, action)
    ensures ActionsFor(a + b, principal) == ActionsFor(a, principal) + ActionsFor(b, principal)
  {
    if |a| > 0 {
      GrantsOfAppend(a[1..], b, resource, action, principal);
      assert (a + b)[1..] == a[1..] + b;
    } else {
      assert a + b == b;
    }
  }

  /** One unfolding of the three grant queries, at position k of a statement list. */
  lemma GrantsOfSuffix(statements: seq<PolicyStatement>, k: nat)
    requires k < |statements|
    ensures forall r :: ActionsOn(statements[k..], r) ==
                        StatementActionsOn(statements[k], r) + ActionsOn(statements[k + 1..], r)
    ensures forall a :: ResourcesOf(statements[k..], a) ==
                        StatementResourcesOf(statements[k], a) + ResourcesOf(statements[k + 1..], a)
    ensures forall q :: ActionsFor(statements[k..], q) ==
                        StatementActionsFor(statements[k], q) + ActionsFor(statements[k + 1..], q)
  {
    assert statements[k..][1..] == statements[k + 1..];
  }

  /** The resources a four-statement policy allows an action on, statement by statement. */
  lemma ResourcesOfFour(statements: seq<PolicyStatement>)
    requires |statements| == 4
    ensures forall a :: ResourcesOf(statements, a) ==
              StatementResourcesOf(statements[0], a) + StatementResourcesOf(statements[1], a) +
              StatementResourcesOf(statements[2], a) + StatementResourcesOf(statements[3], a)
  {
    GrantsOfSuffix(statements, 0);
    GrantsOfSuffix(statements, 1);
    GrantsOfSuffix(statements, 2);
    GrantsOfSuffix(statements, 3);
    assert statements[0..] == statements && statements[4..] == [];
  }

  /** Listing an action again leaves the set of allowed actions unchanged. */
  lemma DuplicateActionIsNoOp(actions: seq<string>, action: string)
    requires action in actions
    ensures ActionSet(actions + [action]) == ActionSet(actions)
  {
  }

  class Role {
    const assumedBy: Principal
    const description: Option<string>
    const roleArn: string
    var statements: seq<PolicyStatement>

    constructor (assumedBy: Principal, description: Option<string>, roleArn: string)
      ensures this.assumedBy == assumedBy && this.description == description && this.roleArn == roleArn
      ensures statements == []
    {
      this.assumedBy := assumedBy;
      this.description := description;
      this.roleArn := roleArn;
      statements := [];
    }

    method AddToPolicy(statement: PolicyStatement)
      modifies this
      ensures statements == old(statements) + [statement]
    {
      statements := statements + [statement];
    }
  }

  class Key {
    const alias: string
    const keyArn: string
    const enableKeyRotation: bool
    /** None when the stack leaves the removal policy to the library default. */
    const removalPolicy: Option<RemovalPolicy>
    var resourcePolicy: seq<PolicyStatement>

    constructor (alias: string, keyArn: string, enableKeyRotation: bool, removalPolicy: Option<RemovalPolicy>)
      ensures this.alias == alias && this.keyArn == keyArn
      ensures this.enableKeyRotation == enableKeyRotation && this.removalPolicy == removalPolicy
      ensures resourcePolicy == []
    {
      this.alias := alias;
      this.keyArn := keyArn;
      this.enableKeyRotation := enableKeyRotation;
      this.removalPolicy := removalPolicy;
      resourcePolicy := [];
    }

    method AddToResourcePolicy(statement: PolicyStatement)
      modifies this
      ensures resourcePolicy == old(resourcePolicy) + [statement]
    {
      resourcePolicy := resourcePolicy + [statement];
    }
  }

  class Bucket {
    const bucketName: string
    /** The ARN is determined by the name. */
    const bucketArn: string := BucketArn(bucketName)
    const blockAllPublicAccess: bool
    const versioned: bool
    const encryption: BucketEncryption
    const encryptionKey: Key
    const removalPolicy: RemovalPolicy
    var resourcePolicy: seq<PolicyStatement>
    var replicationConfiguration: Option<ReplicationConfiguration>

    constructor (bucketName: string, blockAllPublicAccess: bool, versioned: bool,
                 encryption: BucketEncryption, encryptionKey: Key, removalPolicy: RemovalPolicy)
      ensures this.bucketName == bucketName && bucketArn == BucketArn(bucketName)
      ensures this.blockAllPublicAccess == blockAllPublicAccess && this.versioned == versioned
      ensures this.encryption == encryption && this.encryptionKey == encryptionKey
      ensures this.removalPolicy == removalPolicy
      ensures resourcePolicy == [] && replicationConfiguration == None
    {
      this.bucketName := bucketName;
      this.blockAllPublicAccess := blockAllPublicAccess;
      this.versioned := versioned;
      this.encryption := encryption;
      this.encryptionKey := encryptionKey;
      this.removalPolicy := removalPolicy;
      resourcePolicy := [];
      replicationConfiguration := None;
    }

    method AddToResourcePolicy(statement: PolicyStatement)
      modifies this
      ensures resourcePolicy == old(resourcePolicy) + [statement]
      ensures replicationConfiguration == old(replicationConfiguration)
    {
      resourcePolicy := resourcePolicy + [statement];
    }

    /** The assignment to the underlying CloudFormation bucket's replication property. */
    method SetReplicationConfiguration(configuration: ReplicationConfiguration)
      modifies this
      ensures replicationConfiguration == Some(configuration)
      ensures resourcePolicy == old(resourcePolicy)
    {
      replicationConfiguration := Some(configuration);
    }
  }
}
