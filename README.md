# RDS snapshot export pipeline: a Dafny model

The repository is an AWS CDK application. For every configured database it
defines two stacks:

- a **destination stack** in `sa-east-1`: a KMS key and a versioned,
  KMS-encrypted bucket whose resource policies admit the account;
- an **export pipeline stack**: an export key, four IAM roles (export task,
  Glue crawler, exporter Lambda, S3 replication), the export bucket with a
  cross-region replication rule to the destination bucket, an SNS topic, the
  exporter Lambda function and its environment, and one RDS event subscription.

The application loop splits each database identifier at its first `-` to get
a base name. It names both stacks and both buckets after that base name, and
hands the destination key's ARN to the pipeline.

The model has these files:

- `text.dfy`: JavaScript `split`/`join` on one separator character, with their
  round-trip lemmas.
- `events.dfy`: the event and snapshot-type enumerations, the exporter's
  environment map, and the choice of the event subscription. All of it is pure
  functions and lemmas.
- `resources.dfy`: the constructs the stacks use. Roles, keys and buckets are
  classes whose policy statements grow by appends. The module also has the
  grant queries a policy is judged by: the actions allowed on a resource, the
  resources an action is allowed on, and the actions a principal is allowed.
- `pipeline_stack.dfy`: the export pipeline stack as a class whose constructor
  performs the source's steps in order, plus least-privilege lemmas about the
  policies it builds.
- `destination_bucket_stack.dfy`: the destination stack as a class, plus
  lemmas about its two resource policies.
- `cdk_app.dfy`: the per-database loop as a method over an `App` that rejects
  duplicate stack ids. It proves when the loop completes and how each pair of
  stacks is wired together.

Deploy-time values (resource ARNs, the account id) are parameters. A
resource's ARN is `arnOf(stackId, logicalId)`, where the logical id is the
construct id the stack gives the resource. A bucket's ARN is
`arn:aws:s3:::<name>`.

Notes on the code's behaviour:

- Two databases that share a base name do not share a bucket. Their stacks
  get the same construct id, and CDK refuses the second one. Among the
  failures the model covers (duplicate ids), `Synthesize` completes exactly
  when the base names are pairwise distinct; CDK's own checks of bucket names
  and key aliases are not modelled (see "Left out").
- The export key's resource policy grants the replication role `kms:Encrypt`
  and `kms:GenerateDataKey*` on the source key as well, in the same statement
  as the Lambda and crawler roles (lib/rds-snapshot-export-pipeline-stack.ts:171-189).
  `ExportKeyPolicyPrincipals` states this grant as the code makes it.
- The destination key policy lists ten actions. `kms:CreateGrant` and
  `kms:ListGrants` each appear twice, so eight distinct actions are granted
  (`DestinationKeyActionsCollapse`).

## Model

| member | source | states |
|---|---|---|
| Text.Split | bin/cdk.ts:28 | `split` on one character always gives at least one piece, and no piece contains the separator |
| Text.Join | lib/rds-snapshot-export-pipeline-stack.ts:239-249 | `join` on one separator character; its contract is stated by Text.SplitJoin and Text.JoinSplit: splitting a join of separator-free parts gives the parts back, and joining a split gives the string back |
| Text.SplitSeparatorFree | bin/cdk.ts:28 | a string without the separator splits to itself alone |
| Text.SplitAtSeparator | bin/cdk.ts:28 | splitting `a + sep + b`, where `a` has no separator, gives `a` followed by the pieces of `b` |
| Text.SplitJoin | lib/rds-snapshot-export-pipeline-stack.ts:239-249 | splitting the comma-join of a non-empty list of separator-free parts gives the parts back |
| Text.JoinSplit | lib/rds-snapshot-export-pipeline-stack.ts:239-249 | joining the pieces of a split gives back the original string |
| Text.SplitHeadIsPrefix | bin/cdk.ts:28 | the first piece of a split is a prefix of the string |
| Events.ParseEventCode | lib/rds-snapshot-export-pipeline-stack.ts:5-10 | a code is read back as exactly the event ids whose code it is, and as nothing otherwise |
| Events.EventCode | lib/rds-snapshot-export-pipeline-stack.ts:5-10 | the string value of each event id; Events.ParseEventCode inverts it and Events.EnumerationsInjective shows distinct ids have distinct codes |
| Events.ParseSnapshotType | lib/rds-snapshot-export-pipeline-stack.ts:12-16 | a name is read back as exactly the snapshot types with that name, and as nothing otherwise |
| Events.SnapshotTypeName | lib/rds-snapshot-export-pipeline-stack.ts:12-16 | the string value of each snapshot type; Events.ParseSnapshotType inverts it and Events.EnumerationsInjective shows distinct types have distinct names |
| Events.EnumerationsInjective | lib/rds-snapshot-export-pipeline-stack.ts:5-16 | distinct event ids have distinct codes, and distinct snapshot types have distinct names |
| Events.CommaFree | lib/rds-snapshot-export-pipeline-stack.ts:5-16 | no event code, snapshot-type name or snapshot kind contains ',' |
| Events.SnapshotKind | lib/rds-snapshot-export-pipeline-stack.ts:246-248 | the DB_SNAPSHOT_TYPES entry of a binding; Events.ExporterEnvironmentAligned states it is "cluster-snapshot" exactly for the Aurora automated event and "snapshot" otherwise |
| Events.ExporterEnvironment | lib/rds-snapshot-export-pipeline-stack.ts:238-250 | the exporter's eight environment variables; Events.ExporterEnvironmentAligned, Events.ExporterEnvironmentWithoutBindings and Events.ExporterEnvironmentRoundTrip state what a reader recovers from them |
| Events.ExporterEnvironmentAligned | lib/rds-snapshot-export-pipeline-stack.ts:238-250 | with at least one binding, splitting RDS_EVENT_IDS, RDS_SNAPSHOT_TYPES and DB_SNAPSHOT_TYPES on ',' gives one entry per binding; the i-th entries are the i-th binding's code and type name; the kind is "cluster-snapshot" exactly for the Aurora automated event and "snapshot" exactly otherwise |
| Events.ExporterEnvironmentWithoutBindings | lib/rds-snapshot-export-pipeline-stack.ts:239-249 | with no bindings each of the three variables splits to one empty entry, not to none |
| Events.ParseBindingLists | lib/rds-snapshot-export-pipeline-stack.ts:239-240 | a successful parse pairs the two lists position by position, and each pair has exactly that code and that type name |
| Events.ParseBindingListsOfCodes | lib/rds-snapshot-export-pipeline-stack.ts:239-240 | parsing the codes and type names of a list of bindings gives that list back |
| Events.ExporterEnvironmentRoundTrip | lib/rds-snapshot-export-pipeline-stack.ts:238-250 | a reader of the environment recovers the bindings in order exactly when there is at least one binding, and fails otherwise |
| Events.Find | lib/rds-snapshot-export-pipeline-stack.ts:259-260 | `find` returns nothing exactly when no element matches; otherwise it returns the first matching element |
| Events.SelectSubscription | lib/rds-snapshot-export-pipeline-stack.ts:259-274 | the subscription is enabled and uses the stack's topic; it is backup/db-cluster-snapshot when some binding is the Aurora automated event, and creation/db-snapshot when none is |
| Resources.BucketArn | lib/rds-snapshot-export-pipeline-stack.ts:96-100 | a bucket's ARN is the S3 ARN prefix followed by the bucket name |
| Resources.BucketArnInjective | lib/rds-snapshot-export-pipeline-stack.ts:117-131 | two buckets have the same ARN exactly when they have the same name; neither a bucket ARN nor its objects pattern is "*" |
| Resources.GrantsOfAppend | lib/rds-snapshot-export-pipeline-stack.ts:55-84 | appending statements to a policy grants the union of what each part grants, for all three grant queries |
| Resources.GrantsOfSuffix | lib/rds-snapshot-export-pipeline-stack.ts:121-168 | what a policy grants from position k on is what statement k grants plus what the rest grants |
| Resources.ResourcesOfFour | lib/rds-snapshot-export-pipeline-stack.ts:121-168 | the resources a four-statement policy allows an action on are the union of what each statement allows it on |
| Resources.DuplicateActionIsNoOp | lib/destination-bucket-stack.ts:46-57 | listing an action a second time leaves the set of granted actions unchanged |
| Resources.Role.constructor | lib/rds-snapshot-export-pipeline-stack.ts:40-53 | a new role has its trusted service principal, its description and no statements |
| Resources.Role.AddToPolicy | lib/rds-snapshot-export-pipeline-stack.ts:55-84 | `addToPolicy` appends exactly one statement to the role's policy |
| Resources.Key.constructor | lib/rds-snapshot-export-pipeline-stack.ts:34-37 | a new key has its alias, rotation setting and removal policy, and an empty resource policy |
| Resources.Key.AddToResourcePolicy | lib/rds-snapshot-export-pipeline-stack.ts:171-201 | `addToResourcePolicy` appends exactly one statement to the key policy |
| Resources.Bucket.constructor | lib/rds-snapshot-export-pipeline-stack.ts:87-94 | a new bucket has its name, its ARN, its flags, its encryption key and no policy or replication |
| Resources.Bucket.AddToResourcePolicy | lib/destination-bucket-stack.ts:62-78 | `addToResourcePolicy` appends one statement and leaves replication unchanged |
| Resources.Bucket.SetReplicationConfiguration | lib/rds-snapshot-export-pipeline-stack.ts:204-226 | assigning the replication property sets it and leaves the bucket policy unchanged |
| PipelineStack.NewLambdaExecutionRole | lib/rds-snapshot-export-pipeline-stack.ts:50-84 | the Lambda role trusts lambda.amazonaws.com, has its per-database description, and holds the export-task, logs and pass-role statements in that order |
| PipelineStack.AttachReplicationPolicy | lib/rds-snapshot-export-pipeline-stack.ts:121-168 | the replication role's policy gains exactly the source-bucket, destination-bucket, source-key and replica-key statements, in that order |
| PipelineStack.AddRolePolicies | lib/rds-snapshot-export-pipeline-stack.ts:107-168 | the export-task role gains its bucket statement and then the replication role its four statements, each appended to what the role already had |
| PipelineStack.NewReplicatedBucket | lib/rds-snapshot-export-pipeline-stack.ts:86-226 | steps 3 to 7 in order: a new KMS-encrypted, versioned, retained bucket with the given name and key and no policy; a new replication role that trusts s3.amazonaws.com, has no description and holds its four statements; the task role and the export key gain their statements; the bucket gets the one cross-region rule to `arn:aws:s3:::<destination>` |
| PipelineStack.AttachExportKeyPolicy | lib/rds-snapshot-export-pipeline-stack.ts:171-201 | the export key's policy gains exactly its two statements |
| PipelineStack.LambdaRolePolicy | lib/rds-snapshot-export-pipeline-stack.ts:55-84 | the Lambda role's three statements; PipelineStack.PassRoleScopedToTaskRole states that they let it pass the export-task role only |
| PipelineStack.TaskRolePolicy | lib/rds-snapshot-export-pipeline-stack.ts:108-119 | the export-task role's statement; PipelineStack.TaskRoleConfinedToBucket states that it confines the role to the export bucket and its objects |
| PipelineStack.ReplicationRolePolicy | lib/rds-snapshot-export-pipeline-stack.ts:121-168 | the replication role's four statements; the PipelineStack.ReplicationRole* lemmas state their scope on each bucket and key |
| PipelineStack.ExportKeyPolicy | lib/rds-snapshot-export-pipeline-stack.ts:171-201 | the export key's two statements; PipelineStack.ExportKeyPolicyPrincipals states what each principal is granted |
| PipelineStack.NewExportRoles | lib/rds-snapshot-export-pipeline-stack.ts:39-48 | the export-task role trusts export.rds.amazonaws.com and the crawler role glue.amazonaws.com; each has its description, its ARN and no statements |
| PipelineStack.RdsSnapshotExportPipelineStack.constructor | lib/rds-snapshot-export-pipeline-stack.ts:30-275 | the stack's key, roles, bucket, replication rule, topic, function and subscription are as built, and the stack is `Valid()`. That covers: each role's one trusted service and its description (none for the replication role); the export bucket's ARN is `arn:aws:s3:::<s3BucketName>`; the function's name, runtime python3.8, handler main.handler, 30-second timeout, role and topic; alias `<db>-snapshot-exports` with rotation; a KMS-encrypted, versioned, retained bucket; exactly one enabled replication rule to `<bucket>-sa-east-1` with the given replica key, the owner translated to Destination and only SSE-KMS objects selected; the environment and the subscription as derived from the bindings |
| PipelineStack.PassRoleScopedToTaskRole | lib/rds-snapshot-export-pipeline-stack.ts:79-84 | the Lambda role may pass exactly one role, the export-task role |
| PipelineStack.TaskRoleConfinedToBucket | lib/rds-snapshot-export-pipeline-stack.ts:108-119 | the export-task role has its five S3 actions on the bucket and its objects, and no action on any other resource |
| PipelineStack.ReplicationRoleDestinationKeyGrants | lib/rds-snapshot-export-pipeline-stack.ts:160-168 | when the destination key's ARN differs from the export key's, the export key's ARN is not "*", and the destination key's ARN is not either bucket's ARN or objects pattern: on the destination key the replication role holds exactly kms:Encrypt and kms:GenerateDataKey*, so never kms:Decrypt |
| PipelineStack.ReplicationRoleDecryptScope | lib/rds-snapshot-export-pipeline-stack.ts:151-158 | the replication role may decrypt with the source export key only |
| PipelineStack.ReplicationRoleSourceBucketGrants | lib/rds-snapshot-export-pipeline-stack.ts:121-133 | each of the six source-side actions is granted on exactly the export bucket and its objects |
| PipelineStack.ReplicationRoleDestinationBucketGrants | lib/rds-snapshot-export-pipeline-stack.ts:135-148 | each of the four destination-side actions is granted on exactly the destination bucket and its objects |
| PipelineStack.ReplicationRoleHasNoWildcard | lib/rds-snapshot-export-pipeline-stack.ts:121-168 | when neither key ARN is "*": no replication-role statement uses the "*" resource |
| PipelineStack.ExportKeyPolicyPrincipals | lib/rds-snapshot-export-pipeline-stack.ts:171-201 | when the replication role's ARN differs from the Lambda and crawler roles' ARNs: the Lambda and crawler roles get the seven key actions; the replication role gets those plus kms:GenerateDataKey; no other principal gets anything |
| PipelineStack.BuiltStackLeastPrivilege | lib/rds-snapshot-export-pipeline-stack.ts:55-168 | for a stack as its constructor leaves it, when the deployment gives the two keys distinct ARNs that are not bucket ARNs: the task role acts on the export bucket and its objects only, the Lambda role may pass the task role only, and the replication role decrypts with the export key only and on the destination key holds only kms:Encrypt and kms:GenerateDataKey* |
| DestinationStack.DestinationBucketStack.constructor | lib/destination-bucket-stack.ts:18-79 | the stack is in sa-east-1; the key has alias `<name>-key`, rotation on and is retained; the bucket is `<name>-sa-east-1`, blocks public access, is versioned, retained and encrypted with this key; both policies hold their one statement and there is no replication (`Valid()`) |
| DestinationStack.BucketNameText | lib/destination-bucket-stack.ts:29-35 | the text of `${props?.bucketName}`, "undefined" without props; the constructor's contract gives the alias `<text>-key` and the bucket name `<text>-sa-east-1` built from it |
| DestinationStack.DestinationKeyStatement | lib/destination-bucket-stack.ts:43-59 | the key policy's statement for the account; DestinationStack.DestinationKeyActionsCollapse states what it grants |
| DestinationStack.DestinationBucketStatement | lib/destination-bucket-stack.ts:62-78 | the bucket policy's statement for the account; DestinationStack.DestinationBucketPolicyGrants states what it grants and on what |
| DestinationStack.DestinationKeyActionsCollapse | lib/destination-bucket-stack.ts:46-57 | the key policy's list has ten entries but grants the eight distinct actions |
| DestinationStack.DestinationBucketPolicyGrants | lib/destination-bucket-stack.ts:62-78 | the bucket policy grants the account exactly the six replication actions, grants no other principal anything, and grants each action on exactly the bucket and its objects |
| CdkApp.BaseNameProperties | bin/cdk.ts:28 | the base name has no '-', is a prefix of the identifier, and is the whole identifier exactly when the identifier has no '-' |
| CdkApp.BaseNameOfSegments | bin/cdk.ts:28 | the base name of `<base>-<rest>` is `<base>` when `<base>` has no '-' |
| CdkApp.BaseName | bin/cdk.ts:28 | `dbName.split('-')[0]`; CdkApp.BaseNameProperties and CdkApp.BaseNameOfSegments state what it is |
| CdkApp.BucketBaseName | bin/cdk.ts:29 | `s3-rds-rdp-<base>`; CdkApp.NewPipelineStack's `Wired` states that both stacks of a database use it |
| CdkApp.DestinationStackId | bin/cdk.ts:32 | `RdsSnapshotDestinationBucket-<base>`; CdkApp.StackIdsDistinct states it is injective and never a pipeline id |
| CdkApp.PipelineStackId | bin/cdk.ts:44 | `RdsSnapshotExportToS3Pipeline-<base>`; CdkApp.StackIdsDistinct states it is injective and never a destination id |
| CdkApp.StackIdsDistinct | bin/cdk.ts:32-44 | stack ids of one kind coincide exactly when base names do, and a destination id is never a pipeline id |
| CdkApp.DefaultBindingsRouting | bin/cdk.ts:46-55 | with the configured bindings a pipeline subscribes to backup/db-cluster-snapshot, and its exporter sees "RDS-EVENT-0169,RDS-EVENT-0042", "AUTOMATED,MANUAL" and "cluster-snapshot,snapshot" |
| CdkApp.BaseNameOfUserbets0 | bin/cdk.ts:20-28 | the first configured database has base name userbets0 |
| CdkApp.BaseNameOfUserbets1 | bin/cdk.ts:21-28 | the second configured database has base name userbets1 |
| CdkApp.BaseNameOfBetting | bin/cdk.ts:22-28 | the third configured database has base name betting |
| CdkApp.ConfiguredBaseNames | bin/cdk.ts:19-28 | the configured databases have base names userbets0, userbets1 and betting, which are pairwise distinct |
| CdkApp.StackIds | bin/cdk.ts:26-44 | the stack ids the loop creates, two per database in order; CdkApp.StackIdsMembership states which ids are taken, and CdkApp.Synthesize ends with exactly these |
| CdkApp.StackIdsMembership | bin/cdk.ts:26-44 | after some databases, a stack id is taken exactly when one of them has that base name |
| CdkApp.AllWiredAt | bin/cdk.ts:26-63 | wiring that holds for a whole list holds at every position of it |
| CdkApp.AllWiredExtend | bin/cdk.ts:26-63 | wired lists stay wired when one more wired pair of stacks is appended |
| CdkApp.App.constructor | bin/cdk.ts:7 | a new application has no stacks and no ids taken |
| CdkApp.App.AddDestination | bin/cdk.ts:32 | a destination stack is added exactly when its id is not yet taken, and then its id is taken |
| CdkApp.App.AddPipeline | bin/cdk.ts:44 | a pipeline stack is added exactly when its id is not yet taken, and then its id is taken |
| CdkApp.NewDestinationStack | bin/cdk.ts:29-39 | the destination stack of a base name has the expected id, region, bucket name, bucket ARN and key alias |
| CdkApp.DestinationPoliciesAdmitReplication | lib/destination-bucket-stack.ts:43-78 | the destination bucket policy allows every destination-side action of the replication role on the same resources; the destination key policy allows both of the role's actions on the replica key |
| CdkApp.NewPipelineStack | bin/cdk.ts:41-62 | the pipeline built after a destination stack is wired to it (`Wired`): same base name, the destination key's ARN, the destination bucket's name and ARN (the name the pipeline derives, `<bucket>-sa-east-1` at lib/rds-snapshot-export-pipeline-stack.ts:96-100, is the name the destination stack gives its bucket), and the configured bindings with their subscription and DB_SNAPSHOT_TYPES |
| CdkApp.PrefixStep | bin/cdk.ts:26-44 | one more database appends its two stack ids; they are new exactly when its base name is, and then the base names stay distinct |
| CdkApp.SynthesizeDatabase | bin/cdk.ts:26-62 | one loop iteration adds both stacks exactly when neither id is taken; then it records both ids, appends one stack to each list while keeping the earlier stacks in place, and extends the wiring |
| CdkApp.Synthesize | bin/cdk.ts:19-63 | with duplicate stack ids as the only construction failure modelled, the loop completes exactly when the base names are pairwise distinct; then it has taken exactly the stack ids of every database, and every database has a destination and a pipeline stack wired together |
| CdkApp.SynthesizeConfigured | bin/cdk.ts:19-63 | the application as configured completes with three destination and three pipeline stacks |

## Left out

- CDK synthesis itself is not modelled: construct-tree mechanics other than the duplicate-id check, token resolution, `crossRegionReferences` and CloudFormation output. ARNs produced at deploy time are values of the `arnOf` parameter.
- The account is a parameter; the ambient `process.env.CDK_DEFAULT_ACCOUNT` lookup is not modelled.
- The pipeline stack's region (`us-east-1`, bin/cdk.ts:57-60) is not recorded on the stack.
- Policy evaluation is not modelled. A statement applies to a resource it lists or to every resource when it lists "*". Patterns such as `arn/*` are compared as literal strings, and the services' own semantics are not modelled.
- The default key policies CDK adds to keys are not modelled; only the statements the source adds are.
- Bucket ARNs use the `aws` partition only.
- The Lambda function's code asset (`path.join`, `Code.fromAsset`) is not modelled. Its runtime and timeout are plain values, and its SNS event source is the topic's ARN.
- The Python exporter is not part of this model. `Events.ParseBindings` stands for a reader of its two list variables.
- The Glue crawler role is created with no statements, and the model keeps it that way.
- Event ids outside the enumeration cannot occur: the enumeration's type rules them out, as in the source.
- CdkApp.Synthesize: its contract does not restate `Valid()` for every stack. Each stack's constructor ensures `Valid()`, and nothing changes a stack after it is built.
- CdkApp.Synthesize: CDK's validation of bucket names (lower case, 3 to 63 characters, no trailing '-') and of key aliases is not modelled, so "completes exactly when the base names are distinct" holds only for names CDK accepts. For example `UserBets-prod` gives the bucket `s3-rds-rdp-UserBets-sa-east-1`, which CDK rejects but the model accepts.
- CdkApp.SynthesizeDatabase: when a stack's id is taken, the stack object exists but is not added, and the iteration reports failure. In the source CDK throws from inside that stack's constructor, which ends synthesis.
