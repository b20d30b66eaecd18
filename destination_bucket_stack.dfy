/**
 * The destination stack, pinned to sa-east-1: a KMS key and the bucket the
 * export bucket replicates into, each with one resource-policy statement for
 * the deploying account.
 */
module DestinationStack {
  import opened Wrappers
  import opened Resources

  datatype DestinationBucketStackProps = DestinationBucketStackProps(bucketName: string)

  const DestinationRegion := "sa-east-1"

  /** The template text `${props?.bucketName}`: "undefined" when the stack has no props. */
  function BucketNameText(props: Option<DestinationBucketStackProps>): string
  {
    match props
    case Some(p) => p.bucketName
    case None => "undefined"
  }

  /** The key-policy action list as written, repetitions included. */
  function DestinationKeyActions(): seq<string>
  {
    ["kms:Encrypt", "kms:Decrypt", "kms:ReEncrypt*", "kms:GenerateDataKey*", "kms:CreateGrant",
     "kms:DescribeKey", "kms:RetireGrant", "kms:CreateGrant", "kms:ListGrants", "kms:ListGrants"]
  }

  function DestinationKeyStatement(account: string): PolicyStatement
  {
    PolicyStatement([AccountPrincipal(account)], DestinationKeyActions(), ["*"])
  }

  function DestinationBucketActions(): seq<string>
  {
    ["s3:ReplicateObject", "s3:ReplicateDelete", "s3:ReplicateTags", "s3:ObjectOwnerOverrideToBucketOwner",
     "s3:GetObjectVersionForReplication", "s3:GetObjectVersionTagging"]
  }

  function DestinationBucketStatement(account: string, bucketArn: string): PolicyStatement
  {
    PolicyStatement([AccountPrincipal(account)], DestinationBucketActions(), [bucketArn, ObjectsArn(bucketArn)])
  }

  class DestinationBucketStack {
    const stackId: string
    const region: string
    const account: string
    const kmsKey: Key
    const bucket: Bucket

    /** The resource policies as the constructor leaves them. */
    ghost predicate Valid()
      reads this, kmsKey, bucket
    {
      && kmsKey.resourcePolicy == [DestinationKeyStatement(account)]
      && bucket.resourcePolicy == [DestinationBucketStatement(account, bucket.bucketArn)]
      && bucket.replicationConfiguration == None
    }

    constructor (stackId: string, props: Option<DestinationBucketStackProps>, account: string,
                 arnOf: (string, LogicalId) -> string)
      ensures this.stackId == stackId && this.account == account && region == DestinationRegion
      ensures fresh(kmsKey) && fresh(bucket)
      ensures Valid()
      ensures kmsKey.alias == BucketNameText(props) + "-key"
      ensures kmsKey.keyArn == arnOf(stackId, DestinationKey)
      ensures kmsKey.enableKeyRotation && kmsKey.removalPolicy == Some(Retain)
      ensures bucket.bucketName == BucketNameText(props) + "-" + DestinationRegion
      ensures bucket.bucketArn == BucketArn(bucket.bucketName)
      ensures bucket.blockAllPublicAccess && bucket.versioned && bucket.removalPolicy == Retain
      ensures bucket.encryption == Kms && bucket.encryptionKey == kmsKey
    {
      var key := new Key(BucketNameText(props) + "-key", arnOf(stackId, DestinationKey), true, Some(Retain));
      var destination := new Bucket(BucketNameText(props) + "-" + DestinationRegion, true, true, Kms, key, Retain);
      key.AddToResourcePolicy(DestinationKeyStatement(account));
      destination.AddToResourcePolicy(DestinationBucketStatement(account, destination.bucketArn));

      this.stackId := stackId;
      region := DestinationRegion;
      this.account := account;
      kmsKey := key;
      bucket := destination;
    }
  }

  /** The eight distinct actions of the destination key policy. */
  function DestinationKeyActionSet(): set<string>
  {
    {"kms:Encrypt", "kms:Decrypt", "kms:ReEncrypt*", "kms:GenerateDataKey*",
     "kms:CreateGrant", "kms:DescribeKey", "kms:RetireGrant", "kms:ListGrants"}
  }

  /**
   * The key policy lists ten actions but grants eight distinct ones: the
   * repeated kms:CreateGrant and kms:ListGrants entries add nothing.
   */
  lemma DestinationKeyActionsCollapse()
    ensures |DestinationKeyActions()| == 10
    ensures ActionSet(DestinationKeyActions()) == DestinationKeyActionSet()
    ensures |ActionSet(DestinationKeyActions())| == 8
  {
    assert |DestinationKeyActionSet()| == 8;
  }

  /**
   * The bucket policy grants the deploying account the six replication
   * actions, on the bucket and its objects only, and names no other principal.
   */
  lemma DestinationBucketPolicyGrants(account: string, bucketName: string)
    ensures var bucketArn := BucketArn(bucketName);
            var policy := [DestinationBucketStatement(account, bucketArn)];
            && ActionsFor(policy, AccountPrincipal(account)) == ActionSet(DestinationBucketActions())
            && (forall q :: q != AccountPrincipal(account) ==> ActionsFor(policy, q) == {})
            && (forall a :: a in DestinationBucketActions() ==> ResourcesOf(policy, a) == {bucketArn, ObjectsArn(bucketArn)})
  {
    var policy := [DestinationBucketStatement(account, BucketArn(bucketName))];
    GrantsOfSuffix(policy, 0);
    assert policy[0..] == policy && policy[1..] == [];
  }
}
