/**
 Types shared by every component: outcomes of the operator's own routines, the
 faults an external call may suffer, and the storage part of an Application.
 */
module Api {

  datatype Option<+T> = None | Some(value: T)

  /** What a routine of the operator reports: `NotOwned` is any error wrapping ErrBucketNotOwned. */
  datatype Outcome = Success | NotOwned | Failed

  /**
   What may go wrong in one external call. `Lost`: an error, and the call had no effect.
   `Late`: an error, although the call did take effect. `Partial`: a batch deletion that
   reports errors for the items of `kept` and leaves those in place; any other call treats
   it as `Lost`. `Conflicts`: a status write that met a conflict at every attempt; any other call
   treats it as `Lost`.
   */
  datatype Fault = NoFault | Lost | Late | Partial(kept: set<nat>) | Conflicts
  {
    /** The call took effect. */
    predicate Effective() { NoFault? || Late? }
  }

  /** The fault of each external call, in the order in which the calls are made. */
  type Oracle = nat -> Fault

  ghost predicate FaultFree(o: Oracle) {
    forall k: nat :: o(k) == NoFault
  }

  datatype Provider = AWS | Akamai | Unsupported(name: string)

  datatype DeletionPolicy = Unset | Retain | Delete

  datatype AwsSpec = AwsSpec(credentialsSecretRef: string)
  datatype AkamaiSpec = AkamaiSpec(accessKeySecretRef: string)

  /** spec.storage */
  datatype StorageSpec = StorageSpec(
    provider: Provider,
    bucket: string,
    region: string,
    deletionPolicy: DeletionPolicy,
    endpoint: string,
    secretName: string,
    aws: Option<AwsSpec>,
    akamai: Option<AkamaiSpec>)

  datatype AwsStatus = AwsStatus(roleArn: string, credentialsSecretRef: string)
  datatype AkamaiStatus = AkamaiStatus(endpoint: string, accessKeySecretRef: string)

  /** status.storage; `createdAt == 0` is the zero time. */
  datatype StorageStatus = StorageStatus(
    provider: Provider,
    bucket: string,
    region: string,
    created: bool,
    createdAt: nat,
    secretName: string,
    deletionPolicy: DeletionPolicy,
    aws: Option<AwsStatus>,
    akamai: Option<AkamaiStatus>)

  /** What identifies a provisioned bucket: the three fields storage.go compares. */
  datatype Identity = Identity(provider: Provider, bucket: string, region: string)

  function SpecIdentity(spec: StorageSpec): Identity {
    Identity(spec.provider, spec.bucket, spec.region)
  }

  function StatusIdentity(status: StorageStatus): Identity {
    Identity(status.provider, status.bucket, status.region)
  }
}
