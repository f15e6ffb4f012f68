/**
 * The resource records the machine scope reads and writes: the cluster-api
 * `Cluster` and `Machine`, and the AWS provider's `AWSCluster` and `AWSMachine`,
 * reduced to the fields the scope touches. `Tags` and its `Merge` come from the
 * provider's API package.
 */
module ApiTypes {
  import opened Wrappers

  /** A set of AWS tags, keyed by tag name. */
  type Tags = map<string, string>

  /** A string-valued enumeration of EC2 instance states; the scope stores it without inspecting it. */
  type InstanceState = string

  /** A string-valued enumeration of machine failure categories; stored without inspection. */
  type MachineStatusError = string

  /** One address of a node, as reported by the cloud. */
  datatype NodeAddress = NodeAddress(addressType: string, address: string)

  /**
   * The object metadata the scope uses. `labels` carry role markers such as the
   * control-plane label; `annotations` is absent until first written.
   */
  datatype ObjectMeta = ObjectMeta(
    name: string,
    namespace: string,
    labels: map<string, string>,
    annotations: Option<map<string, string>>)

  /** The generic cluster-api cluster; the scope only carries it. */
  datatype Cluster = Cluster(meta: ObjectMeta)

  /** The generic cluster-api machine that owns the AWSMachine; an external predicate reads its role label. */
  datatype Machine = Machine(meta: ObjectMeta)

  datatype AWSClusterSpec = AWSClusterSpec(additionalTags: Tags)

  /** The AWS-specific cluster record; the scope reads only its additional tags. */
  datatype AWSCluster = AWSCluster(meta: ObjectMeta, spec: AWSClusterSpec)

  datatype AWSMachineSpec = AWSMachineSpec(providerID: Option<string>, additionalTags: Tags)

  datatype AWSMachineStatus = AWSMachineStatus(
    ready: bool,
    addresses: seq<NodeAddress>,
    instanceState: Option<InstanceState>,
    errorReason: Option<MachineStatusError>,
    errorMessage: Option<string>)

  /**
   * The AWS-specific machine record. The reconciler and the scope share one
   * instance, and the scope's setters update it in place, so it is an object.
   */
  class AWSMachine {
    var meta: ObjectMeta
    var spec: AWSMachineSpec
    var status: AWSMachineStatus

    constructor (meta: ObjectMeta, spec: AWSMachineSpec, status: AWSMachineStatus)
      ensures this.meta == meta && this.spec == spec && this.status == status
    {
      this.meta := meta;
      this.spec := spec;
      this.status := status;
    }
  }

  /**
   * The tags obtained by writing every entry of `other` over `tags`: every key
   * of either survives, and on a key both hold, `other`'s value wins.
   */
  function Overlay(tags: Tags, other: Tags): (r: Tags)
    ensures r.Keys == tags.Keys + other.Keys
    ensures forall k :: k in other ==> r[k] == other[k]
    ensures forall k :: k in tags && k !in other ==> r[k] == tags[k]
  {
    tags + other
  }

  /** Cluster tags {env: prod, team: x} under machine tags {env: dev} give {env: dev, team: x}. */
  lemma OverlayExample()
    ensures Overlay(map["env" := "prod", "team" := "x"], map["env" := "dev"]) == map["env" := "dev", "team" := "x"]
  {
  }

  /**
   * `Tags.Merge`: ranges over `other` and upserts each entry into `tags`.
   * The source updates the receiver in place; here the updated map is returned.
   */
  method Merge(tags: Tags, other: Tags) returns (merged: Tags)
    ensures merged == Overlay(tags, other)
  {
    merged := tags;
    var pending := other.Keys;
    while pending != {}
      invariant pending <= other.Keys
      invariant merged.Keys == tags.Keys + (other.Keys - pending)
      invariant forall k :: k in other.Keys - pending ==> merged[k] == other[k]
      invariant forall k :: k in tags && k !in other.Keys - pending ==> merged[k] == tags[k]
      decreases pending
    {
      var k :| k in pending;
      merged := merged[k := other[k]];
      pending := pending - {k};
    }
  }
}
