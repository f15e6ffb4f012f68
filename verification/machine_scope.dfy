/**
 * The machine scope: a per-reconcile view over one AWSMachine, its owning
 * Machine, and their Cluster and AWSCluster. It validates its inputs when it
 * is built, gives typed access to the AWSMachine's fields, sets them one at a
 * time, classifies the machine's role and merges the tags applied to its
 * cloud resources.
 */
module Scope {
  import opened Wrappers
  import opened ApiTypes

  /** The API-server client; the scope only hands it to the patch helper. */
  type Client(==)

  /** A structured logger; the scope only stores it. */
  type Logger(==)

  /** A parsed provider ID: the cloud provider's name and the instance ID within it. */
  datatype ProviderID = ProviderID(cloudProvider: string, id: string)

  /**
   * The parameters a scope is built from. Every pointer of the source may be nil:
   * the AWSMachine, an object, may be null; the others are optional values.
   */
  datatype MachineScopeParams = MachineScopeParams(
    client: Option<Client>,
    logger: Option<Logger>,
    cluster: Option<Cluster>,
    machine: Option<Machine>,
    awsCluster: Option<AWSCluster>,
    awsMachine: AWSMachine?)

  /** The required inputs, one per check the constructor makes. */
  datatype Input = ClientInput | MachineInput | ClusterInput | AWSMachineInput | AWSClusterInput

  /** The position of each required input in the order the constructor checks them. */
  function Rank(i: Input): nat {
    match i
    case ClientInput => 0
    case MachineInput => 1
    case ClusterInput => 2
    case AWSMachineInput => 3
    case AWSClusterInput => 4
  }

  /** Whether `p` supplies the required input `i`. */
  predicate Supplied(p: MachineScopeParams, i: Input) {
    match i
    case ClientInput => p.client.Some?
    case MachineInput => p.machine.Some?
    case ClusterInput => p.cluster.Some?
    case AWSMachineInput => p.awsMachine != null
    case AWSClusterInput => p.awsCluster.Some?
  }

  /**
   * The first required input, in checking order, that `p` lacks, or None when
   * all are supplied.
   */
  function FirstMissing(p: MachineScopeParams): (r: Option<Input>)
    ensures r.None? ==> forall i :: Supplied(p, i)
    ensures r.Some? ==> !Supplied(p, r.value)
    ensures r.Some? ==> forall i :: Rank(i) < Rank(r.value) ==> Supplied(p, i)
  {
    if p.client.None? then Some(ClientInput)
    else if p.machine.None? then Some(MachineInput)
    else if p.cluster.None? then Some(ClusterInput)
    else if p.awsMachine == null then Some(AWSMachineInput)
    else if p.awsCluster.None? then Some(AWSClusterInput)
    else None
  }

  /** How the error messages name each required input. */
  function Noun(i: Input): string {
    match i
    case ClientInput => "client"
    case MachineInput => "machine"
    case ClusterInput => "cluster"
    case AWSMachineInput => "aws machine"
    case AWSClusterInput => "aws cluster"
  }

  /** Why building a scope failed. */
  datatype ScopeError = Missing(input: Input) | PatchHelperInit(cause: string) {

    /** The error text the source returns; a wrapped cause follows a colon. */
    function Message(): string {
      match this
      case Missing(input) => Noun(input) + " is required when creating a MachineScope"
      case PatchHelperInit(cause) => "failed to init patch helper: " + cause
    }
  }

  /** Different missing inputs are reported with different messages, so the message names the input. */
  lemma MissingMessagesDiffer(i: Input, j: Input)
    requires i != j
    ensures Missing(i).Message() != Missing(j).Message()
  {
    NounsDiffer(i, j);
    MissingMessageShape(i);
    MissingMessageShape(j);
  }

  /** A missing-input message starts with the input's noun and has a fixed-length tail. */
  lemma MissingMessageShape(i: Input)
    ensures |Missing(i).Message()| == |Noun(i)| + |" is required when creating a MachineScope"|
    ensures Missing(i).Message()[..|Noun(i)|] == Noun(i)
  {
  }

  /** No two required inputs share a noun: any two nouns differ at their third or fifth character. */
  lemma NounsDiffer(i: Input, j: Input)
    requires i != j
    ensures Noun(i) != Noun(j)
  {
    assert Noun(i)[2] != Noun(j)[2] || Noun(i)[4] != Noun(j)[4];
  }

  /**
   * Builds a scope, rejecting missing inputs in the fixed order client, machine,
   * cluster, AWSMachine, AWSCluster. `defaultLogger` stands for the logger the
   * source creates when none is given; `helperErr` is the error, if any, of
   * initialising the patch helper on the AWSMachine. `isControlPlaneMachine`
   * and `parseProviderID` stand for the library functions the scope calls.
   */
  method NewMachineScope(params: MachineScopeParams, defaultLogger: Logger, helperErr: Option<string>,
                         isControlPlaneMachine: Machine -> bool,
                         parseProviderID: string -> Result<ProviderID, string>)
    returns (r: Result<MachineScope, ScopeError>)
    ensures FirstMissing(params).Some? ==> r == Failure(Missing(FirstMissing(params).value))
    ensures FirstMissing(params).None? && helperErr.Some? ==> r == Failure(PatchHelperInit(helperErr.value))
    ensures FirstMissing(params).None? && helperErr.None? ==>
      && r.Success?
      && fresh(r.value)
      && r.value.client == params.client.value
      && r.value.logger == params.logger.GetOr(defaultLogger)
      && r.value.cluster == params.cluster.value
      && r.value.machine == params.machine.value
      && r.value.awsCluster == params.awsCluster.value
      && r.value.awsMachine == params.awsMachine
      && r.value.isControlPlaneMachine == isControlPlaneMachine
      && r.value.parseProviderID == parseProviderID
  {
    if params.client.None? {
      return Failure(Missing(ClientInput));
    }
    if params.machine.None? {
      return Failure(Missing(MachineInput));
    }
    if params.cluster.None? {
      return Failure(Missing(ClusterInput));
    }
    if params.awsMachine == null {
      return Failure(Missing(AWSMachineInput));
    }
    if params.awsCluster.None? {
      return Failure(Missing(AWSClusterInput));
    }
    var logger := params.logger.GetOr(defaultLogger);
    if helperErr.Some? {
      return Failure(PatchHelperInit(helperErr.value));
    }
    var scope := new MachineScope(logger, params.client.value, params.cluster.value,
                                  params.machine.value, params.awsCluster.value, params.awsMachine,
                                  isControlPlaneMachine, parseProviderID);
    return Success(scope);
  }

  /**
   * The annotations after upserting `key` with `value` into `annotations`,
   * an absent map being created empty first.
   */
  function Annotate(annotations: Option<map<string, string>>, key: string, value: string): (r: map<string, string>)
    ensures key in r && r[key] == value
    ensures forall k :: k != key ==> (k in r <==> annotations.Some? && k in annotations.value)
    ensures forall k :: k != key && k in r ==> r[k] == annotations.value[k]
  {
    annotations.GetOr(map[])[key := value]
  }

  /** Annotating the same key twice keeps only the later value. */
  lemma AnnotateTwice(annotations: Option<map<string, string>>, key: string, first: string, second: string)
    ensures Annotate(Some(Annotate(annotations, key, first)), key, second) == Annotate(annotations, key, second)
  {
  }

  /** A scope over one AWSMachine and the records around it, for one reconcile pass. */
  class MachineScope {
    /** The library's control-plane test (`util.IsControlPlaneMachine`). */
    const isControlPlaneMachine: Machine -> bool
    /** The library's provider-ID parser (`noderefutil.NewProviderID`). */
    const parseProviderID: string -> Result<ProviderID, string>

    var logger: Logger
    var client: Client
    var cluster: Cluster
    var machine: Machine
    var awsCluster: AWSCluster
    var awsMachine: AWSMachine

    constructor (logger: Logger, client: Client, cluster: Cluster, machine: Machine,
                 awsCluster: AWSCluster, awsMachine: AWSMachine,
                 isControlPlaneMachine: Machine -> bool, parseProviderID: string -> Result<ProviderID, string>)
      ensures this.logger == logger && this.client == client
      ensures this.cluster == cluster && this.machine == machine
      ensures this.awsCluster == awsCluster && this.awsMachine == awsMachine
      ensures this.isControlPlaneMachine == isControlPlaneMachine && this.parseProviderID == parseProviderID
    {
      this.isControlPlaneMachine := isControlPlaneMachine;
      this.parseProviderID := parseProviderID;
      this.logger := logger;
      this.client := client;
      this.cluster := cluster;
      this.machine := machine;
      this.awsCluster := awsCluster;
      this.awsMachine := awsMachine;
    }

    /** The AWSMachine's name. */
    function Name(): string
      reads this, awsMachine
    {
      awsMachine.meta.name
    }

    /** The AWSMachine's namespace. */
    function Namespace(): string
      reads this, awsMachine
    {
      awsMachine.meta.namespace
    }

    /** Whether the owning Machine is a control-plane machine, as the library's test decides. */
    predicate IsControlPlane()
      reads this
    {
      isControlPlaneMachine(machine)
    }

    /** The machine's role, derived from the same test as IsControlPlane. */
    function Role(): (r: string)
      reads this
      ensures r == "control-plane" <==> IsControlPlane()
      ensures r == "node" <==> !IsControlPlane()
    {
      if isControlPlaneMachine(machine) then "control-plane" else "node"
    }

    /** The stored provider ID, or the empty string when none is stored. */
    function GetProviderID(): (r: string)
      reads this, awsMachine
      ensures awsMachine.spec.providerID.Some? ==> r == awsMachine.spec.providerID.value
      ensures awsMachine.spec.providerID.None? ==> r == ""
    {
      if awsMachine.spec.providerID.Some? then awsMachine.spec.providerID.value else ""
    }

    /**
     * The instance ID parsed out of the provider ID; a parse failure yields no
     * ID rather than an error.
     */
    function GetInstanceID(): (r: Option<string>)
      reads this, awsMachine
      ensures r.Some? <==> parseProviderID(GetProviderID()).Success?
      ensures r.Some? ==> r.value == parseProviderID(GetProviderID()).value.id
    {
      match parseProviderID(GetProviderID())
      case Failure(_) => None
      case Success(parsed) => Some(parsed.id)
    }

    /** Stores `v` as the provider ID, leaving every other field as it was. */
    method SetProviderID(v: string)
      modifies awsMachine
      ensures awsMachine.spec == old(awsMachine.spec).(providerID := Some(v))
      ensures awsMachine.meta == old(awsMachine.meta) && awsMachine.status == old(awsMachine.status)
      ensures GetProviderID() == v
    {
      awsMachine.spec := awsMachine.spec.(providerID := Some(v));
    }

    /** The stored instance state, if any. */
    function GetInstanceState(): Option<InstanceState>
      reads this, awsMachine
    {
      awsMachine.status.instanceState
    }

    /** Stores `v` as the instance state, leaving every other field as it was. */
    method SetInstanceState(v: InstanceState)
      modifies awsMachine
      ensures awsMachine.status == old(awsMachine.status).(instanceState := Some(v))
      ensures awsMachine.meta == old(awsMachine.meta) && awsMachine.spec == old(awsMachine.spec)
      ensures GetInstanceState() == Some(v)
    {
      awsMachine.status := awsMachine.status.(instanceState := Some(v));
    }

    /** Marks the AWSMachine ready, leaving every other field as it was. */
    method SetReady()
      modifies awsMachine
      ensures awsMachine.status == old(awsMachine.status).(ready := true)
      ensures awsMachine.meta == old(awsMachine.meta) && awsMachine.spec == old(awsMachine.spec)
    {
      awsMachine.status := awsMachine.status.(ready := true);
    }

    /** Stores the text of an error as the error message, leaving every other field as it was. */
    method SetErrorMessage(errorText: string)
      modifies awsMachine
      ensures awsMachine.status == old(awsMachine.status).(errorMessage := Some(errorText))
      ensures awsMachine.meta == old(awsMachine.meta) && awsMachine.spec == old(awsMachine.spec)
    {
      awsMachine.status := awsMachine.status.(errorMessage := Some(errorText));
    }

    /** Stores `v` as the error reason, leaving every other field as it was. */
    method SetErrorReason(v: MachineStatusError)
      modifies awsMachine
      ensures awsMachine.status == old(awsMachine.status).(errorReason := Some(v))
      ensures awsMachine.meta == old(awsMachine.meta) && awsMachine.spec == old(awsMachine.spec)
    {
      awsMachine.status := awsMachine.status.(errorReason := Some(v));
    }

    /**
     * Sets the annotation `key` to `value`, creating the annotation map first
     * when it is absent; nothing but the annotations changes.
     */
    method SetAnnotation(key: string, value: string)
      modifies awsMachine
      ensures awsMachine.meta == old(awsMachine.meta).(annotations := Some(Annotate(old(awsMachine.meta.annotations), key, value)))
      ensures awsMachine.spec == old(awsMachine.spec) && awsMachine.status == old(awsMachine.status)
    {
      if awsMachine.meta.annotations.None? {
        awsMachine.meta := awsMachine.meta.(annotations := Some(map[]));
      }
      var annotations := awsMachine.meta.annotations.value;
      awsMachine.meta := awsMachine.meta.(annotations := Some(annotations[key := value]));
    }

    /** Replaces the address list wholesale, leaving every other field as it was. */
    method SetAddresses(addrs: seq<NodeAddress>)
      modifies awsMachine
      ensures awsMachine.status == old(awsMachine.status).(addresses := addrs)
      ensures awsMachine.meta == old(awsMachine.meta) && awsMachine.spec == old(awsMachine.spec)
    {
      awsMachine.status := awsMachine.status.(addresses := addrs);
    }

    /**
     * Writes the AWSMachine back through the patch helper. The patch itself is
     * not modelled: `patchErr` is its outcome, which is returned unchanged, and
     * nothing is promised about the record afterwards.
     */
    method Close(patchErr: Option<string>) returns (err: Option<string>)
      modifies awsMachine
      ensures err == patchErr
    {
      err := patchErr;
    }

    /**
     * The tags to apply to the machine's cloud resources: a fresh map holding
     * every cluster-level and machine-level tag, the machine's value winning on
     * a key both define. Neither source map changes.
     */
    method AdditionalTags() returns (tags: Tags)
      ensures tags.Keys == awsCluster.spec.additionalTags.Keys + awsMachine.spec.additionalTags.Keys
      ensures forall k :: k in awsMachine.spec.additionalTags ==> tags[k] == awsMachine.spec.additionalTags[k]
      ensures forall k :: k in awsCluster.spec.additionalTags && k !in awsMachine.spec.additionalTags ==>
                tags[k] == awsCluster.spec.additionalTags[k]
    {
      tags := map[];
      tags := Merge(tags, awsCluster.spec.additionalTags);
      tags := Merge(tags, awsMachine.spec.additionalTags);
    }
  }

  /**
   * A reconcile pass as a caller sees it: what the contracts above let it
   * conclude about construction, annotations, the provider ID, the role and
   * the tags, without looking at any body.
   */
  method ExampleReconcilePass(client: Client, logger: Logger, cluster: Cluster, machine: Machine,
                              awsCluster: AWSCluster, awsMachine: AWSMachine, isControlPlaneMachine: Machine -> bool,
                              parseProviderID: string -> Result<ProviderID, string>)
    modifies awsMachine
  {
    var noMachine := MachineScopeParams(Some(client), None, Some(cluster), None, Some(awsCluster), awsMachine);
    var rejected := NewMachineScope(noMachine, logger, None, isControlPlaneMachine, parseProviderID);
    assert rejected == Failure(Missing(MachineInput));

    var params := MachineScopeParams(Some(client), None, Some(cluster), Some(machine), Some(awsCluster), awsMachine);
    var built := NewMachineScope(params, logger, None, isControlPlaneMachine, parseProviderID);
    var scope := built.value;
    assert scope.logger == logger && scope.awsMachine == awsMachine;

    var labels := awsMachine.meta.labels;
    scope.SetAnnotation("owner", "first");
    scope.SetAnnotation("owner", "second");
    assert scope.awsMachine.meta.annotations.value["owner"] == "second";
    assert scope.awsMachine.meta.labels == labels;

    scope.SetProviderID("aws:///us-east-1a/i-0123");
    assert scope.GetProviderID() == "aws:///us-east-1a/i-0123";
    var instanceID := scope.GetInstanceID();
    assert parseProviderID("aws:///us-east-1a/i-0123").Failure? ==> instanceID.None?;

    var role := scope.Role();
    assert role == "control-plane" || role == "node";
    assert role == "control-plane" <==> scope.IsControlPlane();

    var tags := scope.AdditionalTags();
    var again := scope.AdditionalTags();
    assert tags == again;
  }
}
