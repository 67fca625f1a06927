/** `AWSConfigBuilder`: from a cluster model and the user's documents, the ordered list
    of AWS resource documents of the cluster.

    The source's documents are mutable dictionaries, and one of them can sit in the
    output list while the builder is still writing to it. The model keeps every
    document in a store (`seq<Config>`) and the output as a list of references into
    it (`seq<Ref>`), so a write through one reference is seen through every other.
    The user's documents are the first entries of the store. */
module AwsConfigBuilder {
  import opened Wrappers
  import opened Configs
  import opened Lookup
  import opened Plan
  import PlanProperties

  type Ref = nat

  /** `get_config_or_default` returned `None` for `kind` (because the user supplied a
      document of that kind), and the builder's next write into it failed. */
  datatype BuildError = NoneConfig(kind: string)

  /** The store after a build, and the output as references into it. */
  datatype Built = Built(store: seq<Config>, result: seq<Ref>)

  /** `get_config_or_default` followed by the first write into what it returned. */
  function Resolve(userInput: seq<Config>, kind: string, d: Defaults): (r: Result<Config, BuildError>)
    ensures r.Failure? <==> Supplies(userInput, kind)
    ensures r.Failure? ==> r.error == NoneConfig(kind)
    ensures r.Success? ==> r.value == LoadDefault(d, kind)
  {
    match ConfigOrDefault(userInput, kind, d)
    case None => Failure(NoneConfig(kind))
    case Some(c) => Success(c)
  }

  /** `get_vpc_config`. */
  function VpcConfig(cluster: Cluster, userInput: seq<Config>, d: Defaults): (r: Result<Config, BuildError>)
    ensures r.Failure? <==> Supplies(userInput, VPC)
    ensures r.Failure? ==> r.error == NoneConfig(VPC)
    ensures r.Success? ==>
      r.value.kind == VPC
      && r.value.spec.name == VpcName(cluster.clusterName)
      && r.value.spec.addressPool == cluster.vnetAddressPool
      && r.value.spec.(name := d.load(VPC).name, addressPool := d.load(VPC).addressPool) == d.load(VPC)
  {
    var c :- Resolve(userInput, VPC, d);
    var spec := c.spec.(addressPool := cluster.vnetAddressPool);
    var spec := spec.(name := VpcName(cluster.clusterName));
    Success(c.(spec := spec))
  }

  /** `get_internet_gateway`. */
  function InternetGateway(cluster: Cluster, userInput: seq<Config>, d: Defaults, vpc: Config): (r: Result<Config, BuildError>)
    ensures r.Failure? <==> Supplies(userInput, INTERNET_GATEWAY)
    ensures r.Failure? ==> r.error == NoneConfig(INTERNET_GATEWAY)
    ensures r.Success? ==>
      r.value.kind == INTERNET_GATEWAY
      && r.value.spec.name == GatewayName(cluster.clusterName)
      && r.value.spec.vpcName == vpc.spec.name
      && r.value.spec.(name := d.load(INTERNET_GATEWAY).name, vpcName := d.load(INTERNET_GATEWAY).vpcName)
         == d.load(INTERNET_GATEWAY)
  {
    var c :- Resolve(userInput, INTERNET_GATEWAY, d);
    var spec := c.spec.(name := GatewayName(cluster.clusterName));
    var spec := spec.(vpcName := vpc.spec.name);
    Success(c.(spec := spec))
  }

  /** `get_routing_table`. */
  function RoutingTable(cluster: Cluster, userInput: seq<Config>, d: Defaults, vpc: Config, gateway: Config)
    : (r: Result<Config, BuildError>)
    ensures r.Failure? <==> Supplies(userInput, ROUTE_TABLE)
    ensures r.Failure? ==> r.error == NoneConfig(ROUTE_TABLE)
    ensures r.Success? ==>
      r.value.kind == ROUTE_TABLE
      && r.value.spec.name == RouteTableName(cluster.clusterName)
      && r.value.spec.vpcName == vpc.spec.name
      && r.value.spec.routeGatewayName == gateway.spec.name
      && r.value.spec.(name := d.load(ROUTE_TABLE).name, vpcName := d.load(ROUTE_TABLE).vpcName,
                       routeGatewayName := d.load(ROUTE_TABLE).routeGatewayName)
         == d.load(ROUTE_TABLE)
  {
    var c :- Resolve(userInput, ROUTE_TABLE, d);
    var spec := c.spec.(name := RouteTableName(cluster.clusterName));
    var spec := spec.(vpcName := vpc.spec.name);
    var spec := spec.(routeGatewayName := gateway.spec.name);
    Success(c.(spec := spec))
  }

  /** `get_route_table_association`. */
  function RouteTableAssociation(cluster: Cluster, userInput: seq<Config>, d: Defaults,
                                 routeTable: Config, subnet: Config, index: nat)
    : (r: Result<Config, BuildError>)
    ensures r.Failure? <==> Supplies(userInput, ROUTE_TABLE_ASSOCIATION)
    ensures r.Failure? ==> r.error == NoneConfig(ROUTE_TABLE_ASSOCIATION)
    ensures r.Success? ==>
      r.value.kind == ROUTE_TABLE_ASSOCIATION
      && r.value.spec.name == AssociationName(cluster.clusterName, index)
      && r.value.spec.subnetName == subnet.spec.name
      && r.value.spec.routeTableName == routeTable.spec.name
      && r.value.spec.(name := d.load(ROUTE_TABLE_ASSOCIATION).name,
                       subnetName := d.load(ROUTE_TABLE_ASSOCIATION).subnetName,
                       routeTableName := d.load(ROUTE_TABLE_ASSOCIATION).routeTableName)
         == d.load(ROUTE_TABLE_ASSOCIATION)
  {
    var c :- Resolve(userInput, ROUTE_TABLE_ASSOCIATION, d);
    var spec := c.spec.(name := AssociationName(cluster.clusterName, index));
    var spec := spec.(subnetName := subnet.spec.name);
    var spec := spec.(routeTableName := routeTable.spec.name);
    Success(c.(spec := spec))
  }

  /** AWSConfigBuilder.py:40-43: a new subnet for `pool`, named with the bucket index. */
  function NewSubnet(cluster: Cluster, userInput: seq<Config>, d: Defaults, vpc: Config,
                     pool: string, index: nat): (r: Result<Config, BuildError>)
    ensures r.Failure? <==> Supplies(userInput, SUBNET)
    ensures r.Failure? ==> r.error == NoneConfig(SUBNET)
    ensures r.Success? ==>
      r.value.kind == SUBNET
      && r.value.spec.name == SubnetName(cluster.clusterName, index)
      && r.value.spec.vpcName == vpc.spec.name
      && r.value.spec.cidrBlock == pool
      && r.value.spec.(name := d.load(SUBNET).name, vpcName := d.load(SUBNET).vpcName,
                       cidrBlock := d.load(SUBNET).cidrBlock)
         == d.load(SUBNET)
  {
    var c :- Resolve(userInput, SUBNET, d);
    var spec := c.spec.(vpcName := vpc.spec.name);
    var spec := spec.(cidrBlock := pool);
    var spec := spec.(name := SubnetName(cluster.clusterName, index));
    Success(c.(spec := spec))
  }

  /** AWSConfigBuilder.py:46-49: the new bucket's security group, on the subnet's CIDR block. */
  function NewSecurityGroup(cluster: Cluster, userInput: seq<Config>, d: Defaults, vpc: Config,
                            subnet: Config, index: nat): (r: Result<Config, BuildError>)
    ensures r.Failure? <==> Supplies(userInput, SECURITY_GROUP)
    ensures r.Failure? ==> r.error == NoneConfig(SECURITY_GROUP)
    ensures r.Success? ==>
      r.value.kind == SECURITY_GROUP
      && r.value.spec.name == SecurityGroupName(cluster.clusterName, index)
      && r.value.spec.vpcName == vpc.spec.name
      && r.value.spec.cidrBlock == subnet.spec.cidrBlock
      && r.value.spec.(name := d.load(SECURITY_GROUP).name, vpcName := d.load(SECURITY_GROUP).vpcName,
                       cidrBlock := d.load(SECURITY_GROUP).cidrBlock)
         == d.load(SECURITY_GROUP)
  {
    var c :- Resolve(userInput, SECURITY_GROUP, d);
    var spec := c.spec.(name := SecurityGroupName(cluster.clusterName, index));
    var spec := spec.(vpcName := vpc.spec.name);
    var spec := spec.(cidrBlock := subnet.spec.cidrBlock);
    Success(c.(spec := spec))
  }

  /** AWSConfigBuilder.py:58-61: a virtual-machine document made the autoscaling group of component
      `key`: named, sized, placed in the bucket's subnet and tagged with one more
      feature tag; nothing else in it changes. */
  function AsAutoscalingGroup(vm: Config, cluster: Cluster, key: string, comp: Component,
                              subnet: Config): (r: Config)
    ensures r.kind == vm.kind && r.name == vm.name
    ensures r.spec.name == AutoscalingGroupName(cluster.clusterName, key)
    ensures r.spec.count == comp.count && r.spec.subnet == subnet.spec.name
    ensures r.spec.tags == vm.spec.tags + [FeatureTag(key)]
    ensures r.spec.(name := vm.spec.name, count := vm.spec.count, subnet := vm.spec.subnet,
                    tags := vm.spec.tags) == vm.spec
  {
    var spec := vm.spec.(name := AutoscalingGroupName(cluster.clusterName, key));
    var spec := spec.(count := comp.count);
    var spec := spec.(subnet := subnet.spec.name);
    var spec := spec.(tags := spec.tags + [FeatureTag(key)]);
    vm.(spec := spec)
  }

  /** AWSConfigBuilder.py:63: the bucket's security group with the autoscaling group's rules appended;
      the rules it had stay in front, unchanged, and nothing is de-duplicated. */
  function WithComponentRules(group: Config, asg: Config): (r: Config)
    ensures |r.spec.rules| == |group.spec.rules| + |asg.spec.securityRules|
    ensures r.spec.rules[..|group.spec.rules|] == group.spec.rules
    ensures r.spec.rules[|group.spec.rules|..] == asg.spec.securityRules
    ensures r.(spec := r.spec.(rules := group.spec.rules)) == group
  {
    group.(spec := group.spec.(rules := group.spec.rules + asg.spec.securityRules))
  }

  /** AWSConfigBuilder.py:65-69: the launch configuration of component `key`, with the autoscaling
      group's image and size and the bucket's security group as its only group. */
  function LaunchConfiguration(cluster: Cluster, userInput: seq<Config>, d: Defaults, key: string,
                               asg: Config, group: Config): (r: Result<Config, BuildError>)
    ensures r.Failure? <==> Supplies(userInput, LAUNCH_CONFIGURATION)
    ensures r.Failure? ==> r.error == NoneConfig(LAUNCH_CONFIGURATION)
    ensures r.Success? ==>
      r.value.kind == LAUNCH_CONFIGURATION
      && r.value.spec.name == LaunchConfigName(cluster.clusterName, key)
      && r.value.spec.imageId == asg.spec.imageId
      && r.value.spec.size == asg.spec.size
      && r.value.spec.securityGroups == [group.spec.name]
      && r.value.spec.(name := d.load(LAUNCH_CONFIGURATION).name,
                       imageId := d.load(LAUNCH_CONFIGURATION).imageId,
                       size := d.load(LAUNCH_CONFIGURATION).size,
                       securityGroups := d.load(LAUNCH_CONFIGURATION).securityGroups)
         == d.load(LAUNCH_CONFIGURATION)
  {
    var c :- Resolve(userInput, LAUNCH_CONFIGURATION, d);
    var spec := c.spec.(name := LaunchConfigName(cluster.clusterName, key));
    var spec := spec.(imageId := asg.spec.imageId);
    var spec := spec.(size := asg.spec.size);
    var spec := spec.(securityGroups := [group.spec.name]);
    Success(c.(spec := spec))
  }

  /** The document at `ref` is a bucket document of `kind` for `pool`: the test of the
      two `select_first` scans over the results so far. */
  predicate HoldsBucket(store: seq<Config>, ref: Ref, kind: string, pool: string) {
    ref < |store| && store[ref].kind == kind && store[ref].spec.cidrBlock == pool
  }

  /** The position of the first result holding a bucket document of `kind` for `pool`. */
  function FindInResult(store: seq<Config>, result: seq<Ref>, kind: string, pool: string): (r: Option<nat>)
    ensures r.Some? ==> r.value < |result| && HoldsBucket(store, result[r.value], kind, pool)
    ensures r.Some? ==> forall k :: 0 <= k < r.value ==> !HoldsBucket(store, result[k], kind, pool)
    ensures r.None? ==> forall k :: 0 <= k < |result| ==> !HoldsBucket(store, result[k], kind, pool)
  {
    SelectFirst(result, (ref: Ref) => HoldsBucket(store, ref, kind, pool))
  }

  /** Each output reference, laid out as `slots`, holds its slot's document. */
  ghost predicate RefsHold(ctx: Ctx, incl: seq<Entry>, slots: seq<Slot>, store: seq<Config>, result: seq<Ref>) {
    |result| == |slots|
    && (forall p :: 0 <= p < |slots| ==> SlotIn(incl, slots[p]))
    && (forall p :: 0 <= p < |result| ==>
          result[p] < |store| && store[result[p]] == Expected(ctx, incl, slots[p]))
  }

  /** References are shared only where one user virtual-machine document serves
      several components; every other reference is at least `base`. */
  ghost predicate RefsShared(ctx: Ctx, incl: seq<Entry>, slots: seq<Slot>, base: nat, result: seq<Ref>) {
    |result| == |slots|
    && (forall p :: 0 <= p < |result| ==>
          if SharedEntry(ctx, incl, slots[p]).Some? then result[p] == SharedEntry(ctx, incl, slots[p]).value
          else base <= result[p])
    && (forall p, q :: 0 <= p < q < |result| && result[p] == result[q] ==>
          SharedEntry(ctx, incl, slots[p]).Some?)
  }

  /** The store and the output references realise the plan for `incl` laid out as
      `slots`: each reference holds its slot's final document, the user's documents
      hold their final values, and references are shared only where one user
      virtual-machine document serves several components; every other reference is
      at least `base`, that is, a document created by this build. */
  ghost predicate Realizes(ctx: Ctx, incl: seq<Entry>, slots: seq<Slot>, base: nat,
                           store: seq<Config>, result: seq<Ref>)
  {
    |ctx.userInput| <= base <= |store|
    && RefsHold(ctx, incl, slots, store, result)
    && (forall k :: 0 <= k < |ctx.userInput| ==> store[k] == UserFinal(ctx, incl, k))
    && RefsShared(ctx, incl, slots, base, result)
  }

  /** What the scan for a subnet (or security group) with `pool` finds is the
      document of the bucket for that pool. */
  lemma LocateFound(ctx: Ctx, incl: seq<Entry>, store: seq<Config>, result: seq<Ref>, kind: string, pool: string)
    requires RefsHold(ctx, incl, ComponentSlots(incl), store, result)
    requires kind == SUBNET || kind == SECURITY_GROUP
    requires FindInResult(store, result, kind, pool).Some?
    ensures pool in Pools(incl)
    ensures ComponentSlots(incl)[FindInResult(store, result, kind, pool).value]
      == if kind == SUBNET then SubnetOf(IndexOf(Pools(incl), pool))
         else SecurityGroupOf(IndexOf(Pools(incl), pool))
  {
    var pools := Pools(incl);
    var f := FindInResult(store, result, kind, pool).value;
    var s := ComponentSlots(incl)[f];
    PoolsDistinct(incl);
    assert store[result[f]] == Expected(ctx, incl, s);
    assert KindOf(s) == kind;
    assert s.SubnetOf? || s.SecurityGroupOf?;
    assert pools[s.bucket] == pool;
  }

  /** The scan finds a document whenever the pool already has a bucket. */
  lemma LocateMissing(ctx: Ctx, incl: seq<Entry>, store: seq<Config>, result: seq<Ref>, kind: string, pool: string)
    requires RefsHold(ctx, incl, ComponentSlots(incl), store, result)
    requires kind == SUBNET || kind == SECURITY_GROUP
    requires pool in Pools(incl)
    ensures FindInResult(store, result, kind, pool).Some?
  {
    var b := IndexOf(Pools(incl), pool);
    BucketSlotsPresent(incl, b);
    var p: nat;
    if kind == SUBNET {
      p :| 0 <= p < |ComponentSlots(incl)| && ComponentSlots(incl)[p] == SubnetOf(b);
      assert store[result[p]] == Expected(ctx, incl, SubnetOf(b));
    } else {
      p :| 0 <= p < |ComponentSlots(incl)| && ComponentSlots(incl)[p] == SecurityGroupOf(b);
      assert store[result[p]] == Expected(ctx, incl, SecurityGroupOf(b));
    }
    assert HoldsBucket(store, result[p], kind, pool);
  }

  /** Against a store that realises the plan, the scan for a subnet (or security group)
      with `pool` finds one exactly when the pool already has a bucket, and what it finds
      is that bucket's document. */
  lemma LocateBucket(ctx: Ctx, incl: seq<Entry>, base: nat, store: seq<Config>, result: seq<Ref>,
                     kind: string, pool: string)
    requires Realizes(ctx, incl, ComponentSlots(incl), base, store, result)
    requires kind == SUBNET || kind == SECURITY_GROUP
    ensures FindInResult(store, result, kind, pool).Some? <==> pool in Pools(incl)
    ensures FindInResult(store, result, kind, pool).Some? ==>
      ComponentSlots(incl)[FindInResult(store, result, kind, pool).value]
      == if kind == SUBNET then SubnetOf(IndexOf(Pools(incl), pool))
         else SecurityGroupOf(IndexOf(Pools(incl), pool))
  {
    if FindInResult(store, result, kind, pool).Some? {
      LocateFound(ctx, incl, store, result, kind, pool);
    } else if pool in Pools(incl) {
      LocateMissing(ctx, incl, store, result, kind, pool);
    }
  }

  /** What one iteration of the component loop does to documents that already existed:
      it writes into at most two of them, the security group of the component's bucket
      and, when the component's machine is a user document, that document, and both
      then hold their new final values. */
  ghost predicate WritesOnlyBucketAndMachine(ctx: Ctx, incl: seq<Entry>, x: Entry,
                                             store: seq<Config>, result: seq<Ref>, store2: seq<Config>,
                                             sgPos: nat, sgRef: Ref, asgRef: Ref)
  {
    |store| <= |store2|
    && (forall k :: 0 <= k < |store| && k != sgRef && k != asgRef ==> store2[k] == store[k])
    && (Pool(x) in Pools(incl) ==>
          sgPos < |result| && result[sgPos] == sgRef && sgRef < |store2| && sgPos < |ComponentSlots(incl)|
          && ComponentSlots(incl)[sgPos] == SecurityGroupOf(IndexOf(Pools(incl), Pool(x)))
          && store2[sgRef] == Expected(ctx, incl + [x], SecurityGroupOf(IndexOf(Pools(incl), Pool(x)))))
    && (Pool(x) !in Pools(incl) ==> |store| <= sgRef)
    && (Source(ctx, x).UserEntry? ==>
          asgRef == Source(ctx, x).index && asgRef < |store2|
          && store2[asgRef] == UserFinal(ctx, incl + [x], asgRef))
    && (Source(ctx, x).Merged? ==> |store| <= asgRef)
  }

  /** Such an iteration leaves untouched every earlier document other than the
      security group of the component's bucket and the user documents. */
  lemma UntouchedRef(ctx: Ctx, incl: seq<Entry>, x: Entry, base: nat,
                     store: seq<Config>, result: seq<Ref>, store2: seq<Config>,
                     sgPos: nat, sgRef: Ref, asgRef: Ref, p: nat)
    requires Realizes(ctx, incl, ComponentSlots(incl), base, store, result)
    requires WritesOnlyBucketAndMachine(ctx, incl, x, store, result, store2, sgPos, sgRef, asgRef)
    requires p < |result| && SharedEntry(ctx, incl, ComponentSlots(incl)[p]).None?
    requires Pool(x) in Pools(incl) ==> p != sgPos
    ensures result[p] < |store| && store2[result[p]] == store[result[p]]
  {
    var ref := result[p];
    assert base <= ref < |store|;
    if Pool(x) in Pools(incl) {
      var slots := ComponentSlots(incl);
      assert SharedEntry(ctx, incl, slots[sgPos]).None?;
      assert ref != sgRef;
    }
  }

  /** The security group of the component's bucket holds its new final document. */
  lemma KeepsBucketGroup(ctx: Ctx, incl: seq<Entry>, x: Entry,
                         store: seq<Config>, result: seq<Ref>, store2: seq<Config>,
                         sgPos: nat, sgRef: Ref, asgRef: Ref, p: nat)
    requires WritesOnlyBucketAndMachine(ctx, incl, x, store, result, store2, sgPos, sgRef, asgRef)
    requires p < |result| && p < |ComponentSlots(incl)| && SlotIn(incl, ComponentSlots(incl)[p])
    requires ComponentSlots(incl)[p].SecurityGroupOf?
    requires Pools(incl)[ComponentSlots(incl)[p].bucket] == Pool(x)
    ensures SlotIn(incl + [x], ComponentSlots(incl)[p])
    ensures result[p] < |store2| && store2[result[p]] == Expected(ctx, incl + [x], ComponentSlots(incl)[p])
  {
    var slots := ComponentSlots(incl);
    ExpectedSnocSecurityGroup(ctx, incl, x, slots[p].bucket);
    SlotsDistinct(incl);
    PoolsDistinct(incl);
    assert slots[p] == slots[sgPos];
  }

  /** An autoscaling group that is a user document holds that document's new final
      value. */
  lemma KeepsSharedMachine(ctx: Ctx, incl: seq<Entry>, x: Entry, base: nat,
                           store: seq<Config>, result: seq<Ref>, store2: seq<Config>,
                           sgPos: nat, sgRef: Ref, asgRef: Ref, p: nat)
    requires Realizes(ctx, incl, ComponentSlots(incl), base, store, result)
    requires WritesOnlyBucketAndMachine(ctx, incl, x, store, result, store2, sgPos, sgRef, asgRef)
    requires p < |result| && ComponentSlots(incl)[p].AutoscalingGroupOf?
    requires Source(ctx, incl[ComponentSlots(incl)[p].component]).UserEntry?
    ensures SlotIn(incl + [x], ComponentSlots(incl)[p])
    ensures store2[result[p]] == Expected(ctx, incl + [x], ComponentSlots(incl)[p])
  {
    var slots := ComponentSlots(incl);
    var s := slots[p];
    ExpectedSnocAutoscalingGroup(ctx, incl, x, s.component);
    var u := Source(ctx, incl[s.component]).index;
    assert SharedEntry(ctx, incl, s) == Some(u);
    UserFinalSnoc(ctx, incl, x, u);
    assert result[p] == u;
    if Source(ctx, x) != UserEntry(u) {
      if Pool(x) in Pools(incl) {
        assert SharedEntry(ctx, incl, slots[sgPos]).None?;
      }
      assert u != sgRef && u != asgRef;
    }
  }

  /** Every other earlier slot keeps its document, which is also its final one. */
  lemma KeepsOtherSlot(ctx: Ctx, incl: seq<Entry>, x: Entry, base: nat,
                       store: seq<Config>, result: seq<Ref>, store2: seq<Config>,
                       sgPos: nat, sgRef: Ref, asgRef: Ref, p: nat)
    requires Realizes(ctx, incl, ComponentSlots(incl), base, store, result)
    requires WritesOnlyBucketAndMachine(ctx, incl, x, store, result, store2, sgPos, sgRef, asgRef)
    requires p < |result|
    requires ComponentSlots(incl)[p].SecurityGroupOf? ==>
      Pools(incl)[ComponentSlots(incl)[p].bucket] != Pool(x)
    requires ComponentSlots(incl)[p].AutoscalingGroupOf? ==>
      Source(ctx, incl[ComponentSlots(incl)[p].component]).Merged?
    ensures SlotIn(incl + [x], ComponentSlots(incl)[p])
    ensures store2[result[p]] == Expected(ctx, incl + [x], ComponentSlots(incl)[p])
  {
    var s := ComponentSlots(incl)[p];
    if Pool(x) in Pools(incl) && p == sgPos {
      PoolsDistinct(incl);
      assert false;
    }
    UntouchedRef(ctx, incl, x, base, store, result, store2, sgPos, sgRef, asgRef, p);
    if s.SecurityGroupOf? {
      ExpectedSnocSecurityGroup(ctx, incl, x, s.bucket);
    } else if s.AutoscalingGroupOf? {
      ExpectedSnocAutoscalingGroup(ctx, incl, x, s.component);
    } else {
      ExpectedSnocOther(ctx, incl, x, s);
    }
  }

  /** Such an iteration leaves one earlier output slot holding its final document for
      the plan with the component included. */
  lemma KeepsEarlierSlot(ctx: Ctx, incl: seq<Entry>, x: Entry, base: nat,
                         store: seq<Config>, result: seq<Ref>, store2: seq<Config>,
                         sgPos: nat, sgRef: Ref, asgRef: Ref, p: nat)
    requires Realizes(ctx, incl, ComponentSlots(incl), base, store, result)
    requires WritesOnlyBucketAndMachine(ctx, incl, x, store, result, store2, sgPos, sgRef, asgRef)
    requires p < |result|
    ensures SlotIn(incl + [x], ComponentSlots(incl)[p])
    ensures store2[result[p]] == Expected(ctx, incl + [x], ComponentSlots(incl)[p])
  {
    var s := ComponentSlots(incl)[p];
    if s.SecurityGroupOf? && Pools(incl)[s.bucket] == Pool(x) {
      KeepsBucketGroup(ctx, incl, x, store, result, store2, sgPos, sgRef, asgRef, p);
    } else if s.AutoscalingGroupOf? && Source(ctx, incl[s.component]).UserEntry? {
      KeepsSharedMachine(ctx, incl, x, base, store, result, store2, sgPos, sgRef, asgRef, p);
    } else {
      KeepsOtherSlot(ctx, incl, x, base, store, result, store2, sgPos, sgRef, asgRef, p);
    }
  }

  /** Such an iteration leaves every user document holding its final value for the plan
      with the component included. */
  lemma KeepsUserEntries(ctx: Ctx, incl: seq<Entry>, x: Entry, base: nat,
                         store: seq<Config>, result: seq<Ref>, store2: seq<Config>,
                         sgPos: nat, sgRef: Ref, asgRef: Ref)
    requires Realizes(ctx, incl, ComponentSlots(incl), base, store, result)
    requires WritesOnlyBucketAndMachine(ctx, incl, x, store, result, store2, sgPos, sgRef, asgRef)
    ensures forall k :: 0 <= k < |ctx.userInput| ==> store2[k] == UserFinal(ctx, incl + [x], k)
  {
    if Pool(x) in Pools(incl) {
      assert SharedEntry(ctx, incl, ComponentSlots(incl)[sgPos]).None?;
    }
    forall k | 0 <= k < |ctx.userInput|
      ensures store2[k] == UserFinal(ctx, incl + [x], k)
    {
      UserFinalSnoc(ctx, incl, x, k);
    }
  }

  /** `ref` holds the final document of slot `s` and is fresh unless the slot shares a
      user document, in which case it is that document. */
  ghost predicate Placed(ctx: Ctx, incl: seq<Entry>, store: seq<Config>, store2: seq<Config>, ref: Ref, s: Slot) {
    SlotIn(incl, s)
    && ref < |store2|
    && store2[ref] == Expected(ctx, incl, s)
    && if SharedEntry(ctx, incl, s).Some? then ref == SharedEntry(ctx, incl, s).value else |store| <= ref
  }

  /** What one iteration appends to the output: distinct references, each placed in
      the slot at the same position of `slots`. */
  ghost predicate Appends(ctx: Ctx, ext: seq<Entry>, store: seq<Config>, store2: seq<Config>,
                          added: seq<Ref>, slots: seq<Slot>)
  {
    |added| == |slots|
    && (forall p :: 0 <= p < |added| ==> Placed(ctx, ext, store, store2, added[p], slots[p]))
    && (forall p, q :: 0 <= p < q < |added| ==> added[p] != added[q])
  }

  lemma SnocValues(ctx: Ctx, incl: seq<Entry>, x: Entry, base: nat,
                   store: seq<Config>, result: seq<Ref>, store2: seq<Config>, added: seq<Ref>, slots: seq<Slot>,
                   sgPos: nat, sgRef: Ref, asgRef: Ref)
    requires Realizes(ctx, incl, ComponentSlots(incl), base, store, result)
    requires WritesOnlyBucketAndMachine(ctx, incl, x, store, result, store2, sgPos, sgRef, asgRef)
    requires Appends(ctx, incl + [x], store, store2, added, slots)
    ensures forall p :: 0 <= p < |result + added| ==>
      SlotIn(incl + [x], (ComponentSlots(incl) + slots)[p]) && (result + added)[p] < |store2|
      && store2[(result + added)[p]] == Expected(ctx, incl + [x], (ComponentSlots(incl) + slots)[p])
  {
    var ext, result2, slots2 := incl + [x], result + added, ComponentSlots(incl) + slots;
    forall p | 0 <= p < |result2|
      ensures SlotIn(ext, slots2[p]) && result2[p] < |store2| && store2[result2[p]] == Expected(ctx, ext, slots2[p])
    {
      if p < |result| {
        KeepsEarlierSlot(ctx, incl, x, base, store, result, store2, sgPos, sgRef, asgRef, p);
      } else {
        assert Placed(ctx, ext, store, store2, added[p - |result|], slots[p - |result|]);
      }
    }
  }

  /** The slots of the earlier components keep their sharing in the extended plan. */
  lemma SharingKept(ctx: Ctx, incl: seq<Entry>, x: Entry, slots: seq<Slot>)
    ensures forall p :: 0 <= p < |ComponentSlots(incl)| ==>
      SharedEntry(ctx, incl + [x], (ComponentSlots(incl) + slots)[p]) == SharedEntry(ctx, incl, ComponentSlots(incl)[p])
  {
    SlotsIn(incl);
    forall p | 0 <= p < |ComponentSlots(incl)|
      ensures SharedEntry(ctx, incl + [x], (ComponentSlots(incl) + slots)[p]) == SharedEntry(ctx, incl, ComponentSlots(incl)[p])
    {
      SharedEntrySnoc(ctx, incl, x, ComponentSlots(incl)[p]);
    }
  }

  lemma SnocShared(ctx: Ctx, incl: seq<Entry>, x: Entry, base: nat,
                   store: seq<Config>, result: seq<Ref>, store2: seq<Config>, added: seq<Ref>, slots: seq<Slot>)
    requires Realizes(ctx, incl, ComponentSlots(incl), base, store, result)
    requires Appends(ctx, incl + [x], store, store2, added, slots)
    ensures forall p :: 0 <= p < |result + added| ==>
      if SharedEntry(ctx, incl + [x], (ComponentSlots(incl) + slots)[p]).Some?
      then (result + added)[p] == SharedEntry(ctx, incl + [x], (ComponentSlots(incl) + slots)[p]).value
      else base <= (result + added)[p]
  {
    var ext, result2, slots2 := incl + [x], result + added, ComponentSlots(incl) + slots;
    var n := |result|;
    SharingKept(ctx, incl, x, slots);
    forall p | 0 <= p < |result2|
      ensures if SharedEntry(ctx, ext, slots2[p]).Some? then result2[p] == SharedEntry(ctx, ext, slots2[p]).value
              else base <= result2[p]
    {
      if p >= n {
        assert Placed(ctx, ext, store, store2, added[p - n], slots[p - n]);
      }
    }
  }

  lemma SnocDistinct(ctx: Ctx, incl: seq<Entry>, x: Entry, base: nat,
                     store: seq<Config>, result: seq<Ref>, store2: seq<Config>, added: seq<Ref>, slots: seq<Slot>)
    requires Realizes(ctx, incl, ComponentSlots(incl), base, store, result)
    requires Appends(ctx, incl + [x], store, store2, added, slots)
    ensures forall p, q :: 0 <= p < q < |result + added| && (result + added)[p] == (result + added)[q] ==>
      SharedEntry(ctx, incl + [x], (ComponentSlots(incl) + slots)[p]).Some?
  {
    var ext, result2, slots2 := incl + [x], result + added, ComponentSlots(incl) + slots;
    var n := |result|;
    SharingKept(ctx, incl, x, slots);
    forall p, q | 0 <= p < q < |result2| && result2[p] == result2[q]
      ensures SharedEntry(ctx, ext, slots2[p]).Some?
    {
      if q < n {
        assert SharedEntry(ctx, incl, ComponentSlots(incl)[p]).Some?;
      } else if p < n {
        var r := added[q - n];
        assert result2[p] == result[p] == r;
        assert Placed(ctx, ext, store, store2, r, slots[q - n]);
        assert r < base by {
          if SharedEntry(ctx, ext, slots[q - n]).None? {
            assert false;
          }
        }
        assert SharedEntry(ctx, incl, ComponentSlots(incl)[p]).Some?;
      } else {
        assert false;
      }
    }
  }

  /** A store that realises the plan for `incl`, extended by one iteration for
      component `x`, realises the plan for `incl + [x]`. */
  lemma RealizesSnoc(ctx: Ctx, incl: seq<Entry>, x: Entry, base: nat,
                     store: seq<Config>, result: seq<Ref>, store2: seq<Config>, added: seq<Ref>, slots: seq<Slot>,
                     sgPos: nat, sgRef: Ref, asgRef: Ref)
    requires Realizes(ctx, incl, ComponentSlots(incl), base, store, result)
    requires WritesOnlyBucketAndMachine(ctx, incl, x, store, result, store2, sgPos, sgRef, asgRef)
    requires Appends(ctx, incl + [x], store, store2, added, slots)
    ensures Realizes(ctx, incl + [x], ComponentSlots(incl) + slots, base, store2, result + added)
  {
    SnocValues(ctx, incl, x, base, store, result, store2, added, slots, sgPos, sgRef, asgRef);
    SnocShared(ctx, incl, x, base, store, result, store2, added, slots);
    SnocDistinct(ctx, incl, x, base, store, result, store2, added, slots);
    KeepsUserEntries(ctx, incl, x, base, store, result, store2, sgPos, sgRef, asgRef);
  }

  /** The first of the VPC, internet gateway and route table that the user supplied:
      `build` asks for these three first, in this order. */
  function HeadFailure(userInput: seq<Config>): Option<string> {
    if Supplies(userInput, VPC) then Some(VPC)
    else if Supplies(userInput, INTERNET_GATEWAY) then Some(INTERNET_GATEWAY)
    else if Supplies(userInput, ROUTE_TABLE) then Some(ROUTE_TABLE)
    else None
  }

  /** The first of the kinds a new bucket asks for that the user supplied. */
  function OpenFailure(userInput: seq<Config>): Option<string> {
    if Supplies(userInput, SUBNET) then Some(SUBNET)
    else if Supplies(userInput, SECURITY_GROUP) then Some(SECURITY_GROUP)
    else if Supplies(userInput, ROUTE_TABLE_ASSOCIATION) then Some(ROUTE_TABLE_ASSOCIATION)
    else None
  }

  /** The launch configuration every iteration asks for, if the user supplied one. */
  function LaunchFailure(userInput: seq<Config>): Option<string> {
    if Supplies(userInput, LAUNCH_CONFIGURATION) then Some(LAUNCH_CONFIGURATION) else None
  }

  /** The failure of an iteration that opens a bucket: the first included component
      always does. */
  function ComponentFailure(userInput: seq<Config>): Option<string> {
    if OpenFailure(userInput).Some? then OpenFailure(userInput) else LaunchFailure(userInput)
  }

  /** The first kind the iteration for component `x` asks for that the user supplied;
      the iteration opens a bucket when no earlier component used its pool. */
  function StepFailure(userInput: seq<Config>, incl: seq<Entry>, x: Entry): Option<string> {
    if Pool(x) !in Pools(incl) then ComponentFailure(userInput) else LaunchFailure(userInput)
  }

  // Each document one iteration writes is the document the plan expects in its slot.

  /** The subnet a new bucket opens with is the plan's subnet for that bucket. */
  lemma NewSubnetPlanned(ctx: Ctx, incl: seq<Entry>, x: Entry, vpc: Config)
    requires vpc.spec.name == ctx.vpcName && Pool(x) !in Pools(incl)
    requires !Supplies(ctx.userInput, SUBNET)
    ensures SlotIn(incl + [x], SubnetOf(|Pools(incl)|))
    ensures NewSubnet(ctx.cluster, ctx.userInput, ctx.defaults, vpc, Pool(x), |Pools(incl)|)
      == Success(Expected(ctx, incl + [x], SubnetOf(|Pools(incl)|)))
  {
    PoolsSnoc(incl, x);
  }

  /** The security group a new bucket opens with, once the component's rules are
      appended, is the plan's security group for that bucket. */
  lemma NewSecurityGroupPlanned(ctx: Ctx, incl: seq<Entry>, x: Entry, vpc: Config, subnet: Config, asg: Config)
    requires vpc.spec.name == ctx.vpcName && Pool(x) !in Pools(incl)
    requires subnet.spec.cidrBlock == Pool(x)
    requires asg.spec.securityRules == VmSpec(ctx, x).securityRules
    requires !Supplies(ctx.userInput, SECURITY_GROUP)
    ensures SlotIn(incl + [x], SecurityGroupOf(|Pools(incl)|))
    ensures NewSecurityGroup(ctx.cluster, ctx.userInput, ctx.defaults, vpc, subnet, |Pools(incl)|).Success?
    ensures WithComponentRules(NewSecurityGroup(ctx.cluster, ctx.userInput, ctx.defaults, vpc, subnet, |Pools(incl)|).value, asg)
      == Expected(ctx, incl + [x], SecurityGroupOf(|Pools(incl)|))
  {
    var c := |Pools(incl)|;
    var t := LoadDefault(ctx.defaults, SECURITY_GROUP);
    var cn := ctx.cluster.clusterName;
    PoolsSnoc(incl, x);
    assert Pools(incl + [x])[c] == Pool(x);
    BucketRulesUnused(ctx, incl, Pool(x));
    BucketRulesSnoc(ctx, incl, x, Pool(x));
    assert BucketRules(ctx, incl + [x], Pool(x)) == asg.spec.securityRules;
    var group := NewSecurityGroup(ctx.cluster, ctx.userInput, ctx.defaults, vpc, subnet, c).value;
    assert group == t.(spec := t.spec.(name := SecurityGroupName(cn, c), vpcName := ctx.vpcName,
                                       cidrBlock := Pool(x)));
  }

  /** The route-table association of a new bucket is the plan's. */
  lemma AssociationPlanned(ctx: Ctx, incl: seq<Entry>, x: Entry, routeTable: Config, subnet: Config)
    requires routeTable.spec.name == ctx.routeTableName && Pool(x) !in Pools(incl)
    requires subnet.spec.name == SubnetName(ctx.cluster.clusterName, |Pools(incl)|)
    requires !Supplies(ctx.userInput, ROUTE_TABLE_ASSOCIATION)
    ensures SlotIn(incl + [x], AssociationOf(|Pools(incl)|))
    ensures RouteTableAssociation(ctx.cluster, ctx.userInput, ctx.defaults, routeTable, subnet, |Pools(incl)|)
      == Success(Expected(ctx, incl + [x], AssociationOf(|Pools(incl)|)))
  {
    PoolsSnoc(incl, x);
  }

  /** Appending a component's rules to the security group of an existing bucket gives
      the plan's security group with that component included. */
  lemma JoinedSecurityGroupPlanned(ctx: Ctx, incl: seq<Entry>, x: Entry, group: Config, asg: Config)
    requires Pool(x) in Pools(incl)
    requires group == Expected(ctx, incl, SecurityGroupOf(IndexOf(Pools(incl), Pool(x))))
    requires asg.spec.securityRules == VmSpec(ctx, x).securityRules
    ensures SlotIn(incl + [x], SecurityGroupOf(IndexOf(Pools(incl), Pool(x))))
    ensures WithComponentRules(group, asg) == Expected(ctx, incl + [x], SecurityGroupOf(IndexOf(Pools(incl), Pool(x))))
  {
    ExpectedSnocSecurityGroup(ctx, incl, x, IndexOf(Pools(incl), Pool(x)));
  }

  /** The virtual-machine document of a component, as it stands before the iteration:
      the user's document with earlier components' writes, or the merged defaults. */
  function CurrentMachine(ctx: Ctx, incl: seq<Entry>, x: Entry): (c: Config)
    ensures c.spec.securityRules == VmSpec(ctx, x).securityRules
    ensures c.spec.imageId == VmSpec(ctx, x).imageId && c.spec.size == VmSpec(ctx, x).size
  {
    match Source(ctx, x)
    case UserEntry(u) => UserFinal(ctx, incl, u)
    case Merged(c) => c
  }

  /** Rewriting the component's machine document into its autoscaling group gives the
      plan's autoscaling group, and, for a user document, that document's new final
      value. */
  lemma AutoscalingGroupPlanned(ctx: Ctx, incl: seq<Entry>, x: Entry, subnet: Config)
    requires subnet.spec.name == SubnetName(ctx.cluster.clusterName, Bucket(incl + [x], |incl|))
    ensures SlotIn(incl + [x], AutoscalingGroupOf(|incl|))
    ensures AsAutoscalingGroup(CurrentMachine(ctx, incl, x), ctx.cluster, x.0, x.1, subnet)
      == Expected(ctx, incl + [x], AutoscalingGroupOf(|incl|))
    ensures Source(ctx, x).UserEntry? ==>
      AsAutoscalingGroup(CurrentMachine(ctx, incl, x), ctx.cluster, x.0, x.1, subnet)
      == UserFinal(ctx, incl + [x], Source(ctx, x).index)
  {
    assert (incl + [x])[|incl|] == x;
    if Source(ctx, x).UserEntry? {
      UserFinalSnoc(ctx, incl, x, Source(ctx, x).index);
    }
  }

  /** The launch configuration of the component is the plan's. */
  lemma LaunchConfigurationPlanned(ctx: Ctx, incl: seq<Entry>, x: Entry, asg: Config, group: Config)
    requires asg.spec.imageId == VmSpec(ctx, x).imageId && asg.spec.size == VmSpec(ctx, x).size
    requires group.spec.name == SecurityGroupName(ctx.cluster.clusterName, Bucket(incl + [x], |incl|))
    requires !Supplies(ctx.userInput, LAUNCH_CONFIGURATION)
    ensures SlotIn(incl + [x], LaunchConfigOf(|incl|))
    ensures LaunchConfiguration(ctx.cluster, ctx.userInput, ctx.defaults, x.0, asg, group)
      == Success(Expected(ctx, incl + [x], LaunchConfigOf(|incl|)))
  {
    assert (incl + [x])[|incl|] == x;
  }

  /** The slots an iteration adds for a component whose pool already has a bucket: its
      autoscaling group and its launch configuration. */
  lemma NewSlotsJoined(incl: seq<Entry>, x: Entry)
    requires Pool(x) in Pools(incl)
    ensures ComponentSlots(incl + [x])
      == ComponentSlots(incl) + [AutoscalingGroupOf(|incl|), LaunchConfigOf(|incl|)]
  {
    Snoc(incl, x);
    assert ComponentSlots(incl) + [] == ComponentSlots(incl);
  }

  /** The slots an iteration adds for a component whose pool has no bucket yet: the
      new bucket's subnet, security group and route-table association, then the
      component's autoscaling group and launch configuration. */
  lemma NewSlotsOpened(incl: seq<Entry>, x: Entry)
    requires Pool(x) !in Pools(incl)
    ensures ComponentSlots(incl + [x]) == ComponentSlots(incl)
      + ([SubnetOf(|Pools(incl)|), SecurityGroupOf(|Pools(incl)|), AssociationOf(|Pools(incl)|)]
         + [AutoscalingGroupOf(|incl|), LaunchConfigOf(|incl|)])
  {
    SlotsSnoc(incl, x);
  }

  lemma Snoc3<T>(a: T, b: T, c: T)
    ensures [] + [a] + [b] + [c] == [a, b, c]
  {
  }

  lemma Snoc2<T>(s: seq<T>, a: T, b: T)
    ensures s + [a] + [b] == s + [a, b]
    ensures [] + [a, b] == [a, b]
  {
  }

  /** Nothing appended yet. */
  lemma AppendsNone(ctx: Ctx, ext: seq<Entry>, store: seq<Config>, store2: seq<Config>)
    ensures Appends(ctx, ext, store, store2, [], [])
  {
  }

  /** One more placed reference, different from those appended so far. */
  lemma AppendPlaced(ctx: Ctx, ext: seq<Entry>, store: seq<Config>, store2: seq<Config>,
                     added: seq<Ref>, slots: seq<Slot>, r: Ref, s: Slot)
    requires Appends(ctx, ext, store, store2, added, slots)
    requires Placed(ctx, ext, store, store2, r, s)
    requires r !in added
    ensures Appends(ctx, ext, store, store2, added + [r], slots + [s])
  {
    var added2, slots2 := added + [r], slots + [s];
    var n := |added|;
    forall p | 0 <= p < |added2|
      ensures Placed(ctx, ext, store, store2, added2[p], slots2[p])
    {
      if p < n {
        assert added2[p] == added[p] && slots2[p] == slots[p];
      }
    }
    forall p, q | 0 <= p < q < |added2|
      ensures added2[p] != added2[q]
    {
      assert added2[p] == added[p];
      if q == n {
        assert added2[q] == r;
      }
    }
  }

  // Each document one iteration appends, placed in its slot of the plan with the
  // component included.

  lemma SubnetAppended(ctx: Ctx, incl: seq<Entry>, x: Entry, store: seq<Config>, store2: seq<Config>,
                       added: seq<Ref>, slots: seq<Slot>, vpc: Config, r: Ref)
    requires Appends(ctx, incl + [x], store, store2, added, slots)
    requires vpc.spec.name == ctx.vpcName && Pool(x) !in Pools(incl)
    requires |store| <= r < |store2|
    requires NewSubnet(ctx.cluster, ctx.userInput, ctx.defaults, vpc, Pool(x), |Pools(incl)|) == Success(store2[r])
    requires r !in added
    ensures Appends(ctx, incl + [x], store, store2, added + [r], slots + [SubnetOf(|Pools(incl)|)])
  {
    NewSubnetPlanned(ctx, incl, x, vpc);
    AppendPlaced(ctx, incl + [x], store, store2, added, slots, r, SubnetOf(|Pools(incl)|));
  }

  lemma SecurityGroupAppended(ctx: Ctx, incl: seq<Entry>, x: Entry, store: seq<Config>, store2: seq<Config>,
                              added: seq<Ref>, slots: seq<Slot>,
                              vpc: Config, subnet: Config, group: Config, asg: Config, r: Ref)
    requires Appends(ctx, incl + [x], store, store2, added, slots)
    requires vpc.spec.name == ctx.vpcName && Pool(x) !in Pools(incl)
    requires subnet.spec.cidrBlock == Pool(x)
    requires asg.spec.securityRules == VmSpec(ctx, x).securityRules
    requires NewSecurityGroup(ctx.cluster, ctx.userInput, ctx.defaults, vpc, subnet, |Pools(incl)|) == Success(group)
    requires |store| <= r < |store2| && store2[r] == WithComponentRules(group, asg)
    requires r !in added
    ensures Appends(ctx, incl + [x], store, store2, added + [r], slots + [SecurityGroupOf(|Pools(incl)|)])
  {
    NewSecurityGroupPlanned(ctx, incl, x, vpc, subnet, asg);
    AppendPlaced(ctx, incl + [x], store, store2, added, slots, r, SecurityGroupOf(|Pools(incl)|));
  }

  lemma AssociationAppended(ctx: Ctx, incl: seq<Entry>, x: Entry, store: seq<Config>, store2: seq<Config>,
                            added: seq<Ref>, slots: seq<Slot>, routeTable: Config, subnet: Config, r: Ref)
    requires Appends(ctx, incl + [x], store, store2, added, slots)
    requires routeTable.spec.name == ctx.routeTableName && Pool(x) !in Pools(incl)
    requires subnet.spec.name == SubnetName(ctx.cluster.clusterName, |Pools(incl)|)
    requires |store| <= r < |store2|
    requires RouteTableAssociation(ctx.cluster, ctx.userInput, ctx.defaults, routeTable, subnet, |Pools(incl)|)
      == Success(store2[r])
    requires r !in added
    ensures Appends(ctx, incl + [x], store, store2, added + [r], slots + [AssociationOf(|Pools(incl)|)])
  {
    AssociationPlanned(ctx, incl, x, routeTable, subnet);
    AppendPlaced(ctx, incl + [x], store, store2, added, slots, r, AssociationOf(|Pools(incl)|));
  }

  lemma MachineAppended(ctx: Ctx, incl: seq<Entry>, x: Entry, store: seq<Config>, store2: seq<Config>,
                        added: seq<Ref>, slots: seq<Slot>, subnet: Config, r: Ref)
    requires Appends(ctx, incl + [x], store, store2, added, slots)
    requires subnet.spec.name == SubnetName(ctx.cluster.clusterName, Bucket(incl + [x], |incl|))
    requires Source(ctx, x).UserEntry? ==> r == Source(ctx, x).index
    requires Source(ctx, x).Merged? ==> |store| <= r
    requires r < |store2| && store2[r] == AsAutoscalingGroup(CurrentMachine(ctx, incl, x), ctx.cluster, x.0, x.1, subnet)
    requires r !in added
    ensures Appends(ctx, incl + [x], store, store2, added + [r], slots + [AutoscalingGroupOf(|incl|)])
    ensures Source(ctx, x).UserEntry? ==> store2[r] == UserFinal(ctx, incl + [x], r)
  {
    AutoscalingGroupPlanned(ctx, incl, x, subnet);
    assert (incl + [x])[|incl|] == x;
    AppendPlaced(ctx, incl + [x], store, store2, added, slots, r, AutoscalingGroupOf(|incl|));
  }

  lemma LaunchConfigAppended(ctx: Ctx, incl: seq<Entry>, x: Entry, store: seq<Config>, store2: seq<Config>,
                             added: seq<Ref>, slots: seq<Slot>, asg: Config, group: Config, r: Ref)
    requires Appends(ctx, incl + [x], store, store2, added, slots)
    requires asg.spec.imageId == VmSpec(ctx, x).imageId && asg.spec.size == VmSpec(ctx, x).size
    requires group.spec.name == SecurityGroupName(ctx.cluster.clusterName, Bucket(incl + [x], |incl|))
    requires |store| <= r < |store2|
    requires LaunchConfiguration(ctx.cluster, ctx.userInput, ctx.defaults, x.0, asg, group) == Success(store2[r])
    requires r !in added
    ensures Appends(ctx, incl + [x], store, store2, added + [r], slots + [LaunchConfigOf(|incl|)])
  {
    LaunchConfigurationPlanned(ctx, incl, x, asg, group);
    AppendPlaced(ctx, incl + [x], store, store2, added, slots, r, LaunchConfigOf(|incl|));
  }

  /** The three documents a new bucket opens with, appended at the end of the store:
      its subnet, its security group (with the component's rules) and its route-table
      association. */
  lemma BucketOpened(ctx: Ctx, incl: seq<Entry>, x: Entry, store: seq<Config>, store2: seq<Config>,
                     vpc: Config, routeTable: Config, subnet: Config, group: Config, asg: Config,
                     subnetRef: Ref, groupRef: Ref, assocRef: Ref)
    requires Pool(x) !in Pools(incl)
    requires vpc.spec.name == ctx.vpcName && routeTable.spec.name == ctx.routeTableName
    requires subnetRef == |store| && groupRef == subnetRef + 1 && assocRef == groupRef + 1 && assocRef < |store2|
    requires NewSubnet(ctx.cluster, ctx.userInput, ctx.defaults, vpc, Pool(x), |Pools(incl)|) == Success(subnet)
    requires NewSecurityGroup(ctx.cluster, ctx.userInput, ctx.defaults, vpc, subnet, |Pools(incl)|) == Success(group)
    requires asg.spec.securityRules == VmSpec(ctx, x).securityRules
    requires store2[subnetRef] == subnet && store2[groupRef] == WithComponentRules(group, asg)
    requires RouteTableAssociation(ctx.cluster, ctx.userInput, ctx.defaults, routeTable, subnet, |Pools(incl)|)
      == Success(store2[assocRef])
    ensures Appends(ctx, incl + [x], store, store2, [subnetRef, groupRef, assocRef],
                    [SubnetOf(|Pools(incl)|), SecurityGroupOf(|Pools(incl)|), AssociationOf(|Pools(incl)|)])
  {
    var c := |Pools(incl)|;
    AppendsNone(ctx, incl + [x], store, store2);
    SubnetAppended(ctx, incl, x, store, store2, [], [], vpc, subnetRef);
    SecurityGroupAppended(ctx, incl, x, store, store2, [] + [subnetRef], [] + [SubnetOf(c)],
                          vpc, subnet, group, asg, groupRef);
    AssociationAppended(ctx, incl, x, store, store2, [] + [subnetRef] + [groupRef],
                        [] + [SubnetOf(c)] + [SecurityGroupOf(c)], routeTable, subnet, assocRef);
    Snoc3(subnetRef, groupRef, assocRef);
    Snoc3(SubnetOf(c), SecurityGroupOf(c), AssociationOf(c));
  }

  /** The two documents every included component adds to the output: its autoscaling
      group (a fresh document, or the user's machine document rewritten in place) and
      its launch configuration. */
  lemma ComponentAppended(ctx: Ctx, incl: seq<Entry>, x: Entry, store: seq<Config>, store2: seq<Config>,
                          added: seq<Ref>, slots: seq<Slot>, subnet: Config, group: Config, asg: Config,
                          asgRef: Ref, lcRef: Ref)
    requires Appends(ctx, incl + [x], store, store2, added, slots)
    requires subnet.spec.name == SubnetName(ctx.cluster.clusterName, Bucket(incl + [x], |incl|))
    requires group.spec.name == SecurityGroupName(ctx.cluster.clusterName, Bucket(incl + [x], |incl|))
    requires asg == AsAutoscalingGroup(CurrentMachine(ctx, incl, x), ctx.cluster, x.0, x.1, subnet)
    requires Source(ctx, x).UserEntry? ==> asgRef == Source(ctx, x).index
    requires Source(ctx, x).Merged? ==> |store| <= asgRef
    requires asgRef < |store2| && store2[asgRef] == asg
    requires |store| <= lcRef < |store2|
    requires LaunchConfiguration(ctx.cluster, ctx.userInput, ctx.defaults, x.0, asg, group) == Success(store2[lcRef])
    requires asgRef !in added && lcRef !in added && asgRef != lcRef
    ensures Appends(ctx, incl + [x], store, store2, added + [asgRef, lcRef],
                    slots + [AutoscalingGroupOf(|incl|), LaunchConfigOf(|incl|)])
    ensures Source(ctx, x).UserEntry? ==> store2[asgRef] == UserFinal(ctx, incl + [x], asgRef)
  {
    MachineAppended(ctx, incl, x, store, store2, added, slots, subnet, asgRef);
    LaunchConfigAppended(ctx, incl, x, store, store2, added + [asgRef], slots + [AutoscalingGroupOf(|incl|)],
                         asg, group, lcRef);
    Snoc2(added, asgRef, lcRef);
    Snoc2(slots, AutoscalingGroupOf(|incl|), LaunchConfigOf(|incl|));
  }

  /** The five documents an iteration that opens a bucket adds to the output. */
  lemma OpenedAppends(ctx: Ctx, incl: seq<Entry>, x: Entry, store: seq<Config>, store2: seq<Config>,
                      vpc: Config, routeTable: Config, subnet: Config, group: Config, asg: Config,
                      subnetRef: Ref, groupRef: Ref, assocRef: Ref, asgRef: Ref, lcRef: Ref)
    requires |ctx.userInput| <= |store| && Pool(x) !in Pools(incl)
    requires vpc.spec.name == ctx.vpcName && routeTable.spec.name == ctx.routeTableName
    requires subnetRef == |store| && groupRef == subnetRef + 1 && assocRef == groupRef + 1
    requires NewSubnet(ctx.cluster, ctx.userInput, ctx.defaults, vpc, Pool(x), |Pools(incl)|) == Success(subnet)
    requires NewSecurityGroup(ctx.cluster, ctx.userInput, ctx.defaults, vpc, subnet, |Pools(incl)|) == Success(group)
    requires asg == AsAutoscalingGroup(CurrentMachine(ctx, incl, x), ctx.cluster, x.0, x.1, subnet)
    requires Source(ctx, x).UserEntry? ==> asgRef == Source(ctx, x).index
    requires Source(ctx, x).Merged? ==> asgRef == assocRef + 1
    requires lcRef == (if Source(ctx, x).Merged? then asgRef else assocRef) + 1 && |store2| == lcRef + 1
    requires store2[subnetRef] == subnet && store2[groupRef] == WithComponentRules(group, asg)
    requires RouteTableAssociation(ctx.cluster, ctx.userInput, ctx.defaults, routeTable, subnet, |Pools(incl)|)
      == Success(store2[assocRef])
    requires store2[asgRef] == asg
    requires LaunchConfiguration(ctx.cluster, ctx.userInput, ctx.defaults, x.0, asg, store2[groupRef])
      == Success(store2[lcRef])
    ensures Appends(ctx, incl + [x], store, store2, [subnetRef, groupRef, assocRef] + [asgRef, lcRef],
                    [SubnetOf(|Pools(incl)|), SecurityGroupOf(|Pools(incl)|), AssociationOf(|Pools(incl)|)]
                    + [AutoscalingGroupOf(|incl|), LaunchConfigOf(|incl|)])
    ensures Source(ctx, x).UserEntry? ==> store2[asgRef] == UserFinal(ctx, incl + [x], asgRef)
  {
    var c := |Pools(incl)|;
    PoolsSnoc(incl, x);
    assert Bucket(incl + [x], |incl|) == c by {
      assert (incl + [x])[|incl|] == x;
    }
    BucketOpened(ctx, incl, x, store, store2, vpc, routeTable, subnet, group, asg, subnetRef, groupRef, assocRef);
    ComponentAppended(ctx, incl, x, store, store2, [subnetRef, groupRef, assocRef],
                      [SubnetOf(c), SecurityGroupOf(c), AssociationOf(c)], subnet, store2[groupRef], asg, asgRef, lcRef);
  }

  /** The documents one iteration appends for a component whose pool already has a
      bucket are the plan's autoscaling group and launch configuration. */
  lemma JoinedAppends(ctx: Ctx, incl: seq<Entry>, x: Entry,
                      store: seq<Config>, result: seq<Ref>, store2: seq<Config>,
                      subnetPos: nat, groupPos: nat, asg: Config, asgRef: Ref, lcRef: Ref)
    requires |ctx.userInput| <= |store| && RefsHold(ctx, incl, ComponentSlots(incl), store, result)
    requires Pool(x) in Pools(incl)
    requires subnetPos < |result| && ComponentSlots(incl)[subnetPos] == SubnetOf(IndexOf(Pools(incl), Pool(x)))
    requires groupPos < |result| && ComponentSlots(incl)[groupPos] == SecurityGroupOf(IndexOf(Pools(incl), Pool(x)))
    requires asg == AsAutoscalingGroup(CurrentMachine(ctx, incl, x), ctx.cluster, x.0, x.1, store[result[subnetPos]])
    requires Source(ctx, x).UserEntry? ==> asgRef == Source(ctx, x).index
    requires Source(ctx, x).Merged? ==> asgRef == |store|
    requires lcRef == |store| + (if Source(ctx, x).Merged? then 1 else 0) && |store2| == lcRef + 1
    requires store2[result[groupPos]] == WithComponentRules(store[result[groupPos]], asg)
    requires store2[asgRef] == asg
    requires LaunchConfiguration(ctx.cluster, ctx.userInput, ctx.defaults, x.0, asg, store2[result[groupPos]])
      == Success(store2[lcRef])
    ensures Appends(ctx, incl + [x], store, store2, [asgRef, lcRef],
                    [AutoscalingGroupOf(|incl|), LaunchConfigOf(|incl|)])
    ensures Source(ctx, x).UserEntry? ==> store2[asgRef] == UserFinal(ctx, incl + [x], asgRef)
    ensures store2[result[groupPos]] == Expected(ctx, incl + [x], SecurityGroupOf(IndexOf(Pools(incl), Pool(x))))
  {
    var slots := ComponentSlots(incl);
    var sgRef := result[groupPos];
    PoolsSnoc(incl, x);
    assert Bucket(incl + [x], |incl|) == IndexOf(Pools(incl), Pool(x)) by {
      assert (incl + [x])[|incl|] == x;
    }
    assert store[result[subnetPos]] == Expected(ctx, incl, slots[subnetPos]);
    assert store[sgRef] == Expected(ctx, incl, slots[groupPos]);
    JoinedSecurityGroupPlanned(ctx, incl, x, store[sgRef], asg);
    AppendsNone(ctx, incl + [x], store, store2);
    ComponentAppended(ctx, incl, x, store, store2, [], [], store[result[subnetPos]], store2[sgRef], asg, asgRef, lcRef);
    Snoc2([], asgRef, lcRef);
    Snoc2([], AutoscalingGroupOf(|incl|), LaunchConfigOf(|incl|));
  }

  /** One iteration for a component whose pool already has a bucket carries the plan
      from `incl` to `incl + [x]`: the output grows by the component's autoscaling group
      and launch configuration, the bucket's security group and, for a user document,
      the machine document are rewritten in place, and nothing else changes. */
  lemma JoinBucketStep(ctx: Ctx, incl: seq<Entry>, x: Entry, base: nat,
                       store: seq<Config>, result: seq<Ref>, store2: seq<Config>,
                       subnetPos: nat, groupPos: nat, asg: Config, asgRef: Ref, lcRef: Ref)
    requires Realizes(ctx, incl, ComponentSlots(incl), base, store, result)
    requires Pool(x) in Pools(incl)
    requires subnetPos < |result| && ComponentSlots(incl)[subnetPos] == SubnetOf(IndexOf(Pools(incl), Pool(x)))
    requires groupPos < |result| && ComponentSlots(incl)[groupPos] == SecurityGroupOf(IndexOf(Pools(incl), Pool(x)))
    requires asg == AsAutoscalingGroup(CurrentMachine(ctx, incl, x), ctx.cluster, x.0, x.1, store[result[subnetPos]])
    requires Source(ctx, x).UserEntry? ==> asgRef == Source(ctx, x).index
    requires Source(ctx, x).Merged? ==> asgRef == |store|
    requires lcRef == |store| + (if Source(ctx, x).Merged? then 1 else 0) && |store2| == lcRef + 1
    requires forall k :: 0 <= k < |store| && k != result[groupPos] && k != asgRef ==> store2[k] == store[k]
    requires store2[result[groupPos]] == WithComponentRules(store[result[groupPos]], asg)
    requires store2[asgRef] == asg
    requires LaunchConfiguration(ctx.cluster, ctx.userInput, ctx.defaults, x.0, asg, store2[result[groupPos]])
      == Success(store2[lcRef])
    ensures Realizes(ctx, incl + [x], ComponentSlots(incl + [x]), base, store2, result + [asgRef, lcRef])
    ensures forall k :: |ctx.userInput| <= k < base ==> store2[k] == store[k]
  {
    var slots := ComponentSlots(incl);
    var sgRef := result[groupPos];
    JoinedAppends(ctx, incl, x, store, result, store2, subnetPos, groupPos, asg, asgRef, lcRef);
    assert SharedEntry(ctx, incl, slots[groupPos]).None?;
    NewSlotsJoined(incl, x);
    assert WritesOnlyBucketAndMachine(ctx, incl, x, store, result, store2, groupPos, sgRef, asgRef);
    RealizesSnoc(ctx, incl, x, base, store, result, store2, [asgRef, lcRef],
                 [AutoscalingGroupOf(|incl|), LaunchConfigOf(|incl|)], groupPos, sgRef, asgRef);
  }

  // The builder itself.

  /** The state the component loop carries from one component to the next: the
      document store, the loop's own output list and `subnet_index`. */
  datatype LoopState = LoopState(store: seq<Config>, result: seq<Ref>, subnetIndex: nat)

  /** The store once a component's documents are written, with the references of its
      autoscaling group and its launch configuration. */
  datatype Attached = Attached(store: seq<Config>, asgRef: Ref, lcRef: Ref)

  /** AWSConfigBuilder.py:40-53: the subnet, security group and route-table association a new bucket
      opens with, created in that order and added to the store; the first of them that
      the user supplied stops the build. */
  method OpenBucket(ctx: Ctx, vpc: Config, routeTable: Config, pool: string, subnetIndex: nat,
                    store: seq<Config>) returns (r: Result<seq<Config>, BuildError>)
    ensures r.Failure? <==> OpenFailure(ctx.userInput).Some?
    ensures r.Failure? ==> r.error == NoneConfig(OpenFailure(ctx.userInput).value)
    ensures r.Success? ==> BucketOpenedIn(ctx, vpc, routeTable, pool, subnetIndex, store, r.value)
  {
    var subnet :- NewSubnet(ctx.cluster, ctx.userInput, ctx.defaults, vpc, pool, subnetIndex);
    var group :- NewSecurityGroup(ctx.cluster, ctx.userInput, ctx.defaults, vpc, subnet, subnetIndex);
    var association :- RouteTableAssociation(ctx.cluster, ctx.userInput, ctx.defaults, routeTable, subnet, subnetIndex);
    r := Success(store + [subnet, group, association]);
  }

  /** The virtual-machine document a component's autoscaling group is made from, as it
      stands in the store. */
  function MachineIn(ctx: Ctx, x: Entry, store: seq<Config>): Config
    requires |ctx.userInput| <= |store|
  {
    match Source(ctx, x)
    case UserEntry(u) => store[u]
    case Merged(c) => c
  }

  /** AWSConfigBuilder.py:57-72: the component's machine document becomes its autoscaling group (in
      place when it is the user's document, added to the store when it is a merged
      default), the bucket's security group at `groupRef` receives its rules, and a new
      launch configuration is added to the store. Nothing else in the store changes. */
  method AttachComponent(ctx: Ctx, x: Entry, store: seq<Config>, subnet: Config, groupRef: Ref)
    returns (r: Result<Attached, BuildError>)
    requires |ctx.userInput| <= groupRef < |store|
    ensures r.Failure? <==> Supplies(ctx.userInput, LAUNCH_CONFIGURATION)
    ensures r.Failure? ==> r.error == NoneConfig(LAUNCH_CONFIGURATION)
    ensures r.Success? ==> AttachedIn(ctx, x, store, subnet, groupRef, r.value)
  {
    var s := store;
    var asg: Config;
    var asgRef: Ref;
    match VirtualMachine(x.1, ctx.cluster, ctx.userInput, ctx.defaults) {
      case UserEntry(u) =>
        asg := AsAutoscalingGroup(s[u], ctx.cluster, x.0, x.1, subnet);
        asgRef := u;
        s := s[u := asg];
      case Merged(c) =>
        asg := AsAutoscalingGroup(c, ctx.cluster, x.0, x.1, subnet);
        asgRef := |s|;
        s := s + [asg];
    }
    s := s[groupRef := WithComponentRules(s[groupRef], asg)];
    var launchConfig :- LaunchConfiguration(ctx.cluster, ctx.userInput, ctx.defaults, x.0, asg, s[groupRef]);
    r := Success(Attached(s + [launchConfig], asgRef, |s|));
  }

  /** Before a component opens a bucket, its machine document is the one the plan
      says it stands at, even after the bucket's documents are added to the store. */
  lemma OpenedMachine(ctx: Ctx, incl: seq<Entry>, x: Entry, base: nat,
                      store: seq<Config>, result: seq<Ref>, store1: seq<Config>)
    requires Realizes(ctx, incl, ComponentSlots(incl), base, store, result)
    requires |store| <= |store1| && store1[..|store|] == store
    ensures |ctx.userInput| <= |store1| && MachineIn(ctx, x, store1) == CurrentMachine(ctx, incl, x)
  {
    if Source(ctx, x).UserEntry? {
      var u := Source(ctx, x).index;
      assert store1[u] == store1[..|store|][u];
    }
  }

  /** The bucket documents a joining component finds were made by this build, and its
      machine document is the one the plan says it stands at. */
  lemma JoinedRefs(ctx: Ctx, incl: seq<Entry>, x: Entry, base: nat,
                   store: seq<Config>, result: seq<Ref>, subnetPos: nat, groupPos: nat)
    requires Realizes(ctx, incl, ComponentSlots(incl), base, store, result)
    requires Pool(x) in Pools(incl)
    requires groupPos < |result| && ComponentSlots(incl)[groupPos] == SecurityGroupOf(IndexOf(Pools(incl), Pool(x)))
    ensures |ctx.userInput| <= result[groupPos] < |store|
    ensures MachineIn(ctx, x, store) == CurrentMachine(ctx, incl, x)
  {
    assert SharedEntry(ctx, incl, ComponentSlots(incl)[groupPos]).None?;
  }

  /** The store `store1` is `store` with a new bucket's subnet, security group and
      route-table association added, in that order. */
  ghost predicate BucketOpenedIn(ctx: Ctx, vpc: Config, routeTable: Config, pool: string, subnetIndex: nat,
                                 store: seq<Config>, store1: seq<Config>)
  {
    |store1| == |store| + 3 && store1[..|store|] == store
    && NewSubnet(ctx.cluster, ctx.userInput, ctx.defaults, vpc, pool, subnetIndex) == Success(store1[|store|])
    && NewSecurityGroup(ctx.cluster, ctx.userInput, ctx.defaults, vpc, store1[|store|], subnetIndex)
       == Success(store1[|store| + 1])
    && RouteTableAssociation(ctx.cluster, ctx.userInput, ctx.defaults, routeTable, store1[|store|], subnetIndex)
       == Success(store1[|store| + 2])
  }

  /** `a` is `store` once component `x` is attached to the bucket whose subnet is
      `subnet` and whose security group is at `groupRef`: the machine document made the
      autoscaling group (in place for a user document, added for a merged default), the
      group's rules extended, the launch configuration added; nothing else changed. */
  ghost predicate AttachedIn(ctx: Ctx, x: Entry, store: seq<Config>, subnet: Config, groupRef: Ref, a: Attached)
    requires |ctx.userInput| <= groupRef < |store|
  {
    var asg := AsAutoscalingGroup(MachineIn(ctx, x, store), ctx.cluster, x.0, x.1, subnet);
    (Source(ctx, x).UserEntry? ==> a.asgRef == Source(ctx, x).index)
    && (Source(ctx, x).Merged? ==> a.asgRef == |store|)
    && a.lcRef == |store| + (if Source(ctx, x).Merged? then 1 else 0) && |a.store| == a.lcRef + 1
    && (forall k :: 0 <= k < |store| && k != groupRef && k != a.asgRef ==> a.store[k] == store[k])
    && a.store[a.asgRef] == asg
    && a.store[groupRef] == WithComponentRules(store[groupRef], asg)
    && LaunchConfiguration(ctx.cluster, ctx.userInput, ctx.defaults, x.0, asg, a.store[groupRef])
       == Success(a.store[a.lcRef])
  }

  /** The references an iteration that opens a bucket appends to the output. */
  function OpenedRefs(n: nat, a: Attached): seq<Ref> {
    [n, n + 1, n + 2] + [a.asgRef, a.lcRef]
  }

  /** Two rounds of writes, the first only adding at the end and the second writing at
      most `skip1` and `skip2`, leave every earlier element other than `skip2` alone. */
  lemma FrameThrough<T>(s0: seq<T>, s1: seq<T>, s2: seq<T>, skip1: nat, skip2: nat)
    requires |s0| <= |s1| <= |s2| && s1[..|s0|] == s0 && |s0| <= skip1
    requires forall k :: 0 <= k < |s1| && k != skip1 && k != skip2 ==> s2[k] == s1[k]
    ensures forall k :: 0 <= k < |s0| && k != skip2 ==> s2[k] == s0[k]
  {
    forall k | 0 <= k < |s0| && k != skip2
      ensures s2[k] == s0[k]
    {
      assert s1[k] == s1[..|s0|][k];
    }
  }

  /** What an iteration that opens a bucket writes, read off the contracts of
      `OpenBucket` and `AttachComponent`: the five documents it adds to the output, each
      in its slot of the plan with `x` included, and the documents it rewrites. */
  lemma OpenedWrites(ctx: Ctx, incl: seq<Entry>, x: Entry, store: seq<Config>, result: seq<Ref>,
                     vpc: Config, routeTable: Config, store1: seq<Config>, a: Attached)
    requires |ctx.userInput| <= |store| && Pool(x) !in Pools(incl)
    requires vpc.spec.name == ctx.vpcName && routeTable.spec.name == ctx.routeTableName
    requires BucketOpenedIn(ctx, vpc, routeTable, Pool(x), |Pools(incl)|, store, store1)
    requires AttachedIn(ctx, x, store1, store1[|store|], |store| + 1, a)
    requires MachineIn(ctx, x, store1) == CurrentMachine(ctx, incl, x)
    ensures Appends(ctx, incl + [x], store, a.store, OpenedRefs(|store|, a),
                    [SubnetOf(|Pools(incl)|), SecurityGroupOf(|Pools(incl)|), AssociationOf(|Pools(incl)|)]
                    + [AutoscalingGroupOf(|incl|), LaunchConfigOf(|incl|)])
    ensures WritesOnlyBucketAndMachine(ctx, incl, x, store, result, a.store, 0, |store| + 1, a.asgRef)
  {
    var n := |store|;
    var subnet, group := store1[n], store1[n + 1];
    var asg := AsAutoscalingGroup(MachineIn(ctx, x, store1), ctx.cluster, x.0, x.1, subnet);
    FrameThrough(store, store1, a.store, n + 1, a.asgRef);
    OpenedAppends(ctx, incl, x, store, a.store, vpc, routeTable, subnet, group, asg,
                  n, n + 1, n + 2, a.asgRef, a.lcRef);
  }

  /** One iteration for a component whose pool has no bucket yet carries the plan from
      `incl` to `incl + [x]`: the output grows by the new bucket's subnet, security group
      and route-table association, then the component's autoscaling group and launch
      configuration; only the machine document, when it is the user's, is rewritten in
      place. */
  lemma OpenBucketStep(ctx: Ctx, incl: seq<Entry>, x: Entry, base: nat, store: seq<Config>, result: seq<Ref>,
                       vpc: Config, routeTable: Config, store1: seq<Config>, a: Attached)
    requires Realizes(ctx, incl, ComponentSlots(incl), base, store, result)
    requires Pool(x) !in Pools(incl)
    requires vpc.spec.name == ctx.vpcName && routeTable.spec.name == ctx.routeTableName
    requires BucketOpenedIn(ctx, vpc, routeTable, Pool(x), |Pools(incl)|, store, store1)
    requires AttachedIn(ctx, x, store1, store1[|store|], |store| + 1, a)
    ensures Realizes(ctx, incl + [x], ComponentSlots(incl + [x]), base, a.store, result + OpenedRefs(|store|, a))
    ensures forall k :: |ctx.userInput| <= k < base ==> a.store[k] == store[k]
  {
    OpenedMachine(ctx, incl, x, base, store, result, store1);
    OpenedWrites(ctx, incl, x, store, result, vpc, routeTable, store1, a);
    NewSlotsOpened(incl, x);
    RealizesSnoc(ctx, incl, x, base, store, result, a.store, OpenedRefs(|store|, a),
                 [SubnetOf(|Pools(incl)|), SecurityGroupOf(|Pools(incl)|), AssociationOf(|Pools(incl)|)]
                 + [AutoscalingGroupOf(|incl|), LaunchConfigOf(|incl|)],
                 0, |store| + 1, a.asgRef);
  }

  /** AWSConfigBuilder.py:39-72, for a component `x` whose pool has no bucket yet: the bucket is
      opened with index `subnet_index`, then the component is attached to it. */
  method AddToNewBucket(ctx: Ctx, incl: seq<Entry>, base: nat, x: Entry,
                        vpc: Config, routeTable: Config, s: LoopState)
    returns (r: Result<LoopState, BuildError>)
    requires Realizes(ctx, incl, ComponentSlots(incl), base, s.store, s.result)
    requires s.subnetIndex == |Pools(incl)| && Pool(x) !in Pools(incl)
    requires vpc.spec.name == ctx.vpcName && routeTable.spec.name == ctx.routeTableName
    ensures r.Failure? <==> ComponentFailure(ctx.userInput).Some?
    ensures r.Failure? ==> r.error == NoneConfig(ComponentFailure(ctx.userInput).value)
    ensures r.Success? ==>
      Realizes(ctx, incl + [x], ComponentSlots(incl + [x]), base, r.value.store, r.value.result)
      && r.value.subnetIndex == s.subnetIndex + 1
      && forall k :: |ctx.userInput| <= k < base ==> r.value.store[k] == s.store[k]
  {
    var store1 :- OpenBucket(ctx, vpc, routeTable, Pool(x), s.subnetIndex, s.store);
    var a :- AttachComponent(ctx, x, store1, store1[|s.store|], |s.store| + 1);
    OpenBucketStep(ctx, incl, x, base, s.store, s.result, vpc, routeTable, store1, a);
    r := Success(LoopState(a.store, s.result + OpenedRefs(|s.store|, a), s.subnetIndex + 1));
  }

  /** AWSConfigBuilder.py:57-72, for a component `x` whose pool already has a bucket, whose subnet
      and security group the scans found at `subnetPos` and `groupPos` of the output. */
  method AddToBucket(ctx: Ctx, incl: seq<Entry>, base: nat, x: Entry, s: LoopState,
                     subnetPos: nat, groupPos: nat)
    returns (r: Result<LoopState, BuildError>)
    requires Realizes(ctx, incl, ComponentSlots(incl), base, s.store, s.result)
    requires Pool(x) in Pools(incl)
    requires subnetPos < |s.result| && ComponentSlots(incl)[subnetPos] == SubnetOf(IndexOf(Pools(incl), Pool(x)))
    requires groupPos < |s.result| && ComponentSlots(incl)[groupPos] == SecurityGroupOf(IndexOf(Pools(incl), Pool(x)))
    ensures r.Failure? <==> Supplies(ctx.userInput, LAUNCH_CONFIGURATION)
    ensures r.Failure? ==> r.error == NoneConfig(LAUNCH_CONFIGURATION)
    ensures r.Success? ==>
      Realizes(ctx, incl + [x], ComponentSlots(incl + [x]), base, r.value.store, r.value.result)
      && r.value.subnetIndex == s.subnetIndex
      && forall k :: |ctx.userInput| <= k < base ==> r.value.store[k] == s.store[k]
  {
    var subnetRef, groupRef := s.result[subnetPos], s.result[groupPos];
    JoinedRefs(ctx, incl, x, base, s.store, s.result, subnetPos, groupPos);
    var a :- AttachComponent(ctx, x, s.store, s.store[subnetRef], groupRef);
    JoinBucketStep(ctx, incl, x, base, s.store, s.result, a.store, subnetPos, groupPos,
                   AsAutoscalingGroup(MachineIn(ctx, x, s.store), ctx.cluster, x.0, x.1, s.store[subnetRef]),
                   a.asgRef, a.lcRef);
    r := Success(LoopState(a.store, s.result + [a.asgRef, a.lcRef], s.subnetIndex));
  }

  /** AWSConfigBuilder.py:36-72, for one included component `x`, with `incl` the components included
      before it: the two scans over the output so far decide whether `x` opens a new
      bucket or joins the one for its pool, and the plan for `incl` becomes the plan
      for `incl + [x]`. The documents made before the loop, from `|ctx.userInput|` up
      to `base`, are left alone. */
  method AddComponent(ctx: Ctx, incl: seq<Entry>, base: nat, x: Entry,
                      vpc: Config, routeTable: Config, s: LoopState)
    returns (r: Result<LoopState, BuildError>)
    requires Realizes(ctx, incl, ComponentSlots(incl), base, s.store, s.result)
    requires s.subnetIndex == |Pools(incl)|
    requires vpc.spec.name == ctx.vpcName && routeTable.spec.name == ctx.routeTableName
    ensures r.Failure? <==> StepFailure(ctx.userInput, incl, x).Some?
    ensures r.Failure? ==> r.error == NoneConfig(StepFailure(ctx.userInput, incl, x).value)
    ensures r.Success? ==>
      Realizes(ctx, incl + [x], ComponentSlots(incl + [x]), base, r.value.store, r.value.result)
      && r.value.subnetIndex == |Pools(incl + [x])|
      && forall k :: |ctx.userInput| <= k < base ==> r.value.store[k] == s.store[k]
  {
    var subnetPos := FindInResult(s.store, s.result, SUBNET, Pool(x));
    var groupPos := FindInResult(s.store, s.result, SECURITY_GROUP, Pool(x));
    LocateBucket(ctx, incl, base, s.store, s.result, SUBNET, Pool(x));
    LocateBucket(ctx, incl, base, s.store, s.result, SECURITY_GROUP, Pool(x));
    PoolsSnoc(incl, x);
    if subnetPos.None? {
      r := AddToNewBucket(ctx, incl, base, x, vpc, routeTable, s);
    } else {
      r := AddToBucket(ctx, incl, base, x, s, subnetPos.value, groupPos.value);
    }
  }

  /** AWSConfigBuilder.py:33-72, one pass of the loop, over the component at position `i` of the
      components mapping, with `incl` the components included before it: the
      component is skipped when its count is below 1 and added otherwise. */
  method NextComponent(ctx: Ctx, incl: seq<Entry>, base: nat, vpc: Config, routeTable: Config,
                       i: nat, s: LoopState)
    returns (r: Result<LoopState, BuildError>)
    requires i < |ctx.cluster.components| && incl == Included(ctx.cluster.components[..i])
    requires Realizes(ctx, incl, ComponentSlots(incl), base, s.store, s.result)
    requires s.subnetIndex == |Pools(incl)|
    requires incl != [] ==> ComponentFailure(ctx.userInput).None?
    requires vpc.spec.name == ctx.vpcName && routeTable.spec.name == ctx.routeTableName
    ensures r.Failure? <==>
      Included(ctx.cluster.components[..i + 1]) != [] && ComponentFailure(ctx.userInput).Some?
    ensures r.Failure? ==> r.error == NoneConfig(ComponentFailure(ctx.userInput).value)
    ensures r.Success? ==>
      var incl2 := Included(ctx.cluster.components[..i + 1]);
      Realizes(ctx, incl2, ComponentSlots(incl2), base, r.value.store, r.value.result)
      && r.value.subnetIndex == |Pools(incl2)|
      && forall k :: |ctx.userInput| <= k < base ==> r.value.store[k] == s.store[k]
  {
    var x := ctx.cluster.components[i];
    IncludedSnoc(ctx.cluster.components, i);
    if x.1.count < 1 {
      r := Success(s);
    } else {
      r := AddComponent(ctx, incl, base, x, vpc, routeTable, s);
    }
  }

  /** The user's documents, before any component is processed, realise the plan for
      no component. */
  lemma RealizesNone(ctx: Ctx, store: seq<Config>)
    requires |ctx.userInput| <= |store|
    requires forall k :: 0 <= k < |ctx.userInput| ==> store[k] == ctx.userInput[k]
    ensures Realizes(ctx, [], [], |store|, store, [])
  {
  }

  /** AWSConfigBuilder.py:29-74: the component loop. Components with `count < 1` are skipped; every
      other component opens or joins a bucket. `store` holds the user's documents
      followed by the documents made before the loop, which the loop leaves alone.
      Only the first included component can fail: it is the only one that is certain
      to open a bucket, and once it has succeeded no kind the loop asks for was
      supplied by the user. */
  method AutoscalingGroupsConfigs(ctx: Ctx, vpc: Config, routeTable: Config, store: seq<Config>)
    returns (r: Result<Built, BuildError>)
    requires |ctx.userInput| <= |store|
    requires forall k :: 0 <= k < |ctx.userInput| ==> store[k] == ctx.userInput[k]
    requires vpc.spec.name == ctx.vpcName && routeTable.spec.name == ctx.routeTableName
    ensures r.Failure? <==>
      Included(ctx.cluster.components) != [] && ComponentFailure(ctx.userInput).Some?
    ensures r.Failure? ==> r.error == NoneConfig(ComponentFailure(ctx.userInput).value)
    ensures r.Success? ==>
      var incl := Included(ctx.cluster.components);
      Realizes(ctx, incl, ComponentSlots(incl), |store|, r.value.store, r.value.result)
      && forall k :: |ctx.userInput| <= k < |store| ==> r.value.store[k] == store[k]
  {
    var comps := ctx.cluster.components;
    var s := LoopState(store, [], 0);
    var incl: seq<Entry> := [];
    assert comps[..0] == [];
    RealizesNone(ctx, store);
    for i := 0 to |comps|
      invariant incl == Included(comps[..i])
      invariant Realizes(ctx, incl, ComponentSlots(incl), |store|, s.store, s.result)
      invariant s.subnetIndex == |Pools(incl)|
      invariant incl != [] ==> ComponentFailure(ctx.userInput).None?
      invariant forall k :: |ctx.userInput| <= k < |store| ==> s.store[k] == store[k]
    {
      var step := NextComponent(ctx, incl, |store|, vpc, routeTable, i, s);
      if step.Failure? {
        IncludedPrefix(comps, i + 1);
        return Failure(step.error);
      }
      s := step.value;
      incl := Included(comps[..i + 1]);
    }
    assert comps[..|comps|] == comps;
    r := Success(Built(s.store, s.result));
  }

  /** What the component resources of a build refer to: the VPC by the name
      `get_vpc_config` gives it, the route table by the name `get_routing_table` gives it. */
  function BuildCtx(cluster: Cluster, userInput: seq<Config>, d: Defaults): (ctx: Ctx)
    ensures ctx.cluster == cluster && ctx.userInput == userInput && ctx.defaults == d
    ensures ctx.vpcName == VpcName(cluster.clusterName)
    ensures ctx.routeTableName == RouteTableName(cluster.clusterName)
  {
    Ctx(cluster, userInput, d, VpcName(cluster.clusterName), RouteTableName(cluster.clusterName))
  }

  /** The kind whose lookup stops `build`, if any: the first of the VPC, internet
      gateway and route table that the user supplied, or else, when some component is
      included, the first kind the first included component asks for that the user
      supplied. */
  function BuildFailure(cluster: Cluster, userInput: seq<Config>): Option<string> {
    if HeadFailure(userInput).Some? then HeadFailure(userInput)
    else if Included(cluster.components) != [] then ComponentFailure(userInput)
    else None
  }

  /** The VPC, internet gateway and route table `build` makes first are the plan's. */
  lemma HeadPlanned(ctx: Ctx, incl: seq<Entry>, vpc: Config, gateway: Config, routeTable: Config)
    requires ctx == BuildCtx(ctx.cluster, ctx.userInput, ctx.defaults)
    requires VpcConfig(ctx.cluster, ctx.userInput, ctx.defaults) == Success(vpc)
    requires InternetGateway(ctx.cluster, ctx.userInput, ctx.defaults, vpc) == Success(gateway)
    requires RoutingTable(ctx.cluster, ctx.userInput, ctx.defaults, vpc, gateway) == Success(routeTable)
    ensures vpc == Expected(ctx, incl, VpcSlot)
    ensures gateway == Expected(ctx, incl, GatewaySlot)
    ensures routeTable == Expected(ctx, incl, RouteTableSlot)
    ensures vpc.spec.name == ctx.vpcName && routeTable.spec.name == ctx.routeTableName
  {
  }

  /** The head and the component part laid out one after the other. */
  lemma HeadSlots(incl: seq<Entry>, result: seq<Ref>, n: nat, p: nat)
    requires |result| == |ComponentSlots(incl)| && 3 <= p < 3 + |result|
    ensures ([n, n + 1, n + 2] + result)[p] == result[p - 3]
    ensures Layout(incl)[p] == ComponentSlots(incl)[p - 3]
  {
  }

  /** Every reference of the whole output holds its slot's document. */
  lemma HeadValues(ctx: Ctx, incl: seq<Entry>, store: seq<Config>, result: seq<Ref>)
    requires |ctx.userInput| + 3 <= |store|
    requires RefsHold(ctx, incl, ComponentSlots(incl), store, result)
    requires store[|ctx.userInput|] == Expected(ctx, incl, VpcSlot)
    requires store[|ctx.userInput| + 1] == Expected(ctx, incl, GatewaySlot)
    requires store[|ctx.userInput| + 2] == Expected(ctx, incl, RouteTableSlot)
    ensures forall p :: 0 <= p < 3 + |result| ==>
      SlotIn(incl, Layout(incl)[p])
      && ([|ctx.userInput|, |ctx.userInput| + 1, |ctx.userInput| + 2] + result)[p] < |store|
      && store[([|ctx.userInput|, |ctx.userInput| + 1, |ctx.userInput| + 2] + result)[p]]
         == Expected(ctx, incl, Layout(incl)[p])
  {
    var n := |ctx.userInput|;
    forall p | 3 <= p < 3 + |result|
      ensures SlotIn(incl, Layout(incl)[p]) && ([n, n + 1, n + 2] + result)[p] < |store|
      ensures store[([n, n + 1, n + 2] + result)[p]] == Expected(ctx, incl, Layout(incl)[p])
    {
      HeadSlots(incl, result, n, p);
    }
  }

  /** Only the component part of `all` shares references, and only where the plan does. */
  lemma HeadSharing(ctx: Ctx, incl: seq<Entry>, result: seq<Ref>, all: seq<Ref>)
    requires RefsShared(ctx, incl, ComponentSlots(incl), |ctx.userInput| + 3, result)
    requires all == [|ctx.userInput|, |ctx.userInput| + 1, |ctx.userInput| + 2] + result
    ensures forall p :: 0 <= p < |all| ==>
      if SharedEntry(ctx, incl, Layout(incl)[p]).Some? then all[p] == SharedEntry(ctx, incl, Layout(incl)[p]).value
      else |ctx.userInput| <= all[p]
    ensures forall p, q :: 0 <= p < q < |all| && all[p] == all[q] ==> SharedEntry(ctx, incl, Layout(incl)[p]).Some?
  {
    var n := |ctx.userInput|;
    forall p | 3 <= p < |all|
      ensures if SharedEntry(ctx, incl, Layout(incl)[p]).Some? then all[p] == SharedEntry(ctx, incl, Layout(incl)[p]).value
              else n <= all[p]
    {
      HeadSlots(incl, result, n, p);
    }
    forall p, q | 0 <= p < q < |all| && all[p] == all[q]
      ensures SharedEntry(ctx, incl, Layout(incl)[p]).Some?
    {
      HeadSlots(incl, result, n, q);
      if 3 <= p {
        HeadSlots(incl, result, n, p);
      } else {
        assert false;
      }
    }
  }

  /** Three new documents at `n`, `n + 1` and `n + 2`, the plan's head, in front of a
      component part that realises the plan with every new reference at `n + 3` or
      beyond, realise the whole layout. */
  lemma HeadComposed(ctx: Ctx, incl: seq<Entry>, store: seq<Config>, result: seq<Ref>)
    requires Realizes(ctx, incl, ComponentSlots(incl), |ctx.userInput| + 3, store, result)
    requires store[|ctx.userInput|] == Expected(ctx, incl, VpcSlot)
    requires store[|ctx.userInput| + 1] == Expected(ctx, incl, GatewaySlot)
    requires store[|ctx.userInput| + 2] == Expected(ctx, incl, RouteTableSlot)
    ensures Realizes(ctx, incl, Layout(incl), |ctx.userInput|, store,
                     [|ctx.userInput|, |ctx.userInput| + 1, |ctx.userInput| + 2] + result)
  {
    HeadValues(ctx, incl, store, result);
    HeadSharing(ctx, incl, result, [|ctx.userInput|, |ctx.userInput| + 1, |ctx.userInput| + 2] + result);
  }

  /** `build`: the VPC, the internet gateway and the route table, then the component
      part, in that order. The user's documents are the first entries of the store;
      the output references the plan's documents in the plan's layout, and only the
      first kind the user supplied among those asked for stops the build. */
  method Build(cluster: Cluster, userInput: seq<Config>, d: Defaults) returns (r: Result<Built, BuildError>)
    ensures r.Failure? <==> BuildFailure(cluster, userInput).Some?
    ensures r.Failure? ==> r.error == NoneConfig(BuildFailure(cluster, userInput).value)
    ensures r.Success? ==>
      var incl := Included(cluster.components);
      Realizes(BuildCtx(cluster, userInput, d), incl, Layout(incl), |userInput|, r.value.store, r.value.result)
      && |r.value.result| == 3 + 3 * |Pools(incl)| + 2 * |incl|
  {
    var ctx := BuildCtx(cluster, userInput, d);
    var vpc :- VpcConfig(cluster, userInput, d);
    var gateway :- InternetGateway(cluster, userInput, d, vpc);
    var routeTable :- RoutingTable(cluster, userInput, d, vpc, gateway);
    ghost var incl := Included(cluster.components);
    HeadPlanned(ctx, incl, vpc, gateway, routeTable);
    var n := |userInput|;
    var store := userInput + [vpc, gateway, routeTable];
    var rest :- AutoscalingGroupsConfigs(ctx, vpc, routeTable, store);
    HeadComposed(ctx, incl, rest.store, rest.result);
    PlanProperties.LayoutLength(incl);
    r := Success(Built(rest.store, [n, n + 1, n + 2] + rest.result));
  }
}
