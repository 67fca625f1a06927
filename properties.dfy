/** What the plan promises about the output of a build: its length, the order of its
    documents, which components contribute, how subnet buckets are numbered and
    shared, and the fields of every document. */
module PlanProperties {
  import opened Wrappers
  import opened Strings
  import opened Configs
  import opened Lookup
  import opened Plan

  // Shape of the output.

  /** The output holds the VPC, the gateway and the route table, three documents per
      subnet bucket and two per included component. */
  lemma {:induction false} LayoutLength(incl: seq<Entry>)
    ensures |Layout(incl)| == 3 + 3 * |Pools(incl)| + 2 * |incl|
  {
    if incl != [] {
      var init, x := Init(incl), Last(incl);
      assert incl == init + [x];
      LayoutLength(init);
      SlotsSnoc(init, x);
      PoolsSnoc(init, x);
    }
  }

  /** The number of subnet buckets is the number of distinct pools among the included
      components. */
  lemma PoolsCount(incl: seq<Entry>)
    ensures |Pools(incl)| == |set x | x in incl :: Pool(x)|
  {
    forall p | p in Pools(incl)
      ensures p in (set x | x in incl :: Pool(x))
    {
      PoolsSound(incl, p);
      var j :| 0 <= j < |incl| && Pool(incl[j]) == p;
      assert incl[j] in incl;
    }
    forall x | x in incl
      ensures Pool(x) in Pools(incl)
    {
      var j :| 0 <= j < |incl| && incl[j] == x;
      PoolsComplete(incl, j);
    }
    assert (set p | p in Pools(incl)) == (set x | x in incl :: Pool(x));
    PoolsDistinct(incl);
    DistinctCard(Pools(incl));
  }

  /** A sequence without repetitions has as many elements as its set. */
  lemma {:induction false} DistinctCard(s: seq<string>)
    requires forall a, b :: 0 <= a < b < |s| ==> s[a] != s[b]
    ensures |set x | x in s| == |s|
  {
    if s != [] {
      var init := Init(s);
      DistinctCard(init);
      assert s == init + [Last(s)];
      assert (set x | x in s) == (set x | x in init) + {Last(s)};
      assert Last(s) !in init;
    }
  }

  /** A component contributes exactly when its `count` is at least 1. */
  lemma {:induction false} IncludedMembers(comps: seq<Entry>, x: Entry)
    ensures x in Included(comps) <==> x in comps && x.1.count >= 1
  {
    if comps != [] {
      var init := Init(comps);
      assert comps == init + [Last(comps)];
      IncludedMembers(init, x);
    }
  }

  /** The included components keep the order of the components mapping: the `j`-th
      included component comes from a position of the mapping after that of the
      `(j - 1)`-th. */
  lemma {:induction false} IncludedOrdered(comps: seq<Entry>, j: nat)
    requires j < |Included(comps)|
    ensures exists i :: 0 <= i < |comps| && comps[i] == Included(comps)[j]
                        && Included(comps[..i]) == Included(comps)[..j]
  {
    var init := Init(comps);
    assert comps == init + [Last(comps)];
    assert init == comps[..|comps| - 1];
    var incl := Included(comps);
    if Last(comps).1.count < 1 || j < |Included(init)| {
      IncludedOrdered(init, j);
      var i :| 0 <= i < |init| && init[i] == Included(init)[j] && Included(init[..i]) == Included(init)[..j];
      assert comps[..i] == init[..i];
      assert Included(init) == incl[..|Included(init)|];
    } else {
      assert j == |Included(init)|;
      assert Included(comps[..|comps| - 1]) == incl[..j];
    }
  }

  /** Each bucket's subnet, security group and route-table association are
      contiguous and in that order, and each component's autoscaling group is
      immediately followed by its launch configuration. */
  lemma {:induction false} SlotsShape(incl: seq<Entry>)
    ensures forall p :: 0 <= p < |ComponentSlots(incl)| && ComponentSlots(incl)[p].SubnetOf? ==>
      p + 2 < |ComponentSlots(incl)|
      && ComponentSlots(incl)[p + 1] == SecurityGroupOf(ComponentSlots(incl)[p].bucket)
      && ComponentSlots(incl)[p + 2] == AssociationOf(ComponentSlots(incl)[p].bucket)
    ensures forall p :: 0 <= p < |ComponentSlots(incl)| && ComponentSlots(incl)[p].AutoscalingGroupOf? ==>
      p + 1 < |ComponentSlots(incl)|
      && ComponentSlots(incl)[p + 1] == LaunchConfigOf(ComponentSlots(incl)[p].component)
  {
    if incl != [] {
      var init, x := Init(incl), Last(incl);
      assert incl == init + [x];
      SlotsShape(init);
      SlotsSnoc(init, x);
      var before := ComponentSlots(init);
      var all := ComponentSlots(incl);
      forall p | 0 <= p < |before|
        ensures all[p] == before[p]
      {
      }
    }
  }

  /** The output holds a subnet for bucket `b` exactly when `b` is below the number
      of distinct pools. */
  lemma SubnetsPresent(incl: seq<Entry>, b: nat)
    ensures SubnetOf(b) in ComponentSlots(incl) <==> b < |Pools(incl)|
  {
    SlotsIn(incl);
    if b < |Pools(incl)| {
      BucketSlotsPresent(incl, b);
    }
  }

  /** Buckets are opened in the order of their index: the subnets of the output are
      numbered 0, 1, 2, … from left to right. */
  lemma {:induction false} SubnetsInOrder(incl: seq<Entry>)
    ensures forall p, q ::
              0 <= p < q < |ComponentSlots(incl)|
              && ComponentSlots(incl)[p].SubnetOf? && ComponentSlots(incl)[q].SubnetOf?
              ==> ComponentSlots(incl)[p].bucket < ComponentSlots(incl)[q].bucket
  {
    if incl != [] {
      var init, x := Init(incl), Last(incl);
      assert incl == init + [x];
      SubnetsInOrder(init);
      SlotsSnoc(init, x);
      SlotsIn(init);
      var before := ComponentSlots(init);
      var all := ComponentSlots(incl);
      forall p | 0 <= p < |before|
        ensures all[p] == before[p]
      {
      }
    }
  }

  /** Two included components share a subnet bucket exactly when they have the same
      subnet address pool. */
  lemma SameBucket(incl: seq<Entry>, j: nat, k: nat)
    requires j < |incl| && k < |incl|
    ensures Bucket(incl, j) == Bucket(incl, k) <==> Pool(incl[j]) == Pool(incl[k])
  {
    PoolsDistinct(incl);
  }

  // Fields of the documents.

  /** The VPC is named after the cluster and takes the cluster's address pool; the
      gateway and the route table are named after the cluster and refer to the VPC
      by name, and the route table routes through the gateway by name. */
  lemma HeadFields(ctx: Ctx, incl: seq<Entry>)
    requires ctx.vpcName == VpcName(ctx.cluster.clusterName)
    ensures Expected(ctx, incl, VpcSlot).spec.name == VpcName(ctx.cluster.clusterName)
    ensures Expected(ctx, incl, VpcSlot).spec.addressPool == ctx.cluster.vnetAddressPool
    ensures Expected(ctx, incl, GatewaySlot).spec.name == GatewayName(ctx.cluster.clusterName)
    ensures Expected(ctx, incl, GatewaySlot).spec.vpcName == Expected(ctx, incl, VpcSlot).spec.name
    ensures Expected(ctx, incl, RouteTableSlot).spec.name == RouteTableName(ctx.cluster.clusterName)
    ensures Expected(ctx, incl, RouteTableSlot).spec.vpcName == Expected(ctx, incl, VpcSlot).spec.name
    ensures Expected(ctx, incl, RouteTableSlot).spec.routeGatewayName
            == Expected(ctx, incl, GatewaySlot).spec.name
  {
  }

  /** The documents of bucket `b`: a subnet for the bucket's pool named with the
      index `b`, a security group for the same pool holding the default rules followed
      by the rules of the bucket's components, and a route-table association linking
      that subnet to the route table by name. */
  lemma BucketFields(ctx: Ctx, incl: seq<Entry>, b: nat)
    requires b < |Pools(incl)|
    requires ctx.vpcName == VpcName(ctx.cluster.clusterName)
    requires ctx.routeTableName == RouteTableName(ctx.cluster.clusterName)
    ensures var subnet := Expected(ctx, incl, SubnetOf(b)).spec;
      subnet.name == SubnetName(ctx.cluster.clusterName, b)
      && subnet.cidrBlock == Pools(incl)[b]
      && subnet.vpcName == Expected(ctx, incl, VpcSlot).spec.name
    ensures var group := Expected(ctx, incl, SecurityGroupOf(b)).spec;
      group.name == SecurityGroupName(ctx.cluster.clusterName, b)
      && group.cidrBlock == Expected(ctx, incl, SubnetOf(b)).spec.cidrBlock
      && group.vpcName == Expected(ctx, incl, VpcSlot).spec.name
      && group.rules == ctx.defaults.load(SECURITY_GROUP).rules + BucketRules(ctx, incl, Pools(incl)[b])
    ensures var association := Expected(ctx, incl, AssociationOf(b)).spec;
      association.name == AssociationName(ctx.cluster.clusterName, b)
      && association.subnetName == Expected(ctx, incl, SubnetOf(b)).spec.name
      && association.routeTableName == Expected(ctx, incl, RouteTableSlot).spec.name
  {
  }

  /** Distinct subnets of the output have distinct CIDR blocks and distinct names. */
  lemma SubnetsDistinct(ctx: Ctx, incl: seq<Entry>)
    ensures forall p, q ::
              0 <= p < q < |ComponentSlots(incl)|
              && ComponentSlots(incl)[p].SubnetOf? && ComponentSlots(incl)[q].SubnetOf?
              ==> SlotIn(incl, ComponentSlots(incl)[p]) && SlotIn(incl, ComponentSlots(incl)[q])
                  && Expected(ctx, incl, ComponentSlots(incl)[p]).spec.cidrBlock
                     != Expected(ctx, incl, ComponentSlots(incl)[q]).spec.cidrBlock
                  && Expected(ctx, incl, ComponentSlots(incl)[p]).spec.name
                     != Expected(ctx, incl, ComponentSlots(incl)[q]).spec.name
  {
    var slots := ComponentSlots(incl);
    SlotsIn(incl);
    SubnetsInOrder(incl);
    PoolsDistinct(incl);
    forall p, q | 0 <= p < q < |slots| && slots[p].SubnetOf? && slots[q].SubnetOf?
      ensures Expected(ctx, incl, slots[p]).spec.name != Expected(ctx, incl, slots[q]).spec.name
    {
      if Expected(ctx, incl, slots[p]).spec.name == Expected(ctx, incl, slots[q]).spec.name {
        BucketNamesInjective(ctx.cluster.clusterName, slots[p].bucket, slots[q].bucket);
      }
    }
  }

  /** The component whose machine document the autoscaling group of component `j`
      ends up as is `j` itself: its machine is a merged default of its own, or no
      later component resolves to the same user document. */
  predicate LastOnMachine(ctx: Ctx, incl: seq<Entry>, j: nat)
    requires j < |incl|
  {
    Source(ctx, incl[j]).Merged?
    || forall k :: j < k < |incl| ==> Source(ctx, incl[k]) != Source(ctx, incl[j])
  }

  /** When component `j` is the last to write the user document `u`, the document
      ends with `j`'s autoscaling-group name, count and subnet. */
  lemma {:induction false} UserFinalLast(ctx: Ctx, incl: seq<Entry>, u: nat, j: nat)
    requires u < |ctx.userInput| && j < |incl| && Source(ctx, incl[j]) == UserEntry(u)
    requires forall k :: j < k < |incl| ==> Source(ctx, incl[k]) != UserEntry(u)
    ensures UserFinal(ctx, incl, u).spec.name == AutoscalingGroupName(ctx.cluster.clusterName, incl[j].0)
    ensures UserFinal(ctx, incl, u).spec.count == incl[j].1.count
    ensures UserFinal(ctx, incl, u).spec.subnet == SubnetName(ctx.cluster.clusterName, Bucket(incl, j))
  {
    var init, x := Init(incl), Last(incl);
    assert incl == init + [x];
    BucketSnoc(init, x);
    if j < |init| {
      assert init[j] == incl[j];
      UserFinalLast(ctx, init, u, j);
    }
  }

  /** The autoscaling group of component `j`, when `j` is the last component on its
      machine document, carries `j`'s name, count and bucket subnet name. */
  lemma AutoscalingGroupFields(ctx: Ctx, incl: seq<Entry>, j: nat)
    requires j < |incl| && LastOnMachine(ctx, incl, j)
    ensures var asg := Expected(ctx, incl, AutoscalingGroupOf(j)).spec;
      asg.name == AutoscalingGroupName(ctx.cluster.clusterName, incl[j].0)
      && asg.count == incl[j].1.count
      && Bucket(incl, j) < |Pools(incl)|
      && asg.subnet == Expected(ctx, incl, SubnetOf(Bucket(incl, j))).spec.name
  {
    if Source(ctx, incl[j]).UserEntry? {
      UserFinalLast(ctx, incl, Source(ctx, incl[j]).index, j);
    }
  }

  /** The feature tags of a sequence of component keys. */
  function FeatureTags(keys: seq<string>): (tags: seq<Tag>)
    ensures |tags| == |keys|
    ensures forall i :: 0 <= i < |keys| ==> tags[i] == FeatureTag(keys[i])
  {
    if keys == [] then [] else FeatureTags(keys[..|keys| - 1]) + [FeatureTag(keys[|keys| - 1])]
  }

  /** The keys of the included components whose machine is the user document `u`, in
      mapping order. */
  function MachineUsers(ctx: Ctx, incl: seq<Entry>, u: nat): seq<string> {
    if incl == [] then []
    else if Source(ctx, Last(incl)) == UserEntry(u) then MachineUsers(ctx, Init(incl), u) + [Last(incl).0]
    else MachineUsers(ctx, Init(incl), u)
  }

  /** A user document that serves as machine for several components keeps its own
      tags followed by one feature tag per such component, in mapping order. */
  lemma {:induction false} UserFinalTags(ctx: Ctx, incl: seq<Entry>, u: nat)
    requires u < |ctx.userInput|
    ensures UserFinal(ctx, incl, u).spec.tags == ctx.userInput[u].spec.tags + FeatureTags(MachineUsers(ctx, incl, u))
  {
    if incl != [] {
      var init := Init(incl);
      UserFinalTags(ctx, init, u);
      var keys := MachineUsers(ctx, init, u);
      if Source(ctx, Last(incl)) == UserEntry(u) {
        assert (keys + [Last(incl).0])[..|keys|] == keys;
      }
    }
  }

  /** The autoscaling group made from a merged default has the default's tags and
      one feature tag, its component's. */
  lemma MergedTags(ctx: Ctx, incl: seq<Entry>, j: nat)
    requires j < |incl| && Source(ctx, incl[j]).Merged?
    ensures Expected(ctx, incl, AutoscalingGroupOf(j)).spec.tags == VmSpec(ctx, incl[j]).tags + [FeatureTag(incl[j].0)]
  {
  }

  /** The launch configuration of component `j` is named after the component, copies
      the image and the size of its autoscaling group, and names the security group
      of its bucket. */
  lemma LaunchConfigFields(ctx: Ctx, incl: seq<Entry>, j: nat)
    requires j < |incl|
    ensures var lc := Expected(ctx, incl, LaunchConfigOf(j)).spec;
      lc.name == LaunchConfigName(ctx.cluster.clusterName, incl[j].0)
      && lc.imageId == Expected(ctx, incl, AutoscalingGroupOf(j)).spec.imageId
      && lc.size == Expected(ctx, incl, AutoscalingGroupOf(j)).spec.size
      && Bucket(incl, j) < |Pools(incl)|
      && lc.securityGroups == [Expected(ctx, incl, SecurityGroupOf(Bucket(incl, j))).spec.name]
  {
  }

  // A worked example.

  /** Cluster `Demo` with one component `web` (count 2, pool `10.0.1.0/24`): the
      output is the VPC, the gateway, the route table, bucket 0's three documents,
      then `web`'s autoscaling group and launch configuration, under these names. */
  lemma DemoCluster()
    ensures var incl := [("web", Component("small", 2, "10.0.1.0/24"))];
      Pools(incl) == ["10.0.1.0/24"]
      && Layout(incl) == [VpcSlot, GatewaySlot, RouteTableSlot,
                          SubnetOf(0), SecurityGroupOf(0), AssociationOf(0),
                          AutoscalingGroupOf(0), LaunchConfigOf(0)]
    ensures VpcName("Demo") == "demovpc"
    ensures GatewayName("Demo") == "aws-internet-gateway-demo"
    ensures RouteTableName("Demo") == "aws-route-table-demo"
    ensures SubnetName("Demo", 0) == "aws-subnet-demo-0"
    ensures SecurityGroupName("Demo", 0) == "aws-security-group-demo-0"
    ensures AssociationName("Demo", 0) == "aws-route-association-demo-0"
    ensures AutoscalingGroupName("Demo", "web") == "aws-asg-demoweb"
    ensures LaunchConfigName("Demo", "web") == "aws-launch-config-demoweb"
  {
    var incl := [("web", Component("small", 2, "10.0.1.0/24"))];
    assert Init(incl) == [] && Last(incl) == incl[0];
    assert Lower("Demo") == "demo";
  }
}
