/** A closed-form description of what one build produces, written per output slot
    rather than per loop step: which components are included, which subnet buckets
    exist, the order of the output, and the final value of every document in it. The
    builder's loop is proved to produce exactly this. */
module Plan {
  import opened Wrappers
  import opened Strings
  import opened Configs
  import opened Lookup

  /** Everything a build reads: the cluster model, the user's documents, the defaults
      store, and the names of the VPC and route table that the component resources
      refer to. */
  datatype Ctx = Ctx(
    cluster: Cluster,
    userInput: seq<Config>,
    defaults: Defaults,
    vpcName: string,
    routeTableName: string)

  function Last<T>(s: seq<T>): T
    requires s != []
  {
    s[|s| - 1]
  }

  function Init<T>(s: seq<T>): seq<T>
    requires s != []
  {
    s[..|s| - 1]
  }

  lemma Snoc<T>(s: seq<T>, x: T)
    ensures Init(s + [x]) == s && Last(s + [x]) == x
  {
    assert (s + [x])[..|s|] == s;
  }

  function Pool(x: Entry): string {
    x.1.subnetAddressPool
  }

  /** The components that get resources: those with `count >= 1`, in mapping order. */
  function Included(comps: seq<Entry>): (r: seq<Entry>)
    ensures |r| <= |comps|
  {
    if comps == [] then []
    else if Last(comps).1.count < 1 then Included(Init(comps))
    else Included(Init(comps)) + [Last(comps)]
  }

  /** The distinct subnet address pools of the included components, in first-seen
      order: one subnet bucket each. */
  function Pools(incl: seq<Entry>): (r: seq<string>)
    ensures |r| <= |incl|
  {
    if incl == [] then []
    else
      var init := Pools(Init(incl));
      if Pool(Last(incl)) in init then init else init + [Pool(Last(incl))]
  }

  /** Every included component's pool has a bucket. */
  lemma {:induction false} PoolsComplete(incl: seq<Entry>, j: nat)
    requires j < |incl|
    ensures Pool(incl[j]) in Pools(incl)
  {
    var init := Init(incl);
    if j < |init| {
      PoolsComplete(init, j);
      assert incl[j] == init[j];
    }
  }

  /** Every bucket's pool is the pool of some included component. */
  lemma {:induction false} PoolsSound(incl: seq<Entry>, p: string)
    requires p in Pools(incl)
    ensures exists j :: 0 <= j < |incl| && Pool(incl[j]) == p
  {
    var init := Init(incl);
    if p in Pools(init) {
      PoolsSound(init, p);
      var j :| 0 <= j < |init| && Pool(init[j]) == p;
      assert incl[j] == init[j];
    } else {
      assert Pool(incl[|incl| - 1]) == p;
    }
  }

  /** No two buckets share a pool. */
  lemma {:induction false} PoolsDistinct(incl: seq<Entry>)
    ensures forall a, b :: 0 <= a < b < |Pools(incl)| ==> Pools(incl)[a] != Pools(incl)[b]
  {
    if incl != [] {
      PoolsDistinct(Init(incl));
    }
  }

  /** The position of the first occurrence of `x` in `s`. */
  function IndexOf(s: seq<string>, x: string): (i: nat)
    requires x in s
    ensures i < |s| && s[i] == x
    ensures forall k :: 0 <= k < i ==> s[k] != x
  {
    if s[0] == x then 0 else 1 + IndexOf(s[1..], x)
  }

  /** The bucket index of the included component at `j`. */
  function Bucket(incl: seq<Entry>, j: nat): (b: nat)
    requires j < |incl|
    ensures b < |Pools(incl)| && Pools(incl)[b] == Pool(incl[j])
  {
    PoolsComplete(incl, j);
    IndexOf(Pools(incl), Pool(incl[j]))
  }

  /** One position of the output, by the resource it holds: per-bucket resources carry
      the bucket index, per-component resources the index among included components. */
  datatype Slot =
    | VpcSlot
    | GatewaySlot
    | RouteTableSlot
    | SubnetOf(bucket: nat)
    | SecurityGroupOf(bucket: nat)
    | AssociationOf(bucket: nat)
    | AutoscalingGroupOf(component: nat)
    | LaunchConfigOf(component: nat)

  predicate SlotIn(incl: seq<Entry>, s: Slot) {
    match s
    case SubnetOf(b) => b < |Pools(incl)|
    case SecurityGroupOf(b) => b < |Pools(incl)|
    case AssociationOf(b) => b < |Pools(incl)|
    case AutoscalingGroupOf(j) => j < |incl|
    case LaunchConfigOf(j) => j < |incl|
    case _ => true
  }

  function KindOf(s: Slot): string {
    match s
    case VpcSlot => VPC
    case GatewaySlot => INTERNET_GATEWAY
    case RouteTableSlot => ROUTE_TABLE
    case SubnetOf(_) => SUBNET
    case SecurityGroupOf(_) => SECURITY_GROUP
    case AssociationOf(_) => ROUTE_TABLE_ASSOCIATION
    case AutoscalingGroupOf(_) => VIRTUAL_MACHINE
    case LaunchConfigOf(_) => LAUNCH_CONFIGURATION
  }

  /** The three per-bucket slots, in the order they are appended. */
  function Triple(b: nat): seq<Slot> {
    [SubnetOf(b), SecurityGroupOf(b), AssociationOf(b)]
  }

  /** The order of the per-component part of the output: for each included component,
      a new bucket's triple when its pool is new, then its autoscaling group and its
      launch configuration. */
  function ComponentSlots(incl: seq<Entry>): (r: seq<Slot>)
  {
    if incl == [] then []
    else
      var init := Init(incl);
      var j := |init|;
      var created := if Pool(Last(incl)) in Pools(init) then [] else Triple(|Pools(init)|);
      ComponentSlots(init) + created + [AutoscalingGroupOf(j), LaunchConfigOf(j)]
  }

  /** The order of the whole output. */
  function Layout(incl: seq<Entry>): (r: seq<Slot>)
  {
    [VpcSlot, GatewaySlot, RouteTableSlot] + ComponentSlots(incl)
  }

  /** Every slot of the per-component part of the output belongs to the plan. */
  lemma {:induction false} SlotsIn(incl: seq<Entry>)
    ensures forall k :: 0 <= k < |ComponentSlots(incl)| ==> SlotIn(incl, ComponentSlots(incl)[k])
  {
    if incl != [] {
      var init, x := Init(incl), Last(incl);
      assert incl == init + [x];
      SlotsIn(init);
      SlotsSnoc(init, x);
      PoolsSnoc(init, x);
    }
  }

  /** Where the virtual-machine document of an included component comes from. */
  function Source(ctx: Ctx, x: Entry): VmSource {
    VirtualMachine(x.1, ctx.cluster, ctx.userInput, ctx.defaults)
  }

  /** The virtual-machine document a component starts from, before the builder
      writes to it. */
  function VmSpec(ctx: Ctx, x: Entry): Spec {
    match Source(ctx, x)
    case UserEntry(u) => ctx.userInput[u].spec
    case Merged(c) => c.spec
  }

  /** What the builder writes into a virtual-machine document to make it the
      autoscaling group of component `key`. */
  function AsgUpdate(s: Spec, clusterName: string, x: Entry, subnetName: string): Spec {
    s.(name := AutoscalingGroupName(clusterName, x.0),
       count := x.1.count,
       subnet := subnetName,
       tags := s.tags + [FeatureTag(x.0)])
  }

  /** The final value of the user's document at `u` once every included component has
      been processed: every component whose machine resolves to that document rewrites
      its name, count and subnet and appends one feature tag; the last one wins. */
  function UserFinal(ctx: Ctx, incl: seq<Entry>, u: nat): (c: Config)
    requires u < |ctx.userInput|
    ensures c.kind == ctx.userInput[u].kind && c.name == ctx.userInput[u].name
    ensures c.spec.securityRules == ctx.userInput[u].spec.securityRules
    ensures c.spec.imageId == ctx.userInput[u].spec.imageId
    ensures c.spec.size == ctx.userInput[u].spec.size
  {
    if incl == [] then ctx.userInput[u]
    else
      var prev := UserFinal(ctx, Init(incl), u);
      if Source(ctx, Last(incl)) == UserEntry(u) then
        var subnet := SubnetName(ctx.cluster.clusterName, Bucket(incl, |incl| - 1));
        prev.(spec := AsgUpdate(prev.spec, ctx.cluster.clusterName, Last(incl), subnet))
      else prev
  }

  /** The rules the components of the bucket with `pool` bring along, in order. */
  function BucketRules(ctx: Ctx, incl: seq<Entry>, pool: string): seq<Rule> {
    if incl == [] then []
    else if Pool(Last(incl)) == pool then BucketRules(ctx, Init(incl), pool) + VmSpec(ctx, Last(incl)).securityRules
    else BucketRules(ctx, Init(incl), pool)
  }

  /** The document at slot `s` of the output, as it stands when the build returns. */
  function Expected(ctx: Ctx, incl: seq<Entry>, s: Slot): (c: Config)
    requires SlotIn(incl, s)
    ensures c.kind == KindOf(s)
  {
    var cluster := ctx.cluster;
    var cn := cluster.clusterName;
    var d := ctx.defaults;
    match s
    case VpcSlot =>
      var t := LoadDefault(d, VPC);
      t.(spec := t.spec.(addressPool := cluster.vnetAddressPool, name := VpcName(cn)))
    case GatewaySlot =>
      var t := LoadDefault(d, INTERNET_GATEWAY);
      t.(spec := t.spec.(name := GatewayName(cn), vpcName := ctx.vpcName))
    case RouteTableSlot =>
      var t := LoadDefault(d, ROUTE_TABLE);
      t.(spec := t.spec.(name := RouteTableName(cn), vpcName := ctx.vpcName,
                         routeGatewayName := GatewayName(cn)))
    case SubnetOf(b) =>
      var t := LoadDefault(d, SUBNET);
      t.(spec := t.spec.(vpcName := ctx.vpcName, cidrBlock := Pools(incl)[b],
                         name := SubnetName(cn, b)))
    case SecurityGroupOf(b) =>
      var t := LoadDefault(d, SECURITY_GROUP);
      var pool := Pools(incl)[b];
      t.(spec := t.spec.(name := SecurityGroupName(cn, b), vpcName := ctx.vpcName,
                         cidrBlock := pool, rules := t.spec.rules + BucketRules(ctx, incl, pool)))
    case AssociationOf(b) =>
      var t := LoadDefault(d, ROUTE_TABLE_ASSOCIATION);
      t.(spec := t.spec.(name := AssociationName(cn, b), subnetName := SubnetName(cn, b),
                         routeTableName := ctx.routeTableName))
    case AutoscalingGroupOf(j) =>
      (match Source(ctx, incl[j])
       case UserEntry(u) => UserFinal(ctx, incl, u)
       case Merged(c) => c.(spec := AsgUpdate(c.spec, cn, incl[j], SubnetName(cn, Bucket(incl, j)))))
    case LaunchConfigOf(j) =>
      var t := LoadDefault(d, LAUNCH_CONFIGURATION);
      var vm := VmSpec(ctx, incl[j]);
      t.(spec := t.spec.(name := LaunchConfigName(cn, incl[j].0), imageId := vm.imageId,
                         size := vm.size, securityGroups := [SecurityGroupName(cn, Bucket(incl, j))]))
  }

  // How the plan grows by one component; the builder's loop invariant is carried
  // across an iteration by these.

  lemma IncludedSnoc(comps: seq<Entry>, i: nat)
    requires i < |comps|
    ensures Included(comps[..i + 1])
      == if comps[i].1.count < 1 then Included(comps[..i]) else Included(comps[..i]) + [comps[i]]
  {
    assert Init(comps[..i + 1]) == comps[..i];
  }

  lemma PoolsSnoc(incl: seq<Entry>, x: Entry)
    ensures Pools(incl + [x])
      == if Pool(x) in Pools(incl) then Pools(incl) else Pools(incl) + [Pool(x)]
  {
    Snoc(incl, x);
  }

  lemma SlotsSnoc(incl: seq<Entry>, x: Entry)
    ensures ComponentSlots(incl + [x])
      == ComponentSlots(incl)
         + (if Pool(x) in Pools(incl) then [] else Triple(|Pools(incl)|))
         + [AutoscalingGroupOf(|incl|), LaunchConfigOf(|incl|)]
  {
    Snoc(incl, x);
  }

  lemma IndexOfExtend(s: seq<string>, t: seq<string>, x: string)
    requires x in s
    ensures IndexOf(s + t, x) == IndexOf(s, x)
  {
    var i, k := IndexOf(s, x), IndexOf(s + t, x);
    assert (s + t)[i] == x;
  }

  lemma BucketSnoc(incl: seq<Entry>, x: Entry)
    ensures forall j :: 0 <= j < |incl| ==> Bucket(incl + [x], j) == Bucket(incl, j)
    ensures Bucket(incl + [x], |incl|)
      == if Pool(x) in Pools(incl) then IndexOf(Pools(incl), Pool(x)) else |Pools(incl)|
  {
    PoolsSnoc(incl, x);
    var pools := Pools(incl);
    var ext := if Pool(x) in pools then [] else [Pool(x)];
    assert Pools(incl + [x]) == pools + ext;
    forall j | 0 <= j < |incl|
      ensures Bucket(incl + [x], j) == Bucket(incl, j)
    {
      assert (incl + [x])[j] == incl[j];
      PoolsComplete(incl, j);
      IndexOfExtend(pools, ext, Pool(incl[j]));
    }
    if Pool(x) in pools {
      IndexOfExtend(pools, ext, Pool(x));
    } else {
      var k := IndexOf(pools + ext, Pool(x));
      assert (pools + ext)[|pools|] == Pool(x);
    }
  }

  lemma UserFinalSnoc(ctx: Ctx, incl: seq<Entry>, x: Entry, u: nat)
    requires u < |ctx.userInput|
    ensures UserFinal(ctx, incl + [x], u)
      == if Source(ctx, x) == UserEntry(u) then
           var prev := UserFinal(ctx, incl, u);
           var subnet := SubnetName(ctx.cluster.clusterName, Bucket(incl + [x], |incl|));
           prev.(spec := AsgUpdate(prev.spec, ctx.cluster.clusterName, x, subnet))
         else UserFinal(ctx, incl, u)
  {
    Snoc(incl, x);
  }

  lemma BucketRulesSnoc(ctx: Ctx, incl: seq<Entry>, x: Entry, pool: string)
    ensures BucketRules(ctx, incl + [x], pool)
      == if Pool(x) == pool then BucketRules(ctx, incl, pool) + VmSpec(ctx, x).securityRules
         else BucketRules(ctx, incl, pool)
  {
    Snoc(incl, x);
  }

  /** Including one more component adds that component's rules to the security group
      of its bucket and leaves the other security groups alone. */
  lemma ExpectedSnocSecurityGroup(ctx: Ctx, incl: seq<Entry>, x: Entry, b: nat)
    requires b < |Pools(incl)|
    ensures SlotIn(incl + [x], SecurityGroupOf(b))
    ensures Expected(ctx, incl + [x], SecurityGroupOf(b))
      == var e := Expected(ctx, incl, SecurityGroupOf(b));
         if Pools(incl)[b] == Pool(x) then
           e.(spec := e.spec.(rules := e.spec.rules + VmSpec(ctx, x).securityRules))
         else e
  {
    PoolsSnoc(incl, x);
    assert Pools(incl + [x])[b] == Pools(incl)[b];
    BucketRulesSnoc(ctx, incl, x, Pools(incl)[b]);
  }

  /** Including one more component rewrites an earlier autoscaling group only when
      both resolve to the same user document. */
  lemma ExpectedSnocAutoscalingGroup(ctx: Ctx, incl: seq<Entry>, x: Entry, j: nat)
    requires j < |incl|
    ensures SlotIn(incl + [x], AutoscalingGroupOf(j))
    ensures Expected(ctx, incl + [x], AutoscalingGroupOf(j))
      == if Source(ctx, incl[j]).UserEntry? then UserFinal(ctx, incl + [x], Source(ctx, incl[j]).index)
         else Expected(ctx, incl, AutoscalingGroupOf(j))
  {
    assert (incl + [x])[j] == incl[j];
    BucketSnoc(incl, x);
  }

  /** Including one more component leaves every other earlier slot as it was. */
  lemma ExpectedSnocOther(ctx: Ctx, incl: seq<Entry>, x: Entry, s: Slot)
    requires SlotIn(incl, s) && !s.SecurityGroupOf? && !s.AutoscalingGroupOf?
    ensures SlotIn(incl + [x], s)
    ensures Expected(ctx, incl + [x], s) == Expected(ctx, incl, s)
  {
    PoolsSnoc(incl, x);
    match s
    case SubnetOf(b) =>
      assert Pools(incl + [x])[b] == Pools(incl)[b];
    case AssociationOf(b) =>
    case LaunchConfigOf(j) =>
      assert (incl + [x])[j] == incl[j];
      BucketSnoc(incl, x);
    case _ =>
  }

  /** Every bucket of the plan has its subnet and its security group in the
      per-component part of the output. */
  lemma {:induction false} BucketSlotsPresent(incl: seq<Entry>, b: nat)
    requires b < |Pools(incl)|
    ensures SubnetOf(b) in ComponentSlots(incl)
    ensures SecurityGroupOf(b) in ComponentSlots(incl)
  {
    var init, x := Init(incl), Last(incl);
    assert incl == init + [x];
    SlotsSnoc(init, x);
    PoolsSnoc(init, x);
    var before := ComponentSlots(init);
    var created := if Pool(x) in Pools(init) then [] else Triple(|Pools(init)|);
    var tail: seq<Slot> := [AutoscalingGroupOf(|init|), LaunchConfigOf(|init|)];
    assert ComponentSlots(incl) == before + created + tail;
    if b < |Pools(init)| {
      BucketSlotsPresent(init, b);
      var p :| 0 <= p < |before| && before[p] == SubnetOf(b);
      var q :| 0 <= q < |before| && before[q] == SecurityGroupOf(b);
      assert ComponentSlots(incl)[p] == SubnetOf(b);
      assert ComponentSlots(incl)[q] == SecurityGroupOf(b);
    } else {
      assert created == Triple(b);
      assert ComponentSlots(incl)[|before|] == SubnetOf(b);
      assert ComponentSlots(incl)[|before| + 1] == SecurityGroupOf(b);
    }
  }

  /** The user document an output slot shares with other slots, if any: only an
      autoscaling group whose machine resolves to a user document is not a fresh
      object of its own. */
  function SharedEntry(ctx: Ctx, incl: seq<Entry>, s: Slot): (r: Option<nat>)
    ensures r.Some? ==> r.value < |ctx.userInput|
  {
    if s.AutoscalingGroupOf? && s.component < |incl| && Source(ctx, incl[s.component]).UserEntry? then
      Some(Source(ctx, incl[s.component]).index)
    else None
  }

  lemma SharedEntrySnoc(ctx: Ctx, incl: seq<Entry>, x: Entry, s: Slot)
    requires SlotIn(incl, s)
    ensures SharedEntry(ctx, incl + [x], s) == SharedEntry(ctx, incl, s)
  {
    if s.AutoscalingGroupOf? {
      assert (incl + [x])[s.component] == incl[s.component];
    }
  }

  /** A pool no included component uses collects no rules. */
  lemma {:induction false} BucketRulesUnused(ctx: Ctx, incl: seq<Entry>, pool: string)
    requires pool !in Pools(incl)
    ensures BucketRules(ctx, incl, pool) == []
  {
    if incl != [] {
      PoolsSnoc(Init(incl), Last(incl));
      assert incl == Init(incl) + [Last(incl)];
      BucketRulesUnused(ctx, Init(incl), pool);
    }
  }

  /** No slot occurs twice in the output. */
  lemma {:induction false} SlotsDistinct(incl: seq<Entry>)
    ensures forall p, q :: 0 <= p < q < |ComponentSlots(incl)| ==> ComponentSlots(incl)[p] != ComponentSlots(incl)[q]
  {
    if incl != [] {
      var init, x := Init(incl), Last(incl);
      assert incl == init + [x];
      SlotsDistinct(init);
      SlotsSnoc(init, x);
      SlotsIn(init);
    }
  }

  /** The components included from a prefix of the mapping are a prefix of those
      included from the whole mapping. */
  lemma {:induction false} IncludedPrefix(comps: seq<Entry>, i: nat)
    requires i <= |comps|
    ensures Included(comps[..i]) <= Included(comps)
    decreases |comps| - i
  {
    if i < |comps| {
      IncludedPrefix(comps, i + 1);
      IncludedSnoc(comps, i);
      assert comps[..|comps|] == comps;
    } else {
      assert comps[..i] == comps;
    }
  }
}
