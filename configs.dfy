/** The configuration documents the builder reads and writes, the cluster model it
    reads, the provider-default store it draws templates from, and the resource names
    it derives. */
module Configs {
  import opened Strings

  /** A firewall rule of a security group; the builder only copies rules around. */
  datatype Rule = Rule(attributes: map<string, string>)

  /** A one-entry tag dictionary such as `{'feature': 'kafka'}`. */
  datatype Tag = Tag(key: string, value: string)

  /** The `specification` part of a configuration document, reduced to the fields
      the builder reads or writes. `routeGatewayName` is `route.gateway_name` and
      `securityRules` is `security.rules`. */
  datatype Spec = Spec(
    name: string,
    addressPool: string,
    vpcName: string,
    cidrBlock: string,
    routeGatewayName: string,
    subnetName: string,
    routeTableName: string,
    count: int,
    subnet: string,
    tags: seq<Tag>,
    securityRules: seq<Rule>,
    rules: seq<Rule>,
    imageId: string,
    size: string,
    securityGroups: seq<string>)

  /** A configuration document: its `kind`, its top-level `name` and its
      `specification`. */
  datatype Config = Config(kind: string, name: string, spec: Spec)

  /** One entry of `specification.components`. */
  datatype Component = Component(machine: string, count: int, subnetAddressPool: string)

  /** A component key with its component, in the order of the components mapping. */
  type Entry = (string, Component)

  /** The cluster model: its provider, `specification.cloud.cluster_name`,
      `specification.cloud.vnet_address_pool` and `specification.components`. */
  datatype Cluster = Cluster(
    provider: string,
    clusterName: string,
    vnetAddressPool: string,
    components: seq<Entry>)

  /** The provider-default store. `load(kind)` is the `aws` default document of a
      kind; `merge(provider, kind, name)` is the default document of a kind merged
      with the named variant. Both hand out a fresh document on every call. */
  datatype Defaults = Defaults(
    load: string -> Spec,
    merge: (string, string, string) -> Spec)

  const VPC := "infrastructure/vpc"
  const INTERNET_GATEWAY := "infrastructure/internet-gateway"
  const ROUTE_TABLE := "infrastructure/route-table"
  const SUBNET := "infrastructure/subnet"
  const SECURITY_GROUP := "infrastructure/security-group"
  const ROUTE_TABLE_ASSOCIATION := "infrastructure/route-table-association"
  const LAUNCH_CONFIGURATION := "infrastructure/launch-configuration"
  const VIRTUAL_MACHINE := "infrastructure/virtual-machine"

  /** The name every default document carries. */
  const DEFAULT_NAME := "default"

  /** A fresh copy of the `aws` default document of `kind`. */
  function LoadDefault(d: Defaults, kind: string): (c: Config)
    ensures c.kind == kind && c.spec == d.load(kind)
  {
    Config(kind, DEFAULT_NAME, d.load(kind))
  }

  /** A fresh virtual-machine document: the default merged with variant `selector`. */
  function MergeDefault(d: Defaults, provider: string, selector: string): (c: Config)
    ensures c.kind == VIRTUAL_MACHINE && c.name == selector
    ensures c.spec == d.merge(provider, VIRTUAL_MACHINE, selector)
  {
    Config(VIRTUAL_MACHINE, selector, d.merge(provider, VIRTUAL_MACHINE, selector))
  }

  // Resource names. Each is a fixed prefix, the lower-cased cluster name and, for
  // per-bucket resources, `-` and the bucket index, or, for per-component
  // resources, the component key with no separator and no lower-casing.

  function VpcName(clusterName: string): string {
    Lower(clusterName) + "vpc"
  }

  function GatewayName(clusterName: string): string {
    "aws-internet-gateway-" + Lower(clusterName)
  }

  function RouteTableName(clusterName: string): string {
    "aws-route-table-" + Lower(clusterName)
  }

  function SubnetName(clusterName: string, index: nat): string {
    "aws-subnet-" + Lower(clusterName) + "-" + NatToString(index)
  }

  function SecurityGroupName(clusterName: string, index: nat): string {
    "aws-security-group-" + Lower(clusterName) + "-" + NatToString(index)
  }

  function AssociationName(clusterName: string, index: nat): string {
    "aws-route-association-" + Lower(clusterName) + "-" + NatToString(index)
  }

  function AutoscalingGroupName(clusterName: string, key: string): string {
    "aws-asg-" + Lower(clusterName) + key
  }

  function LaunchConfigName(clusterName: string, key: string): string {
    "aws-launch-config-" + Lower(clusterName) + key
  }

  /** The tag an autoscaling group receives for its component. */
  function FeatureTag(key: string): Tag {
    Tag("feature", key)
  }

  /** Per-bucket names are distinct for distinct bucket indexes. */
  lemma {:induction false} BucketNamesInjective(clusterName: string, i: nat, j: nat)
    requires SubnetName(clusterName, i) == SubnetName(clusterName, j)
      || SecurityGroupName(clusterName, i) == SecurityGroupName(clusterName, j)
      || AssociationName(clusterName, i) == AssociationName(clusterName, j)
    ensures i == j
  {
    var c := Lower(clusterName);
    if SubnetName(clusterName, i) == SubnetName(clusterName, j) {
      SamePrefixSameSuffix("aws-subnet-" + c + "-", NatToString(i), NatToString(j));
    } else if SecurityGroupName(clusterName, i) == SecurityGroupName(clusterName, j) {
      SamePrefixSameSuffix("aws-security-group-" + c + "-", NatToString(i), NatToString(j));
    } else {
      SamePrefixSameSuffix("aws-route-association-" + c + "-", NatToString(i), NatToString(j));
    }
    NatToStringInjective(i, j);
  }
}
