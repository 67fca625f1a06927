# AWS infrastructure configuration builder, in Dafny

This project models `AWSConfigBuilder.build` of the epicli engine. From a cluster model and the user's configuration documents, `build` produces the ordered list of AWS resource documents for the cluster:
- first, the VPC, the internet gateway and the route table;
- then, for each component with `count >= 1`, in mapping order:
  - when the component's `subnet_address_pool` has no bucket yet, a new subnet, security group and route-table association, numbered by the counter `subnet_index`;
  - then the component's autoscaling group and launch configuration.

The lookups `get_config_or_default` and `get_virtual_machine` are first-match searches over the user's documents.

The builder works by mutation. Documents are dictionaries written field by field. The security group of a bucket is already in the output list when later components of the same bucket append their rules to it. A user's virtual-machine document is rewritten in place, once for every component that names it. The model therefore keeps every document in a store (`seq<Config>`) and the output as references into it (`seq<Ref>`):
- the user's documents are the first entries of the store;
- a fresh document is appended to the store;
- an in-place write replaces one entry.

Every output reference that denotes the same document sees the same writes.

The methods follow the loop of the source:
- `OpenBucket`, `AttachComponent`, `AddToNewBucket`, `AddToBucket`, `AddComponent` and `NextComponent` model one iteration;
- `AutoscalingGroupsConfigs` is the loop itself;
- `Build` is `build`.

Each method is proved against `Plan`, a closed-form description of the output. `Plan` has:
- `Included`, the components that get resources;
- `Pools`, the bucket pools in first-seen order;
- `Layout`, the order of the output, slot by slot;
- `Expected`, the final value of every slot's document;
- `UserFinal`, the final value of every user document.

The central relation is `Realizes`. It says three things:
- every output reference holds its slot's document;
- the user's documents hold their final values;
- references are shared only where one user machine document serves several components.

`PlanProperties` proves what the plan promises: the length, the order, the bucket numbering, the distinct CIDR blocks, and the fields of each kind of document.

`get_config_or_default` has no `return` on the path where the user supplied a document of the requested kind, so it returns `None`. The builder's next write into that value then fails. The model keeps this behaviour:
- `Lookup.ConfigOrDefault` returns `None` in that case;
- `Build` ends in `Failure(NoneConfig(kind))` for the first requested kind the user supplied, in the order in which `build` asks for the kinds.

Three behaviours of the code worth knowing:
- A user document of a requested kind does not override the default; the build fails, as described above.
- A new bucket's subnet, security group and association are not grouped ahead of all components. They appear just before the autoscaling group of the component that opens the bucket.
- The rules appended to a bucket's security group come from the machine document's `specification.security.rules`, not from the component entry.

## Model

| member | source | states |
|---|---|---|
| Lookup.SelectFirst | core/src/epicli/cli/engine/aws/AWSConfigBuilder.py:101 | the first position whose element satisfies the predicate, or none when no element does |
| Lookup.ConfigOrDefault | core/src/epicli/cli/engine/aws/AWSConfigBuilder.py:99-103 | `None` exactly when the user supplied a document of the kind; otherwise the provider default of that kind |
| Lookup.VirtualMachine | core/src/epicli/cli/engine/aws/AWSConfigBuilder.py:105-112 | the first user virtual-machine document named by the selector; the merged default `merge(provider, kind, selector)` only when there is none |
| Strings.Lower | core/src/epicli/cli/engine/aws/AWSConfigBuilder.py:26 | same length, each character lower-cased (ASCII) |
| Strings.NatToString | core/src/epicli/cli/engine/aws/AWSConfigBuilder.py:43 | a non-empty string of decimal digits whose value (`Strings.DecimalValue`, read most significant first) is the index, with no leading zero |
| Strings.NatToStringInjective | core/src/epicli/cli/engine/aws/AWSConfigBuilder.py:43 | distinct indexes print differently |
| Configs.BucketNamesInjective | core/src/epicli/cli/engine/aws/AWSConfigBuilder.py:43-47 | equal subnet, security-group or association names imply equal bucket indexes |
| AwsConfigBuilder.Resolve | core/src/epicli/cli/engine/aws/AWSConfigBuilder.py:100-103 | the lookup fails exactly when the user supplied the kind, with that kind as the error; otherwise it gives the default document |
| AwsConfigBuilder.VpcConfig | core/src/epicli/cli/engine/aws/AWSConfigBuilder.py:23-27 | fails exactly when the user supplied a VPC; otherwise it is the default VPC with `address_pool` the cluster's pool and `name` the lower-cased cluster name plus `vpc`, every other field unchanged |
| AwsConfigBuilder.InternetGateway | core/src/epicli/cli/engine/aws/AWSConfigBuilder.py:85-89 | fails exactly when the user supplied a gateway; otherwise it is named `aws-internet-gateway-<cluster>` and refers to the VPC's name, every other field as in the default |
| AwsConfigBuilder.RoutingTable | core/src/epicli/cli/engine/aws/AWSConfigBuilder.py:91-97 | fails exactly when the user supplied a route table; otherwise it is named `aws-route-table-<cluster>` and refers to the VPC's and the gateway's names, every other field as in the default |
| AwsConfigBuilder.RouteTableAssociation | core/src/epicli/cli/engine/aws/AWSConfigBuilder.py:76-83 | fails exactly when the user supplied an association; otherwise it is named with the bucket index and refers to the subnet's and the route table's names |
| AwsConfigBuilder.NewSubnet | core/src/epicli/cli/engine/aws/AWSConfigBuilder.py:40-43 | fails exactly when the user supplied a subnet; otherwise it has the pool as CIDR block, the VPC's name, and the name `aws-subnet-<cluster>-<index>` |
| AwsConfigBuilder.NewSecurityGroup | core/src/epicli/cli/engine/aws/AWSConfigBuilder.py:46-49 | fails exactly when the user supplied a security group; otherwise it has the subnet's CIDR block, the VPC's name, and the name `aws-security-group-<cluster>-<index>` |
| AwsConfigBuilder.AsAutoscalingGroup | core/src/epicli/cli/engine/aws/AWSConfigBuilder.py:57-61 | the machine document with the name `aws-asg-<cluster><key>`, the component's count, the subnet's name and exactly one more tag `feature: key`; nothing else changes |
| AwsConfigBuilder.WithComponentRules | core/src/epicli/cli/engine/aws/AWSConfigBuilder.py:63 | the old rules followed by the autoscaling group's security rules, without de-duplication; nothing else changes |
| AwsConfigBuilder.LaunchConfiguration | core/src/epicli/cli/engine/aws/AWSConfigBuilder.py:65-69 | fails exactly when the user supplied a launch configuration; otherwise it is named `aws-launch-config-<cluster><key>`, copies the group's image and size, and lists only the security group's name |
| AwsConfigBuilder.FindInResult | core/src/epicli/cli/engine/aws/AWSConfigBuilder.py:36-37 | the first output position whose document has the kind and the pool as CIDR block, or none when no position does |
| AwsConfigBuilder.LocateBucket | core/src/epicli/cli/engine/aws/AWSConfigBuilder.py:36-39 | against an output that realises the plan, the subnet scan and the security-group scan succeed exactly when the pool already has a bucket, and they find that bucket's subnet and security group |
| AwsConfigBuilder.OpenBucket | core/src/epicli/cli/engine/aws/AWSConfigBuilder.py:39-55 | fails exactly when the user supplied a subnet, security group or association, with the first of them as the error; otherwise the three new documents are appended to the store in that order |
| AwsConfigBuilder.AttachComponent | core/src/epicli/cli/engine/aws/AWSConfigBuilder.py:57-72 | fails exactly when the user supplied a launch configuration; otherwise the machine document becomes the autoscaling group (in place for a user document, appended for a merged default), the security group gains its rules, and a new launch configuration is appended; nothing else in the store changes |
| AwsConfigBuilder.KeepsEarlierSlot | core/src/epicli/cli/engine/aws/AWSConfigBuilder.py:57-72 | an iteration leaves every earlier output document at its final value: only the bucket's security group and a shared user machine change, and they change exactly as the plan says |
| AwsConfigBuilder.RealizesSnoc | core/src/epicli/cli/engine/aws/AWSConfigBuilder.py:33-72 | an output realising the plan for the components so far, extended by one iteration's writes and appended documents, realises the plan with that component included |
| AwsConfigBuilder.AddToNewBucket | core/src/epicli/cli/engine/aws/AWSConfigBuilder.py:39-72 | for a pool without a bucket: fails exactly as the first included component fails; otherwise the plan is realised with the component included, `subnet_index` has grown by one, and the documents made before the loop are untouched |
| AwsConfigBuilder.AddToBucket | core/src/epicli/cli/engine/aws/AWSConfigBuilder.py:57-72 | for a pool with a bucket: fails exactly when the user supplied a launch configuration; otherwise the plan is realised with the component included and `subnet_index` is unchanged |
| AwsConfigBuilder.AddComponent | core/src/epicli/cli/engine/aws/AWSConfigBuilder.py:36-72 | the scans decide between a new bucket and the existing one; the failure is that of the kinds the branch asks for; on success the plan is realised with the component included and `subnet_index` equals the number of buckets |
| AwsConfigBuilder.NextComponent | core/src/epicli/cli/engine/aws/AWSConfigBuilder.py:33-72 | a component with `count < 1` changes nothing; any other is added as planned; failure happens only at the first included component |
| AwsConfigBuilder.AutoscalingGroupsConfigs | core/src/epicli/cli/engine/aws/AWSConfigBuilder.py:29-74 | fails exactly when some component is included and the first one fails; otherwise the output realises the plan for the included components, and the documents made before the loop are untouched |
| AwsConfigBuilder.HeadPlanned | core/src/epicli/cli/engine/aws/AWSConfigBuilder.py:9-17 | the VPC, gateway and route table that `build` makes first are the plan's head documents |
| AwsConfigBuilder.HeadComposed | core/src/epicli/cli/engine/aws/AWSConfigBuilder.py:9-21 | the three head documents followed by the loop's output realise the whole layout |
| AwsConfigBuilder.Build | core/src/epicli/cli/engine/aws/AWSConfigBuilder.py:9-21 | fails exactly when the user supplied one of the kinds asked for, with the first such kind as the error; otherwise the output realises the plan's layout (VPC, gateway, route table, then the component part) and has length 3 + 3·C + 2·N |
| Plan.PoolsDistinct | core/src/epicli/cli/engine/aws/AWSConfigBuilder.py:36-44 | no two buckets share a pool |
| Plan.PoolsSound | core/src/epicli/cli/engine/aws/AWSConfigBuilder.py:36-44 | every bucket's pool is the pool of some included component |
| Plan.IncludedPrefix | core/src/epicli/cli/engine/aws/AWSConfigBuilder.py:33-35 | the components included from a prefix of the mapping are a prefix of those included from the whole mapping |
| Plan.SlotsDistinct | core/src/epicli/cli/engine/aws/AWSConfigBuilder.py:33-72 | no slot occurs twice in the output |
| Plan.ExpectedSnocSecurityGroup | core/src/epicli/cli/engine/aws/AWSConfigBuilder.py:63 | one more component appends its machine's rules to its bucket's security group and leaves every other security group alone |
| Plan.ExpectedSnocOther | core/src/epicli/cli/engine/aws/AWSConfigBuilder.py:63 | one more component leaves every earlier subnet, association and launch configuration as it was |
| PlanProperties.LayoutLength | core/src/epicli/cli/engine/aws/AWSConfigBuilder.py:9-74 | the output has 3 + 3·C + 2·N documents, with C the number of buckets and N the included components |
| PlanProperties.PoolsCount | core/src/epicli/cli/engine/aws/AWSConfigBuilder.py:36-44 | the number of buckets C is the number of distinct pools among the included components |
| PlanProperties.IncludedMembers | core/src/epicli/cli/engine/aws/AWSConfigBuilder.py:33-35 | a component contributes exactly when its count is at least 1 |
| PlanProperties.IncludedOrdered | core/src/epicli/cli/engine/aws/AWSConfigBuilder.py:33 | included components keep the mapping's order |
| PlanProperties.SlotsShape | core/src/epicli/cli/engine/aws/AWSConfigBuilder.py:39-72 | a subnet is followed by its bucket's security group and association; an autoscaling group is followed by its component's launch configuration |
| PlanProperties.SubnetsPresent | core/src/epicli/cli/engine/aws/AWSConfigBuilder.py:39-55 | the output has a subnet numbered `b` exactly when `b` is below the number of buckets, which `PlanProperties.PoolsCount` equates with the number of distinct pools |
| PlanProperties.SubnetsInOrder | core/src/epicli/cli/engine/aws/AWSConfigBuilder.py:52-55 | subnet numbers increase from left to right |
| PlanProperties.SameBucket | core/src/epicli/cli/engine/aws/AWSConfigBuilder.py:36-37 | two components share a bucket exactly when their pools are equal |
| PlanProperties.HeadFields | core/src/epicli/cli/engine/aws/AWSConfigBuilder.py:85-97 | the VPC's name and pool; the gateway's and route table's names; both refer to the VPC's name; the route goes through the gateway's name |
| PlanProperties.BucketFields | core/src/epicli/cli/engine/aws/AWSConfigBuilder.py:40-53 | bucket `b`'s subnet, security group and association carry index `b` in their names and the pool as CIDR block, and the association refers to the subnet and the route table |
| PlanProperties.SubnetsDistinct | core/src/epicli/cli/engine/aws/AWSConfigBuilder.py:36-44 | distinct subnets of the output have distinct CIDR blocks and distinct names |
| PlanProperties.UserFinalLast | core/src/epicli/cli/engine/aws/AWSConfigBuilder.py:57-60 | a user machine document shared by several components keeps the name, count and subnet of the last of them |
| PlanProperties.AutoscalingGroupFields | core/src/epicli/cli/engine/aws/AWSConfigBuilder.py:57-60 | when the component is the last one on its machine document (`LastOnMachine`), its autoscaling group carries its name, its count and its bucket's subnet name; an earlier component that shares a user document shows the last one's values (`UserFinalLast`) |
| PlanProperties.UserFinalTags | core/src/epicli/cli/engine/aws/AWSConfigBuilder.py:61 | a shared user machine document keeps its tags followed by one feature tag per component using it, in order |
| PlanProperties.MergedTags | core/src/epicli/cli/engine/aws/AWSConfigBuilder.py:61 | an autoscaling group made from a merged provider default keeps the default's tags followed by exactly one feature tag, its component's |
| PlanProperties.LaunchConfigFields | core/src/epicli/cli/engine/aws/AWSConfigBuilder.py:65-69 | the launch configuration's name, its image and size equal to the autoscaling group's, and its only security group is the bucket's |
| PlanProperties.DemoCluster | core/src/epicli/cli/engine/aws/AWSConfigBuilder.py:9-74 | for cluster `Demo` with a single component `web`, the output order and every resource name |

## Left out

- `load_file_from_defaults` and `merge_with_defaults` (file reading and a foreign merge helper): they are the two functions of a `Defaults` parameter, and each call yields a fresh document.
- `select_first` (from `cli.helpers.list_helpers`) is modelled as the first-match search `Lookup.SelectFirst`.
- The `InfrastructureConfigBuilder` base class and the `model_constants` values are not part of this model. Documents have plain fields (`kind`, `name`, `specification`).
- Strings.Lower: lower-cases ASCII letters only; Python's Unicode case mapping is not modelled.
- Documents hold only the fields the builder reads or writes. A one-entry tag dictionary is a `Tag(key, value)`, and `route.gateway_name` is one field.
- A missing key in the cluster model (a Python `KeyError`) is not modelled; the cluster model is a total record.
- The failing write after `get_config_or_default` returns `None` is modelled as a build failure carrying the kind. Python's exception type and the partly filled documents it leaves behind are not modelled.
- Serialisation and provisioning of the result are outside this builder.

