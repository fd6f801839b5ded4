# ec2_vpc_routetable, v2 provider — a Dafny model

This project models the decision logic of the Puppet provider `v2` for the
`ec2_vpc_routetable` resource type of puppetlabs-aws
(`lib/puppet/provider/ec2_vpc_routetable/v2.rb`), and proves properties of it.

The EC2 client is replaced by a deterministic view of one region's endpoint
(`Ec2.RegionView`). The view answers the `describe_*` calls: route tables,
VPCs by name tag, and internet gateways, VPN gateways, peering connections and
instances by name tag. An `Ec2.Client` object answers from that view and
records every call issued through it, lookups and mutations alike, in order.
The helpers the provider inherits from `PuppetX::Puppetlabs::Aws` are arbitrary
functions supplied by the caller (`AwsHelpers.Helpers`). So every property
holds whatever `name_from_tag`, `tags_for`, `gateway_name_from_id`,
`vpc_name_from_id` and `tags_for_resource` compute.

Modules, following the file's parts:

- `RouteTranslation`: `route_to_hash` and `route_table_to_hash`, pure functions
  from reported routes and tables to property hashes.
- `Snapshot`: `SnapshotOf`, the list of hashes `instances` builds across regions.
- `Resolution`: forward resolution of a gateway name. It holds a reference
  definition (`Resolve`) and the exact calls `create` issues (`RouteTrace`,
  `RoutesTrace`, `CreateTrace`), following the code's `found_*` flags.
- `RoundTrip`: forward and reverse resolution put together.
- `Ec2VpcRoutetableV2`: the provider itself.
  - The class `Provider` has the `@property_hash` field and the methods
    `Create` and `Destroy`. The predicate `Exists` models `exists?`.
  - `Resource` is a catalogue resource with its attached provider.
  - The imperative `Instances` and `Prefetch` are proved against the
    specification functions.
  - Create's loop over the routes (`AddRoutes`) and its body (`AddRoute`) are
    separate methods. This keeps each proof small.
- `Scenarios`: concrete cases of create and destroy on small fixed endpoints.

Behaviour of the code that the model keeps as written:

- `create` records only `ensure = present` in the property hash. It never
  stores the new table's id. So a later `destroy` on the same provider deletes
  whatever id the hash held before (`Provider.Create`, `Provider.Destroy`).
- The instance lookup may match while the first reservation's first instance
  has no network interface. Then `.first` yields nil and the next method call
  on it raises. The
  model gives this as the error `NoNetworkInterface`. By then the table
  already exists, is tagged, and has the routes issued before this one.
- When two discovered tables share a name and a region, `prefetch` binds the
  resource to the last one listed.

## Model

| member | source | states |
|---|---|---|
| `RouteTranslation.TargetId` | lib/puppet/provider/ec2_vpc_routetable/v2.rb:37-45 | the target id is the first present of gateway_id, vpc_peering_connection_id, network_interface_id, and nil exactly when all three are nil |
| `RouteTranslation.FirstPresent` | lib/puppet/provider/ec2_vpc_routetable/v2.rb:37-45 | reference for the priority choice: the result is nil iff every candidate is nil, else the first present candidate |
| `RouteTranslation.RouteToHash` | lib/puppet/provider/ec2_vpc_routetable/v2.rb:46-51 | a route is kept iff its state is `active` and its target id resolves to a name; a kept route is exactly its CIDR and that resolved name, never the raw id |
| `RouteTranslation.RouteHashes` | lib/puppet/provider/ec2_vpc_routetable/v2.rb:57-59 | the compacted routes of a table are never more than the reported routes |
| `RouteTranslation.RouteHashesAppend` | lib/puppet/provider/ec2_vpc_routetable/v2.rb:57-59 | translating a concatenation of routes gives the concatenation of the translations, so the original order is kept |
| `RouteTranslation.RouteHashesSingle` | lib/puppet/provider/ec2_vpc_routetable/v2.rb:57-59 | one route contributes its translation, or nothing when route_to_hash gives nil |
| `RouteTranslation.RouteHashesMembership` | lib/puppet/provider/ec2_vpc_routetable/v2.rb:57-59 | a route hash is reported iff some reported route translates to it |
| `RouteTranslation.RouteHashesDropsUnresolved` | lib/puppet/provider/ec2_vpc_routetable/v2.rb:57-59 | all routes survive iff every route is active with a named target; any inactive or unnamed route shortens the list |
| `RouteTranslation.RouteTableToHash` | lib/puppet/provider/ec2_vpc_routetable/v2.rb:54-69 | a table without a name tag maps to the empty hash and only such a table does; a named one carries its id, the VPC name, ensure present, the compacted routes, the region it was read in, and its tags |
| `Snapshot.RegionHashes` | lib/puppet/provider/ec2_vpc_routetable/v2.rb:14-19 | every hash kept from a region's listing is named, has ensure present and that region, and there are no more than the tables listed |
| `Snapshot.RegionHashesMembership` | lib/puppet/provider/ec2_vpc_routetable/v2.rb:15-17 | a hash is kept iff it is named and is the hash of one of the listed tables |
| `Snapshot.SnapshotOf` | lib/puppet/provider/ec2_vpc_routetable/v2.rb:10-24 | the snapshot `instances` returns: on success every entity is named, present and carries a region; on failure the error is a fetch error of the ec2_vpc_routetable type |
| `Snapshot.SnapshotSound` | lib/puppet/provider/ec2_vpc_routetable/v2.rb:10-24 | every entity of the snapshot is named, present, and is the hash of a table listed in the region it records |
| `Snapshot.SnapshotComplete` | lib/puppet/provider/ec2_vpc_routetable/v2.rb:10-24 | every named table of every region is in a successful snapshot |
| `Snapshot.SnapshotFailure` | lib/puppet/provider/ec2_vpc_routetable/v2.rb:12-22 | the snapshot fails iff some region's listing fails, and then with the fetch error (region, resource type, message) of the first such region |
| `Ec2VpcRoutetableV2.Instances` | lib/puppet/provider/ec2_vpc_routetable/v2.rb:10-24 | the region loop returns fresh providers whose hashes are exactly the snapshot, in order, or the snapshot's fetch error |
| `Ec2VpcRoutetableV2.RegionProviders` | lib/puppet/provider/ec2_vpc_routetable/v2.rb:14-19 | the table loop creates one fresh provider per named table, carrying that table's hash, in listing order |
| `Ec2VpcRoutetableV2.SnapshotStaysFailed` | lib/puppet/provider/ec2_vpc_routetable/v2.rb:20-22 | once a region fails, later regions do not change the error raised |
| `Ec2VpcRoutetableV2.Prefetch` | lib/puppet/provider/ec2_vpc_routetable/v2.rb:28-34 | after a successful listing each resource holds the provider `BoundProvider` picks; a failed listing leaves every resource's provider unchanged |
| `Ec2VpcRoutetableV2.BoundProvider` | lib/puppet/provider/ec2_vpc_routetable/v2.rb:29-32 | the provider a resource ends with after binding to the discovered providers in order: its own, or one of the discovered ones |
| `Ec2VpcRoutetableV2.BoundStep` | lib/puppet/provider/ec2_vpc_routetable/v2.rb:29-32 | binding one more discovered provider: it replaces the resource's provider iff it has the resource's name and an equal (present) region |
| `Ec2VpcRoutetableV2.BoundOnlyOnMatch` | lib/puppet/provider/ec2_vpc_routetable/v2.rb:29-32 | a resource is only ever given a discovered provider with its own name and an equal region |
| `Ec2VpcRoutetableV2.BoundWithoutMatch` | lib/puppet/provider/ec2_vpc_routetable/v2.rb:29-32 | a resource that no provider matches by name and region keeps its provider |
| `Ec2VpcRoutetableV2.BoundToLastMatch` | lib/puppet/provider/ec2_vpc_routetable/v2.rb:29-32 | a resource that some providers match ends bound to the last of them |
| `Resolution.Resolve` | lib/puppet/provider/ec2_vpc_routetable/v2.rb:99-125 | a gateway name resolves to an internet gateway if any has the name, else a VPN gateway, else a peering connection, else a live tagged instance, else nothing; the first object found of the winning kind |
| `Resolution.FirstInterface` | lib/puppet/provider/ec2_vpc_routetable/v2.rb:147-148 | the interface used is the first network interface of the first instance of the first reservation, and there is none when either list is empty |
| `Resolution.TargetOf` | lib/puppet/provider/ec2_vpc_routetable/v2.rb:126-153 | the target field of create_route: gateway_id exactly for an internet or VPN gateway, vpc_peering_connection_id exactly for a peering connection, network_interface_id exactly for an instance; no target iff nothing resolved or the instance has no interface |
| `Resolution.Lookups` | lib/puppet/provider/ec2_vpc_routetable/v2.rb:100-124 | the lookups for one gateway name: the internet gateway lookup first, one to four lookups, none of them a mutation, and only that one when an internet gateway matched |
| `Resolution.RouteTrace` | lib/puppet/provider/ec2_vpc_routetable/v2.rb:100-156 | one route's calls start with the internet gateway lookup and number at most five (four lookups and one create_route); it fails only with the missing network interface, right after the instance lookup |
| `Resolution.RoutesTrace` | lib/puppet/provider/ec2_vpc_routetable/v2.rb:99-157 | the only error the route loop raises is the missing network interface |
| `Resolution.RoutesTraceOnlyCreatesRoutes` | lib/puppet/provider/ec2_vpc_routetable/v2.rb:99-157 | the route loop's only mutations are create_route calls into the new table |
| `Resolution.CreateTrace` | lib/puppet/provider/ec2_vpc_routetable/v2.rb:76-159 | create's calls start with the VPC lookup; it fails with "Multiple VPCs" iff several VPCs match and with "No VPCs" iff none does, and then the lookup is its only call; with one VPC the next call creates the table on it; it succeeds only with one VPC and a tagging that succeeds within 5 tries |
| `Resolution.ErrorMessage` | lib/puppet/provider/ec2_vpc_routetable/v2.rb:86-87 | only the two VPC errors carry a message written in this file, and each message ends with the VPC name |
| `Resolution.LookupOrder` | lib/puppet/provider/ec2_vpc_routetable/v2.rb:99-124 | the internet gateway lookup always comes first; each later lookup is made iff every earlier one came back empty |
| `Resolution.RouteFollowsResolution` | lib/puppet/provider/ec2_vpc_routetable/v2.rb:126-156 | a route's only possible mutation is one create_route into the new table, for its CIDR, carrying the one target field of the resolution (gateway_id for both gateway kinds, vpc_peering_connection_id, network_interface_id); nothing is created when nothing resolves; the route fails iff the matched instance has no interface |
| `Resolution.RouteTraceCreations` | lib/puppet/provider/ec2_vpc_routetable/v2.rb:126-156 | a route that does not fail creates exactly one route when its name resolves to a target and none otherwise |
| `Resolution.RoutesTraceCreations` | lib/puppet/provider/ec2_vpc_routetable/v2.rb:99-157 | the routes issue, in order, one create_route per route that resolves to a target, and no others |
| `Resolution.RoutesTraceFailure` | lib/puppet/provider/ec2_vpc_routetable/v2.rb:99-157 | the route loop raises iff some desired route matches an instance without a network interface |
| `Resolution.RoutesTraceStopsAtFailure` | lib/puppet/provider/ec2_vpc_routetable/v2.rb:99-157 | once a route raises, no later route is tried |
| `Resolution.CreateVpcPrecondition` | lib/puppet/provider/ec2_vpc_routetable/v2.rb:83-88 | with several VPCs of the name create fails with "Multiple VPCs", with none with "No VPCs", in both cases after the VPC lookup alone and with no mutation |
| `Resolution.CreateOnSingleVpc` | lib/puppet/provider/ec2_vpc_routetable/v2.rb:89-98 | with one VPC the table is created on it, then tagged, and the tagging fails the create iff every one of the 5 tries fails; all later mutations are create_route calls into the new table |
| `Resolution.CreateRoutesIssued` | lib/puppet/provider/ec2_vpc_routetable/v2.rb:99-157 | a create that succeeds issued exactly one create_route per resolvable desired route, in order, each to its resolved target |
| `RoundTrip.CreateRoundTrip` | lib/puppet/provider/ec2_vpc_routetable/v2.rb:126-153 | when the routes a successful create issued are reported back active and their targets are named by the names they were found under, route translation yields exactly the desired routes that resolved, in order |
| `Ec2.Client.CreateTags` | lib/puppet/provider/ec2_vpc_routetable/v2.rb:93-98 | tagging succeeds iff fewer than the allowed tries fail; only the successful call is recorded |
| `Ec2VpcRoutetableV2.Provider.Exists` | lib/puppet/provider/ec2_vpc_routetable/v2.rb:71-74 | `exists?`: true exactly when the recorded ensure is present; so an empty hash and an absent one never exist |
| `Ec2VpcRoutetableV2.Provider.Create` | lib/puppet/provider/ec2_vpc_routetable/v2.rb:76-159 | create issues exactly the calls of `CreateTrace`, in order, and ends with its outcome; it creates one table iff exactly one VPC matches; on success only ensure changes, to present, so `Exists` holds; on failure the hash is unchanged |
| `Ec2VpcRoutetableV2.Provider.AddRoutes` | lib/puppet/provider/ec2_vpc_routetable/v2.rb:99-157 | the loop over the desired routes issues exactly the calls of `RoutesTrace` and stops at the first route that raises |
| `Ec2VpcRoutetableV2.Provider.AddRoute` | lib/puppet/provider/ec2_vpc_routetable/v2.rb:100-156 | one route's lookups and create_route, with the found_* flags as written, are exactly the calls of `RouteTrace` |
| `Ec2VpcRoutetableV2.Provider.Destroy` | lib/puppet/provider/ec2_vpc_routetable/v2.rb:161-165 | destroy issues exactly one delete_route_table, for the id recorded in the hash, and sets ensure to absent, so `Exists` no longer holds; it creates no table |
| `Scenarios.CreateWithInternetGatewayOn` | lib/puppet/provider/ec2_vpc_routetable/v2.rb:76-159 | on any endpoint with one VPC of the name and an internet gateway of the route's gateway name, and a tagging that succeeds, create issues the table creation, the tagging and one create_route to that gateway, for whatever id the new table gets |
| `Scenarios.CreateWithInternetGateway` | lib/puppet/provider/ec2_vpc_routetable/v2.rb:76-159 | a route to a name that an internet gateway carries gives one table creation, one tagging and one create_route bound to that gateway |
| `Scenarios.CreateWithoutVpc` | lib/puppet/provider/ec2_vpc_routetable/v2.rb:87 | no VPC of the name: the create fails with no mutation, and the message is "No VPCs with name vpc1" |
| `Scenarios.CreateWithTwoVpcs` | lib/puppet/provider/ec2_vpc_routetable/v2.rb:86 | two VPCs of the name: the create fails with no mutation, and the message is "Multiple VPCs with name vpc1" |
| `Scenarios.CreateWithUnknownGateway` | lib/puppet/provider/ec2_vpc_routetable/v2.rb:99-157 | a name no lookup matches: all four lookups are made, no route is created, and the create still succeeds |

## Left out

- The AWS SDK and the network. The `describe_*` calls are answered from a fixed
  view; `create_route_table`, `create_tags`, `create_route` and
  `delete_route_table` are only recorded. Their effect on later listings is not
  modelled, except as the assumption of `RoundTrip.CreateRoundTrip`. Two SDK
  calls fail in the model: `describe_route_tables` (`ListingFailed`), and
  `create_tags`, whose transient failures (`RegionView.tagFailures`) make
  `create` fail with `TaggingFailed` once all 5 tries fail. No other SDK call
  raises. Argument validation
  by the SDK (for a nil table id, say) is not modelled either.
- Puppet framework wiring: `provide`, `confine`, `mk_resource_methods`,
  `remove_method :tags=`, `read_only`, and type registration (lines 3-8, 26).
  Puppet only reaches `prefetch` with a name-keyed hash of distinct resources;
  `Prefetch` requires those resources to be distinct objects.
- Logging (`Puppet.info`, lines 72, 77, 162).
- The parent class `PuppetX::Puppetlabs::Aws` is not part of this model.
  - `name_from_tag`, `tags_for`, `gateway_name_from_id`, `vpc_name_from_id`
    and `tags_for_resource` are arbitrary functions, and the helpers never
    raise.
  - `regions` is a parameter.
  - `ec2_client(target_region)` is the client passed to `Create` and `Destroy`.
  - `has_name?` is taken to mean "the hash has a non-empty name".
- The internals of `with_retries`. Tagging succeeds if fewer than 5 attempts
  fail (the count of failures is part of the view). Failed attempts change
  nothing and leave no record. There is no back-off.
- Line 81, `routes = [routes] unless routes.is_a?(Array)`. The desired routes are
  always a sequence: a single route is a one-element sequence. A missing
  (nil) `routes` value is not modelled.
- Error messages beyond the two VPC messages. The exception raised when the
  network interface is missing, and the error raised when tagging runs out of
  tries, are modelled only by their kind.
- The attributes read by Puppet's generated getters (`vpc`, `routes`, `tags`)
  are kept in the property hash. No operation here reads them.
