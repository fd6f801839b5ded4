/**
 * The v2 provider of ec2_vpc_routetable: discovery (`instances`), binding
 * (`prefetch`) and the lifecycle of one provider (`exists?`, `create`,
 * `destroy`).
 */
module Ec2VpcRoutetableV2 {
  import opened Wrappers
  import opened Ec2
  import opened Puppet
  import opened AwsHelpers
  import opened RouteTranslation
  import opened Snapshot
  import opened Resolution

  class Provider {
    var propertyHash: PropertyHash

    /** new(hash) */
    constructor (hash: PropertyHash)
      ensures propertyHash == hash
    {
      propertyHash := hash;
    }

    /** exists?: the recorded ensure is present (an empty hash reads as absent). */
    predicate Exists()
      reads this
      ensures Exists() ==> propertyHash != EmptyHash && propertyHash.ensure != Some(Absent)
    {
      propertyHash.ensure == Some(Present)
    }

    /**
     * create: look the VPC up by name, fail unless exactly one matches,
     * create the table on it, tag it under retries, then give each desired
     * route the first target its gateway name resolves to.
     */
    method Create(ec2: Client, desired: ResourceSpec, h: Helpers) returns (outcome: Outcome<CreateError>)
      modifies this, ec2
      ensures var trace := CreateTrace(ec2.view, desired, h.tagsForResource(desired),
                                       ec2.view.assignedTableId(old(ec2.tablesCreated)));
        && outcome == trace.outcome
        && ec2.calls == old(ec2.calls) + trace.calls
      ensures ec2.tablesCreated == old(ec2.tablesCreated) + (if |ec2.view.vpcs(desired.vpc)| == 1 then 1 else 0)
      ensures propertyHash == if outcome.Pass? then old(propertyHash).(ensure := Some(Present)) else old(propertyHash)
      ensures outcome.Pass? ==> Exists()
    {
      var tags := h.tagsForResource(desired);
      ghost var trace := CreateTrace(ec2.view, desired, tags, ec2.view.assignedTableId(ec2.tablesCreated));
      var vpcs := ec2.DescribeVpcs(desired.vpc);
      if |vpcs| > 1 {
        assert trace == Trace([DescribeVpcs(desired.vpc)], Fail(MultipleVpcs(desired.vpc)));
        return Fail(MultipleVpcs(desired.vpc));
      }
      if |vpcs| == 0 {
        assert trace == Trace([DescribeVpcs(desired.vpc)], Fail(NoVpcs(desired.vpc)));
        return Fail(NoVpcs(desired.vpc));
      }
      var id := ec2.CreateRouteTable(vpcs[0]);
      var tagged := ec2.CreateTags(id, tags, MaxTagTries);
      if !tagged {
        assert trace == Trace([DescribeVpcs(desired.vpc), CreateRouteTable(vpcs[0])], Fail(TaggingFailed(id)));
        return Fail(TaggingFailed(id));
      }
      CreateTraceTagged(ec2.view, desired, tags, id);
      outcome := AddRoutes(ec2, id, desired.routes);
      if outcome.Pass? {
        propertyHash := propertyHash.(ensure := Some(Present));
      }
    }

    /** create's loop over the desired routes, left at the first route that raises. */
    method AddRoutes(ec2: Client, id: string, routes: seq<DesiredRoute>) returns (outcome: Outcome<CreateError>)
      modifies ec2
      ensures outcome == RoutesTrace(ec2.view, id, routes).outcome
      ensures ec2.calls == old(ec2.calls) + RoutesTrace(ec2.view, id, routes).calls
      ensures ec2.tablesCreated == old(ec2.tablesCreated)
    {
      var i := 0;
      while i < |routes|
        invariant 0 <= i <= |routes|
        invariant RoutesTrace(ec2.view, id, routes[..i]).outcome.Pass?
        invariant ec2.calls == old(ec2.calls) + RoutesTrace(ec2.view, id, routes[..i]).calls
        invariant ec2.tablesCreated == old(ec2.tablesCreated)
      {
        RoutesTraceStep(ec2.view, id, routes, i);
        ghost var before := RoutesTrace(ec2.view, id, routes[..i]).calls;
        ghost var next := RouteTrace(ec2.view, id, routes[i]).calls;
        var step := AddRoute(ec2, id, routes[i]);
        assert ec2.calls == old(ec2.calls) + (before + next);
        if step.Fail? {
          RoutesTraceStopsAtFailure(ec2.view, id, routes, i + 1);
          return step;
        }
        i := i + 1;
      }
      assert routes[..i] == routes;
      return Pass;
    }

    /**
     * The body of create's loop over the desired routes: probe the four
     * lookups in priority order, each only while the earlier ones came back
     * empty, and issue one create_route for the first that matched.
     */
    method AddRoute(ec2: Client, id: string, route: DesiredRoute) returns (outcome: Outcome<CreateError>)
      modifies ec2
      ensures outcome == RouteTrace(ec2.view, id, route).outcome
      ensures ec2.calls == old(ec2.calls) + RouteTrace(ec2.view, id, route).calls
      ensures ec2.tablesCreated == old(ec2.tablesCreated)
    {
      var igws := ec2.DescribeInternetGateways(route.gateway);
      var foundIgw := |igws| > 0;
      var vgws: seq<string> := [];
      if !foundIgw {
        vgws := ec2.DescribeVpnGateways(route.gateway);
      }
      var foundVgw := |vgws| > 0;
      var peers: seq<string> := [];
      if !(foundIgw || foundVgw) {
        peers := ec2.DescribeVpcPeeringConnections(route.gateway);
      }
      var foundPeer := |peers| > 0;
      var reservations: seq<Reservation> := [];
      if !(foundIgw || foundVgw || foundPeer) {
        reservations := ec2.DescribeInstances(LiveInstanceStates, route.gateway);
      }
      var foundNi := |reservations| > 0;
      if foundIgw {
        ec2.CreateRoute(id, route.destinationCidrBlock, GatewayId(igws[0]));
      } else if foundVgw {
        ec2.CreateRoute(id, route.destinationCidrBlock, GatewayId(vgws[0]));
      } else if foundPeer {
        ec2.CreateRoute(id, route.destinationCidrBlock, VpcPeeringConnectionId(peers[0]));
      } else if foundNi {
        var interfaceId := FirstInterface(reservations[0]);
        if interfaceId.None? {
          return Fail(NoNetworkInterface(route.gateway));
        }
        ec2.CreateRoute(id, route.destinationCidrBlock, NetworkInterfaceId(interfaceId.value));
      }
      return Pass;
    }

    /** destroy: delete the table recorded in the hash and mark it absent. */
    method Destroy(ec2: Client)
      modifies this, ec2
      ensures ec2.calls == old(ec2.calls) + [DeleteRouteTable(old(propertyHash).id)]
      ensures ec2.tablesCreated == old(ec2.tablesCreated)
      ensures propertyHash == old(propertyHash).(ensure := Some(Absent))
      ensures !Exists()
    {
      ec2.DeleteRouteTable(propertyHash.id);
      propertyHash := propertyHash.(ensure := Some(Absent));
    }
  }

  /** A desired resource of the catalogue and the provider currently attached to it. */
  class Resource {
    const spec: ResourceSpec
    var provider: Provider

    constructor (spec: ResourceSpec, provider: Provider)
      ensures this.spec == spec && this.provider == provider
    {
      this.spec := spec;
      this.provider := provider;
    }
  }

  /**
   * instances: one provider per named route table of every region, in region
   * order; a failed listing raises the fetch error of its region.
   */
  method Instances(regions: seq<string>, cloud: string -> RegionView, h: Helpers) returns (r: Result<seq<Provider>, FetchError>)
    ensures SnapshotOf(regions, cloud, h).Err? ==> r == Err(SnapshotOf(regions, cloud, h).error)
    ensures SnapshotOf(regions, cloud, h).Ok? ==>
      && r.Ok?
      && |r.value| == |SnapshotOf(regions, cloud, h).value|
      && forall k :: 0 <= k < |r.value| ==>
           fresh(r.value[k]) && r.value[k].propertyHash == SnapshotOf(regions, cloud, h).value[k]
  {
    var all: seq<Provider> := [];
    ghost var hashes: seq<PropertyHash> := [];
    var i := 0;
    while i < |regions|
      invariant 0 <= i <= |regions|
      invariant SnapshotOf(regions[..i], cloud, h) == Ok(hashes)
      invariant |all| == |hashes|
      invariant forall k :: 0 <= k < |all| ==> fresh(all[k]) && all[k].propertyHash == hashes[k]
    {
      var region := regions[i];
      assert regions[..i + 1][..i] == regions[..i];
      match cloud(region).routeTables
      case ListingFailed(message) =>
        var e := FetchingAwsDataError(region, ResourceTypeName, message);
        SnapshotStaysFailed(regions, cloud, h, i + 1);
        return Err(e);
      case Listed(response) =>
        var tables := RegionProviders(region, response, h);
        all := all + tables;
        hashes := hashes + RegionHashes(region, response, h);
        i := i + 1;
    }
    assert regions[..i] == regions;
    return Ok(all);
  }

  /** The providers of one region's listing: one per named table, in order. */
  method RegionProviders(region: string, response: seq<Ec2.RouteTable>, h: Helpers) returns (tables: seq<Provider>)
    ensures |tables| == |RegionHashes(region, response, h)|
    ensures forall k :: 0 <= k < |tables| ==>
      fresh(tables[k]) && tables[k].propertyHash == RegionHashes(region, response, h)[k]
  {
    tables := [];
    var j := 0;
    while j < |response|
      invariant 0 <= j <= |response|
      invariant |tables| == |RegionHashes(region, response[..j], h)|
      invariant forall k :: 0 <= k < |tables| ==>
        fresh(tables[k]) && tables[k].propertyHash == RegionHashes(region, response[..j], h)[k]
    {
      assert response[..j + 1][..j] == response[..j];
      var hash := RouteTableToHash(region, response[j], h);
      if HasName(hash) {
        var p := new Provider(hash);
        tables := tables + [p];
      }
      j := j + 1;
    }
    assert response[..j] == response;
  }

  /** Once a prefix of the regions fails, every longer prefix fails the same way. */
  lemma {:induction false} SnapshotStaysFailed(regions: seq<string>, cloud: string -> RegionView, h: Helpers, n: nat)
    requires 0 < n <= |regions|
    requires SnapshotOf(regions[..n], cloud, h).Err?
    ensures SnapshotOf(regions, cloud, h) == SnapshotOf(regions[..n], cloud, h)
  {
    if n < |regions| {
      var m := |regions|;
      assert regions[..m - 1][..n] == regions[..n];
      if n < m - 1 {
        SnapshotStaysFailed(regions[..m - 1], cloud, h, n);
      } else {
        assert regions[..m - 1] == regions[..n];
      }
    } else {
      assert regions[..n] == regions;
    }
  }

  /** `prov` would be attached to the resource of this name and region. */
  predicate Matches(prov: Provider, name: string, region: Option<string>)
    reads prov
  {
    prov.propertyHash.name == Some(name) && prov.propertyHash.region.Some? && region == prov.propertyHash.region
  }

  /**
   * The provider a resource is left with after binding to `provs` in order:
   * the last one with its name and region, or the one it had.
   */
  function BoundProvider(provs: seq<Provider>, name: string, region: Option<string>, current: Provider): (b: Provider)
    reads provs
    ensures b == current || b in provs
  {
    if |provs| == 0 then current
    else if Matches(provs[|provs| - 1], name, region) then provs[|provs| - 1]
    else BoundProvider(provs[..|provs| - 1], name, region, current)
  }

  /** Binding to one more provider: it wins when it matches, else the binding so far stands. */
  lemma BoundStep(provs: seq<Provider>, i: nat, name: string, region: Option<string>, current: Provider)
    requires i < |provs|
    ensures BoundProvider(provs[..i + 1], name, region, current) ==
      if Matches(provs[i], name, region) then provs[i] else BoundProvider(provs[..i], name, region, current)
  {
    assert provs[..i + 1][..i] == provs[..i];
  }

  /** Binding never attaches a provider of another name or another region. */
  lemma {:induction false} BoundOnlyOnMatch(provs: seq<Provider>, name: string, region: Option<string>, current: Provider)
    ensures var b := BoundProvider(provs, name, region, current);
      b == current || (b in provs && Matches(b, name, region))
  {
    if |provs| > 0 && !Matches(provs[|provs| - 1], name, region) {
      BoundOnlyOnMatch(provs[..|provs| - 1], name, region, current);
    }
  }

  /** A resource keeps its provider when no discovered provider matches it. */
  lemma {:induction false} BoundWithoutMatch(provs: seq<Provider>, name: string, region: Option<string>, current: Provider)
    requires forall k :: 0 <= k < |provs| ==> !Matches(provs[k], name, region)
    ensures BoundProvider(provs, name, region, current) == current
  {
    if |provs| > 0 {
      var front := provs[..|provs| - 1];
      assert forall k :: 0 <= k < |front| ==> front[k] == provs[k];
      BoundWithoutMatch(front, name, region, current);
    }
  }

  /** Otherwise it is bound to the last provider that matches it. */
  lemma {:induction false} BoundToLastMatch(provs: seq<Provider>, name: string, region: Option<string>, current: Provider, k: nat)
    requires k < |provs| && Matches(provs[k], name, region)
    requires forall j :: k < j < |provs| ==> !Matches(provs[j], name, region)
    ensures BoundProvider(provs, name, region, current) == provs[k]
  {
    if k < |provs| - 1 {
      var front := provs[..|provs| - 1];
      assert forall j :: 0 <= j < |front| ==> front[j] == provs[j];
      BoundToLastMatch(front, name, region, current, k);
    }
  }

  /**
   * prefetch: list the instances, then attach each to the resource of its
   * name when the two regions are equal. A failed listing changes nothing.
   */
  method Prefetch(resources: map<string, Resource>, regions: seq<string>, cloud: string -> RegionView, h: Helpers)
    returns (r: Result<seq<Provider>, FetchError>)
    requires forall a, b :: a in resources && b in resources && a != b ==> resources[a] != resources[b]
    modifies resources.Values
    ensures SnapshotOf(regions, cloud, h).Err? ==>
      && r == Err(SnapshotOf(regions, cloud, h).error)
      && forall k :: k in resources ==> resources[k].provider == old(resources[k].provider)
    ensures SnapshotOf(regions, cloud, h).Ok? ==>
      && r.Ok?
      && |r.value| == |SnapshotOf(regions, cloud, h).value|
      && (forall k :: 0 <= k < |r.value| ==>
            fresh(r.value[k]) && r.value[k].propertyHash == SnapshotOf(regions, cloud, h).value[k])
      && forall k :: k in resources ==>
           resources[k].provider == BoundProvider(r.value, k, resources[k].spec.region, old(resources[k].provider))
  {
    r := Instances(regions, cloud, h);
    if r.Err? {
      return;
    }
    var provs := r.value;
    ghost var snapshot := SnapshotOf(regions, cloud, h).value;
    var i := 0;
    while i < |provs|
      invariant 0 <= i <= |provs|
      invariant forall k :: 0 <= k < |provs| ==> provs[k].propertyHash == snapshot[k]
      invariant forall k :: k in resources ==>
        resources[k].provider == BoundProvider(provs[..i], k, resources[k].spec.region, old(resources[k].provider))
    {
      var prov := provs[i];
      assert prov.propertyHash == snapshot[i];
      var name := prov.propertyHash.name;
      if name.Some? && name.value in resources {
        var resource := resources[name.value];
        if resource.spec.region == prov.propertyHash.region {
          resource.provider := prov;
        }
      }
      forall k | k in resources
        ensures resources[k].provider ==
          BoundProvider(provs[..i + 1], k, resources[k].spec.region, old(resources[k].provider))
      {
        BoundStep(provs, i, k, resources[k].spec.region, old(resources[k].provider));
      }
      i := i + 1;
    }
    assert provs[..i] == provs;
  }
}
