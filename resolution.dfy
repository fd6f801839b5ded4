/**
 * Forward resolution and the calls `create` issues, as functions of what the
 * region's EC2 endpoint answers. The provider's methods are proved to issue
 * exactly these calls.
 */
module Resolution {
  import opened Wrappers
  import opened Ec2
  import opened Puppet

  /** The instance states the instance lookup filters on. */
  const LiveInstanceStates: seq<string> := ["pending", "running", "stopping", "stopped"]

  /** with_retries(:max_tries => 5) around create_tags. */
  const MaxTagTries: nat := 5

  /** What a gateway name resolves to. */
  datatype Resolution =
    | InternetGateway(gatewayId: string)
    | VpnGateway(gatewayId: string)
    | PeeringConnection(connectionId: string)
    | TaggedInstance(reservation: Reservation)
    | Unresolved

  /** Why `create` raised. */
  datatype CreateError =
    | MultipleVpcs(vpcName: string)
    | NoVpcs(vpcName: string)
    | TaggingFailed(routeTableId: string)
    // .first.instances.first.network_interfaces.first ran into nil
    | NoNetworkInterface(gatewayName: string)

  /** The message create fails with; the other errors are raised by code outside this model. */
  function ErrorMessage(e: CreateError): (m: Option<string>)
    ensures m.Some? <==> e.MultipleVpcs? || e.NoVpcs?
    ensures m.Some? ==> |e.vpcName| <= |m.value| && m.value[|m.value| - |e.vpcName|..] == e.vpcName
  {
    match e
    case MultipleVpcs(vpc) => Some("Multiple VPCs with name " + vpc)
    case NoVpcs(vpc) => Some("No VPCs with name " + vpc)
    case TaggingFailed(_) => None
    case NoNetworkInterface(_) => None
  }

  /** The calls issued by (part of) `create`, and how it ended. */
  datatype Trace = Trace(calls: seq<Call>, outcome: Outcome<CreateError>)

  /**
   * Reference definition of forward resolution: the first kind, in the order
   * internet gateway, VPN gateway, peering connection, tagged instance, whose
   * lookup by name is non-empty; the first object found of that kind.
   */
  function Resolve(view: RegionView, name: string): (r: Resolution)
    ensures r.InternetGateway? <==> |view.internetGateways(name)| > 0
    ensures r.VpnGateway? <==> |view.internetGateways(name)| == 0 && |view.vpnGateways(name)| > 0
    ensures r.PeeringConnection? <==>
      |view.internetGateways(name)| == 0 && |view.vpnGateways(name)| == 0 && |view.peeringConnections(name)| > 0
    ensures r.TaggedInstance? <==>
      |view.internetGateways(name)| == 0 && |view.vpnGateways(name)| == 0 && |view.peeringConnections(name)| == 0 &&
      |view.instances(LiveInstanceStates, name)| > 0
    ensures r.InternetGateway? ==> r.gatewayId == view.internetGateways(name)[0]
    ensures r.VpnGateway? ==> r.gatewayId == view.vpnGateways(name)[0]
    ensures r.PeeringConnection? ==> r.connectionId == view.peeringConnections(name)[0]
    ensures r.TaggedInstance? ==> r.reservation == view.instances(LiveInstanceStates, name)[0]
  {
    var candidates :=
      (if |view.internetGateways(name)| > 0 then [InternetGateway(view.internetGateways(name)[0])] else []) +
      (if |view.vpnGateways(name)| > 0 then [VpnGateway(view.vpnGateways(name)[0])] else []) +
      (if |view.peeringConnections(name)| > 0 then [PeeringConnection(view.peeringConnections(name)[0])] else []) +
      (if |view.instances(LiveInstanceStates, name)| > 0
       then [TaggedInstance(view.instances(LiveInstanceStates, name)[0])] else []);
    if |candidates| == 0 then Unresolved else candidates[0]
  }

  /** The first network interface of the first instance of a reservation, if there is one. */
  function FirstInterface(reservation: Reservation): (r: Option<string>)
    ensures r.Some? <==> |reservation.instances| > 0 && |reservation.instances[0].networkInterfaceIds| > 0
    ensures r.Some? ==> r.value == reservation.instances[0].networkInterfaceIds[0]
  {
    if |reservation.instances| == 0 then None
    else if |reservation.instances[0].networkInterfaceIds| == 0 then None
    else Some(reservation.instances[0].networkInterfaceIds[0])
  }

  /** The create_route target of a resolution: None when nothing resolved or no interface exists. */
  function TargetOf(r: Resolution): (t: Option<Target>)
    ensures t.None? <==> r.Unresolved? || (r.TaggedInstance? && FirstInterface(r.reservation).None?)
    ensures t.Some? ==>
      && (t.value.GatewayId? <==> r.InternetGateway? || r.VpnGateway?)
      && (t.value.VpcPeeringConnectionId? <==> r.PeeringConnection?)
      && (t.value.NetworkInterfaceId? <==> r.TaggedInstance?)
  {
    match r
    case InternetGateway(id) => Some(GatewayId(id))
    case VpnGateway(id) => Some(GatewayId(id))
    case PeeringConnection(id) => Some(VpcPeeringConnectionId(id))
    case TaggedInstance(reservation) =>
      if FirstInterface(reservation).Some? then Some(NetworkInterfaceId(FirstInterface(reservation).value)) else None
    case Unresolved => None
  }

  /**
   * The lookups for one gateway name, following the found_* flags of
   * `create`: each is issued only while every earlier one came back empty.
   */
  function Lookups(view: RegionView, name: string): (r: seq<Call>)
    ensures 1 <= |r| <= 4 && r[0] == DescribeInternetGateways(name)
    ensures forall c :: c in r ==> !IsMutation(c)
    ensures |r| == 1 <==> |view.internetGateways(name)| > 0
  {
    var foundIgw := |view.internetGateways(name)| > 0;
    var foundVgw := !foundIgw && |view.vpnGateways(name)| > 0;
    var foundPeer := !(foundIgw || foundVgw) && |view.peeringConnections(name)| > 0;
    [DescribeInternetGateways(name)] +
    (if !foundIgw then [DescribeVpnGateways(name)] else []) +
    (if !(foundIgw || foundVgw) then [DescribeVpcPeeringConnections(name)] else []) +
    (if !(foundIgw || foundVgw || foundPeer) then [DescribeInstances(LiveInstanceStates, name)] else [])
  }

  /** The calls for one desired route: its lookups, then the create_route of the first that matched. */
  function RouteTrace(view: RegionView, tableId: string, route: DesiredRoute): (t: Trace)
    ensures 1 <= |t.calls| <= 5 && t.calls[0] == DescribeInternetGateways(route.gateway)
    ensures t.outcome.Fail? ==>
      t.outcome.error == NoNetworkInterface(route.gateway) &&
      t.calls[|t.calls| - 1] == DescribeInstances(LiveInstanceStates, route.gateway)
  {
    var name := route.gateway;
    var cidr := route.destinationCidrBlock;
    var igws := view.internetGateways(name);
    var foundIgw := |igws| > 0;
    var vgws := if !foundIgw then view.vpnGateways(name) else [];
    var foundVgw := |vgws| > 0;
    var peers := if !(foundIgw || foundVgw) then view.peeringConnections(name) else [];
    var foundPeer := |peers| > 0;
    var reservations := if !(foundIgw || foundVgw || foundPeer) then view.instances(LiveInstanceStates, name) else [];
    var foundNi := |reservations| > 0;
    var lookups := Lookups(view, name);
    if foundIgw then Trace(lookups + [CreateRoute(tableId, cidr, GatewayId(igws[0]))], Pass)
    else if foundVgw then Trace(lookups + [CreateRoute(tableId, cidr, GatewayId(vgws[0]))], Pass)
    else if foundPeer then Trace(lookups + [CreateRoute(tableId, cidr, VpcPeeringConnectionId(peers[0]))], Pass)
    else if foundNi then
      var ni := FirstInterface(reservations[0]);
      if ni.None? then Trace(lookups, Fail(NoNetworkInterface(name)))
      else Trace(lookups + [CreateRoute(tableId, cidr, NetworkInterfaceId(ni.value))], Pass)
    else Trace(lookups, Pass)
  }

  /** The calls for the desired routes, in order, up to the first that raises. */
  function RoutesTrace(view: RegionView, tableId: string, routes: seq<DesiredRoute>): (t: Trace)
    ensures t.outcome.Fail? ==> t.outcome.error.NoNetworkInterface?
  {
    if |routes| == 0 then Trace([], Pass)
    else
      var earlier := RoutesTrace(view, tableId, routes[..|routes| - 1]);
      if earlier.outcome.Fail? then earlier
      else
        var last := RouteTrace(view, tableId, routes[|routes| - 1]);
        Trace(earlier.calls + last.calls, last.outcome)
  }

  /**
   * The calls of `create`: the VPC lookup, then (for exactly one VPC) the
   * table's creation on it, its tagging, and the routes.
   */
  function CreateTrace(view: RegionView, desired: ResourceSpec, tags: map<string, string>, tableId: string): (t: Trace)
    ensures |t.calls| >= 1 && t.calls[0] == DescribeVpcs(desired.vpc)
    ensures t.outcome == Fail(MultipleVpcs(desired.vpc)) <==> |view.vpcs(desired.vpc)| > 1
    ensures t.outcome == Fail(NoVpcs(desired.vpc)) <==> |view.vpcs(desired.vpc)| == 0
    ensures t.outcome.Pass? ==> |view.vpcs(desired.vpc)| == 1 && view.tagFailures < MaxTagTries
    ensures |view.vpcs(desired.vpc)| != 1 ==> |t.calls| == 1
    ensures |view.vpcs(desired.vpc)| == 1 ==> |t.calls| >= 2 && t.calls[1] == CreateRouteTable(view.vpcs(desired.vpc)[0])
  {
    var vpcs := view.vpcs(desired.vpc);
    if |vpcs| > 1 then Trace([DescribeVpcs(desired.vpc)], Fail(MultipleVpcs(desired.vpc)))
    else if |vpcs| == 0 then Trace([DescribeVpcs(desired.vpc)], Fail(NoVpcs(desired.vpc)))
    else
      var created := [DescribeVpcs(desired.vpc), CreateRouteTable(vpcs[0])];
      if view.tagFailures >= MaxTagTries then Trace(created, Fail(TaggingFailed(tableId)))
      else
        var routes := RoutesTrace(view, tableId, desired.routes);
        Trace(created + [CreateTags(tableId, tags)] + routes.calls, routes.outcome)
  }

  // ---------------------------------------------------------------------
  // Properties of one route

  /** A lookup is made exactly when every lookup before it came back empty. */
  lemma LookupOrder(view: RegionView, tableId: string, route: DesiredRoute)
    ensures var t := RouteTrace(view, tableId, route); var name := route.gateway;
      && t.calls[0] == DescribeInternetGateways(name)
      && (DescribeVpnGateways(name) in t.calls <==> |view.internetGateways(name)| == 0)
      && (DescribeVpcPeeringConnections(name) in t.calls <==>
            |view.internetGateways(name)| == 0 && |view.vpnGateways(name)| == 0)
      && (DescribeInstances(LiveInstanceStates, name) in t.calls <==>
            |view.internetGateways(name)| == 0 && |view.vpnGateways(name)| == 0 &&
            |view.peeringConnections(name)| == 0)
  {
  }

  /**
   * One route's calls are its lookups followed by the create_route of its
   * resolution, when it has a target; it fails only for an instance without
   * a network interface.
   */
  lemma RouteTraceShape(view: RegionView, tableId: string, route: DesiredRoute)
    ensures var t := RouteTrace(view, tableId, route);
      var res := Resolve(view, route.gateway);
      && (t.outcome.Fail? <==> res.TaggedInstance? && FirstInterface(res.reservation).None?)
      && (t.outcome.Fail? ==> t.outcome.error == NoNetworkInterface(route.gateway))
      && (TargetOf(res).Some? <==> t.outcome.Pass? && |t.calls| > |Lookups(view, route.gateway)|)
      && t.calls == Lookups(view, route.gateway) +
           (if TargetOf(res).Some? then [CreationFor(view, tableId, route)] else [])
  {
  }

  /**
   * One route issues one create_route, into the new table, for its CIDR, to
   * the target of the priority resolution; or none when nothing resolved; or
   * fails when the matched instance has no network interface.
   */
  lemma RouteFollowsResolution(view: RegionView, tableId: string, route: DesiredRoute)
    ensures var t := RouteTrace(view, tableId, route);
      var res := Resolve(view, route.gateway);
      && (t.outcome.Fail? <==> res.TaggedInstance? && FirstInterface(res.reservation).None?)
      && (t.outcome.Fail? ==> t.outcome.error == NoNetworkInterface(route.gateway))
      && (forall c :: c in t.calls && IsMutation(c) ==>
            c.CreateRoute? && TargetOf(res).Some? &&
            c == CreateRoute(tableId, route.destinationCidrBlock, TargetOf(res).value))
      && (t.outcome.Pass? && TargetOf(res).Some? ==>
            t.calls[|t.calls| - 1] == CreateRoute(tableId, route.destinationCidrBlock, TargetOf(res).value))
      && (TargetOf(res).None? ==> forall c :: c in t.calls ==> !c.CreateRoute?)
      && (res.Unresolved? ==> forall c :: c in t.calls ==> !IsMutation(c))
  {
    RouteTraceShape(view, tableId, route);
  }

  // ---------------------------------------------------------------------
  // Properties of the whole route list

  /** The routes that resolve to a target, in order. */
  function Resolvable(view: RegionView, routes: seq<DesiredRoute>): (r: seq<DesiredRoute>)
    ensures |r| <= |routes|
    ensures forall k :: 0 <= k < |r| ==> r[k] in routes && TargetOf(Resolve(view, r[k].gateway)).Some?
  {
    if |routes| == 0 then []
    else
      var last := routes[|routes| - 1];
      Resolvable(view, routes[..|routes| - 1]) + (if TargetOf(Resolve(view, last.gateway)).Some? then [last] else [])
  }

  /** The create_route calls of a call list, in order. */
  function RouteCreations(calls: seq<Call>): (r: seq<Call>)
    ensures |r| <= |calls|
    ensures forall c :: c in r ==> c.CreateRoute?
  {
    if |calls| == 0 then []
    else RouteCreations(calls[..|calls| - 1]) + (if calls[|calls| - 1].CreateRoute? then [calls[|calls| - 1]] else [])
  }

  lemma {:induction false} RouteCreationsAppend(a: seq<Call>, b: seq<Call>)
    ensures RouteCreations(a + b) == RouteCreations(a) + RouteCreations(b)
  {
    if |b| == 0 {
      assert a + b == a;
    } else {
      assert (a + b)[..|a + b| - 1] == a + b[..|b| - 1];
      RouteCreationsAppend(a, b[..|b| - 1]);
    }
  }

  /** The create_route call a resolvable route gives rise to. */
  function CreationFor(view: RegionView, tableId: string, route: DesiredRoute): Call
    requires TargetOf(Resolve(view, route.gateway)).Some?
  {
    CreateRoute(tableId, route.destinationCidrBlock, TargetOf(Resolve(view, route.gateway)).value)
  }

  lemma RouteTraceCreations(view: RegionView, tableId: string, route: DesiredRoute)
    ensures var t := RouteTrace(view, tableId, route);
      RouteCreations(t.calls) ==
        if TargetOf(Resolve(view, route.gateway)).Some? then [CreationFor(view, tableId, route)] else []
  {
    var lookups := Lookups(view, route.gateway);
    RouteTraceShape(view, tableId, route);
    RouteCreationsNone(lookups);
    if TargetOf(Resolve(view, route.gateway)).Some? {
      var c := CreationFor(view, tableId, route);
      RouteCreationsAppend(lookups, [c]);
      assert [c][..0] == [];
    } else {
      assert lookups + [] == lookups;
    }
  }

  lemma {:induction false} RouteCreationsNone(calls: seq<Call>)
    requires forall c :: c in calls ==> !c.CreateRoute?
    ensures RouteCreations(calls) == []
  {
    if |calls| > 0 {
      assert calls[|calls| - 1] in calls;
      RouteCreationsNone(calls[..|calls| - 1]);
    }
  }

  /** The create_route calls the resolvable routes give rise to, in order. */
  function CreationsFor(view: RegionView, tableId: string, routes: seq<DesiredRoute>): seq<Call> {
    if |routes| == 0 then []
    else
      var last := routes[|routes| - 1];
      CreationsFor(view, tableId, routes[..|routes| - 1]) +
        (if TargetOf(Resolve(view, last.gateway)).Some? then [CreationFor(view, tableId, last)] else [])
  }

  /** The creations are, position by position, those of the resolvable routes. */
  lemma {:induction false} CreationsForResolvable(view: RegionView, tableId: string, routes: seq<DesiredRoute>)
    ensures |CreationsFor(view, tableId, routes)| == |Resolvable(view, routes)|
    ensures forall k :: 0 <= k < |Resolvable(view, routes)| ==>
      CreationsFor(view, tableId, routes)[k] == CreationFor(view, tableId, Resolvable(view, routes)[k])
  {
    if |routes| > 0 {
      CreationsForResolvable(view, tableId, routes[..|routes| - 1]);
    }
  }

  /** While no route fails, the route steps issue exactly the creations of the resolvable routes. */
  lemma {:induction false} RoutesTraceCreations(view: RegionView, tableId: string, routes: seq<DesiredRoute>)
    ensures var t := RoutesTrace(view, tableId, routes);
      t.outcome.Pass? ==> RouteCreations(t.calls) == CreationsFor(view, tableId, routes)
  {
    if |routes| > 0 {
      var front := routes[..|routes| - 1];
      RoutesTraceCreations(view, tableId, front);
      var earlier := RoutesTrace(view, tableId, front);
      if earlier.outcome.Pass? {
        var t := RouteTrace(view, tableId, routes[|routes| - 1]);
        RouteCreationsAppend(earlier.calls, t.calls);
        RouteTraceCreations(view, tableId, routes[|routes| - 1]);
      }
    }
  }

  /** Stepping the route list by one route, while nothing has failed. */
  lemma RoutesTraceStep(view: RegionView, tableId: string, routes: seq<DesiredRoute>, i: nat)
    requires i < |routes|
    requires RoutesTrace(view, tableId, routes[..i]).outcome.Pass?
    ensures RoutesTrace(view, tableId, routes[..i + 1]) ==
      Trace(RoutesTrace(view, tableId, routes[..i]).calls + RouteTrace(view, tableId, routes[i]).calls,
            RouteTrace(view, tableId, routes[i]).outcome)
  {
    assert routes[..i + 1][..i] == routes[..i];
  }

  /** The calls of create once the VPC is unique and tagging succeeds. */
  lemma CreateTraceTagged(view: RegionView, desired: ResourceSpec, tags: map<string, string>, tableId: string)
    requires |view.vpcs(desired.vpc)| == 1 && view.tagFailures < MaxTagTries
    ensures CreateTrace(view, desired, tags, tableId) ==
      Trace([DescribeVpcs(desired.vpc), CreateRouteTable(view.vpcs(desired.vpc)[0]), CreateTags(tableId, tags)] +
              RoutesTrace(view, tableId, desired.routes).calls,
            RoutesTrace(view, tableId, desired.routes).outcome)
  {
  }

  /** Once a prefix of the routes fails, the whole list fails the same way: later routes are not tried. */
  lemma {:induction false} RoutesTraceStopsAtFailure(view: RegionView, tableId: string, routes: seq<DesiredRoute>, n: nat)
    requires n <= |routes|
    requires RoutesTrace(view, tableId, routes[..n]).outcome.Fail?
    ensures RoutesTrace(view, tableId, routes) == RoutesTrace(view, tableId, routes[..n])
  {
    if n < |routes| {
      var m := |routes|;
      assert routes[..m - 1][..n] == routes[..n];
      RoutesTraceStopsAtFailure(view, tableId, routes[..m - 1], n);
    } else {
      assert routes[..n] == routes;
    }
  }


  /** A route list fails exactly when some route matches an instance without a network interface. */
  lemma {:induction false} RoutesTraceFailure(view: RegionView, tableId: string, routes: seq<DesiredRoute>)
    ensures RoutesTrace(view, tableId, routes).outcome.Fail? <==>
      exists i :: 0 <= i < |routes| && RouteTrace(view, tableId, routes[i]).outcome.Fail?
  {
    if |routes| > 0 {
      var front := routes[..|routes| - 1];
      RoutesTraceFailure(view, tableId, front);
      assert forall i :: 0 <= i < |routes| - 1 ==> front[i] == routes[i];
    }
  }

  /** The route steps never create, tag or delete a route table. */
  lemma {:induction false} RoutesTraceOnlyCreatesRoutes(view: RegionView, tableId: string, routes: seq<DesiredRoute>)
    ensures forall c :: c in RoutesTrace(view, tableId, routes).calls && IsMutation(c) ==>
      c.CreateRoute? && c.routeTableId == tableId
  {
    if |routes| > 0 {
      var front := routes[..|routes| - 1];
      RoutesTraceOnlyCreatesRoutes(view, tableId, front);
      RouteFollowsResolution(view, tableId, routes[|routes| - 1]);
    }
  }

  // ---------------------------------------------------------------------
  // Properties of create

  /** With zero or several VPCs of the name, create fails after the lookup alone. */
  lemma CreateVpcPrecondition(view: RegionView, desired: ResourceSpec, tags: map<string, string>, tableId: string)
    ensures var t := CreateTrace(view, desired, tags, tableId); var vpcs := view.vpcs(desired.vpc);
      && (|vpcs| != 1 ==> t.calls == [DescribeVpcs(desired.vpc)] && forall c :: c in t.calls ==> !IsMutation(c))
      && (|vpcs| > 1 ==> t.outcome == Fail(MultipleVpcs(desired.vpc)))
      && (|vpcs| == 0 ==> t.outcome == Fail(NoVpcs(desired.vpc)))
  {
  }

  /**
   * With exactly one VPC, create makes the table on it and tags the table
   * (unless every tagging attempt fails); every other mutation is a
   * create_route into the new table.
   */
  lemma CreateOnSingleVpc(view: RegionView, desired: ResourceSpec, tags: map<string, string>, tableId: string)
    requires |view.vpcs(desired.vpc)| == 1
    ensures var t := CreateTrace(view, desired, tags, tableId);
      && |t.calls| >= 2
      && t.calls[..2] == [DescribeVpcs(desired.vpc), CreateRouteTable(view.vpcs(desired.vpc)[0])]
      && (view.tagFailures >= MaxTagTries <==> t.outcome == Fail(TaggingFailed(tableId)) && |t.calls| == 2)
      && (view.tagFailures < MaxTagTries ==> |t.calls| >= 3 && t.calls[2] == CreateTags(tableId, tags))
      && forall k :: 3 <= k < |t.calls| && IsMutation(t.calls[k]) ==>
           t.calls[k].CreateRoute? && t.calls[k].routeTableId == tableId
  {
    var t := CreateTrace(view, desired, tags, tableId);
    if view.tagFailures < MaxTagTries {
      var routes := RoutesTrace(view, tableId, desired.routes);
      RoutesTraceOnlyCreatesRoutes(view, tableId, desired.routes);
      var head := [DescribeVpcs(desired.vpc), CreateRouteTable(view.vpcs(desired.vpc)[0]), CreateTags(tableId, tags)];
      assert t.calls == head + routes.calls;
      assert forall k :: 3 <= k < |t.calls| ==> t.calls[k] == routes.calls[k - 3];
    }
  }

  /** A create that succeeds issued one create_route per resolvable desired route, in order. */
  lemma CreateRoutesIssued(view: RegionView, desired: ResourceSpec, tags: map<string, string>, tableId: string)
    ensures var t := CreateTrace(view, desired, tags, tableId);
      t.outcome.Pass? ==> RouteCreations(t.calls) == CreationsFor(view, tableId, desired.routes)
  {
    if |view.vpcs(desired.vpc)| == 1 && view.tagFailures < MaxTagTries {
      CreateTraceTagged(view, desired, tags, tableId);
      var routes := RoutesTrace(view, tableId, desired.routes);
      var head := [DescribeVpcs(desired.vpc), CreateRouteTable(view.vpcs(desired.vpc)[0]), CreateTags(tableId, tags)];
      RouteCreationsAppend(head, routes.calls);
      RouteCreationsNone(head);
      RoutesTraceCreations(view, tableId, desired.routes);
    }
  }
}
