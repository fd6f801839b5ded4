/**
 * Forward and reverse resolution together: a route that `create` issues,
 * once EC2 reports it active, reads back as the desired route.
 */
module RoundTrip {
  import opened Wrappers
  import opened Ec2
  import opened Puppet
  import opened AwsHelpers
  import opened RouteTranslation
  import opened Resolution

  /** The route EC2 reports, in the active state, for a create_route call. */
  function Reported(c: Call): (r: Ec2.Route)
    requires c.CreateRoute?
    ensures r.destinationCidrBlock == c.destinationCidrBlock && r.state == ActiveState
    ensures TargetId(r) == Some(c.target.id)
  {
    match c.target
    case GatewayId(id) => Ec2.Route(c.destinationCidrBlock, Some(id), None, None, ActiveState)
    case VpcPeeringConnectionId(id) => Ec2.Route(c.destinationCidrBlock, None, Some(id), None, ActiveState)
    case NetworkInterfaceId(id) => Ec2.Route(c.destinationCidrBlock, None, None, Some(id), ActiveState)
  }

  function ReportedRoutes(calls: seq<Call>): (r: seq<Ec2.Route>)
    requires forall c :: c in calls ==> c.CreateRoute?
    ensures |r| == |calls| && forall k :: 0 <= k < |calls| ==> r[k] == Reported(calls[k])
  {
    seq(|calls|, k requires 0 <= k < |calls| => Reported(calls[k]))
  }

  /** The desired routes as the provider would report them. */
  function DesiredHashes(routes: seq<DesiredRoute>): (r: seq<RouteHash>)
    ensures |r| == |routes|
    ensures forall k :: 0 <= k < |routes| ==>
      r[k] == RouteHash(routes[k].destinationCidrBlock, routes[k].gateway)
  {
    seq(|routes|, k requires 0 <= k < |routes| => RouteHash(routes[k].destinationCidrBlock, routes[k].gateway))
  }

  /** The reverse lookup names every resolved target by the name it was found under. */
  ghost predicate NamesResolveBack(view: RegionView, h: Helpers, region: string, routes: seq<DesiredRoute>) {
    forall r :: r in routes && TargetOf(Resolve(view, r.gateway)).Some? ==>
      h.gatewayNameFromId(region, Some(TargetOf(Resolve(view, r.gateway)).value.id)) == Some(r.gateway)
  }

  /** When no route is dropped, route translation is a pointwise map. */
  lemma {:induction false} RouteHashesAllKept(region: string, routes: seq<Ec2.Route>, h: Helpers)
    requires forall k :: 0 <= k < |routes| ==> RouteToHash(region, routes[k], h).Some?
    ensures |RouteHashes(region, routes, h)| == |routes|
    ensures forall k :: 0 <= k < |routes| ==> RouteHashes(region, routes, h)[k] == RouteToHash(region, routes[k], h).value
  {
    if |routes| > 0 {
      assert forall k :: 1 <= k < |routes| ==> routes[1..][k - 1] == routes[k];
      RouteHashesAllKept(region, routes[1..], h);
    }
  }

  /**
   * A create that succeeds, immediately listed back, reports exactly the
   * desired routes that resolved, in order, each by its desired gateway name.
   */
  lemma CreateRoundTrip(view: RegionView, h: Helpers, region: string, desired: ResourceSpec, tags: map<string, string>, tableId: string)
    requires CreateTrace(view, desired, tags, tableId).outcome.Pass?
    requires NamesResolveBack(view, h, region, desired.routes)
    ensures var created := RouteCreations(CreateTrace(view, desired, tags, tableId).calls);
      RouteHashes(region, ReportedRoutes(created), h) == DesiredHashes(Resolvable(view, desired.routes))
  {
    var created := RouteCreations(CreateTrace(view, desired, tags, tableId).calls);
    var wanted := Resolvable(view, desired.routes);
    CreateRoutesIssued(view, desired, tags, tableId);
    CreationsForResolvable(view, tableId, desired.routes);
    var reported := ReportedRoutes(created);
    forall k | 0 <= k < |reported|
      ensures RouteToHash(region, reported[k], h) == Some(RouteHash(wanted[k].destinationCidrBlock, wanted[k].gateway))
    {
      assert created[k] == CreationFor(view, tableId, wanted[k]);
      assert wanted[k] in desired.routes;
    }
    RouteHashesAllKept(region, reported, h);
  }
}
