/**
 * Reverse translation: from the route tables EC2 reports to the property
 * hashes the provider exposes (route_to_hash and route_table_to_hash).
 */
module RouteTranslation {
  import opened Wrappers
  import opened Ec2
  import opened Puppet
  import opened AwsHelpers

  const ActiveState := "active"

  /** Reference definition: the first present id of a list, None when every one is nil. */
  function FirstPresent(ids: seq<Option<string>>): (r: Option<string>)
    ensures r.None? <==> forall i :: 0 <= i < |ids| ==> ids[i].None?
    ensures r.Some? ==> exists i :: 0 <= i < |ids| && ids[i] == r && forall j :: 0 <= j < i ==> ids[j].None?
  {
    if |ids| == 0 then None
    else if ids[0].Some? then ids[0]
    else
      var rest := FirstPresent(ids[1..]);
      assert forall i :: 1 <= i < |ids| ==> ids[i] == ids[1..][i - 1];
      rest
  }

  /** The target id of a route: gateway, then peering connection, then network interface. */
  function TargetId(route: Ec2.Route): (r: Option<string>)
    ensures r == FirstPresent([route.gatewayId, route.vpcPeeringConnectionId, route.networkInterfaceId])
  {
    var ids := [route.gatewayId, route.vpcPeeringConnectionId, route.networkInterfaceId];
    assert ids[1..][1..] == [route.networkInterfaceId] && ids[1..][1..][1..] == [];
    assert FirstPresent(ids[1..][1..]) == route.networkInterfaceId;
    if route.gatewayId.Some? then route.gatewayId
    else if route.vpcPeeringConnectionId.Some? then route.vpcPeeringConnectionId
    else if route.networkInterfaceId.Some? then route.networkInterfaceId
    else None
  }

  /**
   * route_to_hash: a route survives only when it is active and its target
   * has a name; it is then reported by that name, never by its raw id.
   */
  function RouteToHash(region: string, route: Ec2.Route, h: Helpers): (r: Option<RouteHash>)
    ensures r.Some? <==> route.state == ActiveState && h.gatewayNameFromId(region, TargetId(route)).Some?
    ensures r.Some? ==>
      && r.value.destinationCidrBlock == route.destinationCidrBlock
      && Some(r.value.gateway) == h.gatewayNameFromId(region, TargetId(route))
  {
    var gatewayName := if route.state == ActiveState then h.gatewayNameFromId(region, TargetId(route)) else None;
    if gatewayName.None? then None
    else Some(RouteHash(route.destinationCidrBlock, gatewayName.value))
  }

  /** The `collect ... compact` of route_table_to_hash: the translated routes that survive. */
  function RouteHashes(region: string, routes: seq<Ec2.Route>, h: Helpers): (r: seq<RouteHash>)
    ensures |r| <= |routes|
  {
    if |routes| == 0 then []
    else
      (match RouteToHash(region, routes[0], h)
       case Some(x) => [x]
       case None => []) + RouteHashes(region, routes[1..], h)
  }

  /** Translating a concatenation translates each part, in order. */
  lemma {:induction false} RouteHashesAppend(region: string, a: seq<Ec2.Route>, b: seq<Ec2.Route>, h: Helpers)
    ensures RouteHashes(region, a + b, h) == RouteHashes(region, a, h) + RouteHashes(region, b, h)
  {
    if |a| == 0 {
      assert a + b == b;
    } else {
      assert (a + b)[1..] == a[1..] + b;
      RouteHashesAppend(region, a[1..], b, h);
    }
  }

  /** A single route is kept, translated, exactly when route_to_hash does not give nil. */
  lemma RouteHashesSingle(region: string, route: Ec2.Route, h: Helpers)
    ensures RouteHashes(region, [route], h) ==
      match RouteToHash(region, route, h) case Some(x) => [x] case None => []
  {
    assert [route][1..] == [];
  }

  /** A route hash is reported exactly when some input route translates to it. */
  lemma {:induction false} RouteHashesMembership(region: string, routes: seq<Ec2.Route>, h: Helpers, x: RouteHash)
    ensures x in RouteHashes(region, routes, h) <==> exists i :: 0 <= i < |routes| && RouteToHash(region, routes[i], h) == Some(x)
  {
    if |routes| > 0 {
      RouteHashesMembership(region, routes[1..], h, x);
      assert forall i :: 1 <= i < |routes| ==> routes[i] == routes[1..][i - 1];
      if exists i :: 0 <= i < |routes| && RouteToHash(region, routes[i], h) == Some(x) {
        var i :| 0 <= i < |routes| && RouteToHash(region, routes[i], h) == Some(x);
        if i > 0 {
          assert RouteToHash(region, routes[1..][i - 1], h) == Some(x);
        }
      }
    }
  }

  /** No inactive route, and no route whose target has no name, is ever reported. */
  lemma {:induction false} RouteHashesDropsUnresolved(region: string, routes: seq<Ec2.Route>, h: Helpers)
    ensures |RouteHashes(region, routes, h)| == |routes| <==>
      forall i :: 0 <= i < |routes| ==> RouteToHash(region, routes[i], h).Some?
  {
    if |routes| > 0 {
      RouteHashesDropsUnresolved(region, routes[1..], h);
      assert forall i :: 1 <= i < |routes| ==> routes[i] == routes[1..][i - 1];
    }
  }

  /**
   * route_table_to_hash: `{}` for a table without a name tag; otherwise the
   * table's attributes, with ensure present and the region it was read from.
   */
  function RouteTableToHash(region: string, table: Ec2.RouteTable, h: Helpers): (r: PropertyHash)
    ensures r.name == h.nameFromTag(table)
    ensures r == EmptyHash <==> h.nameFromTag(table).None?
    ensures r.name.Some? ==>
      && r.id == Some(table.routeTableId)
      && r.ensure == Some(Present)
      && r.region == Some(region)
      && r.vpc == h.vpcNameFromId(region, table.vpcId)
      && r.routes == Some(RouteHashes(region, table.routes, h))
      && r.tags == Some(h.tagsFor(table))
  {
    var name := h.nameFromTag(table);
    if name.None? then EmptyHash
    else
      PropertyHash(
        name := name,
        id := Some(table.routeTableId),
        vpc := h.vpcNameFromId(region, table.vpcId),
        ensure := Some(Present),
        routes := Some(RouteHashes(region, table.routes, h)),
        region := Some(region),
        tags := Some(h.tagsFor(table)))
  }
}
