/**
 * An abstract, deterministic view of the EC2 API of one region, and a client
 * object that answers from that view and records every call it is asked to
 * make. The describe_* calls become lookups in the view; the create_* and
 * delete_* calls only append to the record.
 */
module Ec2 {
  import opened Wrappers

  /** A route as describe_route_tables reports it. */
  datatype Route = Route(
    destinationCidrBlock: string,
    gatewayId: Option<string>,
    vpcPeeringConnectionId: Option<string>,
    networkInterfaceId: Option<string>,
    state: string)

  datatype Tag = Tag(key: string, value: string)

  /** A route table as describe_route_tables reports it. */
  datatype RouteTable = RouteTable(
    routeTableId: string,
    vpcId: string,
    routes: seq<Route>,
    tags: seq<Tag>)

  /** An instance, reduced to the ids of its network interfaces in reported order. */
  datatype Instance = Instance(networkInterfaceIds: seq<string>)

  /** A reservation of describe_instances, with its instances in reported order. */
  datatype Reservation = Reservation(instances: seq<Instance>)

  /** The answer to describe_route_tables: the tables, or the message of the error raised. */
  datatype Listing = Listed(tables: seq<RouteTable>) | ListingFailed(message: string)

  /**
   * What the EC2 endpoint of one region answers. Each tag lookup takes the
   * value of the `tag:Name` filter and gives the ids of the matching objects
   * in the order the API reports them.
   */
  datatype RegionView = RegionView(
    routeTables: Listing,
    vpcs: string -> seq<string>,
    internetGateways: string -> seq<string>,
    vpnGateways: string -> seq<string>,
    peeringConnections: string -> seq<string>,
    // describe_instances, filtered by instance-state-name (first argument) and tag:Name
    instances: (seq<string>, string) -> seq<Reservation>,
    // the id the cloud gives to the n-th route table created through this endpoint
    assignedTableId: nat -> string,
    // how many create_tags attempts fail transiently before one succeeds
    tagFailures: nat)

  /** The one target field a create_route call carries. */
  datatype Target =
    | GatewayId(id: string)
    | VpcPeeringConnectionId(id: string)
    | NetworkInterfaceId(id: string)

  /** A call issued to the EC2 API, with the arguments this provider passes. */
  datatype Call =
    | DescribeVpcs(vpcName: string)
    | CreateRouteTable(vpcId: string)
    | CreateTags(resourceId: string, tags: map<string, string>)
    | DescribeInternetGateways(gatewayName: string)
    | DescribeVpnGateways(gatewayName: string)
    | DescribeVpcPeeringConnections(gatewayName: string)
    | DescribeInstances(instanceStates: seq<string>, gatewayName: string)
    | CreateRoute(routeTableId: string, destinationCidrBlock: string, target: Target)
    | DeleteRouteTable(deletedId: Option<string>)

  /** The calls that change the cloud; the others only read it. */
  predicate IsMutation(c: Call) {
    c.CreateRouteTable? || c.CreateTags? || c.CreateRoute? || c.DeleteRouteTable?
  }

  /** An EC2 client bound to one region. */
  class Client {
    const view: RegionView
    // every call issued through this client, oldest first
    var calls: seq<Call>
    // how many route tables this client has created
    var tablesCreated: nat

    constructor (view: RegionView)
      ensures this.view == view && calls == [] && tablesCreated == 0
    {
      this.view := view;
      calls := [];
      tablesCreated := 0;
    }

    method DescribeVpcs(vpcName: string) returns (vpcIds: seq<string>)
      modifies this
      ensures vpcIds == view.vpcs(vpcName)
      ensures calls == old(calls) + [Call.DescribeVpcs(vpcName)]
      ensures tablesCreated == old(tablesCreated)
    {
      vpcIds := view.vpcs(vpcName);
      calls := calls + [Call.DescribeVpcs(vpcName)];
    }

    method CreateRouteTable(vpcId: string) returns (routeTableId: string)
      modifies this
      ensures routeTableId == view.assignedTableId(old(tablesCreated))
      ensures calls == old(calls) + [Call.CreateRouteTable(vpcId)]
      ensures tablesCreated == old(tablesCreated) + 1
    {
      routeTableId := view.assignedTableId(tablesCreated);
      calls := calls + [Call.CreateRouteTable(vpcId)];
      tablesCreated := tablesCreated + 1;
    }

    /**
     * create_tags under a retry policy of at most maxTries attempts. Failed
     * attempts change nothing and leave no entry; the attempt that succeeds
     * is recorded.
     */
    method CreateTags(resourceId: string, tags: map<string, string>, maxTries: nat) returns (tagged: bool)
      modifies this
      ensures tagged <==> view.tagFailures < maxTries
      ensures calls == old(calls) + (if tagged then [Call.CreateTags(resourceId, tags)] else [])
      ensures tablesCreated == old(tablesCreated)
    {
      tagged := view.tagFailures < maxTries;
      if tagged {
        calls := calls + [Call.CreateTags(resourceId, tags)];
      }
    }

    method DescribeInternetGateways(gatewayName: string) returns (gatewayIds: seq<string>)
      modifies this
      ensures gatewayIds == view.internetGateways(gatewayName)
      ensures calls == old(calls) + [Call.DescribeInternetGateways(gatewayName)]
      ensures tablesCreated == old(tablesCreated)
    {
      gatewayIds := view.internetGateways(gatewayName);
      calls := calls + [Call.DescribeInternetGateways(gatewayName)];
    }

    method DescribeVpnGateways(gatewayName: string) returns (gatewayIds: seq<string>)
      modifies this
      ensures gatewayIds == view.vpnGateways(gatewayName)
      ensures calls == old(calls) + [Call.DescribeVpnGateways(gatewayName)]
      ensures tablesCreated == old(tablesCreated)
    {
      gatewayIds := view.vpnGateways(gatewayName);
      calls := calls + [Call.DescribeVpnGateways(gatewayName)];
    }

    method DescribeVpcPeeringConnections(gatewayName: string) returns (connectionIds: seq<string>)
      modifies this
      ensures connectionIds == view.peeringConnections(gatewayName)
      ensures calls == old(calls) + [Call.DescribeVpcPeeringConnections(gatewayName)]
      ensures tablesCreated == old(tablesCreated)
    {
      connectionIds := view.peeringConnections(gatewayName);
      calls := calls + [Call.DescribeVpcPeeringConnections(gatewayName)];
    }

    method DescribeInstances(instanceStates: seq<string>, gatewayName: string) returns (reservations: seq<Reservation>)
      modifies this
      ensures reservations == view.instances(instanceStates, gatewayName)
      ensures calls == old(calls) + [Call.DescribeInstances(instanceStates, gatewayName)]
      ensures tablesCreated == old(tablesCreated)
    {
      reservations := view.instances(instanceStates, gatewayName);
      calls := calls + [Call.DescribeInstances(instanceStates, gatewayName)];
    }

    method CreateRoute(routeTableId: string, destinationCidrBlock: string, target: Target)
      modifies this
      ensures calls == old(calls) + [Call.CreateRoute(routeTableId, destinationCidrBlock, target)]
      ensures tablesCreated == old(tablesCreated)
    {
      calls := calls + [Call.CreateRoute(routeTableId, destinationCidrBlock, target)];
    }

    method DeleteRouteTable(routeTableId: Option<string>)
      modifies this
      ensures calls == old(calls) + [Call.DeleteRouteTable(routeTableId)]
      ensures tablesCreated == old(tablesCreated)
    {
      calls := calls + [Call.DeleteRouteTable(routeTableId)];
    }
  }
}
