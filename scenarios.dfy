/** Concrete cases of create and destroy on small fixed endpoints. */
module Scenarios {
  import opened Wrappers
  import opened Ec2
  import opened Puppet
  import opened Resolution
  import opened AwsHelpers
  import opened Ec2VpcRoutetableV2

  /** An endpoint where `vpcs` VPCs are named "vpc1", only "igw1" names a gateway, and tagging fails twice. */
  function Endpoint(vpcIds: seq<string>): RegionView {
    RegionView(
      routeTables := Listed([]),
      vpcs := (name: string) => if name == "vpc1" then vpcIds else [],
      internetGateways := (name: string) => if name == "igw1" then ["igw-123"] else [],
      vpnGateways := (name: string) => [],
      peeringConnections := (name: string) => [],
      instances := (states: seq<string>, name: string) => [],
      assignedTableId := (n: nat) => "rtb-1",
      tagFailures := 2)
  }

  function Desired(gateway: string): ResourceSpec {
    ResourceSpec("rt1", Some("us-east-1"), "vpc1", [DesiredRoute("0.0.0.0/0", gateway)], map[])
  }

  /** The internet gateway case on any endpoint with one VPC "vpc1" and gateway "igw1", for any new table id. */
  lemma CreateWithInternetGatewayOn(view: RegionView, tableId: string)
    requires view.vpcs("vpc1") == ["vpc-1"] && view.internetGateways("igw1") == ["igw-123"]
    requires view.tagFailures < MaxTagTries
    ensures CreateTrace(view, Desired("igw1"), map[], tableId) ==
      Trace([DescribeVpcs("vpc1"), CreateRouteTable("vpc-1"), CreateTags(tableId, map[]),
             DescribeInternetGateways("igw1"), CreateRoute(tableId, "0.0.0.0/0", GatewayId("igw-123"))], Pass)
  {
    var routes := Desired("igw1").routes;
    assert routes[..0] == [];
    assert Lookups(view, "igw1") == [DescribeInternetGateways("igw1")];
    assert RouteTrace(view, tableId, routes[0]) ==
      Trace([DescribeInternetGateways("igw1"), CreateRoute(tableId, "0.0.0.0/0", GatewayId("igw-123"))], Pass);
    CreateTraceTagged(view, Desired("igw1"), map[], tableId);
  }

  /** One table, one tagging, one route to igw-123. */
  lemma CreateWithInternetGateway()
    ensures CreateTrace(Endpoint(["vpc-1"]), Desired("igw1"), map[], "rtb-1") ==
      Trace([DescribeVpcs("vpc1"), CreateRouteTable("vpc-1"), CreateTags("rtb-1", map[]),
             DescribeInternetGateways("igw1"), CreateRoute("rtb-1", "0.0.0.0/0", GatewayId("igw-123"))], Pass)
  {
    assert Desired("igw1").routes[..0] == [];
  }

  lemma CreateWithoutVpc()
    ensures CreateTrace(Endpoint([]), Desired("igw1"), map[], "rtb-1") ==
      Trace([DescribeVpcs("vpc1")], Fail(NoVpcs("vpc1")))
    ensures ErrorMessage(CreateTrace(Endpoint([]), Desired("igw1"), map[], "rtb-1").outcome.error) ==
      Some("No VPCs with name vpc1")
  {
    assert "No VPCs with name " + "vpc1" == "No VPCs with name vpc1";
  }

  lemma CreateWithTwoVpcs()
    ensures CreateTrace(Endpoint(["vpc-1", "vpc-2"]), Desired("igw1"), map[], "rtb-1") ==
      Trace([DescribeVpcs("vpc1")], Fail(MultipleVpcs("vpc1")))
    ensures ErrorMessage(CreateTrace(Endpoint(["vpc-1", "vpc-2"]), Desired("igw1"), map[], "rtb-1").outcome.error) ==
      Some("Multiple VPCs with name vpc1")
  {
    assert "Multiple VPCs with name " + "vpc1" == "Multiple VPCs with name vpc1";
  }

  /** A gateway name nothing answers to: all four lookups, no route, and create still succeeds. */
  lemma CreateWithUnknownGateway()
    ensures CreateTrace(Endpoint(["vpc-1"]), Desired("nowhere"), map[], "rtb-1") ==
      Trace([DescribeVpcs("vpc1"), CreateRouteTable("vpc-1"), CreateTags("rtb-1", map[]),
             DescribeInternetGateways("nowhere"), DescribeVpnGateways("nowhere"),
             DescribeVpcPeeringConnections("nowhere"), DescribeInstances(LiveInstanceStates, "nowhere")], Pass)
  {
    assert Desired("nowhere").routes[..0] == [];
  }

  /**
   * Two creates through one client: the second table gets the id the cloud
   * assigns to the second creation.
   */
  method CreateTwiceThroughOneClient() {
    var view := Endpoint(["vpc-1"]).(assignedTableId := (n: nat) => if n == 0 then "rtb-1" else "rtb-2");
    var h := Helpers(
      nameFromTag := (t: Ec2.RouteTable) => None,
      tagsFor := (t: Ec2.RouteTable) => map[],
      gatewayNameFromId := (region: string, id: Option<string>) => None,
      vpcNameFromId := (region: string, id: string) => None,
      tagsForResource := (r: ResourceSpec) => map[]);
    var ec2 := new Client(view);
    var p := new Provider(EmptyHash);
    var first := p.Create(ec2, Desired("nowhere"), h);
    assert ec2.tablesCreated == 1;
    var q := new Provider(EmptyHash);
    var second := q.Create(ec2, Desired("igw1"), h);
    assert ec2.tablesCreated == 2;
    CreateWithInternetGatewayOn(view, "rtb-2");
    assert second.Pass? && q.Exists();
    assert ec2.calls[|ec2.calls| - 1] == CreateRoute("rtb-2", "0.0.0.0/0", GatewayId("igw-123"));
  }

  /** destroy of the provider of rtb-999 deletes rtb-999 once and leaves it absent. */
  method DestroyKnownTable() {
    var ec2 := new Client(Endpoint(["vpc-1"]));
    var p := new Provider(EmptyHash.(name := Some("rt1"), id := Some("rtb-999"), ensure := Some(Present)));
    assert p.Exists();
    p.Destroy(ec2);
    assert ec2.calls == [DeleteRouteTable(Some("rtb-999"))];
    assert !p.Exists() && p.propertyHash.ensure == Some(Absent);
  }
}
