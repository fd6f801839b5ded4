/**
 * The snapshot taken by `instances`: the property hashes of every named
 * route table of every region, in region order and then in reported order.
 */
module Snapshot {
  import opened Wrappers
  import opened Ec2
  import opened Puppet
  import opened AwsHelpers
  import opened RouteTranslation

  /** The hashes kept from one region's listing: those of the named tables, in order. */
  function RegionHashes(region: string, tables: seq<Ec2.RouteTable>, h: Helpers): (r: seq<PropertyHash>)
    ensures |r| <= |tables|
    ensures forall i :: 0 <= i < |r| ==>
      HasName(r[i]) && r[i].ensure == Some(Present) && r[i].region == Some(region)
  {
    if |tables| == 0 then []
    else
      var hash := RouteTableToHash(region, tables[|tables| - 1], h);
      RegionHashes(region, tables[..|tables| - 1], h) + (if HasName(hash) then [hash] else [])
  }

  /**
   * The snapshot of a list of regions; the first region whose listing fails
   * makes the whole snapshot fail with a fetch error naming that region.
   */
  function SnapshotOf(regions: seq<string>, cloud: string -> RegionView, h: Helpers): (r: Result<seq<PropertyHash>, FetchError>)
    ensures r.Err? ==> r.error.resourceType == ResourceTypeName
    ensures r.Ok? ==> forall k :: 0 <= k < |r.value| ==>
      HasName(r.value[k]) && r.value[k].ensure == Some(Present) && r.value[k].region.Some?
  {
    if |regions| == 0 then Ok([])
    else
      var region := regions[|regions| - 1];
      match SnapshotOf(regions[..|regions| - 1], cloud, h)
      case Err(e) => Err(e)
      case Ok(earlier) =>
        match cloud(region).routeTables
        case ListingFailed(message) => Err(FetchingAwsDataError(region, ResourceTypeName, message))
        case Listed(tables) => Ok(earlier + RegionHashes(region, tables, h))
  }

  /** A hash is kept from a region exactly when it is the hash of one of its tables and is named. */
  lemma {:induction false} RegionHashesMembership(region: string, tables: seq<Ec2.RouteTable>, h: Helpers, x: PropertyHash)
    ensures x in RegionHashes(region, tables, h) <==>
      HasName(x) && exists t :: t in tables && x == RouteTableToHash(region, t, h)
  {
    if |tables| > 0 {
      var front := tables[..|tables| - 1];
      RegionHashesMembership(region, front, h, x);
      assert tables == front + [tables[|tables| - 1]];
      if HasName(x) && exists t :: t in tables && x == RouteTableToHash(region, t, h) {
        var t :| t in tables && x == RouteTableToHash(region, t, h);
        if t != tables[|tables| - 1] {
          assert t in front;
        }
      }
    }
  }

  /** Every entity of a snapshot is named, present and read from one of its regions. */
  lemma {:induction false} SnapshotSound(regions: seq<string>, cloud: string -> RegionView, h: Helpers, x: PropertyHash)
    requires SnapshotOf(regions, cloud, h).Ok?
    requires x in SnapshotOf(regions, cloud, h).value
    ensures HasName(x) && x.ensure == Some(Present)
    ensures exists i :: (0 <= i < |regions| && x.region == Some(regions[i]) &&
                         cloud(regions[i]).routeTables.Listed? &&
                         exists t :: t in cloud(regions[i]).routeTables.tables && x == RouteTableToHash(regions[i], t, h))
  {
    var n := |regions|;
    var region := regions[n - 1];
    var earlier := SnapshotOf(regions[..n - 1], cloud, h).value;
    var tables := cloud(region).routeTables.tables;
    if x in earlier {
      assert forall j :: 0 <= j < n - 1 ==> regions[..n - 1][j] == regions[j];
      SnapshotSound(regions[..n - 1], cloud, h, x);
    } else {
      assert x in RegionHashes(region, tables, h);
      RegionHashesMembership(region, tables, h, x);
      var t :| t in tables && x == RouteTableToHash(region, t, h);
    }
  }

  /** Every named table of every region is in a successful snapshot. */
  lemma {:induction false} SnapshotComplete(regions: seq<string>, cloud: string -> RegionView, h: Helpers, i: nat, t: Ec2.RouteTable)
    requires SnapshotOf(regions, cloud, h).Ok?
    requires i < |regions|
    ensures cloud(regions[i]).routeTables.Listed?
    ensures t in cloud(regions[i]).routeTables.tables && HasName(RouteTableToHash(regions[i], t, h)) ==>
      RouteTableToHash(regions[i], t, h) in SnapshotOf(regions, cloud, h).value
  {
    var n := |regions|;
    if i < n - 1 {
      SnapshotComplete(regions[..n - 1], cloud, h, i, t);
      assert regions[..n - 1][i] == regions[i];
    } else if t in cloud(regions[i]).routeTables.tables {
      RegionHashesMembership(regions[i], cloud(regions[i]).routeTables.tables, h, RouteTableToHash(regions[i], t, h));
    }
  }

  /**
   * A snapshot fails exactly when some region's listing fails, and then with
   * the error of the first such region.
   */
  lemma {:induction false} SnapshotFailure(regions: seq<string>, cloud: string -> RegionView, h: Helpers)
    ensures SnapshotOf(regions, cloud, h).Err? <==>
      exists i :: 0 <= i < |regions| && cloud(regions[i]).routeTables.ListingFailed?
    ensures SnapshotOf(regions, cloud, h).Err? ==>
      exists i :: 0 <= i < |regions| && cloud(regions[i]).routeTables.ListingFailed? &&
        SnapshotOf(regions, cloud, h).error ==
          FetchingAwsDataError(regions[i], ResourceTypeName, cloud(regions[i]).routeTables.message) &&
        forall j :: 0 <= j < i ==> cloud(regions[j]).routeTables.Listed?
  {
    var n := |regions|;
    if n > 0 {
      var front := regions[..n - 1];
      SnapshotFailure(front, cloud, h);
      assert forall j :: 0 <= j < n - 1 ==> front[j] == regions[j];
      if SnapshotOf(front, cloud, h).Err? {
        var i :| 0 <= i < n - 1 && cloud(front[i]).routeTables.ListingFailed? &&
          SnapshotOf(front, cloud, h).error ==
            FetchingAwsDataError(front[i], ResourceTypeName, cloud(front[i]).routeTables.message) &&
          forall j :: 0 <= j < i ==> cloud(front[j]).routeTables.Listed?;
        assert front[i] == regions[i];
      }
    }
  }
}
