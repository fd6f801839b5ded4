/**
 * The Puppet-side values of the ec2_vpc_routetable resource: the property
 * hash a provider carries, the desired resource it is asked to realise, and
 * the error raised when listing fails.
 */
module Puppet {
  import opened Wrappers

  const ResourceTypeName := "ec2_vpc_routetable"

  datatype Ensure = Present | Absent

  /** A route as the provider reports it: a destination and the NAME of its target. */
  datatype RouteHash = RouteHash(destinationCidrBlock: string, gateway: string)

  /**
   * A provider's @property_hash. Each field is the value read at that key,
   * None where the key is missing or holds nil.
   */
  datatype PropertyHash = PropertyHash(
    name: Option<string>,
    id: Option<string>,
    vpc: Option<string>,
    ensure: Option<Ensure>,
    routes: Option<seq<RouteHash>>,
    region: Option<string>,
    tags: Option<map<string, string>>)

  /** The empty hash `{}`. */
  const EmptyHash := PropertyHash(None, None, None, None, None, None, None)

  /** has_name?: the hash carries a non-empty name. */
  predicate HasName(hash: PropertyHash) {
    hash.name.Some? && hash.name.value != ""
  }

  /** One entry of the desired `routes` property. */
  datatype DesiredRoute = DesiredRoute(destinationCidrBlock: string, gateway: string)

  /** The desired resource: the values of resource[:name], [:region], [:vpc], [:routes], [:tags]. */
  datatype ResourceSpec = ResourceSpec(
    name: string,
    region: Option<string>,
    vpc: string,
    routes: seq<DesiredRoute>,
    tags: map<string, string>)

  /** FetchingAWSDataError: listing failed in a region for a resource type. */
  datatype FetchError = FetchingAwsDataError(region: string, resourceType: string, message: string)
}
