/**
 * The helpers the provider inherits from PuppetX::Puppetlabs::Aws. Their code
 * is not part of this model, so each is an arbitrary function supplied by the
 * caller, and every property proved here holds whatever they compute.
 */
module AwsHelpers {
  import opened Wrappers
  import Ec2
  import Puppet

  datatype Helpers = Helpers(
    // name_from_tag(table)
    nameFromTag: Ec2.RouteTable -> Option<string>,
    // tags_for(table)
    tagsFor: Ec2.RouteTable -> map<string, string>,
    // gateway_name_from_id(region, id), also called with a nil id
    gatewayNameFromId: (string, Option<string>) -> Option<string>,
    // vpc_name_from_id(region, vpc_id)
    vpcNameFromId: (string, string) -> Option<string>,
    // tags_for_resource, read from the desired resource
    tagsForResource: Puppet.ResourceSpec -> map<string, string>)
}
