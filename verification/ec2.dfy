/**
 * The networking helpers of aws/aws.ts (createVpc, createInternetGateway,
 * createSubnet, createRouteTable, createRouteTableAssociation,
 * createMainRouteTableAssociation) and their earlier copy in index.ts.
 *
 * Each helper is modelled as the resource name and the argument record it
 * hands to the provider's resource constructor. The stack name and the
 * region name the helpers look up become a `Context`; the ids and URNs of
 * resources created earlier become the strings of a `Handle`.
 */
module Ec2 {
  import opened Wrappers
  import opened Strings

  /** Value of the CreatedBy tag on every tagged resource. */
  const CreatedByTag: string := "Pulumi"

  /** The VPC address range used when the caller gives none. */
  const DefaultVpcCidrBlock: string := "10.0.0.0/16"

  /** Destination of the route table's single route: every IPv4 address. */
  const DefaultRouteCidrBlock: string := "0.0.0.0/0"

  /** What the helpers look up before building: the stack name and the region's name. */
  datatype Context = Context(stack: string, region: string)

  /** A resource registered earlier, through its resolved `id` and `urn` outputs. */
  datatype Handle = Handle(id: string, urn: string)

  /** Resource tags, a string-to-string dictionary. */
  type Tags = map<string, string>

  datatype VpcArgs = VpcArgs(cidrBlock: string, enableDnsHostnames: bool, tags: Tags)

  datatype InternetGatewayArgs = InternetGatewayArgs(tags: Tags, vpcId: string)

  datatype SubnetArgs = SubnetArgs(
    cidrBlock: string,
    vpcId: string,
    availabilityZone: string,
    mapPublicIpOnLaunch: bool,
    tags: Tags)

  datatype Route = Route(cidrBlock: string, gatewayId: string)

  datatype RouteTableArgs = RouteTableArgs(vpcId: string, routes: seq<Route>, tags: Tags)

  datatype RouteTableAssociationArgs = RouteTableAssociationArgs(routeTableId: string, subnetId: string)

  datatype MainRouteTableAssociationArgs = MainRouteTableAssociationArgs(routeTableId: string, vpcId: string)

  /** A resource as the helpers describe it: the logical name and the constructor's arguments. */
  datatype Resource<A> = Resource(name: string, args: A)

  /** What a subnet's name encodes besides the stack and the region. */
  datatype SubnetKey = SubnetKey(isPublic: bool, zone: string)

  // ---------------------------------------------------------------------------
  // The naming and tagging convention

  function StandardTags(stack: string): Tags {
    map["Name" := stack, "CreatedBy" := CreatedByTag]
  }

  function Visibility(isPublic: bool): string {
    if isPublic then "public" else "private"
  }

  /** Name shared by the VPC, the internet gateway and the route table. */
  function StackRegionName(ctx: Context): string {
    ctx.stack + " - " + ctx.region
  }

  /** Everything in a subnet's name before the zone suffix. */
  function SubnetNamePrefix(ctx: Context, isPublic: bool): string {
    Visibility(isPublic) + " - " + ctx.stack + " - " + ctx.region
  }

  function SubnetName(ctx: Context, isPublic: bool, zone: string): string {
    SubnetNamePrefix(ctx, isPublic) + zone
  }

  /** Everything in a subnet's Name tag before the zone suffix. */
  function SubnetTagNamePrefix(region: string, isPublic: bool): string {
    Visibility(isPublic) + " - " + region
  }

  function SubnetTagName(region: string, isPublic: bool, zone: string): string {
    SubnetTagNamePrefix(region, isPublic) + zone
  }

  /** Reads the visibility and the zone back out of a subnet name of stack and region `ctx`. */
  function ParseSubnetName(ctx: Context, name: string): Option<SubnetKey> {
    match StripPrefix(name, SubnetNamePrefix(ctx, true))
    case Some(zone) => Some(SubnetKey(true, zone))
    case None =>
      match StripPrefix(name, SubnetNamePrefix(ctx, false))
      case Some(zone) => Some(SubnetKey(false, zone))
      case None => None
  }

  /** Reads the visibility and the zone back out of a subnet's Name tag in `region`. */
  function ParseSubnetTagName(region: string, name: string): Option<SubnetKey> {
    match StripPrefix(name, SubnetTagNamePrefix(region, true))
    case Some(zone) => Some(SubnetKey(true, zone))
    case None =>
      match StripPrefix(name, SubnetTagNamePrefix(region, false))
      case Some(zone) => Some(SubnetKey(false, zone))
      case None => None
  }

  /** "public..." and "private..." differ at their second character. */
  lemma VisibilitiesDisagree(s: string, isPublic: bool, tail: string)
    requires StartsWith(s, Visibility(isPublic) + tail)
    ensures !StartsWith(s, Visibility(!isPublic))
  {
    MismatchNotBothPrefixes(s, Visibility(!isPublic), Visibility(isPublic) + tail, 1);
  }

  lemma {:induction false} SubnetNameRoundTrip(ctx: Context, isPublic: bool, zone: string)
    ensures ParseSubnetName(ctx, SubnetName(ctx, isPublic, zone)) == Some(SubnetKey(isPublic, zone))
  {
    var name := SubnetName(ctx, isPublic, zone);
    assert name == SubnetNamePrefix(ctx, isPublic) + zone;
    StripPrefixOfConcat(SubnetNamePrefix(ctx, isPublic), zone);
    if !isPublic {
      var tail := " - " + ctx.stack + " - " + ctx.region;
      assert SubnetNamePrefix(ctx, false) == Visibility(false) + tail;
      assert StartsWith(name, Visibility(false) + tail);
      VisibilitiesDisagree(name, false, tail);
      assert StripPrefix(name, SubnetNamePrefix(ctx, true)) == None;
    }
  }

  lemma {:induction false} SubnetTagNameRoundTrip(region: string, isPublic: bool, zone: string)
    ensures ParseSubnetTagName(region, SubnetTagName(region, isPublic, zone)) == Some(SubnetKey(isPublic, zone))
  {
    var name := SubnetTagName(region, isPublic, zone);
    assert name == SubnetTagNamePrefix(region, isPublic) + zone;
    StripPrefixOfConcat(SubnetTagNamePrefix(region, isPublic), zone);
    if !isPublic {
      var tail := " - " + region;
      assert StartsWith(name, Visibility(false) + tail);
      VisibilitiesDisagree(name, false, tail);
      assert StripPrefix(name, SubnetTagNamePrefix(region, true)) == None;
    }
  }

  // ---------------------------------------------------------------------------
  // The helpers

  /** createVpc: `cidrBlock` None stands for the omitted argument. */
  function CreateVpc(ctx: Context, cidrBlock: Option<string>): (r: Resource<VpcArgs>)
    ensures r.name == ctx.stack + " - " + ctx.region
    ensures cidrBlock.Some? ==> r.args.cidrBlock == cidrBlock.value
    ensures cidrBlock.None? ==> r.args.cidrBlock == "10.0.0.0/16"
    ensures r.args.enableDnsHostnames
    ensures r.args.tags.Keys == {"Name", "CreatedBy"}
    ensures r.args.tags["Name"] == ctx.stack && r.args.tags["CreatedBy"] == "Pulumi"
  {
    Resource(StackRegionName(ctx),
      VpcArgs(cidrBlock.GetOr(DefaultVpcCidrBlock), true, StandardTags(ctx.stack)))
  }

  function CreateInternetGateway(ctx: Context, vpc: Handle): (r: Resource<InternetGatewayArgs>)
    ensures r.name == ctx.stack + " - " + ctx.region
    ensures r.args.vpcId == vpc.id
    ensures r.args.tags.Keys == {"Name", "CreatedBy"}
    ensures r.args.tags["Name"] == ctx.stack && r.args.tags["CreatedBy"] == "Pulumi"
  {
    Resource(StackRegionName(ctx), InternetGatewayArgs(StandardTags(ctx.stack), vpc.id))
  }

  /**
   * createSubnet: `isPublic` None stands for the omitted argument. The name
   * gives back exactly the visibility and the zone it was built from, and
   * so does the Name tag, which leaves the stack out.
   */
  function CreateSubnet(ctx: Context, cidrBlock: string, vpc: Handle, availabilityZone: string, isPublic: Option<bool>)
    : (r: Resource<SubnetArgs>)
    ensures ParseSubnetName(ctx, r.name) == Some(SubnetKey(isPublic == Some(true), availabilityZone))
    ensures r.args.cidrBlock == cidrBlock && r.args.vpcId == vpc.id
    ensures r.args.availabilityZone == ctx.region + availabilityZone
    ensures r.args.mapPublicIpOnLaunch <==> isPublic == Some(true)
    ensures r.args.tags.Keys == {"Name", "CreatedBy"} && r.args.tags["CreatedBy"] == "Pulumi"
    ensures ParseSubnetTagName(ctx.region, r.args.tags["Name"])
         == Some(SubnetKey(isPublic == Some(true), availabilityZone))
  {
    var public := isPublic.GetOr(false);
    SubnetNameRoundTrip(ctx, public, availabilityZone);
    SubnetTagNameRoundTrip(ctx.region, public, availabilityZone);
    Resource(SubnetName(ctx, public, availabilityZone),
      SubnetArgs(cidrBlock, vpc.id, ctx.region + availabilityZone, public,
        map["Name" := SubnetTagName(ctx.region, public, availabilityZone), "CreatedBy" := CreatedByTag]))
  }

  function CreateRouteTable(ctx: Context, vpc: Handle, internetGateway: Handle): (r: Resource<RouteTableArgs>)
    ensures r.name == ctx.stack + " - " + ctx.region
    ensures r.args.vpcId == vpc.id
    ensures |r.args.routes| == 1
    ensures r.args.routes[0].cidrBlock == "0.0.0.0/0" && r.args.routes[0].gatewayId == internetGateway.id
    ensures r.args.tags.Keys == {"Name", "CreatedBy"}
    ensures r.args.tags["Name"] == ctx.stack && r.args.tags["CreatedBy"] == "Pulumi"
  {
    Resource(StackRegionName(ctx),
      RouteTableArgs(vpc.id, [Route(DefaultRouteCidrBlock, internetGateway.id)], StandardTags(ctx.stack)))
  }

  /**
   * createRouteTableAssociation: the name reads "<subnet urn> -> <route table urn>";
   * knowing either URN, the name gives back the other.
   */
  function CreateRouteTableAssociation(routeTable: Handle, subnet: Handle): (r: Resource<RouteTableAssociationArgs>)
    ensures StripPrefix(r.name, subnet.urn + " -> ") == Some(routeTable.urn)
    ensures StripSuffix(r.name, " -> " + routeTable.urn) == Some(subnet.urn)
    ensures r.args.routeTableId == routeTable.id && r.args.subnetId == subnet.id
  {
    var name := subnet.urn + " -> " + routeTable.urn;
    StripPrefixOfConcat(subnet.urn + " -> ", routeTable.urn);
    assert name == subnet.urn + (" -> " + routeTable.urn);
    StripSuffixOfConcat(subnet.urn, " -> " + routeTable.urn);
    Resource(name, RouteTableAssociationArgs(routeTable.id, subnet.id))
  }

  /** createMainRouteTableAssociation: the name is the route table's URN followed by " -> main". */
  function CreateMainRouteTableAssociation(routeTable: Handle, vpc: Handle): (r: Resource<MainRouteTableAssociationArgs>)
    ensures StripSuffix(r.name, " -> main") == Some(routeTable.urn)
    ensures r.args.routeTableId == routeTable.id && r.args.vpcId == vpc.id
  {
    StripSuffixOfConcat(routeTable.urn, " -> main");
    Resource(routeTable.urn + " -> main", MainRouteTableAssociationArgs(routeTable.id, vpc.id))
  }
}
