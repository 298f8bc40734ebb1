/**
 * What the naming and tagging convention of the networking helpers
 * guarantees across calls: which resources share a name and tags, which
 * names can never collide, and what the helper tests expect.
 */
module Ec2Conventions {
  import opened Wrappers
  import opened Strings
  import opened Ec2

  /** The internet gateway of a stack and region carries the VPC's name and tags, and points at the VPC. */
  lemma GatewayMatchesVpc(ctx: Context, cidrBlock: Option<string>, vpc: Handle)
    ensures CreateInternetGateway(ctx, vpc).name == CreateVpc(ctx, cidrBlock).name
    ensures CreateInternetGateway(ctx, vpc).args.tags == CreateVpc(ctx, cidrBlock).args.tags
    ensures CreateInternetGateway(ctx, vpc).args.vpcId == vpc.id
  {
  }

  /**
   * The route table carries the VPC's name and tags, and its only route
   * sends every destination to the gateway.
   */
  lemma RouteTableMatchesVpc(ctx: Context, cidrBlock: Option<string>, vpc: Handle, internetGateway: Handle)
    ensures CreateRouteTable(ctx, vpc, internetGateway).name == CreateVpc(ctx, cidrBlock).name
    ensures CreateRouteTable(ctx, vpc, internetGateway).args.tags == CreateVpc(ctx, cidrBlock).args.tags
    ensures CreateRouteTable(ctx, vpc, internetGateway).args.routes
         == [Route("0.0.0.0/0", internetGateway.id)]
  {
  }

  /**
   * Within one stack and region, two subnets get the same name exactly when
   * they have the same visibility and the same zone suffix; in particular a
   * public and a private subnet in one zone never share a name.
   */
  lemma SubnetNamesDistinct(
    ctx: Context,
    cidr1: string, vpc1: Handle, zone1: string, isPublic1: Option<bool>,
    cidr2: string, vpc2: Handle, zone2: string, isPublic2: Option<bool>)
    ensures CreateSubnet(ctx, cidr1, vpc1, zone1, isPublic1).name == CreateSubnet(ctx, cidr2, vpc2, zone2, isPublic2).name
        <==> (isPublic1 == Some(true)) == (isPublic2 == Some(true)) && zone1 == zone2
  {
  }

  /** Within one region, subnet Name tags coincide exactly when visibility and zone do. */
  lemma SubnetTagNamesDistinct(
    ctx: Context,
    cidr1: string, vpc1: Handle, zone1: string, isPublic1: Option<bool>,
    cidr2: string, vpc2: Handle, zone2: string, isPublic2: Option<bool>)
    ensures CreateSubnet(ctx, cidr1, vpc1, zone1, isPublic1).args.tags["Name"]
         == CreateSubnet(ctx, cidr2, vpc2, zone2, isPublic2).args.tags["Name"]
        <==> (isPublic1 == Some(true)) == (isPublic2 == Some(true)) && zone1 == zone2
  {
  }

  /** A subnet's tags do not depend on the stack: the Name tag leaves the stack out. */
  lemma SubnetTagsIgnoreStack(
    stack1: string, stack2: string, region: string,
    cidrBlock: string, vpc: Handle, zone: string, isPublic: Option<bool>)
    ensures CreateSubnet(Context(stack1, region), cidrBlock, vpc, zone, isPublic).args.tags
         == CreateSubnet(Context(stack2, region), cidrBlock, vpc, zone, isPublic).args.tags
  {
  }

  /** The visibility comes first: a subnet's name starts with "public - " exactly when it is public. */
  lemma SubnetNameStartsWithVisibility(ctx: Context, cidrBlock: string, vpc: Handle, zone: string, isPublic: Option<bool>)
    ensures StartsWith(CreateSubnet(ctx, cidrBlock, vpc, zone, isPublic).name, "public - ") <==> isPublic == Some(true)
    ensures StartsWith(CreateSubnet(ctx, cidrBlock, vpc, zone, isPublic).name, "private - ") <==> isPublic != Some(true)
  {
    var public := isPublic == Some(true);
    var rest := ctx.stack + " - " + ctx.region + zone;
    var name := CreateSubnet(ctx, cidrBlock, vpc, zone, isPublic).name;
    assert name == Visibility(public) + " - " + rest by {
      assert name == SubnetName(ctx, public, zone);
    }
    VisibilityLeads(public, rest);
  }

  lemma VisibilityLeads(isPublic: bool, rest: string)
    ensures StartsWith(Visibility(isPublic) + " - " + rest, "public - ") <==> isPublic
    ensures StartsWith(Visibility(isPublic) + " - " + rest, "private - ") <==> !isPublic
  {
    var s := Visibility(isPublic) + " - " + rest;
    if isPublic {
      assert s == "public - " + rest;
      StartsWithConcat("public - ", rest);
      MismatchNotBothPrefixes(s, "private - ", "public - ", 1);
    } else {
      assert s == "private - " + rest;
      StartsWithConcat("private - ", rest);
      MismatchNotBothPrefixes(s, "public - ", "private - ", 1);
    }
  }

  /**
   * The visibility word alone does not identify a subnet's visibility
   * anywhere in its name: a private subnet of a stack named "public" has
   * "public" in its name. Only the leading position is decisive.
   */
  lemma PrivateSubnetNameCanContainPublic(vpc: Handle)
    ensures Contains(CreateSubnet(Context("public", "us-east-1"), "10.0.1.0/24", vpc, "a", Some(false)).name, "public")
  {
    var ctx := Context("public", "us-east-1");
    var name := CreateSubnet(ctx, "10.0.1.0/24", vpc, "a", Some(false)).name;
    assert name == SubnetName(ctx, false, "a");
    assert SubnetName(ctx, false, "a") == "private - " + "public" + " - " + "us-east-1" + "a";
    assert name == "private - " + "public" + (" - " + "us-east-1" + "a");
    ContainsInfix("private - ", "public", " - " + "us-east-1" + "a");
  }

  /** Associations of different subnets with one route table get different names, and conversely. */
  lemma AssociationNamesDistinctPerRouteTable(routeTable: Handle, subnet1: Handle, subnet2: Handle)
    ensures CreateRouteTableAssociation(routeTable, subnet1).name == CreateRouteTableAssociation(routeTable, subnet2).name
        <==> subnet1.urn == subnet2.urn
  {
  }

  /** Associations of one subnet with different route tables get different names, and conversely. */
  lemma AssociationNamesDistinctPerSubnet(routeTable1: Handle, routeTable2: Handle, subnet: Handle)
    ensures CreateRouteTableAssociation(routeTable1, subnet).name == CreateRouteTableAssociation(routeTable2, subnet).name
        <==> routeTable1.urn == routeTable2.urn
  {
  }

  /** Main associations of different route tables get different names, and conversely. */
  lemma MainAssociationNamesDistinct(routeTable1: Handle, routeTable2: Handle, vpc1: Handle, vpc2: Handle)
    ensures CreateMainRouteTableAssociation(routeTable1, vpc1).name == CreateMainRouteTableAssociation(routeTable2, vpc2).name
        <==> routeTable1.urn == routeTable2.urn
  {
  }

  /** The VPC expectations of the helper tests: the name contains "<stack> - <region>", the given block, DNS hostnames, the two tags. */
  lemma VpcTestExpectations(ctx: Context, cidrBlock: string)
    ensures Contains(CreateVpc(ctx, Some(cidrBlock)).name, ctx.stack + " - " + ctx.region)
    ensures CreateVpc(ctx, Some(cidrBlock)).args.cidrBlock == cidrBlock
    ensures CreateVpc(ctx, Some(cidrBlock)).args.enableDnsHostnames
    ensures CreateVpc(ctx, Some(cidrBlock)).args.tags["Name"] == ctx.stack
    ensures CreateVpc(ctx, Some(cidrBlock)).args.tags["CreatedBy"] == "Pulumi"
  {
  }

  /** The gateway expectations of the helper tests, for a VPC created with the default block. */
  lemma GatewayTestExpectations(ctx: Context, vpc: Handle)
    ensures Contains(CreateInternetGateway(ctx, vpc).name, ctx.stack + " - " + ctx.region)
    ensures CreateInternetGateway(ctx, vpc).args.tags["Name"] == ctx.stack
    ensures CreateInternetGateway(ctx, vpc).args.tags["CreatedBy"] == "Pulumi"
    ensures CreateInternetGateway(ctx, vpc).args.vpcId == vpc.id
    ensures CreateVpc(ctx, None).args.cidrBlock == "10.0.0.0/16"
  {
  }

  /**
   * A public subnet "10.0.1.0/24" in zone "a": its name
   * contains "public - <stack> - <region>a" and the block is passed through.
   */
  lemma PublicSubnetScenario(ctx: Context, vpc: Handle)
    ensures Contains(CreateSubnet(ctx, "10.0.1.0/24", vpc, "a", Some(true)).name,
                     "public - " + ctx.stack + " - " + ctx.region + "a")
    ensures CreateSubnet(ctx, "10.0.1.0/24", vpc, "a", Some(true)).args.cidrBlock == "10.0.1.0/24"
    ensures CreateSubnet(ctx, "10.0.1.0/24", vpc, "a", Some(true)).args.mapPublicIpOnLaunch
  {
  }
}
