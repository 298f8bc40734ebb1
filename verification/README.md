# Pulumi AWS helpers: naming, tagging and the public-read bucket policy

This project models the part of the bb-pulumi-helpers-ts helpers that is the
repository's own logic. That logic is the naming and tagging convention the
networking helpers apply and the public-read S3 bucket policy document.

Each networking helper (`createVpc`, `createInternetGateway`, `createSubnet`,
`createRouteTable`, `createRouteTableAssociation`,
`createMainRouteTableAssociation`) is modelled as a pure function. It returns
a `Resource`: the logical name and the argument record the helper hands to the
provider's resource constructor.

- The stack name (`getStack()`) and the region's name (`getRegion().name`) are
  the fields of a `Context` parameter.
- A resource passed in (a VPC, a gateway, a subnet, a route table) is a
  `Handle` holding its resolved `id` and `urn` strings.
- TypeScript default parameters (`cidrBlock = "10.0.0.0/16"`,
  `isPublic = false`) are `Option` parameters. `None` stands for the omitted
  argument.
- Tags are a `map<string, string>`.

index.ts holds an earlier copy of `createVpc`, `createInternetGateway` and
`createSubnet`, and the tests import that copy. Its lines 5-51 are the same
code as aws/aws.ts lines 11-57. The same functions therefore model both files.
The lemmas built from the tests' expectations cite index.ts and
tests/helpers.test.ts.

`s3WebPolicy` is modelled as a function returning a `WebPolicy` record. The
policy's meaning is stated against a small model of IAM evaluation: wildcard
matching of actions and resources (`*` and `?`, every other character
compared exactly), and statements that allow the principal `*`.

Files:

- `wrappers.dfy`: `Option`.
- `strings.dfy`: prefixes, suffixes, containment and stripping.
- `ec2.dfy`: the networking helpers and the parsers that read a subnet name or
  a subnet Name tag back into its visibility and zone.
- `ec2_conventions.dfy`: properties that span several helper calls, and the
  expectations of tests/helpers.test.ts.
- `s3.dfy`: `S3BucketTypes`, the policy document and what the policy allows.

`S3BucketTypes` (aws/aws.ts:7-9) is kept as data: the datatype
`S3.S3BucketType` has one member, `Public`, whose `Acl()` is the canned ACL
string "public-read". It is a constant and has no property of its own.

Facts about the code worth knowing:

- The bucket policy accepts every string as a bucket name, the empty one
  included. `S3.EmptyBucketNameAccepted` shows the empty name gives the
  resource `arn:aws:s3:::/*`.
- Only the leading word of a subnet's name gives its visibility: the name
  starts with "public - " or "private - ". The stack name is free text and may
  itself contain "public". `Ec2Conventions.SubnetNameStartsWithVisibility`
  proves the leading-word property, and
  `Ec2Conventions.PrivateSubnetNameCanContainPublic` shows a private subnet
  whose name contains "public".
- The VPC, the internet gateway and the route table share the name
  `<stack> - <region>`; the engine tells them apart by resource type.
  `Ec2Conventions.GatewayMatchesVpc` and `Ec2Conventions.RouteTableMatchesVpc`
  state the shared name.

## Model

| member | source | states |
|---|---|---|
| Ec2.CreateVpc | aws/aws.ts:13-24 | The name is `<stack> - <region>`. The CIDR block is the given one, or "10.0.0.0/16" when omitted. DNS hostnames are enabled. The tags are exactly Name = stack and CreatedBy = "Pulumi". |
| Ec2.CreateInternetGateway | aws/aws.ts:26-36 | The name is `<stack> - <region>`. `vpcId` is the given VPC's id. The tags are exactly Name = stack and CreatedBy = "Pulumi". |
| Ec2.CreateSubnet | aws/aws.ts:38-57 | Parsing the name gives back exactly the visibility (public only when `isPublic` is given as true) and the zone suffix. Parsing the Name tag in the region does the same. The CIDR block and `vpcId` are passed through. `availabilityZone` is region followed by zone. `mapPublicIpOnLaunch` holds exactly when the subnet is public. The tags have exactly the keys Name and CreatedBy, and CreatedBy is "Pulumi". |
| Ec2.CreateRouteTable | aws/aws.ts:59-74 | The name is `<stack> - <region>`. `vpcId` is the VPC's id. There is exactly one route, with destination "0.0.0.0/0" and the gateway's id. The tags are exactly Name = stack and CreatedBy = "Pulumi". |
| Ec2.CreateRouteTableAssociation | aws/aws.ts:76-82 | Removing `<subnet urn> -> ` from the front of the name leaves exactly the route table's URN. Removing ` -> <route table urn>` from the end leaves exactly the subnet's URN. `routeTableId` and `subnetId` are the two inputs' ids. |
| Ec2.CreateMainRouteTableAssociation | aws/aws.ts:84-90 | Removing " -> main" from the end of the name leaves exactly the route table's URN. The association links the route table's id to the VPC's id. |
| Ec2.SubnetNameRoundTrip | aws/aws.ts:46 | Parsing a subnet name built for a stack and region gives back the visibility and the zone it was built from. |
| Ec2.SubnetTagNameRoundTrip | aws/aws.ts:53 | Parsing a subnet Name tag built for a region gives back the visibility and the zone it was built from. |
| Ec2Conventions.GatewayMatchesVpc | aws/aws.ts:16-34 | For one stack and region, the gateway has the VPC's name and tags, and its `vpcId` is the VPC's id. |
| Ec2Conventions.RouteTableMatchesVpc | aws/aws.ts:63-72 | For one stack and region, the route table has the VPC's name and tags. Its routes are exactly the one default route to the gateway. |
| Ec2Conventions.SubnetNamesDistinct | aws/aws.ts:46 | In one stack and region, two subnets have the same name if and only if they have the same visibility and zone. So a public and a private subnet in one zone never share a name. |
| Ec2Conventions.SubnetTagNamesDistinct | aws/aws.ts:52-55 | In one region, two subnets have the same Name tag if and only if they have the same visibility and zone. |
| Ec2Conventions.SubnetTagsIgnoreStack | aws/aws.ts:52-55 | A subnet's tags are the same whatever the stack: the Name tag leaves the stack out. |
| Ec2Conventions.SubnetNameStartsWithVisibility | index.ts:40 | A subnet's name starts with "public - " if and only if the subnet is public. It starts with "private - " if and only if it is not. |
| Ec2Conventions.PrivateSubnetNameCanContainPublic | index.ts:40 | A private subnet of the stack "public" has "public" inside its name. Only the leading position tells the visibility. |
| Ec2Conventions.AssociationNamesDistinctPerRouteTable | aws/aws.ts:77-78 | For one route table, two associations have the same name if and only if their subnets have the same URN. |
| Ec2Conventions.AssociationNamesDistinctPerSubnet | aws/aws.ts:77-78 | For one subnet, two associations have the same name if and only if their route tables have the same URN. |
| Ec2Conventions.MainAssociationNamesDistinct | aws/aws.ts:85-86 | Two main associations have the same name if and only if their route tables have the same URN. |
| Ec2Conventions.VpcTestExpectations | tests/helpers.test.ts:38-66 | The VPC's name contains `<stack> - <region>`. The given CIDR block is kept. DNS hostnames are enabled. The Name tag is the stack and CreatedBy is "Pulumi". |
| Ec2Conventions.GatewayTestExpectations | tests/helpers.test.ts:75-100 | The gateway's name contains `<stack> - <region>`. Its Name tag is the stack, CreatedBy is "Pulumi", and `vpcId` is the VPC's id. A VPC created without a block gets "10.0.0.0/16". |
| Ec2Conventions.PublicSubnetScenario | index.ts:32-51 | The public subnet "10.0.1.0/24" in zone "a" has a name containing `public - <stack> - <region>a`. It keeps its block and maps public IPs on launch. |
| S3.S3WebPolicy | aws/s3-web-policy.ts:13-29 | The version is "2012-10-17". There is exactly one statement: Sid "PublicReadGetObject", Effect "Allow", Principal "*", Action exactly ["s3:GetObject"], and exactly one resource. Parsing that resource gives back the bucket name. Every bucket name is accepted. |
| S3.AllObjectsArnRoundTrip | aws/s3-web-policy.ts:25 | Parsing `arn:aws:s3:::<bucket>/*` gives back the bucket name. |
| S3.S3WebPolicyInjective | aws/s3-web-policy.ts:25 | Two bucket names give the same policy if and only if they are the same name. |
| S3.S3WebPolicyExample | aws/s3-web-policy.ts:14-29 | The full document for "my-bucket", with resource "arn:aws:s3:::my-bucket/*". |
| S3.EmptyBucketNameAccepted | aws/s3-web-policy.ts:13-26 | The empty bucket name is not rejected. It yields the resource "arn:aws:s3:::/*". |
| S3.S3WebPolicyAllows | aws/s3-web-policy.ts:17-27 | Take a bucket name without wildcard characters. Under the model's wildcard matching (characters compared exactly), the policy lets anyone perform an action on a resource if and only if the action is "s3:GetObject" and the resource starts with `arn:aws:s3:::<bucket>/`. |
| S3.S3WebPolicyGrantsEveryObject | aws/s3-web-policy.ts:24-26 | For every bucket name, wildcards included, anyone may get every object of the bucket, whatever its key. |
| S3.S3WebPolicyReadsOnlyOwnBucket | aws/s3-web-policy.ts:24-26 | When bucket names hold no '/' and the policy's bucket name holds no wildcard characters (`*`, `?`), the only objects anyone may get through the policy are those of the policy's own bucket. |

## Left out

- The provider's resource constructors (`Vpc`, `InternetGateway`, `Subnet`, `RouteTable`, `RouteTableAssociation`, `MainRouteTableAssociation`, `Bucket`) and what provisioning does. They are calls into the provider SDK. Only the name and the arguments passed to them are modelled.
- `getRegion()` and `getStack()` are lookups in the provider and the engine. The model takes their results as the `Context` parameter. A failed lookup is not modelled.
- The `await`s and `Promise`s of every helper. The model is synchronous and takes every `id` and `urn` output as already resolved.
- `convertPulumiOutputs` (utilities.ts and its copy in tests/helpers.test.ts) is not part of this model. It joins the engine's deferred outputs and has no logic of its own. Its results appear as the `urn` strings of a `Handle`.
- `createS3Bucket` (aws/s3.ts) passes the name and the ACL through to `Bucket` unchanged. Its region and stack lookups are unused, so there is nothing beyond pass-through to state.
- The Pulumi test mocks and jest scaffolding. They serve only as evidence for the test-expectation lemmas.
- S3.S3WebPolicyAllows: compares action names case-sensitively, while IAM matches action names without regard to case ("s3:getobject" names the same action), so the "only s3:GetObject" direction holds of the exact spelling. It also models only what a policy allows for the principal "*". It leaves out IAM's Deny statements, conditions, other principals and version-dependent policy variables, because the document has none of them.
