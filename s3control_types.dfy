/** The request structures of the S3 Control API that the expand and flatten
    functions build and read. Pointer fields are `Option`s; slice fields are
    sequences, with [] standing for Go's nil slice. */
module S3Control {
  import opened GoValues

  datatype AwsLambdaTransformation = AwsLambdaTransformation(
    functionArn: Option<string>,
    functionPayload: Option<string>)

  datatype ObjectLambdaContentTransformation = ObjectLambdaContentTransformation(
    awsLambda: Option<AwsLambdaTransformation>)

  datatype ObjectLambdaTransformationConfiguration = ObjectLambdaTransformationConfiguration(
    actions: seq<string>,
    contentTransformation: Option<ObjectLambdaContentTransformation>)

  datatype ObjectLambdaConfiguration = ObjectLambdaConfiguration(
    allowedFeatures: seq<string>,
    cloudWatchMetricsEnabled: Option<bool>,
    supportingAccessPoint: Option<string>,
    transformationConfigurations: seq<ObjectLambdaTransformationConfiguration>)

  datatype VpcConfiguration = VpcConfiguration(vpcId: Option<string>)

  datatype PublicAccessBlockConfiguration = PublicAccessBlockConfiguration(
    blockPublicAcls: Option<bool>,
    blockPublicPolicy: Option<bool>,
    ignorePublicAcls: Option<bool>,
    restrictPublicBuckets: Option<bool>)
}
