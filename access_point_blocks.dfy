/** The VPC and public-access-block expand/flatten pairs: each maps between a
    Terraform list of at most one block and an optional S3 Control record. */
module AccessPointBlocks {
  import opened GoValues
  import opened S3Control

  // ---------------------------------------------------------------------
  // VPC configuration
  // ---------------------------------------------------------------------

  /** What expandS3ObjectLambdaAccessPointVpcConfiguration demands of its
      input: past the empty and nil-element guard, the single-value assertions
      `vConfig[0].(map[string]interface{})` and `mConfig["vpc_id"].(string)`
      panic unless the first element is a map holding a string "vpc_id" */
  predicate VpcExpandable(vConfig: seq<Value>) {
    || |vConfig| == 0
    || vConfig[0] == Nil
    || (vConfig[0].Map? && Get(vConfig[0].entries, "vpc_id").Str?)
  }

  /** expandS3ObjectLambdaAccessPointVpcConfiguration */
  function ExpandVpcConfiguration(vConfig: seq<Value>): (r: Option<VpcConfiguration>)
    requires VpcExpandable(vConfig)
    ensures r.None? <==> |vConfig| == 0 || vConfig[0] == Nil
    ensures r.Some? ==> r.value.vpcId.Some? && Get(vConfig[0].entries, "vpc_id") == Str(r.value.vpcId.value)
  {
    if |vConfig| == 0 || vConfig[0] == Nil then None
    else Some(VpcConfiguration(vpcId := Some(Get(vConfig[0].entries, "vpc_id").s)))
  }

  /** flattenS3ObjectLambdaAccessPointVpcConfiguration: nil gives the empty
      list, a record a one-block list that the expander accepts */
  function FlattenVpcConfiguration(config: Option<VpcConfiguration>): (r: seq<Value>)
    ensures |r| <= 1
    ensures r == [] <==> config.None?
    ensures VpcExpandable(r)
    ensures r != [] ==> r[0].Map? && Get(r[0].entries, "vpc_id") == Str(StringValue(config.value.vpcId))
  {
    if config.None? then []
    else [Map(Some(map["vpc_id" := Str(StringValue(config.value.vpcId))]))]
  }

  /** Flatten then expand keeps the record, except that an unset VPC ID comes
      back as "" */
  lemma VpcExpandFlatten(config: Option<VpcConfiguration>)
    ensures ExpandVpcConfiguration(FlattenVpcConfiguration(config)) ==
      if config.None? then None else Some(VpcConfiguration(Some(StringValue(config.value.vpcId))))
  {
  }

  /** Round trip: a record whose VPC ID is set survives flatten then expand */
  lemma VpcRoundTrip(config: Option<VpcConfiguration>)
    requires config.Some? ==> config.value.vpcId.Some?
    ensures ExpandVpcConfiguration(FlattenVpcConfiguration(config)) == config
  {
    VpcExpandFlatten(config);
  }

  /** The lists the flattener produces: empty, or one block holding just a string "vpc_id" */
  predicate VpcCanonical(vConfig: seq<Value>) {
    || vConfig == []
    || (&& |vConfig| == 1
        && vConfig[0].Map? && vConfig[0].entries.Some?
        && vConfig[0].entries.value.Keys == {"vpc_id"}
        && vConfig[0].entries.value["vpc_id"].Str?)
  }

  /** Round trip the other way: a canonical list survives expand then flatten */
  lemma VpcFlattenExpand(vConfig: seq<Value>)
    requires VpcCanonical(vConfig)
    ensures VpcExpandable(vConfig)
    ensures FlattenVpcConfiguration(ExpandVpcConfiguration(vConfig)) == vConfig
  {
    if vConfig != [] {
      var m := vConfig[0].entries.value;
      assert m == map["vpc_id" := m["vpc_id"]];
    }
  }

  // ---------------------------------------------------------------------
  // Public access block configuration
  // ---------------------------------------------------------------------

  /** What expandS3ObjectLambdaAccessPointPublicAccessBlockConfiguration
      demands: past the empty and nil-element guard, its single-value
      assertions panic unless the first element is a map holding the four
      keys as bools */
  predicate PublicAccessBlockExpandable(vConfig: seq<Value>) {
    || |vConfig| == 0
    || vConfig[0] == Nil
    || (&& vConfig[0].Map?
        && Get(vConfig[0].entries, "block_public_acls").Bool?
        && Get(vConfig[0].entries, "block_public_policy").Bool?
        && Get(vConfig[0].entries, "ignore_public_acls").Bool?
        && Get(vConfig[0].entries, "restrict_public_buckets").Bool?)
  }

  /** expandS3ObjectLambdaAccessPointPublicAccessBlockConfiguration */
  function ExpandPublicAccessBlockConfiguration(vConfig: seq<Value>): (r: Option<PublicAccessBlockConfiguration>)
    requires PublicAccessBlockExpandable(vConfig)
    ensures r.None? <==> |vConfig| == 0 || vConfig[0] == Nil
    ensures r.Some? ==>
      && r.value.blockPublicAcls.Some?
      && r.value.blockPublicPolicy.Some?
      && r.value.ignorePublicAcls.Some?
      && r.value.restrictPublicBuckets.Some?
      && Get(vConfig[0].entries, "block_public_acls") == Bool(r.value.blockPublicAcls.value)
      && Get(vConfig[0].entries, "block_public_policy") == Bool(r.value.blockPublicPolicy.value)
      && Get(vConfig[0].entries, "ignore_public_acls") == Bool(r.value.ignorePublicAcls.value)
      && Get(vConfig[0].entries, "restrict_public_buckets") == Bool(r.value.restrictPublicBuckets.value)
  {
    if |vConfig| == 0 || vConfig[0] == Nil then None
    else
      var mConfig := vConfig[0].entries;
      Some(PublicAccessBlockConfiguration(
        blockPublicAcls := Some(Get(mConfig, "block_public_acls").b),
        blockPublicPolicy := Some(Get(mConfig, "block_public_policy").b),
        ignorePublicAcls := Some(Get(mConfig, "ignore_public_acls").b),
        restrictPublicBuckets := Some(Get(mConfig, "restrict_public_buckets").b)))
  }

  /** flattenS3ObjectLambdaAccessPointPublicAccessBlockConfiguration: nil
      gives the empty list; a record gives one block the expander accepts, in
      which every unset flag reads as false */
  function FlattenPublicAccessBlockConfiguration(config: Option<PublicAccessBlockConfiguration>): (r: seq<Value>)
    ensures |r| <= 1
    ensures r == [] <==> config.None?
    ensures PublicAccessBlockExpandable(r)
    ensures r != [] ==>
      && r[0].Map?
      && Get(r[0].entries, "block_public_acls") == Bool(BoolValue(config.value.blockPublicAcls))
      && Get(r[0].entries, "block_public_policy") == Bool(BoolValue(config.value.blockPublicPolicy))
      && Get(r[0].entries, "ignore_public_acls") == Bool(BoolValue(config.value.ignorePublicAcls))
      && Get(r[0].entries, "restrict_public_buckets") == Bool(BoolValue(config.value.restrictPublicBuckets))
  {
    if config.None? then []
    else
      var c := config.value;
      [Map(Some(map[
        "block_public_acls" := Bool(BoolValue(c.blockPublicAcls)),
        "block_public_policy" := Bool(BoolValue(c.blockPublicPolicy)),
        "ignore_public_acls" := Bool(BoolValue(c.ignorePublicAcls)),
        "restrict_public_buckets" := Bool(BoolValue(c.restrictPublicBuckets))]))]
  }

  /** The record with every unset flag replaced by false */
  function FlagsDefaulted(c: PublicAccessBlockConfiguration): PublicAccessBlockConfiguration {
    PublicAccessBlockConfiguration(
      Some(BoolValue(c.blockPublicAcls)),
      Some(BoolValue(c.blockPublicPolicy)),
      Some(BoolValue(c.ignorePublicAcls)),
      Some(BoolValue(c.restrictPublicBuckets)))
  }

  /** Flatten then expand keeps every flag that is set and turns unset flags into false */
  lemma PublicAccessBlockExpandFlatten(config: Option<PublicAccessBlockConfiguration>)
    ensures ExpandPublicAccessBlockConfiguration(FlattenPublicAccessBlockConfiguration(config)) ==
      if config.None? then None else Some(FlagsDefaulted(config.value))
  {
  }

  /** Round trip: a record with all four flags set survives flatten then expand */
  lemma PublicAccessBlockRoundTrip(config: Option<PublicAccessBlockConfiguration>)
    requires config.Some? ==>
      && config.value.blockPublicAcls.Some?
      && config.value.blockPublicPolicy.Some?
      && config.value.ignorePublicAcls.Some?
      && config.value.restrictPublicBuckets.Some?
    ensures ExpandPublicAccessBlockConfiguration(FlattenPublicAccessBlockConfiguration(config)) == config
  {
    PublicAccessBlockExpandFlatten(config);
  }

  /** Flattening is stable: a second flatten-expand cycle changes nothing */
  lemma PublicAccessBlockFlattenIdempotent(config: Option<PublicAccessBlockConfiguration>)
    ensures FlattenPublicAccessBlockConfiguration(
              ExpandPublicAccessBlockConfiguration(FlattenPublicAccessBlockConfiguration(config)))
         == FlattenPublicAccessBlockConfiguration(config)
  {
    PublicAccessBlockExpandFlatten(config);
  }

  /** The lists the flattener produces: empty, or one block holding exactly the four keys as bools */
  predicate PublicAccessBlockCanonical(vConfig: seq<Value>) {
    || vConfig == []
    || (&& |vConfig| == 1
        && vConfig[0].Map? && vConfig[0].entries.Some?
        && vConfig[0].entries.value.Keys ==
             {"block_public_acls", "block_public_policy", "ignore_public_acls", "restrict_public_buckets"}
        && vConfig[0].entries.value["block_public_acls"].Bool?
        && vConfig[0].entries.value["block_public_policy"].Bool?
        && vConfig[0].entries.value["ignore_public_acls"].Bool?
        && vConfig[0].entries.value["restrict_public_buckets"].Bool?)
  }

  /** Round trip the other way: a canonical list survives expand then flatten */
  lemma PublicAccessBlockFlattenExpand(vConfig: seq<Value>)
    requires PublicAccessBlockCanonical(vConfig)
    ensures PublicAccessBlockExpandable(vConfig)
    ensures FlattenPublicAccessBlockConfiguration(ExpandPublicAccessBlockConfiguration(vConfig)) == vConfig
  {
    if vConfig != [] {
      var m := vConfig[0].entries.value;
      assert m == map[
        "block_public_acls" := m["block_public_acls"],
        "block_public_policy" := m["block_public_policy"],
        "ignore_public_acls" := m["ignore_public_acls"],
        "restrict_public_buckets" := m["restrict_public_buckets"]];
    }
  }
}
