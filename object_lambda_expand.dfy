/** The expand functions of the S3 Object Lambda access point resource: they
    turn the `configuration` block of the Terraform configuration into an
    ObjectLambdaConfiguration request, level by level. At every level a nil
    map gives nil, and a field that is absent, of the wrong type, empty, "" or
    false leaves the request field unset; nothing is defaulted. */
module ObjectLambdaExpand {
  import opened GoValues
  import opened S3Control

  // ---------------------------------------------------------------------
  // The field rules shared by every level
  // ---------------------------------------------------------------------

  /** flex.ExpandStringSet: the non-empty string members of a set, in the
      set's order; members that are not strings, or are "", are skipped */
  function ExpandStringSet(items: seq<Value>): (r: seq<string>)
    ensures |r| <= |items|
    ensures forall k :: 0 <= k < |r| ==> r[k] != "" && Str(r[k]) in items
  {
    if items == [] then []
    else
      var rest := ExpandStringSet(items[1..]);
      assert forall k :: 0 <= k < |rest| ==> Str(rest[k]) in items;
      if items[0].Str? && items[0].s != "" then [items[0].s] + rest else rest
  }

  /** A string is listed exactly when the set holds it and it is not "" */
  lemma {:induction false} ExpandStringSetMembership(items: seq<Value>, s: string)
    ensures s in ExpandStringSet(items) <==> s != "" && Str(s) in items
  {
    if items != [] {
      ExpandStringSetMembership(items[1..], s);
      assert items == [items[0]] + items[1..];
    }
  }

  /** The strings one member contributes: itself when it is a non-empty string */
  function MemberStrings(v: Value): seq<string> {
    if v.Str? && v.s != "" then [v.s] else []
  }

  /** One step of ExpandStringSet: the first member's strings, then the rest's */
  lemma ExpandStringSetStep(items: seq<Value>)
    requires items != []
    ensures ExpandStringSet(items) == MemberStrings(items[0]) + ExpandStringSet(items[1..])
  {
  }

  /** The set's order is kept: the strings of `a + b` are those of `a`
      followed by those of `b` */
  lemma {:induction false} ExpandStringSetConcat(a: seq<Value>, b: seq<Value>)
    ensures ExpandStringSet(a + b) == ExpandStringSet(a) + ExpandStringSet(b)
  {
    if a == [] {
      assert a + b == b;
    } else {
      var ab := a + b;
      assert ab[0] == a[0] && ab[1..] == a[1..] + b;
      ExpandStringSetConcat(a[1..], b);
      ExpandStringSetStep(ab);
      ExpandStringSetStep(a);
    }
  }

  /** `v, ok := x.(string); ok && v != ""`: a string field is set exactly
      from a non-empty string, and then holds it */
  predicate StringFieldRule(field: Option<string>, x: Value) {
    && (field.Some? <==> x.Str? && x.s != "")
    && (field.Some? ==> x == Str(field.value))
  }

  /** `v, ok := x.(bool); ok && v`: a bool field is set exactly when the
      value is true, so it is never set to false */
  predicate TrueFieldRule(field: Option<bool>, x: Value) {
    && (field.Some? <==> x == Bool(true))
    && field != Some(false)
  }

  /** `v, ok := x.(*schema.Set); ok && v.Len() > 0`: a string-slice field
      holds the set's strings when the set has members, and is nil otherwise */
  predicate StringSetFieldRule(field: seq<string>, x: Value) {
    && (x.Set? && |x.items| > 0 ==> field == ExpandStringSet(x.items))
    && (!(x.Set? && |x.items| > 0) ==> field == [])
  }

  /** The block a nested expander reads: the first element of a non-empty
      list when that element is a non-nil map; a nil map otherwise */
  function FirstMap(x: Value): (m: TfMap)
    ensures m.Some? <==> x.List? && |x.items| > 0 && x.items[0].Map? && x.items[0].entries.Some?
    ensures m.Some? ==> x.items[0] == Map(m)
  {
    if x.List? && |x.items| > 0 && x.items[0].Map? then x.items[0].entries else None
  }

  /** The list's first element exists but is not a map: where a single-value
      type assertion `v[0].(map[string]interface{})` panics */
  predicate FirstIsNotMap(x: Value) {
    x.List? && |x.items| > 0 && !x.items[0].Map?
  }

  /** The string field guard `ok && v != ""` */
  function NonEmptyString(x: Value): (r: Option<string>)
    ensures StringFieldRule(r, x)
  {
    match AsString(x)
    case Some(v) => if v != "" then Some(v) else None
    case None => None
  }

  /** The result of the comma-ok assertion `tfMap, _ := x.(map[string]interface{})`:
      the map, or a nil map when x holds no map */
  function MapOrNil(x: Value): (m: TfMap)
    ensures m.Some? ==> x == Map(m)
  {
    match AsMap(x)
    case Some(m) => m
    case None => None
  }

  // ---------------------------------------------------------------------
  // The nested expanders
  // ---------------------------------------------------------------------

  /** expandAwsLambdaTransformation */
  function ExpandAwsLambdaTransformation(tfMap: TfMap): (r: Option<AwsLambdaTransformation>)
    ensures r.None? <==> tfMap.None?
    ensures r.Some? ==> StringFieldRule(r.value.functionArn, Get(tfMap, "function_arn"))
    ensures r.Some? ==> StringFieldRule(r.value.functionPayload, Get(tfMap, "function_payload"))
  {
    if tfMap.None? then None
    else
      Some(AwsLambdaTransformation(
        functionArn := NonEmptyString(Get(tfMap, "function_arn")),
        functionPayload := NonEmptyString(Get(tfMap, "function_payload"))))
  }

  /** expandObjectLambdaContentTransformation, with the first `aws_lambda`
      element read by a comma-ok assertion (see the as-written version below) */
  function ExpandContentTransformation(tfMap: TfMap): (r: Option<ObjectLambdaContentTransformation>)
    ensures r.None? <==> tfMap.None?
    ensures r.Some? ==> r.value.awsLambda == ExpandAwsLambdaTransformation(FirstMap(Get(tfMap, "aws_lambda")))
    ensures r.Some? ==> (r.value.awsLambda.Some? <==> FirstMap(Get(tfMap, "aws_lambda")).Some?)
  {
    if tfMap.None? then None
    else
      var awsLambda :=
        match AsList(Get(tfMap, "aws_lambda"))
        case Some(v) => if |v| > 0 then ExpandAwsLambdaTransformation(MapOrNil(v[0])) else None
        case None => None;
      Some(ObjectLambdaContentTransformation(awsLambda))
  }

  /** expandObjectLambdaContentTransformation as written: `v[0].(map[string]interface{})`
      panics when the first `aws_lambda` element is nil or not a map, and
      otherwise agrees with ExpandContentTransformation */
  function ExpandContentTransformationAsWritten(tfMap: TfMap): (r: Outcome<Option<ObjectLambdaContentTransformation>>)
    ensures r.Panicked? <==> tfMap.Some? && FirstIsNotMap(Get(tfMap, "aws_lambda"))
    ensures r.Returned? ==> r.value == ExpandContentTransformation(tfMap)
  {
    if tfMap.None? then Returned(None)
    else
      match AsList(Get(tfMap, "aws_lambda"))
      case Some(v) =>
        if |v| == 0 then Returned(Some(ObjectLambdaContentTransformation(None)))
        else if v[0].Map? then Returned(Some(ObjectLambdaContentTransformation(ExpandAwsLambdaTransformation(v[0].entries))))
        else Panicked
      case None => Returned(Some(ObjectLambdaContentTransformation(None)))
  }

  /** expandObjectLambdaTransformationConfiguration, with the first
      `content_transformation` element read by a comma-ok assertion */
  function ExpandTransformationConfiguration(tfMap: TfMap): (r: Option<ObjectLambdaTransformationConfiguration>)
    ensures r.None? <==> tfMap.None?
    ensures r.Some? ==> StringSetFieldRule(r.value.actions, Get(tfMap, "actions"))
    ensures r.Some? ==>
      r.value.contentTransformation == ExpandContentTransformation(FirstMap(Get(tfMap, "content_transformation")))
  {
    if tfMap.None? then None
    else
      var actions :=
        match AsSet(Get(tfMap, "actions"))
        case Some(v) => if |v| > 0 then ExpandStringSet(v) else []
        case None => [];
      var contentTransformation :=
        match AsList(Get(tfMap, "content_transformation"))
        case Some(v) => if |v| > 0 then ExpandContentTransformation(MapOrNil(v[0])) else None
        case None => None;
      Some(ObjectLambdaTransformationConfiguration(actions, contentTransformation))
  }

  /** expandObjectLambdaTransformationConfiguration as written: it panics
      when the first `content_transformation` element is not a map, or when
      the nested expander does; otherwise it agrees with ExpandTransformationConfiguration */
  function ExpandTransformationConfigurationAsWritten(tfMap: TfMap): (r: Outcome<Option<ObjectLambdaTransformationConfiguration>>)
    ensures r.Panicked? <==>
      tfMap.Some? &&
      (FirstIsNotMap(Get(tfMap, "content_transformation")) ||
       ExpandContentTransformationAsWritten(FirstMap(Get(tfMap, "content_transformation"))).Panicked?)
    ensures r.Returned? ==> r.value == ExpandTransformationConfiguration(tfMap)
  {
    if tfMap.None? then Returned(None)
    else
      var actions :=
        match AsSet(Get(tfMap, "actions"))
        case Some(v) => if |v| > 0 then ExpandStringSet(v) else []
        case None => [];
      match AsList(Get(tfMap, "content_transformation"))
      case Some(v) =>
        if |v| == 0 then Returned(Some(ObjectLambdaTransformationConfiguration(actions, None)))
        else if !v[0].Map? then Panicked
        else
          (match ExpandContentTransformationAsWritten(v[0].entries)
           case Returned(c) => Returned(Some(ObjectLambdaTransformationConfiguration(actions, c)))
           case Panicked => Panicked)
      case None => Returned(Some(ObjectLambdaTransformationConfiguration(actions, None)))
  }

  // ---------------------------------------------------------------------
  // The list expander
  // ---------------------------------------------------------------------

  /** The elements of a list that are non-nil maps, in list order */
  function MapEntries(tfList: seq<Value>): (r: seq<map<string, Value>>)
    ensures |r| <= |tfList|
  {
    if tfList == [] then []
    else
      var last := tfList[|tfList| - 1];
      MapEntries(tfList[..|tfList| - 1]) + (if last.Map? && last.entries.Some? then [last.entries.value] else [])
  }

  /** apiObjects is the expansion of the list's non-nil maps, one for one and in order */
  predicate ExpandsMapEntries(apiObjects: seq<ObjectLambdaTransformationConfiguration>, tfList: seq<Value>) {
    var entries := MapEntries(tfList);
    && |apiObjects| == |entries|
    && forall k :: 0 <= k < |apiObjects| ==>
         ExpandTransformationConfiguration(Some(entries[k])) == Some(apiObjects[k])
  }

  /** expandObjectLambdaTransformationConfigurations: skips the elements that
      are not maps, and the nil maps, and expands the rest in order */
  method ExpandTransformationConfigurations(tfList: seq<Value>)
    returns (apiObjects: seq<ObjectLambdaTransformationConfiguration>)
    ensures |apiObjects| <= |tfList|
    ensures ExpandsMapEntries(apiObjects, tfList)
  {
    if |tfList| == 0 {
      return [];
    }
    apiObjects := [];
    for i := 0 to |tfList|
      invariant ExpandsMapEntries(apiObjects, tfList[..i])
    {
      var tfMapRaw := tfList[i];
      assert tfList[..i + 1][..i] == tfList[..i];
      var tfMap, ok := MapOrNil(tfMapRaw), tfMapRaw.Map?;
      if !ok {
        continue;
      }
      var apiObject := ExpandTransformationConfiguration(tfMap);
      if apiObject.None? {
        continue;
      }
      apiObjects := apiObjects + [apiObject.value];
    }
    assert tfList[..|tfList|] == tfList;
  }

  /** A transformation-configuration slice field: the expansion of the set's
      members when the set has any, nil otherwise */
  predicate TransformationConfigurationsRule(field: seq<ObjectLambdaTransformationConfiguration>, x: Value) {
    && (x.Set? && |x.items| > 0 ==> ExpandsMapEntries(field, x.items))
    && (!(x.Set? && |x.items| > 0) ==> field == [])
  }

  /** expandObjectLambdaConfiguration: allocates the request and sets its
      fields one by one, each only when the configuration supplies it */
  method ExpandConfiguration(tfMap: TfMap) returns (r: Option<ObjectLambdaConfiguration>)
    ensures r.None? <==> tfMap.None?
    ensures r.Some? ==> StringSetFieldRule(r.value.allowedFeatures, Get(tfMap, "allowed_features"))
    ensures r.Some? ==> TrueFieldRule(r.value.cloudWatchMetricsEnabled, Get(tfMap, "cloud_watch_metrics_enabled"))
    ensures r.Some? ==> StringFieldRule(r.value.supportingAccessPoint, Get(tfMap, "supporting_access_point"))
    ensures r.Some? ==>
      TransformationConfigurationsRule(r.value.transformationConfigurations, Get(tfMap, "transformation_configuration"))
  {
    if tfMap.None? {
      return None;
    }

    var apiObject := ObjectLambdaConfiguration([], None, None, []);

    var allowedFeatures := AsSet(Get(tfMap, "allowed_features"));
    if allowedFeatures.Some? && |allowedFeatures.value| > 0 {
      apiObject := apiObject.(allowedFeatures := ExpandStringSet(allowedFeatures.value));
    }

    var cloudWatchMetricsEnabled := AsBool(Get(tfMap, "cloud_watch_metrics_enabled"));
    if cloudWatchMetricsEnabled.Some? && cloudWatchMetricsEnabled.value {
      apiObject := apiObject.(cloudWatchMetricsEnabled := Some(cloudWatchMetricsEnabled.value));
    }

    var supportingAccessPoint := AsString(Get(tfMap, "supporting_access_point"));
    if supportingAccessPoint.Some? && supportingAccessPoint.value != "" {
      apiObject := apiObject.(supportingAccessPoint := Some(supportingAccessPoint.value));
    }

    var transformationConfiguration := AsSet(Get(tfMap, "transformation_configuration"));
    if transformationConfiguration.Some? && |transformationConfiguration.value| > 0 {
      var expanded := ExpandTransformationConfigurations(transformationConfiguration.value);
      apiObject := apiObject.(transformationConfigurations := expanded);
    }

    return Some(apiObject);
  }

  // ---------------------------------------------------------------------
  // Laws
  // ---------------------------------------------------------------------

  /** Splitting a list splits its map entries, in order */
  lemma {:induction false} MapEntriesConcat(a: seq<Value>, b: seq<Value>)
    ensures MapEntries(a + b) == MapEntries(a) + MapEntries(b)
  {
    if b != [] {
      var b' := b[..|b| - 1];
      MapEntriesConcat(a, b');
      assert (a + b)[..|a + b| - 1] == a + b';
      assert (a + b)[|a + b| - 1] == b[|b| - 1];
    } else {
      assert a + b == a;
    }
  }

  /** Removing an element that is not a non-nil map changes nothing */
  lemma MapEntriesSkip(a: seq<Value>, x: Value, b: seq<Value>)
    requires !(x.Map? && x.entries.Some?)
    ensures MapEntries(a + [x] + b) == MapEntries(a + b)
  {
    MapEntriesConcat(a + [x], b);
    MapEntriesConcat(a, [x]);
    MapEntriesConcat(a, b);
    assert [x][..0] == [];
  }

  /** A map is kept exactly when the list holds it as a non-nil map */
  lemma {:induction false} MapEntriesMembership(tfList: seq<Value>, m: map<string, Value>)
    ensures m in MapEntries(tfList) <==> Map(Some(m)) in tfList
  {
    if tfList != [] {
      var init := tfList[..|tfList| - 1];
      MapEntriesMembership(init, m);
      assert tfList == init + [tfList[|tfList| - 1]];
    }
  }

  /** A list of non-nil maps is kept whole, in order */
  lemma {:induction false} MapEntriesOfMaps(tfList: seq<Value>)
    requires forall k :: 0 <= k < |tfList| ==> tfList[k].Map? && tfList[k].entries.Some?
    ensures |MapEntries(tfList)| == |tfList|
    ensures forall k :: 0 <= k < |tfList| ==> MapEntries(tfList)[k] == tfList[k].entries.value
  {
    if tfList != [] {
      var init := tfList[..|tfList| - 1];
      MapEntriesOfMaps(init);
    }
  }

  /** Only the first element of `content_transformation` and of `aws_lambda` is read */
  lemma OnlyFirstBlockIsRead(m: map<string, Value>, first: Value, rest: seq<Value>)
    ensures ExpandTransformationConfiguration(Some(m["content_transformation" := List([first] + rest)]))
         == ExpandTransformationConfiguration(Some(m["content_transformation" := List([first])]))
    ensures ExpandContentTransformation(Some(m["aws_lambda" := List([first] + rest)]))
         == ExpandContentTransformation(Some(m["aws_lambda" := List([first])]))
  {
  }

  /** Keys the schema does not declare are ignored */
  lemma UndeclaredKeysAreIgnored(m: map<string, Value>, key: string, x: Value)
    requires key !in {"function_arn", "function_payload", "aws_lambda", "actions", "content_transformation"}
    ensures ExpandAwsLambdaTransformation(Some(m[key := x])) == ExpandAwsLambdaTransformation(Some(m))
    ensures ExpandContentTransformation(Some(m[key := x])) == ExpandContentTransformation(Some(m))
    ensures ExpandTransformationConfiguration(Some(m[key := x])) == ExpandTransformationConfiguration(Some(m))
  {
    assert Get(Some(m[key := x]), "function_arn") == Get(Some(m), "function_arn");
    assert Get(Some(m[key := x]), "function_payload") == Get(Some(m), "function_payload");
    assert Get(Some(m[key := x]), "aws_lambda") == Get(Some(m), "aws_lambda");
    assert Get(Some(m[key := x]), "actions") == Get(Some(m), "actions");
    assert Get(Some(m[key := x]), "content_transformation") == Get(Some(m), "content_transformation");
  }

  /** An empty block sets no field: nothing is defaulted */
  lemma EmptyBlocksSetNothing()
    ensures ExpandAwsLambdaTransformation(Some(map[])) == Some(AwsLambdaTransformation(None, None))
    ensures ExpandContentTransformation(Some(map[])) == Some(ObjectLambdaContentTransformation(None))
    ensures ExpandTransformationConfiguration(Some(map[])) == Some(ObjectLambdaTransformationConfiguration([], None))
  {
  }

  /** `content_transformation {}` reaches the expander as a list holding nil:
      as written it panics, where the comma-ok reading leaves the field unset */
  lemma EmptyContentTransformationBlock()
    ensures ExpandTransformationConfigurationAsWritten(
              Some(map["actions" := Set([Str("GetObject")]), "content_transformation" := List([Nil])])) == Panicked
    ensures ExpandTransformationConfiguration(
              Some(map["actions" := Set([Str("GetObject")]), "content_transformation" := List([Nil])]))
         == Some(ObjectLambdaTransformationConfiguration(["GetObject"], None))
  {
    var m := map["actions" := Set([Str("GetObject")]), "content_transformation" := List([Nil])];
    assert Get(Some(m), "actions") == Set([Str("GetObject")]);
    assert Get(Some(m), "content_transformation") == List([Nil]);
    assert [Str("GetObject")][1..] == [];
    assert ExpandStringSet([Str("GetObject")]) == ["GetObject"];
  }

  /** `aws_lambda {}` reaches the expander as a list holding nil: as written
      it panics, where the comma-ok reading leaves the field unset */
  lemma EmptyAwsLambdaBlock()
    ensures ExpandContentTransformationAsWritten(Some(map["aws_lambda" := List([Nil])])) == Panicked
    ensures ExpandContentTransformation(Some(map["aws_lambda" := List([Nil])]))
         == Some(ObjectLambdaContentTransformation(None))
  {
  }
}
