# S3 Object Lambda access point: ID codec, expand and flatten

This project models the pure core of the Terraform AWS provider's
`aws_s3control_object_lambda_access_point` resource
(`internal/service/s3control/object_lambda_access_point.go`), and proves properties of the model.
The core has three parts:

- **Resource-ID codec.** `CreateResourceId` joins the account ID and the access point name with
  `:`. `ParseResourceId` splits the ID on every `:`. It accepts exactly two non-empty parts and
  otherwise returns `("", "", error)`. Go's `strings.Split` and `strings.Join` are modelled in
  `GoStrings` for a one-character separator. The proofs there show the two are inverse.
- **Expand chain.** `ExpandConfiguration`, `ExpandTransformationConfigurations`,
  `ExpandTransformationConfiguration`, `ExpandContentTransformation` and
  `ExpandAwsLambdaTransformation` turn the loosely typed `configuration` block into the nested
  `ObjectLambdaConfiguration` request. The Terraform data is modelled as the datatype
  `GoValues.Value`, which stands for Go's `interface{}`. Its cases are the nil interface,
  strings, bools, `*schema.Set`, `[]interface{}` and `map[string]interface{}` (where `None` is a
  nil map). A comma-ok type assertion is a total function. A failed one reads as `None` or as a
  nil map, as in Go.
- **VPC and public-access-block pairs.** These expand a list of at most one block into an
  optional record, and flatten the record back into such a list.

In the request records, Go pointers are `Option`s and Go slices are sequences. The empty
sequence stands for the nil slice, and the request omits it.

The list expander is a `for` loop that appends, as in the source. `ExpandConfiguration` fills in
a fresh request field by field. Both are methods. The straight-line nested expanders and the
flatten functions are functions.

The model follows the code in these places, where a reader might expect otherwise:
- A `false` `cloud_watch_metrics_enabled` and an empty string are left unset. They are not
  copied across one for one.
- Flatten-then-expand of a VPC record whose ID is unset gives an ID of `""`.
- A public-access-block record's unset flags come back as `false`.
- Expand-then-flatten is the identity only on the lists that flatten itself produces. Keys the
  expander does not read are dropped.

## Model

| member | source | states |
|---|---|---|
| GoStrings.Split | internal/service/s3control/object_lambda_access_point.go:227 | strings.Split always yields at least one piece, and no piece holds the separator |
| GoStrings.Join | internal/service/s3control/object_lambda_access_point.go:221 | joining two parts puts the separator between them |
| GoStrings.JoinSplit | internal/service/s3control/object_lambda_access_point.go:221-227 | joining the pieces of any split gives back the original string |
| GoStrings.SplitJoin | internal/service/s3control/object_lambda_access_point.go:221-227 | splitting the join of separator-free parts gives back those parts |
| GoStrings.SplitAtSeparator | internal/service/s3control/object_lambda_access_point.go:227 | a string that holds the separator splits into at least two pieces |
| ObjectLambdaAccessPointId.CreateResourceId | internal/service/s3control/object_lambda_access_point.go:219-224 | the ID is exactly account ID, `:`, name, and the parts are not validated |
| ObjectLambdaAccessPointId.ParseResourceId | internal/service/s3control/object_lambda_access_point.go:226-234 | on success both parts are non-empty and colon-free, and re-creating the ID from them gives the input; on failure the result is `("", "", UnexpectedFormat(id))` |
| ObjectLambdaAccessPointId.IdError.Message | internal/service/s3control/object_lambda_access_point.go:233 | the error text is exactly line 233's rendering: it quotes the rejected ID and ends with the expected format `account-id:access-point-name` |
| ObjectLambdaAccessPointId.ParseCreateResourceId | internal/service/s3control/object_lambda_access_point.go:219-234 | round trip: parsing the ID made from two non-empty, colon-free parts returns those parts with no error |
| ObjectLambdaAccessPointId.ParseAcceptsExactlyCreated | internal/service/s3control/object_lambda_access_point.go:226-234 | the parser accepts an ID if and only if some pair of well-formed parts creates it |
| ObjectLambdaAccessPointId.SeparatorInNameIsRejected | internal/service/s3control/object_lambda_access_point.go:219-234 | creation does no validation: whatever the account ID, an ID made from a name that holds `:` is rejected by the parser |
| ObjectLambdaAccessPointId.EmptyIdIsRejected | internal/service/s3control/object_lambda_access_point.go:229-233 | `""` is rejected with `("", "", error)` |
| ObjectLambdaAccessPointId.EmptyAccountIsRejected | internal/service/s3control/object_lambda_access_point.go:229-233 | `":x"` is rejected |
| ObjectLambdaAccessPointId.EmptyNameIsRejected | internal/service/s3control/object_lambda_access_point.go:229-233 | `"x:"` is rejected |
| ObjectLambdaAccessPointId.ThreePartsAreRejected | internal/service/s3control/object_lambda_access_point.go:229-233 | `"a:b:c"` is rejected |
| ObjectLambdaAccessPointId.ExampleIdRoundTrip | internal/service/s3control/object_lambda_access_point.go:219-234 | account 123456789012 with name `example` gives the ID `123456789012:example`, which parses back |
| ObjectLambdaExpand.ExpandStringSet | internal/service/s3control/object_lambda_access_point.go:244 | every string listed is a non-empty string member of the set; never more strings than the set has members |
| ObjectLambdaExpand.ExpandStringSetMembership | internal/service/s3control/object_lambda_access_point.go:244 | a string is listed if and only if it is non-empty and a member of the set: no non-empty string member is dropped |
| ObjectLambdaExpand.ExpandStringSetConcat | internal/service/s3control/object_lambda_access_point.go:244 | the set's order is kept: the strings of `a + b` are those of `a` followed by those of `b` |
| ObjectLambdaExpand.ExpandAwsLambdaTransformation | internal/service/s3control/object_lambda_access_point.go:320-336 | a nil map gives nil; `function_arn` and `function_payload` are set exactly when given as non-empty strings, and then hold them |
| ObjectLambdaExpand.ExpandContentTransformation | internal/service/s3control/object_lambda_access_point.go:306-318 | a nil map gives nil; `AwsLambda` is set exactly when the first `aws_lambda` element is a non-nil map, and is that element's expansion |
| ObjectLambdaExpand.ExpandContentTransformationAsWritten | internal/service/s3control/object_lambda_access_point.go:306-318 | the code as written panics exactly when the first `aws_lambda` element is not a map; otherwise it agrees with ExpandContentTransformation |
| ObjectLambdaExpand.ExpandTransformationConfiguration | internal/service/s3control/object_lambda_access_point.go:262-278 | a nil map gives nil; `Actions` holds the set's strings when `actions` is a non-empty set and is nil otherwise; `ContentTransformation` is the expansion of the first `content_transformation` block |
| ObjectLambdaExpand.ExpandTransformationConfigurationAsWritten | internal/service/s3control/object_lambda_access_point.go:262-278 | the code as written panics exactly when the first `content_transformation` element is not a map, or when the nested expander panics; otherwise it agrees with ExpandTransformationConfiguration |
| ObjectLambdaExpand.MapEntries | internal/service/s3control/object_lambda_access_point.go:287-301 | the entries the loop keeps, which are the list's non-nil maps in order, are never more than the list's elements |
| ObjectLambdaExpand.ExpandTransformationConfigurations | internal/service/s3control/object_lambda_access_point.go:280-304 | the output is no longer than the input, and expands the input's non-nil maps one for one and in order; an empty input gives nil |
| ObjectLambdaExpand.ExpandConfiguration | internal/service/s3control/object_lambda_access_point.go:236-260 | a nil map gives nil; each request field is set only when its key holds a value of the right type that is non-empty or true, and then to that value or its expansion; a false `cloud_watch_metrics_enabled` is left unset |
| ObjectLambdaExpand.MapEntriesConcat | internal/service/s3control/object_lambda_access_point.go:287-301 | the list expander keeps order: the kept entries of `a + b` are those of `a` followed by those of `b` |
| ObjectLambdaExpand.MapEntriesSkip | internal/service/s3control/object_lambda_access_point.go:288-298 | an element that is not a non-nil map can be removed without changing the output |
| ObjectLambdaExpand.MapEntriesMembership | internal/service/s3control/object_lambda_access_point.go:287-301 | a map is kept if and only if the list holds it as a non-nil map |
| ObjectLambdaExpand.MapEntriesOfMaps | internal/service/s3control/object_lambda_access_point.go:287-301 | a list made only of non-nil maps is kept whole and in order |
| ObjectLambdaExpand.OnlyFirstBlockIsRead | internal/service/s3control/object_lambda_access_point.go:273-274 | the elements after the first `content_transformation` or `aws_lambda` block do not affect the result |
| ObjectLambdaExpand.UndeclaredKeysAreIgnored | internal/service/s3control/object_lambda_access_point.go:262-336 | the nested expanders ignore every key other than the ones they read |
| ObjectLambdaExpand.EmptyBlocksSetNothing | internal/service/s3control/object_lambda_access_point.go:262-336 | an empty block sets no request field, so nothing is defaulted |
| ObjectLambdaExpand.EmptyContentTransformationBlock | internal/service/s3control/object_lambda_access_point.go:273-274 | a `content_transformation` list that holds nil makes the code as written panic, while the corrected expander leaves the field unset |
| ObjectLambdaExpand.EmptyAwsLambdaBlock | internal/service/s3control/object_lambda_access_point.go:313-314 | an `aws_lambda` list that holds nil makes the code as written panic, while the corrected expander leaves the field unset |
| AccessPointBlocks.ExpandVpcConfiguration | internal/service/s3control/object_lambda_access_point.go:366-376 | an empty list or a nil first element gives nil; otherwise `VpcId` is set to the block's `vpc_id` |
| AccessPointBlocks.FlattenVpcConfiguration | internal/service/s3control/object_lambda_access_point.go:378-386 | nil gives the empty list; a record gives one block, holding its VPC ID or `""`, that the expander accepts without panicking |
| AccessPointBlocks.VpcExpandFlatten | internal/service/s3control/object_lambda_access_point.go:366-386 | flatten then expand returns the record, except that an unset VPC ID comes back as `""` |
| AccessPointBlocks.VpcRoundTrip | internal/service/s3control/object_lambda_access_point.go:366-386 | `expand(flatten(c)) == c` whenever `c` is nil or its VPC ID is set |
| AccessPointBlocks.VpcFlattenExpand | internal/service/s3control/object_lambda_access_point.go:366-386 | `flatten(expand(l)) == l` for every list of the shape that flatten produces |
| AccessPointBlocks.ExpandPublicAccessBlockConfiguration | internal/service/s3control/object_lambda_access_point.go:388-401 | an empty list or a nil first element gives nil; otherwise all four flags are set to the block's booleans |
| AccessPointBlocks.FlattenPublicAccessBlockConfiguration | internal/service/s3control/object_lambda_access_point.go:403-414 | nil gives the empty list; a record gives one block that the expander accepts, with every unset flag read as false |
| AccessPointBlocks.PublicAccessBlockExpandFlatten | internal/service/s3control/object_lambda_access_point.go:388-414 | flatten then expand keeps every flag that is set and turns each unset flag into false |
| AccessPointBlocks.PublicAccessBlockRoundTrip | internal/service/s3control/object_lambda_access_point.go:388-414 | `expand(flatten(c)) == c` when `c` is nil or all four flags are set |
| AccessPointBlocks.PublicAccessBlockFlattenIdempotent | internal/service/s3control/object_lambda_access_point.go:388-414 | a second flatten-expand cycle changes nothing |
| AccessPointBlocks.PublicAccessBlockFlattenExpand | internal/service/s3control/object_lambda_access_point.go:388-414 | `flatten(expand(l)) == l` for every list of the shape that flatten produces |

## Left out

- The CRUD handlers (`object_lambda_access_point.go:122-215`) are left out. They are calls into the AWS SDK and the plugin SDK's `schema.ResourceData`. That includes the rule that a "not found" error on Read or Delete removes the resource quietly.
- The schema declaration (`object_lambda_access_point.go:20-120`) and its validators (`verify.ValidARN`, `verify.ValidAccountID`, `validation.StringInSlice`) are framework configuration and library code. They are not part of this model.
- The ARN built with `arn.ARN{...}.String()` (`object_lambda_access_point.go:175-180`) is a library formatter and is not modelled.
- `flex.ExpandStringSet` is not part of this model. `ObjectLambdaExpand.ExpandStringSet` takes it to list the set's string members in the set's order, skipping members that are not strings or are `""`, as the provider's `flex.ExpandStringList` does.
- Go strings are byte sequences; the model uses sequences of characters. Splitting on `:` agrees for valid UTF-8, because `:` is one byte and never occurs inside a multi-byte sequence. A Go string that is not valid UTF-8 has no counterpart in the model.
- A `*schema.Set` is modelled as the sequence its `List()` returns. Its hashing and the uniqueness of its members are not modelled.
- A non-nil empty slice returned by `flex.ExpandStringSet` cannot be told apart from nil, because every slice is a sequence.
- The commented-out expanders (`object_lambda_access_point.go:338-364`) are dead code and are not modelled.
- Logging calls are not modelled.
- `internal/service/kendra/thesaurus_data_source.go` is not part of this model. It is one SDK lookup, time formatting, tag listing over the network and `fmt.Sprintf` ID/ARN building with no parser.
- ExpandVpcConfiguration: the panics of its single-value type assertions are modelled as its precondition, `VpcExpandable`. Flatten's output always meets it.
- ExpandPublicAccessBlockConfiguration: the panics of its single-value type assertions are modelled as its precondition, `PublicAccessBlockExpandable`. Flatten's output always meets it.
- ExpandConfiguration: it calls the corrected nested expanders (see Findings). So it does not model the panic that the code as written passes up from lines 274 and 314.
- ExpandTransformationConfigurations: it calls the corrected nested expanders (see Findings). So it does not model the panic that the code as written passes up from lines 274 and 314.
- The request objects are values. The model does not capture pointer identity or aliasing between the objects the expanders allocate.

## Findings

| source | as written | input that shows it | evidently intended | confidence | as-written member | corrected member |
|---|---|---|---|---|---|---|
| internal/service/s3control/object_lambda_access_point.go:274 | `v[0].(map[string]interface{})` is a single-value type assertion. It panics when the first `content_transformation` element is nil. | The schema allows `content_transformation {}`, because `aws_lambda` is optional. The plugin SDK hands that empty block over as a list holding nil. | Treat a nil first element as an absent block, as lines 367-369 do. The removed expander at lines 339-341 did the same. The `ContentTransformation` field is then left unset. | medium; not executed | ObjectLambdaExpand.ExpandTransformationConfigurationAsWritten, shown by ObjectLambdaExpand.EmptyContentTransformationBlock | ObjectLambdaExpand.ExpandTransformationConfiguration |
| internal/service/s3control/object_lambda_access_point.go:314 | `v[0].(map[string]interface{})` is a single-value type assertion. It panics when the first `aws_lambda` element is nil. | `aws_lambda` arrives as a list holding nil. The schema's required `function_arn` makes an empty `aws_lambda {}` block unlikely. | Treat a nil first element as an absent block, so the `AwsLambda` field is left unset. | low; not executed | ObjectLambdaExpand.ExpandContentTransformationAsWritten, shown by ObjectLambdaExpand.EmptyAwsLambdaBlock | ObjectLambdaExpand.ExpandContentTransformation |
