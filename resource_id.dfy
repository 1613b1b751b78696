/** The resource ID of an S3 Object Lambda access point: the account ID and
    the access point name joined by ':'. */
module ObjectLambdaAccessPointId {
  import opened GoValues
  import opened GoStrings

  /** objectLambdaAccessPointResourceIDSeparator, the one-character string ":" */
  const Separator: char := ':'

  /** The format the parse error names */
  const ExpectedFormat: string := "account-id:access-point-name"

  /** The start of the parse error's text, before the rejected ID */
  const MessagePrefix: string := "unexpected format for ID ("

  /** The error the parser returns for an ID of the wrong shape */
  datatype IdError = UnexpectedFormat(id: string) {
    /** The error text, as fmt.Errorf renders it: it quotes the rejected ID and
        ends by naming the expected format */
    function Message(): (msg: string)
      ensures msg == "unexpected format for ID (" + id + "), expected account-id:access-point-name"
      ensures |msg| >= |MessagePrefix| + |id| && msg[|MessagePrefix|..|MessagePrefix| + |id|] == id
      ensures |msg| >= |ExpectedFormat| && msg[|msg| - |ExpectedFormat|..] == ExpectedFormat
    {
      var tail := "), expected account-id" + [Separator] + "access-point-name";
      assert tail == "), expected " + ExpectedFormat;
      var msg := MessagePrefix + id + tail;
      assert msg == (MessagePrefix + id) + "), expected " + ExpectedFormat;
      msg
    }
  }

  /** Go's (accountID, name, err) result triple */
  datatype ParsedId = ParsedId(accountId: string, name: string, err: Option<IdError>)

  /** A part the parser accepts back: non-empty and free of the separator */
  predicate WellFormedPart(p: string) {
    p != "" && Separator !in p
  }

  /** ObjectLambdaAccessPointCreateResourceID: joins the two parts; no validation */
  function CreateResourceId(accountId: string, accessPointName: string): (id: string)
    ensures id == accountId + [Separator] + accessPointName
  {
    Join([accountId, accessPointName], Separator)
  }

  /** ObjectLambdaAccessPointParseResourceID: splits on every separator and
      accepts exactly two non-empty parts; otherwise ("", "", error) */
  function ParseResourceId(id: string): (r: ParsedId)
    ensures r.err.None? ==>
      WellFormedPart(r.accountId) && WellFormedPart(r.name) &&
      CreateResourceId(r.accountId, r.name) == id
    ensures r.err.Some? ==> r == ParsedId("", "", Some(UnexpectedFormat(id)))
  {
    var parts := Split(id, Separator);
    if |parts| == 2 && parts[0] != "" && parts[1] != "" then
      JoinSplit(id, Separator);
      ParsedId(parts[0], parts[1], None)
    else
      ParsedId("", "", Some(UnexpectedFormat(id)))
  }

  /** Round trip: the ID of two well-formed parts parses back to them */
  lemma ParseCreateResourceId(accountId: string, accessPointName: string)
    requires WellFormedPart(accountId) && WellFormedPart(accessPointName)
    ensures ParseResourceId(CreateResourceId(accountId, accessPointName)) == ParsedId(accountId, accessPointName, None)
  {
    SplitJoin([accountId, accessPointName], Separator);
  }

  /** The parser accepts exactly the IDs that CreateResourceId makes from well-formed parts */
  lemma ParseAcceptsExactlyCreated(id: string)
    ensures ParseResourceId(id).err.None? <==>
      exists a, n :: WellFormedPart(a) && WellFormedPart(n) && CreateResourceId(a, n) == id
  {
    var r := ParseResourceId(id);
    if exists a, n :: WellFormedPart(a) && WellFormedPart(n) && CreateResourceId(a, n) == id {
      var a, n :| WellFormedPart(a) && WellFormedPart(n) && CreateResourceId(a, n) == id;
      ParseCreateResourceId(a, n);
    }
    if r.err.None? {
      assert WellFormedPart(r.accountId) && WellFormedPart(r.name) && CreateResourceId(r.accountId, r.name) == id;
    }
  }

  /** Creation does no validation: a name holding the separator yields an ID
      the parser rejects, since the ID then splits into three or more parts */
  lemma SeparatorInNameIsRejected(accountId: string, accessPointName: string, i: nat)
    requires i < |accessPointName| && accessPointName[i] == Separator
    ensures ParseResourceId(CreateResourceId(accountId, accessPointName)).err.Some?
  {
    var id := CreateResourceId(accountId, accessPointName);
    assert id[|accountId|] == Separator;
    assert id[|accountId| + 1 + i] == accessPointName[i];
    SplitAtTwoSeparators(id, Separator, |accountId|, |accountId| + 1 + i);
  }

  /** An ID without a separator splits into one part and is rejected */
  lemma EmptyIdIsRejected()
    ensures ParseResourceId("") == ParsedId("", "", Some(UnexpectedFormat("")))
  {
  }

  /** An ID with an empty account part is rejected */
  lemma EmptyAccountIsRejected()
    ensures ParseResourceId(":x").err.Some?
  {
    SplitAfterPiece("", Separator, "x");
    assert "" + [Separator] + "x" == ":x";
  }

  /** An ID with an empty name part is rejected */
  lemma EmptyNameIsRejected()
    ensures ParseResourceId("x:").err.Some?
  {
    SplitAfterPiece("x", Separator, "");
    assert "x" + [Separator] + "" == "x:";
  }

  /** An ID with three parts is rejected */
  lemma ThreePartsAreRejected()
    ensures ParseResourceId("a:b:c").err.Some?
  {
    SeparatorInNameIsRejected("a", "b:c", 1);
    assert CreateResourceId("a", "b:c") == "a:b:c";
  }

  /** The ID of account 123456789012's access point "example" */
  lemma ExampleIdRoundTrip()
    ensures CreateResourceId("123456789012", "example") == "123456789012:example"
    ensures ParseResourceId("123456789012:example") == ParsedId("123456789012", "example", None)
  {
    ParseCreateResourceId("123456789012", "example");
  }
}
