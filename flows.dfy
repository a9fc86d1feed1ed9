/**
 * The flow manager: the request shapes of the flow CRUD calls, the multipart upload
 * of a flow's JSON document as an asset, and the fetch of that document.
 *
 * As in the media manager, the request client is the `Requester` record and reply
 * decoding is a `decode` parameter. The list and node shapes that `FetchAll` and
 * `Fetch` decode are not needed by any rule here, so those two calls are generic
 * in the decoded type.
 */
module Flows {
  import opened Outcomes
  import opened Text
  import opened Api

  /** One validation problem the service found in a flow document. */
  datatype FlowValidationError = FlowValidationError(
    error: string, errorType: string, message: string,
    lineStart: int, lineEnd: int, columnStart: int, columnEnd: int)

  datatype CreateFlowRequest = CreateFlowRequest(
    name: string, categories: seq<string>, flowJson: string, publish: bool, cloneFlowId: string, endpointUri: string)

  datatype CreateFlowReply = CreateFlowReply(id: string, success: bool, validationErrors: seq<FlowValidationError>)

  datatype UpdateFlowRequest = UpdateFlowRequest(name: string, categories: seq<string>, endpointUri: string)

  /** The reply to an asset upload: a success flag and the validation errors, in order. */
  datatype AssetReply = AssetReply(success: bool, validationErrors: seq<FlowValidationError>)

  datatype FlowManagerConfig = FlowManagerConfig(businessAccountId: string, apiAccessToken: string, requester: Requester)

  /** The ten fields `Fetch` asks for, as one comma-separated query value. */
  const FETCH_FIELDS := "id,name,status,categories,validation_errors,json_version,data_api_version,endpoint_uri,preview,health_status"

  // ---------------------------------------------------------------------------
  // Request bodies as json.Marshal renders them (struct field order; `omitempty`
  // fields left out when they hold their zero value)

  function Optional(key: string, value: Json, present: bool): seq<(string, Json)> {
    if present then [(key, value)] else []
  }

  function Strings(items: seq<string>): seq<Json> {
    seq(|items|, i requires 0 <= i < |items| => JString(items[i]))
  }

  function Keys(members: seq<(string, Json)>): seq<string> {
    seq(|members|, i requires 0 <= i < |members| => members[i].0)
  }

  lemma KeysAppend(a: seq<(string, Json)>, b: seq<(string, Json)>)
    ensures Keys(a + b) == Keys(a) + Keys(b)
  {
  }

  lemma KeysOptional(key: string, value: Json, present: bool)
    ensures Keys(Optional(key, value, present)) == if present then [key] else []
  {
  }

  /** The value of the first member called `key`, as a reader of the object finds it. */
  function Lookup(members: seq<(string, Json)>, key: string): Option<Json>
    decreases |members|
  {
    if members == [] then None
    else if members[0].0 == key then Some(members[0].1)
    else Lookup(members[1..], key)
  }

  lemma {:induction false} LookupAppend(a: seq<(string, Json)>, b: seq<(string, Json)>, key: string)
    ensures Lookup(a + b, key) == if Lookup(a, key).Some? then Lookup(a, key) else Lookup(b, key)
    decreases |a|
  {
    if a == [] {
      assert a + b == b;
    } else {
      assert (a + b)[1..] == a[1..] + b;
      LookupAppend(a[1..], b, key);
    }
  }

  lemma {:induction false} LookupAbsent(members: seq<(string, Json)>, key: string)
    requires key !in Keys(members)
    ensures Lookup(members, key) == None
    decreases |members|
  {
    if members != [] {
      assert Keys(members) == [members[0].0] + Keys(members[1..]);
      LookupAbsent(members[1..], key);
    }
  }

  lemma LookupOptional(key: string, value: Json, present: bool, k: string)
    ensures Lookup(Optional(key, value, present), k) == if present && k == key then Some(value) else None
  {
  }

  /** Where `key` is not among the keys of `before` and of `after`, it is found as `Optional` gives it. */
  lemma LookupBetween(before: seq<(string, Json)>, key: string, value: Json, present: bool,
                      after: seq<(string, Json)>)
    requires key !in Keys(before) && key !in Keys(after)
    ensures Lookup(before + Optional(key, value, present) + after, key) == if present then Some(value) else None
  {
    LookupAppend(before, Optional(key, value, present), key);
    LookupAppend(before + Optional(key, value, present), after, key);
    LookupAbsent(before, key);
    LookupAbsent(after, key);
    LookupOptional(key, value, present, key);
  }

  // The members of a create body, in struct field order: `name` and `categories`
  // always, then each `omitempty` field only when it is not its zero value.

  function CreateFixed(req: CreateFlowRequest): seq<(string, Json)> {
    [("name", JString(req.name)), ("categories", JArray(Strings(req.categories)))]
  }

  function FlowJsonMember(req: CreateFlowRequest): seq<(string, Json)> {
    Optional("flow_json", JString(req.flowJson), req.flowJson != "")
  }

  function PublishMember(req: CreateFlowRequest): seq<(string, Json)> {
    Optional("publish", JBool(req.publish), req.publish)
  }

  function CloneFlowIdMember(req: CreateFlowRequest): seq<(string, Json)> {
    Optional("clone_flow_id", JString(req.cloneFlowId), req.cloneFlowId != "")
  }

  function EndpointUriMember(req: CreateFlowRequest): seq<(string, Json)> {
    Optional("endpoint_uri", JString(req.endpointUri), req.endpointUri != "")
  }

  function CreateMembers(req: CreateFlowRequest): seq<(string, Json)> {
    CreateFixed(req) + FlowJsonMember(req) + PublishMember(req) + CloneFlowIdMember(req) + EndpointUriMember(req)
  }

  /** The keys each piece of a create body contributes. */
  lemma CreatePieceKeys(req: CreateFlowRequest)
    ensures Keys(CreateFixed(req)) == ["name", "categories"]
    ensures Keys(FlowJsonMember(req)) == if req.flowJson != "" then ["flow_json"] else []
    ensures Keys(PublishMember(req)) == if req.publish then ["publish"] else []
    ensures Keys(CloneFlowIdMember(req)) == if req.cloneFlowId != "" then ["clone_flow_id"] else []
    ensures Keys(EndpointUriMember(req)) == if req.endpointUri != "" then ["endpoint_uri"] else []
  {
    KeysOptional("flow_json", JString(req.flowJson), req.flowJson != "");
    KeysOptional("publish", JBool(req.publish), req.publish);
    KeysOptional("clone_flow_id", JString(req.cloneFlowId), req.cloneFlowId != "");
    KeysOptional("endpoint_uri", JString(req.endpointUri), req.endpointUri != "");
  }

  lemma CreateKeys(req: CreateFlowRequest)
    ensures Keys(CreateMembers(req)) == ["name", "categories"]
                                        + (if req.flowJson != "" then ["flow_json"] else [])
                                        + (if req.publish then ["publish"] else [])
                                        + (if req.cloneFlowId != "" then ["clone_flow_id"] else [])
                                        + (if req.endpointUri != "" then ["endpoint_uri"] else [])
  {
    var fixed, j, p, c, e := CreateFixed(req), FlowJsonMember(req), PublishMember(req),
                             CloneFlowIdMember(req), EndpointUriMember(req);
    CreatePieceKeys(req);
    KeysAppend(fixed, j);
    KeysAppend(fixed + j, p);
    KeysAppend(fixed + j + p, c);
    KeysAppend(fixed + j + p + c, e);
  }

  /**
   * Each optional member of a create body is found with its own value exactly when
   * it is present: its key occurs in no other piece, so the first match is its own.
   */
  lemma CreateLookups(req: CreateFlowRequest)
    ensures var members := CreateMembers(req);
      && Lookup(members, "flow_json") == (if req.flowJson != "" then Some(JString(req.flowJson)) else None)
      && Lookup(members, "publish") == (if req.publish then Some(JBool(true)) else None)
      && Lookup(members, "clone_flow_id") == (if req.cloneFlowId != "" then Some(JString(req.cloneFlowId)) else None)
      && Lookup(members, "endpoint_uri") == (if req.endpointUri != "" then Some(JString(req.endpointUri)) else None)
  {
    var fixed, j, p, c, e := CreateFixed(req), FlowJsonMember(req), PublishMember(req),
                             CloneFlowIdMember(req), EndpointUriMember(req);
    var members := CreateMembers(req);
    CreatePieceKeys(req);
    KeysAppend(fixed, j);
    KeysAppend(fixed + j, p);
    KeysAppend(fixed + j + p, c);
    KeysAppend(p, c);
    KeysAppend(p + c, e);
    KeysAppend(c, e);
    assert members == fixed + j + (p + c + e);
    LookupBetween(fixed, "flow_json", JString(req.flowJson), req.flowJson != "", p + c + e);
    assert members == (fixed + j) + p + (c + e);
    LookupBetween(fixed + j, "publish", JBool(req.publish), req.publish, c + e);
    LookupBetween(fixed + j + p, "clone_flow_id", JString(req.cloneFlowId), req.cloneFlowId != "", e);
    assert members == fixed + j + p + c + e + [];
    LookupBetween(fixed + j + p + c, "endpoint_uri", JString(req.endpointUri), req.endpointUri != "", []);
  }

  function EncodeCreate(req: CreateFlowRequest): (j: Json)
    ensures j.JObject? && |j.members| >= 2
    ensures j.members[0] == ("name", JString(req.name))
    ensures j.members[1] == ("categories", JArray(Strings(req.categories)))
    ensures Keys(j.members) == ["name", "categories"]
                              + (if req.flowJson != "" then ["flow_json"] else [])
                              + (if req.publish then ["publish"] else [])
                              + (if req.cloneFlowId != "" then ["clone_flow_id"] else [])
                              + (if req.endpointUri != "" then ["endpoint_uri"] else [])
    ensures Lookup(j.members, "flow_json") == if req.flowJson != "" then Some(JString(req.flowJson)) else None
    ensures Lookup(j.members, "publish") == if req.publish then Some(JBool(true)) else None
    ensures Lookup(j.members, "clone_flow_id") == if req.cloneFlowId != "" then Some(JString(req.cloneFlowId)) else None
    ensures Lookup(j.members, "endpoint_uri") == if req.endpointUri != "" then Some(JString(req.endpointUri)) else None
  {
    CreateKeys(req);
    CreateLookups(req);
    JObject(CreateMembers(req))
  }

  function EncodeUpdate(req: UpdateFlowRequest): (j: Json)
    ensures j.JObject?
    ensures Keys(j.members) == (if req.name != "" then ["name"] else [])
                              + (if req.categories != [] then ["categories"] else [])
                              + (if req.endpointUri != "" then ["endpoint_uri"] else [])
    ensures Lookup(j.members, "name") == if req.name != "" then Some(JString(req.name)) else None
    ensures Lookup(j.members, "categories") == if req.categories != [] then Some(JArray(Strings(req.categories))) else None
    ensures Lookup(j.members, "endpoint_uri") == if req.endpointUri != "" then Some(JString(req.endpointUri)) else None
  {
    var name := Optional("name", JString(req.name), req.name != "");
    var categories := Optional("categories", JArray(Strings(req.categories)), req.categories != []);
    var endpointUri := Optional("endpoint_uri", JString(req.endpointUri), req.endpointUri != "");
    KeysAppend(name, categories);
    KeysAppend(name + categories, endpointUri);
    KeysOptional("name", JString(req.name), req.name != "");
    KeysOptional("categories", JArray(Strings(req.categories)), req.categories != []);
    KeysOptional("endpoint_uri", JString(req.endpointUri), req.endpointUri != "");
    var members := name + categories + endpointUri;
    assert Lookup(members, "name") == if req.name != "" then Some(JString(req.name)) else None by {
      KeysAppend(categories, endpointUri);
      assert members == [] + name + (categories + endpointUri);
      LookupBetween([], "name", JString(req.name), req.name != "", categories + endpointUri);
    }
    assert Lookup(members, "categories") == if req.categories != [] then Some(JArray(Strings(req.categories))) else None by {
      LookupBetween(name, "categories", JArray(Strings(req.categories)), req.categories != [], endpointUri);
    }
    assert Lookup(members, "endpoint_uri") == if req.endpointUri != "" then Some(JString(req.endpointUri)) else None by {
      assert members == name + categories + endpointUri + [];
      LookupBetween(name + categories, "endpoint_uri", JString(req.endpointUri), req.endpointUri != "", []);
    }
    JObject(members)
  }

  // ---------------------------------------------------------------------------
  // The asset upload

  /** The content of the first part called `name`, if any. */
  function PartContent(form: seq<Part>, name: string): Option<string>
    decreases |form|
  {
    if form == [] then None
    else if form[0].name == name then Some(form[0].content)
    else PartContent(form[1..], name)
  }

  /** The form of an asset upload, in the order it is written. */
  function AssetForm(flowJSON: string): (form: seq<Part>)
    ensures |form| == 3
    ensures form[0] == FieldPart("name", "flow.json")
    ensures form[1] == FieldPart("asset_type", "FLOW_JSON")
    ensures form[2].name == "file" && form[2].filename == Some("flow.json")
    ensures form[2].contentType == Some(OCTET_STREAM)
    ensures PartContent(form, "file") == Some(flowJSON)
  {
    var form := [FieldPart("name", "flow.json"), FieldPart("asset_type", "FLOW_JSON"),
                 Part("file", Some("flow.json"), Some(OCTET_STREAM), flowJSON)];
    assert "name" != "file" by { assert "name"[0] != "file"[0]; }
    assert "asset_type" != "file";
    assert form[1..][1..] == [form[2]];
    assert PartContent(form[1..][1..], "file") == Some(flowJSON);
    form
  }

  /** The request of an asset upload: a POST of the form to `<flowID>/assets`. */
  function AssetUploadRequest(flowID: string, flowJSON: string): (r: MultipartRequest)
    ensures r.verb == Post && r.path == flowID + "/assets"
    ensures r.form == AssetForm(flowJSON)
  {
    JoinPair(flowID, "assets", "/");
    MultipartRequest(Post, Join([flowID, "assets"], "/"), AssetForm(flowJSON))
  }

  /**
   * What an asset upload makes of the request client's answer: the decoded reply is
   * the result as it stands, even when it says success=false.
   */
  function AssetUploadOutcome(reply: Fallible<string>, decode: string -> Option<AssetReply>): (r: Result<AssetReply, Error>)
    ensures reply.Failed? ==> r == Err(Wrapped("failed to upload flow JSON", Transport(reply.cause)))
    ensures r.Ok? <==> Decoded(reply, decode).Some?
    ensures r.Ok? ==> r.value == Decoded(reply, decode).value
  {
    match reply
    case Failed(cause) => Err(Wrapped("failed to upload flow JSON", Transport(cause)))
    case Done(raw) =>
      match decode(raw)
      case None => Err(Decode("failed to unmarshal response"))
      case Some(result) => Ok(result)
  }

  /** `NewFlowManager`: the manager holds the configuration's three values. */
  function NewFlowManager(config: FlowManagerConfig): (m: FlowManager)
    ensures m.businessAccountId == config.businessAccountId
    ensures m.apiAccessToken == config.apiAccessToken
    ensures m.requester == config.requester
  {
    FlowManager(config.businessAccountId, config.apiAccessToken, config.requester)
  }

  /** The flow manager; a value that none of its operations changes. */
  datatype FlowManager = FlowManager(businessAccountId: string, apiAccessToken: string, requester: Requester) {

    /** `Create` posts the encoded request to `<businessAccountId>/flows`. */
    function CreateRequest(req: CreateFlowRequest): (r: ApiRequest)
      ensures r.verb == Post && r.path == businessAccountId + "/flows" && r.query == []
      ensures r.body == Some(EncodeCreate(req))
    {
      JoinPair(businessAccountId, "flows", "/");
      ApiRequest(Join([businessAccountId, "flows"], "/"), Post, [], Some(EncodeCreate(req)))
    }

    /** Creates a flow; the decoded reply is returned as it stands, success flag and errors included. */
    function Create(req: CreateFlowRequest, decode: string -> Option<CreateFlowReply>): (r: Result<CreateFlowReply, Error>)
      ensures var reply := requester.execute(CreateRequest(req));
        && (reply.Failed? ==> r == Err(Transport(reply.cause)))
        && (r.Ok? <==> Decoded(reply, decode).Some?)
        && (r.Ok? ==> r.value == Decoded(reply, decode).value)
    {
      match requester.execute(CreateRequest(req))
      case Failed(cause) => Err(Transport(cause))
      case Done(raw) =>
        match decode(raw)
        case None => Err(Decode("failed to unmarshal response"))
        case Some(result) => Ok(result)
    }

    /** Lists the flows of the business account with a GET on `<businessAccountId>/flows`. */
    function FetchAll<L>(decode: string -> Option<L>): (r: Result<L, Error>)
      ensures var reply := requester.execute(NewApiRequest(businessAccountId + "/flows", Get));
        && (reply.Failed? ==> r == Err(Transport(reply.cause)))
        && (r.Ok? <==> Decoded(reply, decode).Some?)
        && (r.Ok? ==> r.value == Decoded(reply, decode).value)
    {
      var path := Join([businessAccountId, "flows"], "/");
      assert path == businessAccountId + "/flows" by {
        JoinPair(businessAccountId, "flows", "/");
      }
      match requester.execute(NewApiRequest(path, Get))
      case Failed(cause) => Err(Transport(cause))
      case Done(raw) =>
        match decode(raw)
        case None => Err(Decode("failed to unmarshal response"))
        case Some(result) => Ok(result)
    }

    /** Fetches one flow: a GET on the bare flow id with a `fields` query naming ten fields. */
    function Fetch<N>(flowID: string, decode: string -> Option<N>): (r: Result<N, Error>)
      ensures var reply := requester.execute(ApiRequest(flowID, Get, [("fields", FETCH_FIELDS)], None));
        && (reply.Failed? ==> r == Err(Transport(reply.cause)))
        && (r.Ok? <==> Decoded(reply, decode).Some?)
        && (r.Ok? ==> r.value == Decoded(reply, decode).value)
    {
      var apiRequest := NewApiRequest(flowID, Get).(query := [("fields", FETCH_FIELDS)]);
      match requester.execute(apiRequest)
      case Failed(cause) => Err(Transport(cause))
      case Done(raw) =>
        match decode(raw)
        case None => Err(Decode("failed to unmarshal response"))
        case Some(result) => Ok(result)
    }

    /** Updates a flow: a POST of the encoded request on the bare flow id; only the transport can fail. */
    function Update(flowID: string, req: UpdateFlowRequest): (r: Result<(), Error>)
      ensures var reply := requester.execute(ApiRequest(flowID, Post, [], Some(EncodeUpdate(req))));
        && (r.Ok? <==> reply.Done?)
        && (reply.Failed? ==> r == Err(Transport(reply.cause)))
    {
      match requester.execute(NewApiRequest(flowID, Post).(body := Some(EncodeUpdate(req))))
      case Failed(cause) => Err(Transport(cause))
      case Done(_) => Ok(())
    }

    /** Publishes a flow: a POST on `<flowID>/publish`. */
    function Publish(flowID: string): (r: Result<(), Error>)
      ensures var reply := requester.execute(NewApiRequest(flowID + "/publish", Post));
        && (r.Ok? <==> reply.Done?)
        && (reply.Failed? ==> r == Err(Transport(reply.cause)))
    {
      var path := Join([flowID, "publish"], "/");
      assert path == flowID + "/publish" by {
        JoinPair(flowID, "publish", "/");
      }
      match requester.execute(NewApiRequest(path, Post))
      case Failed(cause) => Err(Transport(cause))
      case Done(_) => Ok(())
    }

    /** Deprecates a flow: a POST on `<flowID>/deprecate`. */
    function Deprecate(flowID: string): (r: Result<(), Error>)
      ensures var reply := requester.execute(NewApiRequest(flowID + "/deprecate", Post));
        && (r.Ok? <==> reply.Done?)
        && (reply.Failed? ==> r == Err(Transport(reply.cause)))
    {
      var path := Join([flowID, "deprecate"], "/");
      assert path == flowID + "/deprecate" by {
        JoinPair(flowID, "deprecate", "/");
      }
      match requester.execute(NewApiRequest(path, Post))
      case Failed(cause) => Err(Transport(cause))
      case Done(_) => Ok(())
    }

    /** Deletes a flow: a DELETE on the bare flow id. */
    function Delete(flowID: string): (r: Result<(), Error>)
      ensures var reply := requester.execute(NewApiRequest(flowID, Api.Delete));
        && (r.Ok? <==> reply.Done?)
        && (reply.Failed? ==> r == Err(Transport(reply.cause)))
    {
      match requester.execute(NewApiRequest(flowID, Api.Delete))
      case Failed(cause) => Err(Transport(cause))
      case Done(_) => Ok(())
    }

    /**
     * Uploads a flow's JSON document as its `flow.json` asset. The form is written
     * part by part into an in-memory buffer; a decoded reply is never turned into an
     * error, whatever its success flag says.
     */
    method UploadFlowJSON(flowID: string, flowJSON: string, decode: string -> Option<AssetReply>)
      returns (r: Result<AssetReply, Error>)
      ensures r == AssetUploadOutcome(requester.requestMultipart(AssetUploadRequest(flowID, flowJSON)), decode)
      ensures forall raw ::
                (requester.requestMultipart(AssetUploadRequest(flowID, flowJSON)) == Done(raw) && decode(raw).Some?)
                ==> r == Ok(decode(raw).value)
    {
      var writer := new FormWriter();
      writer.WriteField("name", "flow.json");
      writer.WriteField("asset_type", "FLOW_JSON");
      writer.CreateFormFile("file", "flow.json");
      writer.Write(flowJSON);
      writer.Close();
      assert writer.parts == AssetForm(flowJSON) by {
        assert writer.parts[0] == FieldPart("name", "flow.json");
        assert writer.parts[1] == FieldPart("asset_type", "FLOW_JSON");
        assert writer.parts[2] == Part("file", Some("flow.json"), Some(OCTET_STREAM), flowJSON);
      }

      JoinPair(flowID, "assets", "/");
      var path := Join([flowID, "assets"], "/");
      var response := requester.requestMultipart(MultipartRequest(Post, path, writer.parts));
      match response {
        case Failed(cause) =>
          return Err(Wrapped("failed to upload flow JSON", Transport(cause)));
        case Done(raw) =>
          match decode(raw) {
            case None =>
              return Err(Decode("failed to unmarshal response"));
            case Some(result) =>
              return Ok(result);
          }
      }
    }

    /** Fetches a flow's JSON document: a GET on `<flowID>/assets`, the reply text returned unparsed. */
    function GetFlowJSON(flowID: string): (r: Result<string, Error>)
      ensures var reply := requester.execute(NewApiRequest(flowID + "/assets", Get));
        && (reply.Done? ==> r == Ok(reply.value))
        && (reply.Failed? ==> r == Err(Transport(reply.cause)))
    {
      var path := Join([flowID, "assets"], "/");
      assert path == flowID + "/assets" by {
        JoinPair(flowID, "assets", "/");
      }
      match requester.execute(NewApiRequest(path, Get))
      case Failed(cause) => Err(Transport(cause))
      case Done(response) => Ok(response)
    }
  }

  /**
   * A service that keeps the `file` part of an asset upload and serves it back on a
   * GET of the same path, and fails every other request.
   */
  function EchoService(upload: MultipartRequest, req: ApiRequest): Fallible<string> {
    if req == NewApiRequest(upload.path, Get) && PartContent(upload.form, "file").Some? then
      Done(PartContent(upload.form, "file").value)
    else
      Failed("not found")
  }

  /**
   * Against a service that stores what it is sent, fetching a flow's JSON after
   * uploading it gives back the uploaded document unchanged.
   */
  lemma AssetRoundTrip(m: FlowManager, flowID: string, doc: string)
    requires forall req :: m.requester.execute(req) == EchoService(AssetUploadRequest(flowID, doc), req)
    ensures m.GetFlowJSON(flowID) == Ok(doc)
  {
    var upload := AssetUploadRequest(flowID, doc);
    assert m.requester.execute(NewApiRequest(flowID + "/assets", Get)) == EchoService(upload, NewApiRequest(flowID + "/assets", Get));
  }
}
