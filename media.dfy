/**
 * The media manager: id-to-URL resolution, deletion, the one-shot multipart upload
 * and the two-phase resumable upload (create a session, then push the bytes at an
 * offset to obtain a handle), plus the call that runs both phases.
 *
 * Every operation builds one request, hands it to the request client and then
 * decides whether the reply counts as success. Decoding the reply text into the
 * expected shape (`json.Unmarshal`) is the `decode` parameter of each operation; a
 * field absent from the reply decodes to Go's zero value, so "absent" and "empty"
 * are the same case here.
 */
module Media {
  import opened Outcomes
  import opened Text
  import opened Api

  /** The metadata reply for a media id. */
  datatype MediaMetadata = MediaMetadata(
    messagingProduct: string, url: string, mimeType: string, sha256: string, fileSize: int, id: string)

  /** The reply to a delete. */
  datatype DeleteReply = DeleteReply(success: bool)

  /** `{id}`: the reply to a one-shot upload and to the creation of an upload session. */
  datatype IdReply = IdReply(id: string)

  /** `{h}`: the reply to a resumable data push, carrying the media handle. */
  datatype HandleReply = HandleReply(h: string)

  const DELETED_MESSAGE := "media deleted successfully"

  /** The form of a one-shot upload, in the order it is written. */
  function MediaForm(data: string, filename: string, mimeType: string): (form: seq<Part>)
    ensures |form| == 2
    ensures form[0] == FieldPart("messaging_product", "whatsapp")
    ensures form[1].name == "file" && form[1].content == data
    ensures form[1].filename == Some(Base(filename)) && form[1].contentType == Some(mimeType)
    ensures form[1].filename.value != "" && ('/' in form[1].filename.value ==> form[1].filename.value == "/")
  {
    BaseShape(filename);
    [FieldPart("messaging_product", "whatsapp"), Part("file", Some(Base(filename)), Some(mimeType), data)]
  }

  /** The request of a one-shot upload: a POST of the form to `<phoneNumberId>/media`. */
  function MediaUploadRequest(phoneNumberId: string, data: string, filename: string, mimeType: string): (r: MultipartRequest)
    ensures r.verb == Post && r.path == phoneNumberId + "/media"
    ensures r.form == MediaForm(data, filename, mimeType)
  {
    JoinPair(phoneNumberId, "media", "/");
    MultipartRequest(Post, Join([phoneNumberId, "media"], "/"), MediaForm(data, filename, mimeType))
  }

  /** What a one-shot upload makes of the request client's answer. */
  function MediaUploadOutcome(reply: Fallible<string>, decode: string -> Option<IdReply>): (r: Result<string, Error>)
    ensures reply.Failed? ==> r == Err(Wrapped("error uploading media", Transport(reply.cause)))
    ensures r.Ok? <==> Decoded(reply, decode).Some? && Decoded(reply, decode).value.id != ""
    ensures r.Ok? ==> r.value == Decoded(reply, decode).value.id
    ensures Decoded(reply, decode) == Some(IdReply("")) ==> r == Err(MissingField("id", reply.value))
  {
    match reply
    case Failed(cause) => Err(Wrapped("error uploading media", Transport(cause)))
    case Done(raw) =>
      match decode(raw)
      case None => Err(Decode("failed to parse JSON response"))
      case Some(result) => if result.id == "" then Err(MissingField("id", raw)) else Ok(result.id)
  }

  /** The request that creates an upload session: a POST of `{file_length, file_type}` to `<appID>/uploads`. */
  function SessionRequest(appID: string, fileLength: int, fileType: string): (r: ApiRequest)
    ensures r.verb == Post && r.path == appID + "/uploads" && r.query == []
    ensures r.body == Some(JObject([("file_length", JInt(fileLength)), ("file_type", JString(fileType))]))
  {
    ApiRequest(appID + "/uploads", Post, [],
      Some(JObject([("file_length", JInt(fileLength)), ("file_type", JString(fileType))])))
  }

  /**
   * The media manager. It holds the request client and nothing else, and being a
   * value it cannot be changed by any of its operations.
   */
  datatype MediaManager = MediaManager(requester: Requester) {

    /** The request that pushes `fileData` into upload session `sessionID` at `fileOffset`. */
    function PushRequest(sessionID: string, fileData: string, fileOffset: int): (r: RawRequest)
      ensures r.verb == Post && r.body == fileData
      ensures var ep := requester.endpoint;
        r.url == ep.protocol + "://" + ep.baseUrl + "/" + ep.apiVersion + "/" + sessionID
      ensures r.headers.Keys == {"Authorization", "file_offset"}
      ensures r.headers["Authorization"] == "OAuth " + requester.accessToken
      ensures r.headers["file_offset"] == FormatInt(fileOffset)
      ensures ParseInt(r.headers["file_offset"]) == Some(fileOffset)
    {
      FormatIntRoundTrip(fileOffset);
      var ep := requester.endpoint;
      RawRequest(
        Post,
        ep.protocol + "://" + ep.baseUrl + "/" + ep.apiVersion + "/" + sessionID,
        map["Authorization" := "OAuth " + requester.accessToken, "file_offset" := FormatInt(fileOffset)],
        fileData)
    }

    /** Resolves a media id to its (expiring) download URL with a GET on the bare id. */
    function GetMediaUrlById(id: string, decode: string -> Option<MediaMetadata>): (r: Result<string, Error>)
      ensures var reply := requester.execute(NewApiRequest(id, Get));
        && (reply.Failed? ==> r == Err(Transport(reply.cause)))
        && (r.Ok? <==> Decoded(reply, decode).Some? && Decoded(reply, decode).value.url != "")
        && (r.Ok? ==> r.value == Decoded(reply, decode).value.url)
        && (Decoded(reply, decode).Some? && Decoded(reply, decode).value.url == "" ==>
              r == Err(MissingField("url", reply.value)))
    {
      match requester.execute(NewApiRequest(id, Get))
      case Failed(cause) => Err(Transport(cause))
      case Done(raw) =>
        match decode(raw)
        case None => Err(Decode("failed to parse media metadata"))
        case Some(res) => if res.url == "" then Err(MissingField("url", raw)) else Ok(res.url)
    }

    /** Deletes a media object with a DELETE on `media/<id>`; a reply saying success=false is an error. */
    function DeleteMedia(id: string, decode: string -> Option<DeleteReply>): (r: Result<string, Error>)
      ensures var reply := requester.execute(NewApiRequest("media/" + id, Delete));
        && (reply.Failed? ==> r == Err(Transport(reply.cause)))
        && (r.Ok? <==> Decoded(reply, decode) == Some(DeleteReply(true)))
        && (r.Ok? ==> r.value == DELETED_MESSAGE)
        && (Decoded(reply, decode) == Some(DeleteReply(false)) ==> r == Err(Rejected(reply.value)))
    {
      var path := Join(["media", id], "/");
      assert path == "media/" + id by {
        JoinPair("media", id, "/");
      }
      match requester.execute(NewApiRequest(path, Delete))
      case Failed(cause) => Err(Transport(cause))
      case Done(raw) =>
        match decode(raw)
        case None => Err(Decode("failed to parse delete response"))
        case Some(res) => if !res.success then Err(Rejected(raw)) else Ok(DELETED_MESSAGE)
    }

    /**
     * Uploads a file in one multipart request and returns the media id. The form is
     * written part by part into an in-memory buffer; `file` is the stream the file
     * content is copied from, which may fail.
     */
    method UploadMedia(phoneNumberId: string, file: Fallible<string>, filename: string, mimeType: string,
                       decode: string -> Option<IdReply>)
      returns (r: Result<string, Error>)
      ensures file.Failed? ==> r == Err(Wrapped("failed to copy file into part", Io(file.cause)))
      ensures file.Done? ==>
        r == MediaUploadOutcome(requester.requestMultipart(MediaUploadRequest(phoneNumberId, file.value, filename, mimeType)), decode)
      ensures r.Ok? ==> r.value != ""
    {
      var writer := new FormWriter();
      writer.WriteField("messaging_product", "whatsapp");
      writer.CreatePart("file", Some(Base(filename)), Some(mimeType));
      match file {
        case Failed(cause) =>
          return Err(Wrapped("failed to copy file into part", Io(cause)));
        case Done(data) =>
          writer.Write(data);
      }
      writer.Close();
      assert writer.parts == MediaForm(file.value, filename, mimeType) by {
        assert writer.parts[0] == FieldPart("messaging_product", "whatsapp");
        assert writer.parts[1] == Part("file", Some(Base(filename)), Some(mimeType), file.value);
      }

      JoinPair(phoneNumberId, "media", "/");
      var apiPath := Join([phoneNumberId, "media"], "/");
      var reply := requester.requestMultipart(MultipartRequest(Post, apiPath, writer.parts));
      match reply {
        case Failed(cause) =>
          r := Err(Wrapped("error uploading media", Transport(cause)));
        case Done(raw) =>
          match decode(raw) {
            case None =>
              r := Err(Decode("failed to parse JSON response"));
            case Some(result) =>
              if result.id == "" {
                r := Err(MissingField("id", raw));
              } else {
                r := Ok(result.id);
              }
          }
      }
    }

    /** Creates a resumable upload session for `fileLength` bytes of type `fileType`; returns the session id. */
    function CreateResumableUploadSession(appID: string, fileLength: int, fileType: string,
                                          decode: string -> Option<IdReply>): (r: Result<string, Error>)
      ensures var reply := requester.execute(SessionRequest(appID, fileLength, fileType));
        && (reply.Failed? ==> r == Err(Wrapped("failed to create upload session", Transport(reply.cause))))
        && (r.Ok? <==> Decoded(reply, decode).Some? && Decoded(reply, decode).value.id != "")
        && (r.Ok? ==> r.value == Decoded(reply, decode).value.id)
        && (Decoded(reply, decode) == Some(IdReply("")) ==> r == Err(MissingField("id", reply.value)))
    {
      match requester.execute(SessionRequest(appID, fileLength, fileType))
      case Failed(cause) => Err(Wrapped("failed to create upload session", Transport(cause)))
      case Done(raw) =>
        match decode(raw)
        case None => Err(Decode("failed to parse upload session response"))
        case Some(result) => if result.id == "" then Err(MissingField("id", raw)) else Ok(result.id)
    }

    /**
     * Pushes `fileData` into an upload session at `fileOffset` and returns the media
     * handle. Fails when the status is outside [200, 300) or the handle is empty.
     */
    function UploadResumableMedia(sessionID: string, fileData: string, fileOffset: int,
                                  decode: string -> Option<HandleReply>): (r: Result<string, Error>)
      ensures var reply := requester.send(PushRequest(sessionID, fileData, fileOffset));
        && (reply.Failed? ==> r == Err(Wrapped("failed to execute upload request", Transport(reply.cause))))
        && (reply.Done? && reply.value.body.Failed? ==>
              r == Err(Wrapped("failed to read response body", Io(reply.value.body.cause))))
        && (reply.Done? && reply.value.body.Done? && !(200 <= reply.value.status < 300) ==>
              r == Err(BadStatus(reply.value.status, reply.value.body.value)))
        && (r.Ok? <==>
              && reply.Done? && reply.value.body.Done? && 200 <= reply.value.status < 300
              && decode(reply.value.body.value).Some? && decode(reply.value.body.value).value.h != "")
        && (r.Ok? ==> r.value == decode(reply.value.body.value).value.h)
    {
      match requester.send(PushRequest(sessionID, fileData, fileOffset))
      case Failed(cause) => Err(Wrapped("failed to execute upload request", Transport(cause)))
      case Done(response) =>
        match response.body
        case Failed(cause) => Err(Wrapped("failed to read response body", Io(cause)))
        case Done(respBody) =>
          if response.status < 200 || response.status >= 300 then
            Err(BadStatus(response.status, respBody))
          else
            match decode(respBody)
            case None => Err(Decode("failed to parse upload response"))
            case Some(result) => if result.h == "" then Err(MissingField("h", respBody)) else Ok(result.h)
    }

    /**
     * Creates a session sized for `fileData`, then pushes all of it at offset 0 into
     * that session; the first failure stops the sequence.
     */
    function UploadMediaForTemplate(appID: string, fileData: string, fileType: string,
                                    decodeSession: string -> Option<IdReply>,
                                    decodeHandle: string -> Option<HandleReply>): (r: Result<string, Error>)
      ensures var session := CreateResumableUploadSession(appID, |fileData|, fileType, decodeSession);
        && (session.Err? ==> r == Err(Wrapped("failed to create upload session", session.error)))
        && (session.Ok? ==>
              var push := UploadResumableMedia(session.value, fileData, 0, decodeHandle);
              && (r.Ok? <==> push.Ok?)
              && (r.Ok? ==> r.value == push.value)
              && (push.Err? ==> r == Err(Wrapped("failed to upload media", push.error))))
      ensures r.Ok? ==> r.value != ""
    {
      match CreateResumableUploadSession(appID, |fileData|, fileType, decodeSession)
      case Err(e) => Err(Wrapped("failed to create upload session", e))
      case Ok(sessionID) =>
        match UploadResumableMedia(sessionID, fileData, 0, decodeHandle)
        case Err(e) => Err(Wrapped("failed to upload media", e))
        case Ok(handle) => Ok(handle)
    }
  }

  /**
   * When session creation fails, no push is attempted: the outcome is the same
   * whatever the HTTP client that would carry the push does.
   */
  lemma NoPushWithoutSession(m: MediaManager, send: RawRequest -> Fallible<RawResponse>,
                             appID: string, fileData: string, fileType: string,
                             decodeSession: string -> Option<IdReply>, decodeHandle: string -> Option<HandleReply>)
    requires m.CreateResumableUploadSession(appID, |fileData|, fileType, decodeSession).Err?
    ensures var other := MediaManager(m.requester.(send := send));
      other.UploadMediaForTemplate(appID, fileData, fileType, decodeSession, decodeHandle)
      == m.UploadMediaForTemplate(appID, fileData, fileType, decodeSession, decodeHandle)
  {
    var other := MediaManager(m.requester.(send := send));
    assert other.CreateResumableUploadSession(appID, |fileData|, fileType, decodeSession)
        == m.CreateResumableUploadSession(appID, |fileData|, fileType, decodeSession);
  }

  /**
   * The combined call returns the handle of the manual sequence: create a session
   * for `|fileData|` bytes, then push all of `fileData` at offset 0 into the session
   * id it returned.
   */
  lemma TemplateUploadIsTwoSteps(m: MediaManager, appID: string, fileData: string, fileType: string,
                                 decodeSession: string -> Option<IdReply>, decodeHandle: string -> Option<HandleReply>,
                                 sessionID: string, handle: string)
    requires m.CreateResumableUploadSession(appID, |fileData|, fileType, decodeSession) == Ok(sessionID)
    requires m.UploadResumableMedia(sessionID, fileData, 0, decodeHandle) == Ok(handle)
    ensures m.UploadMediaForTemplate(appID, fileData, fileType, decodeSession, decodeHandle) == Ok(handle)
    ensures sessionID != "" && handle != ""
    ensures m.requester.send(m.PushRequest(sessionID, fileData, 0)).Done?
    ensures m.PushRequest(sessionID, fileData, 0).headers["file_offset"] == "0"
  {
  }

  /**
   * A 1024-byte image/png upload for app "A1": the service issues session "sess_123"
   * and, for the push of the data into it at offset 0, the handle "4::abc". Each
   * step alone and the combined call all come out as the service answered.
   */
  lemma TemplateUploadScenario(m: MediaManager, fileData: string, sessionRaw: string, pushRaw: string,
                               decodeSession: string -> Option<IdReply>, decodeHandle: string -> Option<HandleReply>)
    requires |fileData| == 1024
    requires m.requester.execute(SessionRequest("A1", 1024, "image/png")) == Done(sessionRaw)
    requires decodeSession(sessionRaw) == Some(IdReply("sess_123"))
    requires m.requester.send(m.PushRequest("sess_123", fileData, 0)) == Done(RawResponse(200, Done(pushRaw)))
    requires decodeHandle(pushRaw) == Some(HandleReply("4::abc"))
    ensures m.CreateResumableUploadSession("A1", 1024, "image/png", decodeSession) == Ok("sess_123")
    ensures m.UploadResumableMedia("sess_123", fileData, 0, decodeHandle) == Ok("4::abc")
    ensures m.UploadMediaForTemplate("A1", fileData, "image/png", decodeSession, decodeHandle) == Ok("4::abc")
  {
  }
}
