# wapi media and flow transfers, in Dafny

This project models three parts of the wapi WhatsApp Cloud API client:

- **The media manager.** It resolves a media id to its download URL and deletes media. It also runs the one-shot multipart upload, which returns a media id, and the two-phase resumable upload. The resumable upload first creates an upload session and then pushes the bytes at an offset to get a media handle. A combined call runs both phases.
- **The flow manager.** It uploads a flow's JSON document as a three-part multipart asset, fetches that document back, and shapes the requests of the flow create, fetch, update, publish, deprecate and delete calls.
- **The flow message builder.** This is a validated constructor that defaults the version to "3" and requires either a flow id or a flow name. Setters change one group of fields of the message in place, and the outgoing payload carries a reply context only when it is given a message id.

Each manager operation builds one request, hands it to the request client and decides whether the reply counts as success. The request client is the `Api.Requester` record of transport functions. Decoding the reply text is a `decode` parameter of each call. A field absent from a reply decodes to Go's zero value, so "absent" and "empty" are one case. Go strings and byte slices are both `string`, one `char` per byte.

The managers are immutable datatypes, since no method of theirs changes a field. The two multipart uploads are methods. Each writes its form part by part through the `Api.FormWriter` class, standing in for `multipart.Writer` over a `bytes.Buffer`, and is proved to produce the form and outcome its specification function states. The flow message is a class whose setters change its fields in place. Each setter is specified by a pure update function on the message value that states the field it sets and the fact that nothing else changes.

Modules:

- `Outcomes` holds `Option` and `Result`.
- `Text` holds `strings.Join`, `strconv.FormatInt` with a decimal parser as its partner, and `filepath.Base`.
- `Api` holds request and reply shapes, the request client and `FormWriter`.
- `Media`, `Flows` and `FlowMessages` each model one Go file: manager/media_manager.go, manager/flow_manager.go and pkg/components/flow_message.go.

Details of the requests that are easy to miss:

- The one-shot upload writes two parts: the `messaging_product` field and the file.
- The id-to-URL resolution is a GET on the bare media id.
- Media deletion uses the path `media/<id>`.

## Model

| member | source | states |
|---|---|---|
| Text.JoinPair | manager/media_manager.go:115 | joining two path elements with "/" yields `a + "/" + b`; this is how the paths built with `strings.Join` are formed: `<phoneNumberId>/media`, `media/<id>`, `<businessAccountId>/flows`, `<flowID>/assets`, `<flowID>/publish` and `<flowID>/deprecate` |
| Text.FormatIntRoundTrip | manager/media_manager.go:206 | the decimal rendering of the push offset parses back to that offset, is canonical, and begins with '-' exactly when the offset is negative |
| Text.FormatIntInjective | manager/media_manager.go:206 | distinct offsets give distinct `file_offset` header values |
| Text.BaseShape | manager/media_manager.go:99 | the file name put into the Content-Disposition is never empty and holds no '/' unless it is the root "/" |
| Text.BaseIdempotent | manager/media_manager.go:99 | taking the base name of a base name changes nothing |
| Text.BaseOfJoin | manager/media_manager.go:99 | the base name of `dir/name` is `name` for a non-empty single element |
| Api.FormWriter.constructor | manager/media_manager.go:91-92 | a new multipart writer over an empty buffer holds no parts and is open |
| Api.FormWriter.WriteField | manager/media_manager.go:94 | on an open writer, appends one part without filename or content type that holds the value, and changes nothing else |
| Api.FormWriter.CreatePart | manager/media_manager.go:98-102 | appends one empty part with the given disposition name, filename and content type |
| Api.FormWriter.CreateFormFile | manager/flow_manager.go:222 | appends one empty file part of type application/octet-stream with the given field name and filename |
| Api.FormWriter.Write | manager/flow_manager.go:226 | the last part's content grows by the data written and every earlier part is unchanged |
| Api.FormWriter.Close | manager/media_manager.go:111 | the writer is closed and its parts are unchanged; no writer method may add or extend a part afterwards |
| Media.MediaForm | manager/media_manager.go:94-108 | exactly two parts in order: `messaging_product=whatsapp`, then part `file` with filename `Base(filename)`, Content-Type `mimeType` and the file data as content |
| Media.MediaUploadRequest | manager/media_manager.go:115-119 | the one-shot upload is a multipart POST of that form to `<phoneNumberId>/media` |
| Media.MediaUploadOutcome | manager/media_manager.go:119-135 | a transport failure is wrapped as "error uploading media"; the result is Ok exactly when the reply decodes to a non-empty id, which is then returned unchanged; an empty id is a missing-field error carrying the raw reply |
| Media.SessionRequest | manager/media_manager.go:154-166 | session creation is a POST to `<appID>/uploads` whose body is `{file_length, file_type}` |
| Media.MediaManager.PushRequest | manager/media_manager.go:193-206 | the data push is a POST of the raw bytes, unchanged, to `protocol://base/version/sessionID`, with exactly the headers `Authorization: OAuth <token>` and `file_offset`, whose value is the decimal offset and reads back as it |
| Media.MediaManager.GetMediaUrlById | manager/media_manager.go:39-60 | a GET on the bare id; Ok exactly when the decoded url is non-empty, and then that url; an empty url is a missing-field error, never an empty success; a transport failure passes through |
| Media.MediaManager.DeleteMedia | manager/media_manager.go:66-86 | a DELETE on `media/<id>`; Ok with the fixed "media deleted successfully" exactly when the reply decodes to success=true; success=false is a rejection carrying the raw reply |
| Media.MediaManager.UploadMedia | manager/media_manager.go:89-136 | writes the form of `MediaForm` part by part; a failing file stream is wrapped as "failed to copy file into part" and sends nothing; otherwise the result is `MediaUploadOutcome` of the reply to `MediaUploadRequest`; an Ok id is never empty |
| Media.MediaManager.CreateResumableUploadSession | manager/media_manager.go:152-183 | sends `SessionRequest`; Ok exactly when the reply decodes to a non-empty session id, which is returned; an empty id is a missing-field error; a transport failure is wrapped |
| Media.MediaManager.UploadResumableMedia | manager/media_manager.go:189-234 | sends `PushRequest`; a send failure or an unreadable body is wrapped; a status outside [200, 300) is an error with status and body; Ok exactly when the status is 2xx and the body decodes to a non-empty handle, which is returned |
| Media.MediaManager.UploadMediaForTemplate | manager/media_manager.go:239-253 | creates a session for `len(fileData)` bytes of the given type, then pushes all the data at offset 0 into that session id; a failing step is wrapped and stops the sequence; an Ok handle is the push's handle and is never empty |
| Media.NoPushWithoutSession | manager/media_manager.go:241-244 | when session creation fails, no push is attempted: the combined call's outcome does not depend on the HTTP client that would carry the push |
| Media.TemplateUploadIsTwoSteps | manager/media_manager.go:239-253 | when the manual session-then-push sequence yields a handle, the combined call returns that same handle; session id and handle are non-empty and the push carries offset "0" |
| Media.TemplateUploadScenario | manager/media_manager.go:239-253 | app "A1", 1024 bytes of image/png, session "sess_123" and handle "4::abc": each step and the combined call return what the service issued |
| Flows.EncodeCreate | manager/flow_manager.go:103-110 | the create body's keys are exactly `name`, `categories`, then each `omitempty` key, in struct order, only when its field is non-zero; `name` and `categories` hold the request's values, and each present optional key holds its own field's value (`publish` as true) |
| Flows.EncodeUpdate | manager/flow_manager.go:179-183 | the update body's keys are exactly `name`, `categories`, `endpoint_uri`, in that order, each only when its field is non-zero, and each present key holds its own field's value |
| Flows.AssetForm | manager/flow_manager.go:211-228 | exactly three parts in order: `name=flow.json`, `asset_type=FLOW_JSON`, then file part `file` with filename "flow.json" and content type application/octet-stream whose content is the document byte for byte |
| Flows.AssetUploadRequest | manager/flow_manager.go:236-242 | the asset upload is a multipart POST of that form to `<flowID>/assets` |
| Flows.AssetUploadOutcome | manager/flow_manager.go:243-252 | a transport failure is wrapped as "failed to upload flow JSON"; any decoded reply is returned as it stands, success=false and validation errors included, in order |
| Flows.NewFlowManager | manager/flow_manager.go:95-101 | the manager keeps the configured business account id, access token and request client |
| Flows.FlowManager.CreateRequest | manager/flow_manager.go:117-128 | `Create` POSTs the encoded request to `<businessAccountId>/flows` |
| Flows.FlowManager.Create | manager/flow_manager.go:117-140 | sends `CreateRequest`; the decoded reply is returned unchanged, whatever its success flag; a transport failure passes through |
| Flows.FlowManager.FetchAll | manager/flow_manager.go:142-159 | a GET on `<businessAccountId>/flows`; returns the decoded list |
| Flows.FlowManager.Fetch | manager/flow_manager.go:161-177 | a GET on the bare flow id with one `fields` query naming the ten flow fields; returns the decoded node |
| Flows.FlowManager.Update | manager/flow_manager.go:185-196 | a POST of the encoded update on the bare flow id; fails exactly when the transport fails |
| Flows.FlowManager.Publish | manager/flow_manager.go:255-263 | a POST on `<flowID>/publish`; fails exactly when the transport fails |
| Flows.FlowManager.Deprecate | manager/flow_manager.go:265-273 | a POST on `<flowID>/deprecate`; fails exactly when the transport fails |
| Flows.FlowManager.Delete | manager/flow_manager.go:275-280 | a DELETE on the bare flow id; fails exactly when the transport fails |
| Flows.FlowManager.UploadFlowJSON | manager/flow_manager.go:206-253 | writes the form of `AssetForm` part by part and returns `AssetUploadOutcome` of the reply to `AssetUploadRequest`; every decoded reply is a result, never an error |
| Flows.FlowManager.GetFlowJSON | manager/flow_manager.go:282-294 | a GET on `<flowID>/assets`; the raw reply text is returned unparsed |
| Flows.AssetRoundTrip | manager/flow_manager.go:206-294 | against a service that stores the uploaded `file` part and serves it on a GET of the same path, fetching a flow's JSON gives back the uploaded document unchanged |
| FlowMessages.NewFlowMessage | pkg/components/flow_message.go:102-155 | fails exactly when body text or CTA is empty (an invalid-params error listing them in declaration order) or, with both given, when flow id and flow name are both empty (the no-flow-reference error); otherwise type flow, action "flow", the body and CTA given, version defaulted to "3", the flow id when given (flow name then left empty) and else the flow name, no header or footer, empty token, action, payload and mode; the message is well formed |
| FlowMessages.WithHeader | pkg/components/flow_message.go:158-163 | the header becomes a "text" header with the given text, and nothing else changes |
| FlowMessages.WithFooter | pkg/components/flow_message.go:166-168 | the footer becomes the given text, and nothing else changes |
| FlowMessages.WithFlowToken | pkg/components/flow_message.go:171-173 | the flow token becomes the given one, and nothing else changes |
| FlowMessages.WithMode | pkg/components/flow_message.go:176-178 | the mode becomes the given one, and nothing else changes |
| FlowMessages.WithFlowAction | pkg/components/flow_message.go:181-184 | flow action and payload are replaced together, an absent payload clearing the old one, and nothing else changes |
| FlowMessages.SettersKeepWellFormed | pkg/components/flow_message.go:158-184 | no setter breaks what the constructor established: action "flow", non-empty body, CTA and version, exactly one of flow id and flow name |
| FlowMessages.SettersCommute | pkg/components/flow_message.go:158-184 | each of the ten pairs of setters of different field groups gives the same message in either order |
| FlowMessages.LaterSetterWins | pkg/components/flow_message.go:158-184 | for each of the five setters, of two calls the later one wins |
| FlowMessages.FlowMessage.constructor | pkg/components/flow_message.go:136-154 | the object handed out holds the built message value |
| FlowMessages.FlowMessage.SetHeader | pkg/components/flow_message.go:158-163 | the object's new value is `WithHeader` of its old value |
| FlowMessages.FlowMessage.SetFooter | pkg/components/flow_message.go:166-168 | the object's new value is `WithFooter` of its old value |
| FlowMessages.FlowMessage.SetFlowToken | pkg/components/flow_message.go:171-173 | the object's new value is `WithFlowToken` of its old value |
| FlowMessages.FlowMessage.SetMode | pkg/components/flow_message.go:176-178 | the object's new value is `WithMode` of its old value |
| FlowMessages.FlowMessage.SetFlowAction | pkg/components/flow_message.go:181-184 | the object's new value is `WithFlowAction` of its old value |
| FlowMessages.FlowMessage.ToJson | pkg/components/flow_message.go:187-207 | fails exactly when the configuration is refused; otherwise the payload goes to the configured number, carries the message as it stands, and has a reply context exactly when a reply-to message id is given, holding that id |

## Left out

- HTTP execution is not modelled. That covers the shared request client (`NewApiRequest(...).Execute()`, `RequestMultipart`), its base-URL and version prefixing and credential injection, and `http.Client.Do`. They are the function fields of `Api.Requester`, so the model states which request each call sends but not what the wire carries.
- JSON encoding and decoding are abstract. Replies are decoded by a `decode` parameter, and request bodies are structured `Api.Json` values rather than bytes.
- Marshalling errors of the manager request bodies are left out. `json.Marshal` of those plain structs and string-keyed maps of strings and integers cannot fail, so the model has no error path for it.
- The multipart wire encoding is left out: the random boundary, `FormDataContentType` and the byte layout. A form is its ordered sequence of parts. Writes to the in-memory buffer cannot fail, so `FormWriter` has no error path.
- `http.NewRequest` failing on a malformed URL is folded into the transport failure of `send`.
- `http.Header.Set` canonicalises header names, so `file_offset` goes out as `File_offset`. `Media.MediaManager.PushRequest` keeps the names as the code writes them.
- `REQUEST_PROTOCOL`, `BASE_URL`, `API_VERSION` and the access token are opaque strings carried by the request client (`Api.Endpoint`, `Api.Requester.accessToken`).
- `Text.Base` models `filepath.Base` with the Unix separator '/' only.
- `fileLength` and `fileOffset` are unbounded integers, not int64. The code does no arithmetic on them, and `len(fileData)` cannot exceed the int64 range.
- Flows.EncodeCreate: does not distinguish a nil category list (rendered `null`) from an empty one (rendered `[]`).
- FlowMessages.FlowMessage.ToJson: does not model the marshalling failure ("error marshalling json"). The source's payload data is a map of arbitrary values, and `json.Marshal` refuses some of them, such as a NaN float or a channel. The model narrows that data to strings (`FlowMessages.ActionPayload`), where marshalling cannot fail, so its promise "fails exactly when the configuration is refused" holds only for such data.
- FlowMessages.FlowMessage.ToJson: the configuration validator and the `BaseMessagePayload` shape (messaging product, recipient type, message type) are defined in files that are not part of this model. The validator's verdict is a boolean parameter, and the payload keeps only the recipient, the context and the message.
- FlowMessages.NewFlowMessage: the error text (`error validating params: ...`) is not modelled. The error keeps the list of empty required fields in declaration order instead.
- FlowMessages.ActionPayload: the payload's `data` is a map of strings rather than of arbitrary JSON values.
- FlowMessages.FlowMessage.SetFlowAction: the source stores the caller's payload pointer, so later changes the caller makes to that payload show up in the message. The model stores the payload as a value (`Option<ActionPayload>`), so it does not capture this aliasing.
- `NewMediaManager` only stores the request client, and it is the `Media.MediaManager` datatype constructor itself.
- The list and node shapes that `FetchAll` and `Fetch` decode (`FlowsListResponse`, `FlowNode`) carry no rule. Those two calls are therefore generic in the decoded type.
- The category, status and health enums of manager/flow_manager.go are plain data with no behaviour.
- pkg/events/marketing_link_click_event.go is not part of this model. It holds a plain three-field constructor.
- A remote service reporting validation errors for an invalid flow document, and its answer to deleting an id twice, are service behaviour. The model states only that such replies are passed through (`Flows.AssetUploadOutcome`) or turned into a rejection (`Media.MediaManager.DeleteMedia`).
- Chunked or resumed upload at non-zero offsets is not modelled. The code never loops over offsets, so nothing beyond the single push exists to model.
