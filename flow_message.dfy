/**
 * The interactive flow message: a validated constructor with defaulting, setters
 * that each change one group of fields of the message in place, and the rule by
 * which the outgoing payload carries a reply context.
 */
module FlowMessages {
  import opened Outcomes

  /** The flow message protocol version used when the caller gives none. */
  const DEFAULT_VERSION := "3"

  /** The only header type a flow message uses. */
  const HEADER_TYPE_TEXT := "text"

  /** The interactive message type of a flow message. */
  datatype InteractiveType = FlowInteractive

  /** Screen and input data of a `navigate` action. */
  datatype ActionPayload = ActionPayload(screen: string, data: map<string, string>)

  datatype ActionParams = ActionParams(
    version: string, flowId: string, flowName: string, flowCta: string,
    flowToken: string, flowAction: string, payload: Option<ActionPayload>, mode: string)

  datatype MessageAction = MessageAction(name: string, parameters: ActionParams)

  datatype Header = Header(kind: string, text: string)

  datatype Footer = Footer(text: string)

  /** The value of a flow message: its type, optional header, body text, optional footer and action. */
  datatype Message = Message(
    kind: InteractiveType, header: Option<Header>, body: string, footer: Option<Footer>, action: MessageAction)

  /** What a caller gives to build a message. */
  datatype Params = Params(bodyText: string, flowId: string, flowName: string, flowCta: string, version: string)

  datatype MessageError =
    | InvalidParams(missing: seq<string>)  // required fields left empty, in declaration order
    | NoFlowReference                      // neither a flow id nor a flow name
    | InvalidConfigs                       // the payload configuration was refused

  /** The required fields of `Params` that are empty, as the validator reports them. */
  function MissingRequired(p: Params): seq<string> {
    (if p.bodyText == "" then ["BodyText"] else []) + (if p.flowCta == "" then ["FlowCTA"] else [])
  }

  /**
   * What every message built by `NewFlowMessage` satisfies: action "flow", non-empty
   * body, call to action and version, and exactly one of flow id and flow name.
   */
  predicate WellFormed(m: Message) {
    var a := m.action.parameters;
    && m.action.name == "flow"
    && m.body != "" && a.flowCta != "" && a.version != ""
    && (a.flowId != "" <==> a.flowName == "")
  }

  /** Validates `p` and builds a fresh message from it. */
  function NewFlowMessage(p: Params): (r: Result<Message, MessageError>)
    ensures r.Ok? <==> p.bodyText != "" && p.flowCta != "" && (p.flowId != "" || p.flowName != "")
    ensures p.bodyText == "" || p.flowCta == "" ==> r == Err(InvalidParams(MissingRequired(p)))
    ensures p.bodyText != "" && p.flowCta != "" && p.flowId == "" && p.flowName == "" ==> r == Err(NoFlowReference)
    ensures r.Err? ==> (r.error.InvalidParams? && r.error.missing != []) || r.error == NoFlowReference
    ensures r.Ok? ==>
      var m := r.value;
      var a := m.action.parameters;
      && WellFormed(m)
      && m.kind == FlowInteractive && m.body == p.bodyText && a.flowCta == p.flowCta
      && a.version == (if p.version == "" then DEFAULT_VERSION else p.version)
      && (p.flowId != "" ==> a.flowId == p.flowId && a.flowName == "")
      && (p.flowId == "" ==> a.flowId == "" && a.flowName == p.flowName)
      && m.header == None && m.footer == None
      && a.flowToken == "" && a.flowAction == "" && a.payload == None && a.mode == ""
  {
    if MissingRequired(p) != [] then
      Err(InvalidParams(MissingRequired(p)))
    else if p.flowId == "" && p.flowName == "" then
      Err(NoFlowReference)
    else
      var version := if p.version == "" then DEFAULT_VERSION else p.version;
      var parameters := ActionParams(version, "", "", p.flowCta, "", "", None, "");
      var m := Message(FlowInteractive, None, p.bodyText, None, MessageAction("flow", parameters));
      if p.flowId != "" then
        Ok(m.(action := m.action.(parameters := parameters.(flowId := p.flowId))))
      else
        Ok(m.(action := m.action.(parameters := parameters.(flowName := p.flowName))))
  }

  // ---------------------------------------------------------------------------
  // The setters on message values; each leaves everything but its own field alone

  function WithHeader(m: Message, text: string): (r: Message)
    ensures r.header == Some(Header(HEADER_TYPE_TEXT, text))
    ensures r.(header := m.header) == m
  {
    m.(header := Some(Header(HEADER_TYPE_TEXT, text)))
  }

  function WithFooter(m: Message, text: string): (r: Message)
    ensures r.footer == Some(Footer(text))
    ensures r.(footer := m.footer) == m
  {
    m.(footer := Some(Footer(text)))
  }

  function WithFlowToken(m: Message, token: string): (r: Message)
    ensures r.action.parameters.flowToken == token
    ensures r.(action := r.action.(parameters := r.action.parameters.(flowToken := m.action.parameters.flowToken))) == m
  {
    m.(action := m.action.(parameters := m.action.parameters.(flowToken := token)))
  }

  function WithMode(m: Message, mode: string): (r: Message)
    ensures r.action.parameters.mode == mode
    ensures r.(action := r.action.(parameters := r.action.parameters.(mode := m.action.parameters.mode))) == m
  {
    m.(action := m.action.(parameters := m.action.parameters.(mode := mode)))
  }

  /** Action and payload are replaced together; an absent payload clears the previous one. */
  function WithFlowAction(m: Message, flowAction: string, payload: Option<ActionPayload>): (r: Message)
    ensures r.action.parameters.flowAction == flowAction && r.action.parameters.payload == payload
    ensures r.(action := r.action.(parameters := r.action.parameters.(
              flowAction := m.action.parameters.flowAction, payload := m.action.parameters.payload))) == m
  {
    m.(action := m.action.(parameters := m.action.parameters.(flowAction := flowAction, payload := payload)))
  }

  /** No setter can break what `NewFlowMessage` established. */
  lemma SettersKeepWellFormed(m: Message, text: string, flowAction: string, payload: Option<ActionPayload>)
    requires WellFormed(m)
    ensures WellFormed(WithHeader(m, text)) && WellFormed(WithFooter(m, text))
    ensures WellFormed(WithFlowToken(m, text)) && WellFormed(WithMode(m, text))
    ensures WellFormed(WithFlowAction(m, flowAction, payload))
  {
  }

  /** Setters of different field groups commute: every pair of the five gives the same message in either order. */
  lemma SettersCommute(m: Message, header: string, footer: string, token: string, mode: string,
                       flowAction: string, payload: Option<ActionPayload>)
    ensures WithFooter(WithHeader(m, header), footer) == WithHeader(WithFooter(m, footer), header)
    ensures WithFlowToken(WithHeader(m, header), token) == WithHeader(WithFlowToken(m, token), header)
    ensures WithMode(WithHeader(m, header), mode) == WithHeader(WithMode(m, mode), header)
    ensures WithFlowAction(WithHeader(m, header), flowAction, payload)
         == WithHeader(WithFlowAction(m, flowAction, payload), header)
    ensures WithFlowToken(WithFooter(m, footer), token) == WithFooter(WithFlowToken(m, token), footer)
    ensures WithMode(WithFooter(m, footer), mode) == WithFooter(WithMode(m, mode), footer)
    ensures WithFlowAction(WithFooter(m, footer), flowAction, payload)
         == WithFooter(WithFlowAction(m, flowAction, payload), footer)
    ensures WithMode(WithFlowToken(m, token), mode) == WithFlowToken(WithMode(m, mode), token)
    ensures WithFlowAction(WithFlowToken(m, token), flowAction, payload)
         == WithFlowToken(WithFlowAction(m, flowAction, payload), token)
    ensures WithFlowAction(WithMode(m, mode), flowAction, payload)
         == WithMode(WithFlowAction(m, flowAction, payload), mode)
  {
  }

  /** Of two calls of the same setter, the later one wins. */
  lemma LaterSetterWins(m: Message, first: string, later: string,
                        firstPayload: Option<ActionPayload>, laterPayload: Option<ActionPayload>)
    ensures WithHeader(WithHeader(m, first), later) == WithHeader(m, later)
    ensures WithFooter(WithFooter(m, first), later) == WithFooter(m, later)
    ensures WithFlowToken(WithFlowToken(m, first), later) == WithFlowToken(m, later)
    ensures WithMode(WithMode(m, first), later) == WithMode(m, later)
    ensures WithFlowAction(WithFlowAction(m, first, firstPayload), later, laterPayload)
         == WithFlowAction(m, later, laterPayload)
  {
  }

  // ---------------------------------------------------------------------------
  // The outgoing payload

  /** The configuration `ToJson` is given: the recipient and, optionally, the message replied to. */
  datatype JsonConfigs = JsonConfigs(sendToPhoneNumber: string, replyToMessageId: string)

  datatype Context = Context(messageId: string)

  /** The interactive message payload, before JSON rendering. */
  datatype Payload = Payload(to: string, context: Option<Context>, interactive: Message)

  /** A flow message whose fields the setters change in place. */
  class FlowMessage {
    var kind: InteractiveType
    var header: Option<Header>
    var body: string
    var footer: Option<Footer>
    var action: MessageAction

    function Value(): Message
      reads this
    {
      Message(kind, header, body, footer, action)
    }

    /** The object `NewFlowMessage` hands out for a built value. */
    constructor (m: Message)
      ensures Value() == m
    {
      kind, header, body, footer, action := m.kind, m.header, m.body, m.footer, m.action;
    }

    method SetHeader(text: string)
      modifies this
      ensures Value() == WithHeader(old(Value()), text)
    {
      header := Some(Header(HEADER_TYPE_TEXT, text));
    }

    method SetFooter(text: string)
      modifies this
      ensures Value() == WithFooter(old(Value()), text)
    {
      footer := Some(Footer(text));
    }

    method SetFlowToken(token: string)
      modifies this
      ensures Value() == WithFlowToken(old(Value()), token)
    {
      action := action.(parameters := action.parameters.(flowToken := token));
    }

    method SetMode(mode: string)
      modifies this
      ensures Value() == WithMode(old(Value()), mode)
    {
      action := action.(parameters := action.parameters.(mode := mode));
    }

    method SetFlowAction(flowAction: string, payload: Option<ActionPayload>)
      modifies this
      ensures Value() == WithFlowAction(old(Value()), flowAction, payload)
    {
      action := action.(parameters := action.parameters.(flowAction := flowAction, payload := payload));
    }

    /**
     * The payload sent for this message. `configsValid` is the validator's verdict
     * on `configs`; a reply context is present exactly when a message id to reply
     * to is given.
     */
    function ToJson(configs: JsonConfigs, configsValid: bool): (r: Result<Payload, MessageError>)
      reads this
      ensures r.Ok? <==> configsValid
      ensures r.Err? ==> r.error == InvalidConfigs
      ensures r.Ok? ==> r.value.interactive == Value() && r.value.to == configs.sendToPhoneNumber
      ensures r.Ok? ==> (r.value.context.Some? <==> configs.replyToMessageId != "")
      ensures r.Ok? && r.value.context.Some? ==> r.value.context.value.messageId == configs.replyToMessageId
    {
      if !configsValid then
        Err(InvalidConfigs)
      else
        var payload := Payload(configs.sendToPhoneNumber, None, Value());
        if configs.replyToMessageId != "" then
          Ok(payload.(context := Some(Context(configs.replyToMessageId))))
        else
          Ok(payload)
    }
  }
}
