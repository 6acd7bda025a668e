/** The stand-alone chat component: it normalises inbound frames before showing them
    and sends the typed text with the default model's name and provider. */
module Chat {
  import opened Wrappers
  import Json
  import Outbound
  import opened Text
  import ModelService

  /** An entry of the message list: a frame as received; the normalised agent answer
      `{type: 'agent_response', response: {response}}`; or the user's own text
      `{type: 'user_message', response: {response: text}}`. */
  datatype Entry = Received(frame: Json.Value) | AgentResponse(response: Json.Value) | UserTurn(text: string)

  /** What the inbound handler appends. Nothing for 'agent_log' frames and for `null`
      (reading `.type` of null throws first). A non-empty string `response` is wrapped;
      so is any other truthy `response` when `agents_trace` is truthy; every other frame,
      one whose `response` is the empty string included, is shown unchanged. */
  function Normalise(frame: Json.Value): (r: Option<Entry>)
    ensures r.None? <==> frame.Null? || Json.IsAgentLog(frame)
    ensures r.Some? ==> r.value.Received? || r.value.AgentResponse?
    ensures r.Some? && r.value.AgentResponse? <==>
      (!frame.Null? && !Json.IsAgentLog(frame)
      && Json.Truthy(Json.Member(frame, "response"))
      && (Json.IsString(Json.Member(frame, "response")) || Json.Truthy(Json.Member(frame, "agents_trace"))))
    ensures r.Some? && r.value.AgentResponse? ==> Json.Member(frame, "response") == Some(r.value.response)
    ensures r.Some? && r.value.Received? ==> r.value.frame == frame
  {
    if frame.Null? then None
    else if Json.IsAgentLog(frame) then None
    else
      var response := Json.Member(frame, "response");
      if Json.Truthy(response) && Json.IsString(response) then Some(AgentResponse(response.value))
      else if Json.Truthy(Json.Member(frame, "agents_trace")) && Json.Truthy(response) then Some(AgentResponse(response.value))
      else Some(Received(frame))
  }

  /** Three sample frames: an 'agent_log' frame is dropped and an
      answer with a string `response` is wrapped; a frame whose `response` is empty is
      shown as it came. */
  lemma NormaliseExamples()
    ensures Normalise(Json.Object(map["type" := Json.Str("agent_log"), "msg" := Json.Str("x")])).None?
    ensures Normalise(Json.Object(map["type" := Json.Str("agent_response"), "response" := Json.Str("42")]))
      == Some(AgentResponse(Json.Str("42")))
    ensures var f := Json.Object(map["type" := Json.Str("agent_response"), "response" := Json.Str("")]);
      Normalise(f) == Some(Received(f))
  {
    var f := Json.Object(map["type" := Json.Str("agent_response"), "response" := Json.Str("42")]);
    assert Json.Member(f, "response") == Some(Json.Str("42"));
  }

  /** `handleSendMessage` sends only non-blank text with a model configuration whose
      provider and model are non-empty. */
  predicate CanSend(input: string, model: Option<ModelService.ModelConfig>)
  {
    !IsBlank(input) && model.Some? && model.value.provider != "" && model.value.model != ""
  }

  class ChatState {
    var messages: seq<Entry>
    var input: string
    var modelConfig: Option<ModelService.ModelConfig>
    /** Frames handed to the socket manager's `sendMessage`. */
    var sent: seq<Outbound.Frame>

    /** No entry shown is an 'agent_log' or null frame, and every wrapped answer is
        truthy. */
    ghost predicate Valid()
      reads this
    {
      forall i :: 0 <= i < |messages| ==>
        (messages[i].Received? ==> !messages[i].frame.Null? && !Json.IsAgentLog(messages[i].frame))
        && (messages[i].AgentResponse? ==> Json.Truthy(Some(messages[i].response)))
    }

    constructor ()
      ensures Valid()
      ensures messages == [] && input == "" && modelConfig.None? && sent == []
    {
      messages := [];
      input := "";
      modelConfig := None;
      sent := [];
    }

    /** The input field's `onChange`. */
    method SetInput(value: string)
      modifies this`input
      ensures input == value
    {
      input := value;
    }

    /** The start-up effect's `setModelConfig` with what `getDefaultModel` returned. */
    method SetModelConfig(model: ModelService.ModelConfig)
      modifies this`modelConfig
      ensures modelConfig == Some(model)
    {
      modelConfig := Some(model);
    }

    /** The handler registered with the socket manager: appends at most one entry, at
        the end. */
    method ReceiveFrame(frame: Json.Value)
      requires Valid()
      modifies this`messages
      ensures Valid()
      ensures Normalise(frame).None? ==> messages == old(messages)
      ensures Normalise(frame).Some? ==> messages == old(messages) + [Normalise(frame).value]
    {
      if frame.Null? || Json.IsAgentLog(frame) {
        return;
      }
      var response := Json.Member(frame, "response");
      if Json.Truthy(response) && Json.IsString(response) {
        messages := messages + [AgentResponse(response.value)];
      } else if Json.Truthy(Json.Member(frame, "agents_trace")) && Json.Truthy(response) {
        messages := messages + [AgentResponse(response.value)];
      } else {
        messages := messages + [Received(frame)];
      }
    }

    /** `handleSendMessage`: when it may send, appends the user's text, sends it untrimmed
        with the configuration's name and provider, and clears the input; otherwise
        changes nothing. */
    method HandleSendMessage()
      requires Valid()
      modifies this`messages, this`sent, this`input
      ensures Valid()
      ensures !CanSend(old(input), modelConfig) ==>
        messages == old(messages) && sent == old(sent) && input == old(input)
      ensures CanSend(old(input), modelConfig) ==>
        messages == old(messages) + [UserTurn(old(input))]
        && sent == old(sent) + [Outbound.Frame(old(input), Some(modelConfig.value.name), modelConfig.value.provider, None)]
        && input == ""
    {
      TrimEmptyIffBlank(input);
      if Trim(input) != [] && modelConfig.Some? {
        var model := modelConfig.value;
        if model.provider == "" || model.model == "" {
          return;
        }
        messages := messages + [UserTurn(input)];
        sent := sent + [Outbound.Frame(input, Some(model.name), model.provider, None)];
        input := "";
      }
    }
  }
}
