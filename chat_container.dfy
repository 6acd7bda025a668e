/** The chat container component: which inbound frames reach its message list, the
    user message and outbound frame a send builds, and the upload handler. */
module ChatContainer {
  import opened Wrappers
  import Json
  import Outbound
  import opened Files

  /** A file reference shown under a user message. */
  datatype FileRef = FileRef(id: string, name: string, originalName: string, size: int)

  /** An entry of the message list: a frame as received, or the user's own message
      `{type: 'user_message', data, files}`. */
  datatype Entry = Received(frame: Json.Value) | UserMessage(data: string, files: seq<FileRef>)

  /** The model configuration this component keeps: a provider and the names of its
      configurations (only the first name is used). */
  datatype ContainerModel = ContainerModel(provider: string, configNames: seq<string>)

  /** What `handleFileUpload` returns. */
  datatype UploadResult = UploadResult(id: string, name: string)

  /** Why `handleFileUpload` threw: no session yet ("No session ID available"), or the
      upload service failed with the given detail. */
  datatype UploadError = NoSessionId | UploadFailed(detail: string)

  /** A call made to the upload service (the request id, taken from the clock, is not
      modelled). */
  datatype UploadCall = UploadCall(file: File, sessionId: string)

  /** What the inbound handler appends: nothing for an 'agent_log' frame, nothing for a
      `null` frame (reading `.type` of null throws before the append), and otherwise the
      frame itself. */
  function InboundEntry(frame: Json.Value): (r: Option<Entry>)
    ensures r.None? <==> frame.Null? || Json.IsAgentLog(frame)
    ensures r.Some? ==> r.value == Received(frame)
  {
    if frame.Null? then None
    else if Json.IsAgentLog(frame) then None
    else Some(Received(frame))
  }

  /** One file reference per identifier, in order, with empty names and size 0. */
  function PlaceholderFiles(ids: seq<string>): (files: seq<FileRef>)
    ensures |files| == |ids|
    ensures forall i :: 0 <= i < |ids| ==> files[i] == FileRef(ids[i], "", "", 0)
  {
    seq(|ids|, i requires 0 <= i < |ids| => FileRef(ids[i], "", "", 0))
  }

  /** The user message a send appends. */
  function UserMessageFor(input: string, fileIds: Option<seq<string>>): (e: Entry)
    ensures e.UserMessage? && e.data == input
    ensures fileIds.None? ==> e.files == []
    ensures fileIds.Some? ==> |e.files| == |fileIds.value|
    ensures fileIds.Some? ==>
      forall i :: 0 <= i < |fileIds.value| ==>
        (e.files[i].id == fileIds.value[i]
        && e.files[i].name == "" && e.files[i].originalName == "" && e.files[i].size == 0)
  {
    UserMessage(input, PlaceholderFiles(fileIds.GetOr([])))
  }

  /** The frame a send hands to the socket manager: the untouched input, the first
      configuration's name (absent when there is none), the provider, and `files`
      exactly when there are file identifiers. */
  function OutboundFor(input: string, model: ContainerModel, fileIds: Option<seq<string>>): (f: Outbound.Frame)
    ensures f.message == input && f.provider == model.provider
    ensures f.llmName.Some? <==> |model.configNames| > 0
    ensures f.llmName.Some? ==> f.llmName.value == model.configNames[0]
    ensures f.files.Some? <==> fileIds.Some? && |fileIds.value| > 0
    ensures f.files.Some? ==> f.files == fileIds
  {
    Outbound.Frame(
      input,
      if |model.configNames| > 0 then Some(model.configNames[0]) else None,
      model.provider,
      if fileIds.Some? && |fileIds.value| > 0 then fileIds else None)
  }

  /** The uploaded identifiers come out of the sent frame's JSON object unchanged. */
  lemma FileIdsReachTheWire(input: string, model: ContainerModel, ids: seq<string>)
    requires |ids| > 0
    ensures var f := OutboundFor(input, model, Some(ids));
      Outbound.FromJson(Outbound.ToJson(f)) == Some(f) && f.files == Some(ids)
  {
    Outbound.RoundTrip(OutboundFor(input, model, Some(ids)));
  }

  class ChatContainerState {
    var messages: seq<Entry>
    var sessionId: string
    var modelConfig: Option<ContainerModel>
    var isUploading: bool
    /** Frames handed to the socket manager's `sendMessage`. */
    var sent: seq<Outbound.Frame>
    /** Calls made to the upload service. */
    var uploads: seq<UploadCall>
    /** The calls (indices into `uploads`) whose promise has not settled yet. */
    var inFlight: seq<nat>

    /** No shown entry is an 'agent_log' or null frame, no sent frame carries an
        empty `files` list, and every upload in flight is one that was made. */
    ghost predicate Valid()
      reads this
    {
      (forall i :: 0 <= i < |messages| && messages[i].Received? ==>
         !messages[i].frame.Null? && !Json.IsAgentLog(messages[i].frame))
      && (forall i :: 0 <= i < |sent| && sent[i].files.Some? ==> |sent[i].files.value| > 0)
      && forall i :: 0 <= i < |inFlight| ==> inFlight[i] < |uploads|
    }

    /** The state's initial values. */
    constructor ()
      ensures Valid()
      ensures messages == [] && sessionId == "" && modelConfig.None? && !isUploading
      ensures sent == [] && uploads == [] && inFlight == []
    {
      messages := [];
      sessionId := "";
      modelConfig := None;
      isUploading := false;
      sent := [];
      uploads := [];
      inFlight := [];
    }

    /** The start-up effect's `setSessionId` and `setModelConfig`. */
    method StartSession(id: string, model: Option<ContainerModel>)
      modifies this`sessionId, this`modelConfig
      ensures sessionId == id && modelConfig == model
    {
      sessionId := id;
      modelConfig := model;
    }

    /** The handler registered with the socket manager. */
    method ReceiveFrame(frame: Json.Value)
      requires Valid()
      modifies this`messages
      ensures Valid()
      ensures InboundEntry(frame).None? ==> messages == old(messages)
      ensures InboundEntry(frame).Some? ==> messages == old(messages) + [Received(frame)]
    {
      if frame.Null? {
        return;
      }
      if Json.IsAgentLog(frame) {
        return;
      }
      messages := messages + [Received(frame)];
    }

    /** `handleSendMessage`: without a model configuration or a session nothing happens;
        otherwise one user message is appended and one frame sent. */
    method HandleSendMessage(input: string, fileIds: Option<seq<string>>)
      requires Valid()
      modifies this`messages, this`sent
      ensures Valid()
      ensures old(modelConfig).None? || sessionId == "" ==>
        messages == old(messages) && sent == old(sent)
      ensures old(modelConfig).Some? && sessionId != "" ==>
        messages == old(messages) + [UserMessageFor(input, fileIds)]
        && sent == old(sent) + [OutboundFor(input, modelConfig.value, fileIds)]
    {
      if modelConfig.None? {
        return;
      }
      if sessionId == "" {
        return;
      }
      var ids := if fileIds.Some? then fileIds.value else [];
      var userMessage := UserMessage(input, PlaceholderFiles(ids));
      messages := messages + [userMessage];
      var model := modelConfig.value;
      var wsMessage := Outbound.Frame(
        input,
        if |model.configNames| > 0 then Some(model.configNames[0]) else None,
        model.provider,
        if fileIds.Some? && |fileIds.value| > 0 then fileIds else None);
      sent := sent + [wsMessage];
    }

    /** `handleFileUpload` up to its `await`: the flag is raised; without a session the
        call throws "No session ID available" and its `finally` lowers the flag again
        at once; otherwise the upload service is called once and the call stays in
        flight until `UploadSettled`. */
    method BeginUpload(file: File) returns (r: Option<UploadError>)
      requires Valid()
      modifies this`isUploading, this`uploads, this`inFlight
      ensures Valid()
      ensures sessionId == "" ==>
        r == Some(NoSessionId) && !isUploading
        && uploads == old(uploads) && inFlight == old(inFlight)
      ensures sessionId != "" ==>
        r.None? && isUploading
        && uploads == old(uploads) + [UploadCall(file, sessionId)]
        && inFlight == old(inFlight) + [|old(uploads)|]
    {
      isUploading := true;
      if sessionId == "" {
        isUploading := false;
        return Some(NoSessionId);
      }
      uploads := uploads + [UploadCall(file, sessionId)];
      inFlight := inFlight + [|uploads| - 1];
      r := None;
    }

    /** The `k`-th upload still in flight settles with `outcome`, the upload service's
        answer: the call returns the service's identifier with its file's name, or
        rethrows the error, and its `finally` lowers the flag whether or not other
        uploads are still in flight. */
    method UploadSettled(k: nat, outcome: Result<string, string>) returns (r: Result<UploadResult, UploadError>)
      requires Valid() && k < |inFlight|
      modifies this`isUploading, this`inFlight
      ensures Valid()
      ensures !isUploading
      ensures inFlight == old(inFlight[..k] + inFlight[k + 1..])
      ensures outcome.Ok? ==> r == Ok(UploadResult(outcome.value, uploads[old(inFlight[k])].file.name))
      ensures outcome.Err? ==> r == Err(UploadFailed(outcome.error))
    {
      var call := uploads[inFlight[k]];
      inFlight := inFlight[..k] + inFlight[k + 1..];
      match outcome {
        case Ok(id) => r := Ok(UploadResult(id, call.file.name));
        case Err(detail) => r := Err(UploadFailed(detail));
      }
      isUploading := false;
    }
  }

  /** Two uploads started one after the other: when the first settles, the flag is
      already down although the second is still in flight, and the second still
      returns its own file's name. */
  method OverlappingUploads() returns (uploadingBetween: bool, stillInFlight: nat, second: Result<UploadResult, UploadError>)
    ensures !uploadingBetween && stillInFlight == 1
    ensures second == Ok(UploadResult("id-2", "b.pdf"))
  {
    var c := new ChatContainerState();
    c.StartSession("session-1", None);
    var _ := c.BeginUpload(File("a.png", "image/png", 10));
    var _ := c.BeginUpload(File("b.pdf", "application/pdf", 20));
    var _ := c.UploadSettled(0, Ok("id-1"));
    uploadingBetween, stillInFlight := c.isUploading, |c.inFlight|;
    second := c.UploadSettled(0, Ok("id-2"));
  }
}
