/** The streaming side of the connector: the one-variable state machine that
    remembers the tool name across streamed updates, and the loop over the
    streamed replies. */
module Streaming {
  import opened Wrappers
  import opened Messages

  /** The update carries a legacy function-call part or at least one tool-call part. */
  predicate HasCallPart(u: StreamingUpdate) {
    u.functionCallUpdate.Some? || |u.toolCallUpdates| > 0
  }

  /** The name in the update's call part: the function-call part's name, else the
      first tool-call part's name; None when that part carries no name. */
  function AnnouncedName(u: StreamingUpdate): Option<string> {
    if u.functionCallUpdate.Some? then u.functionCallUpdate.value.functionName
    else if |u.toolCallUpdates| > 0 then u.toolCallUpdates[0].functionName
    else None
  }

  // ---------------------------------------------------------------------
  // The state update as written
  // ---------------------------------------------------------------------

  /** The update of `currentToolName` as the source writes it: any call part
      overwrites the name, also with a null name. */
  function ToolNameStepAsWritten(current: Option<string>, u: StreamingUpdate): (r: Option<string>)
    ensures HasCallPart(u) ==> r == AnnouncedName(u)
    ensures !HasCallPart(u) ==> r == current
  {
    if HasCallPart(u) then AnnouncedName(u) else current
  }

  /** `currentToolName` as written, after the given updates, starting from null:
      it is null while no update has a call part, and it can only be a name
      that some update announced. */
  function ToolNameAfterAsWritten(us: seq<StreamingUpdate>): (r: Option<string>)
    ensures (forall j :: 0 <= j < |us| ==> !HasCallPart(us[j])) ==> r.None?
    ensures r.Some? ==> exists j :: 0 <= j < |us| && AnnouncedName(us[j]) == r
  {
    if us == [] then None
    else ToolNameStepAsWritten(ToolNameAfterAsWritten(us[..|us| - 1]), us[|us| - 1])
  }

  /** As written, the state is the name in the last update that has a call part,
      whatever that name is. */
  lemma {:induction false} AsWrittenFollowsLastCallPart(us: seq<StreamingUpdate>, i: nat)
    requires i < |us| && HasCallPart(us[i])
    requires forall j :: i < j < |us| ==> !HasCallPart(us[j])
    ensures ToolNameAfterAsWritten(us) == AnnouncedName(us[i])
  {
    if i < |us| - 1 {
      AsWrittenFollowsLastCallPart(us[..|us| - 1], i);
    }
  }

  /** A named tool-call update followed by an argument fragment without a name
      leaves the state as written at null, while the corrected state keeps the name. */
  lemma AsWrittenForgetsToolName()
    ensures var us := [StreamingUpdate(None, [ToolCallUpdate(Some("f"), "")]),
                       StreamingUpdate(None, [ToolCallUpdate(None, "{")])];
      ToolNameAfterAsWritten(us) == None && ToolNameAfter(us) == Some("f")
  {
    var us := [StreamingUpdate(None, [ToolCallUpdate(Some("f"), "")]),
               StreamingUpdate(None, [ToolCallUpdate(None, "{")])];
    assert us[..1] == [us[0]] && [us[0]][..0] == [];
  }

  // ---------------------------------------------------------------------
  // The state update as intended
  // ---------------------------------------------------------------------

  /** The update of `currentToolName` as evidently intended (the commented-out
      conversion at OpenAIChatRequestMessageConnector.cs:120 falls back to
      `currentToolName` for a part without a name): an update that names a tool
      overwrites the state; any other update leaves it unchanged. */
  function ToolNameStep(current: Option<string>, u: StreamingUpdate): Option<string> {
    match AnnouncedName(u)
    case Some(name) => Some(name)
    case None => current
  }

  /** The tool name after the given updates, starting from null. */
  function ToolNameAfter(us: seq<StreamingUpdate>): Option<string> {
    if us == [] then None
    else ToolNameStep(ToolNameAfter(us[..|us| - 1]), us[|us| - 1])
  }

  /** The state is the most recently announced tool name. */
  lemma {:induction false} ToolNameIsLastAnnounced(us: seq<StreamingUpdate>, i: nat)
    requires i < |us| && AnnouncedName(us[i]).Some?
    requires forall j :: i < j < |us| ==> AnnouncedName(us[j]).None?
    ensures ToolNameAfter(us) == AnnouncedName(us[i])
  {
    if i < |us| - 1 {
      ToolNameIsLastAnnounced(us[..|us| - 1], i);
    }
  }

  /** Until a tool name is announced the state stays null. */
  lemma {:induction false} ToolNameNullUntilAnnounced(us: seq<StreamingUpdate>)
    requires forall j :: 0 <= j < |us| ==> AnnouncedName(us[j]).None?
    ensures ToolNameAfter(us) == None
  {
    if us != [] {
      ToolNameNullUntilAnnounced(us[..|us| - 1]);
    }
  }

  /** A name streamed once is inherited by the argument fragments that follow it. */
  lemma FragmentsInheritToolName(name: string, fragments: seq<string>)
    ensures var us := [StreamingUpdate(Some(FunctionCallUpdate(Some(name), "")), [])] +
      seq(|fragments|, k requires 0 <= k < |fragments| => StreamingUpdate(Some(FunctionCallUpdate(None, fragments[k])), []));
      forall n :: 1 <= n <= |us| ==> ToolNameAfter(us[..n]) == Some(name)
  {
    var us := [StreamingUpdate(Some(FunctionCallUpdate(Some(name), "")), [])] +
      seq(|fragments|, k requires 0 <= k < |fragments| => StreamingUpdate(Some(FunctionCallUpdate(None, fragments[k])), []));
    forall n | 1 <= n <= |us|
      ensures ToolNameAfter(us[..n]) == Some(name)
    {
      ToolNameIsLastAnnounced(us[..n], 0);
    }
  }

  /** The tool name each update is processed with, computed as the source's loop
      does, one update at a time with one variable, but with the corrected step
      `ToolNameStep`: a call part without a name keeps the current name. */
  method TrackToolNames(us: seq<StreamingUpdate>) returns (names: seq<Option<string>>)
    ensures |names| == |us|
    ensures forall i :: 0 <= i < |us| ==> names[i] == ToolNameAfter(us[..i + 1])
  {
    var currentToolName: Option<string> := None;
    names := [];
    for i := 0 to |us|
      invariant |names| == i
      invariant currentToolName == ToolNameAfter(us[..i])
      invariant forall k :: 0 <= k < i ==> names[k] == ToolNameAfter(us[..k + 1])
    {
      var u := us[i];
      if u.functionCallUpdate.Some? {
        if u.functionCallUpdate.value.functionName.Some? {
          currentToolName := u.functionCallUpdate.value.functionName;
        }
      } else if |u.toolCallUpdates| > 0 {
        if u.toolCallUpdates[0].functionName.Some? {
          currentToolName := u.toolCallUpdates[0].functionName;
        }
      }
      assert us[..i + 1][..i] == us[..i];
      names := names + [currentToolName];
    }
  }

  // ---------------------------------------------------------------------
  // The loop over streamed replies
  // ---------------------------------------------------------------------

  /** The conversion of one streaming update, which is not implemented: it fails
      whatever the update and the tool name. */
  function PostProcessStreamingMessage(update: StreamingUpdate, currentToolName: Option<string>)
    : (r: Result<Option<IMessage>, Error>)
    ensures r.Failure? && r.error == StreamingNotImplemented
  {
    Failure(StreamingNotImplemented)
  }

  /** The position of the first streaming update among the replies, or their count. */
  function FirstUpdate(replies: seq<IMessage>): (n: nat)
    ensures n <= |replies|
    ensures forall k :: 0 <= k < n ==> !replies[k].UpdateEnvelope?
    ensures n < |replies| ==> replies[n].UpdateEnvelope?
  {
    if replies == [] then 0
    else if replies[0].UpdateEnvelope? then 0
    else 1 + FirstUpdate(replies[1..])
  }

  /** The streamed replies in order: an update advances the tool-name state (by
      the corrected step `ToolNameStep`) and is converted, which fails; any other reply is yielded unchanged in lenient
      mode and is an error in strict mode. Processing stops at the first error. */
  method ProcessStreamingReplies(strict: bool, replies: seq<IMessage>) returns (yielded: seq<IMessage>, error: Option<Error>)
    ensures !strict ==> yielded == replies[..FirstUpdate(replies)]
    ensures !strict ==> (error.Some? <==> FirstUpdate(replies) < |replies|)
    ensures !strict && error.Some? ==> error.value == StreamingNotImplemented
    ensures strict ==> yielded == []
    ensures strict ==> (error.Some? <==> replies != [])
    ensures strict && replies != [] ==>
      error.value == (if replies[0].UpdateEnvelope? then StreamingNotImplemented else InvalidStreamingType)
  {
    var currentToolName: Option<string> := None;
    yielded, error := [], None;
    var i := 0;
    while i < |replies| && error.None?
      invariant 0 <= i <= |replies|
      invariant strict ==> yielded == [] && (error.None? <==> i == 0)
      invariant strict && error.Some? ==>
        error.value == (if replies[0].UpdateEnvelope? then StreamingNotImplemented else InvalidStreamingType)
      invariant !strict && error.None? ==> i <= FirstUpdate(replies) && yielded == replies[..i]
      invariant !strict && error.Some? ==>
        i == FirstUpdate(replies) + 1 && yielded == replies[..FirstUpdate(replies)] &&
        error.value == StreamingNotImplemented
    {
      var reply := replies[i];
      if reply.UpdateEnvelope? {
        currentToolName := ToolNameStep(currentToolName, reply.update);
        var converted := PostProcessStreamingMessage(reply.update, currentToolName);
        error := Some(converted.error);
      } else if strict {
        error := Some(InvalidStreamingType);
      } else {
        yielded := yielded + [reply];
      }
      i := i + 1;
    }
  }
}
