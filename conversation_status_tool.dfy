/** The `update_conversation_status` tool (src/tools/conversation_status.tool.ts):
    its argument schema, the handler that calls the update callback and the
    confirmation or failure text it returns. */
module ConversationStatusTool {
  import opened Wrappers
  import opened ConversationTypes
  import opened AgentCore

  const SuccessPrefix: string := "Conversation status successfully updated to: "
  const NoteSeparator: string := ". Note: "
  const FailurePrefix: string := "Failed to update conversation status: "

  /** How the update callback returned: normally, or by throwing an error whose
      `message` is given. */
  datatype CallbackOutcome = Completed | Threw(message: string)

  /** The confirmation text: the prefix, the status value and, when the note is
      truthy, the note after a separator. */
  function SuccessMessage(status: ConversationStatus, note: Option<string>): (r: string)
    ensures SuccessPrefix <= r
    ensures |r| > |SuccessPrefix + Name(status)| <==> Truthy(note)
  {
    SuccessPrefix + Name(status) + (if Truthy(note) then NoteSeparator + note.value else "")
  }

  /** The handler's result once the callback has returned or thrown: never an
      error, always one of the two texts. */
  function HandlerResult(status: ConversationStatus, note: Option<string>, outcome: CallbackOutcome): (r: string)
    ensures outcome.Completed? ==> r == SuccessMessage(status, note)
    ensures outcome.Threw? ==> r == FailurePrefix + outcome.message
  {
    match outcome
    case Completed => SuccessMessage(status, note)
    case Threw(message) => FailurePrefix + message
  }

  /** The prefix of `s` before its first full stop (all of `s` if it has none). */
  function UpToFullStop(s: string): (r: string)
    ensures r <= s && '.' !in r
    ensures |r| < |s| ==> s[|r|] == '.'
  {
    if s == [] || s[0] == '.' then [] else [s[0]] + UpToFullStop(s[1..])
  }

  /** Reads the text after the status value: nothing means no note, the
      separator followed by a non-empty note means that note; anything else is
      not a confirmation. */
  function DecodeNote(tail: string): (r: Option<Option<string>>)
    ensures r == Some(None) <==> tail == []
    ensures r.Some? && r.value.Some? ==> |r.value.value| > 0 && tail == NoteSeparator + r.value.value
  {
    if tail == [] then Some(None)
    else if NoteSeparator <= tail && |tail| > |NoteSeparator| then
      assert tail == NoteSeparator + tail[|NoteSeparator|..];
      Some(Some(tail[|NoteSeparator|..]))
    else None
  }

  /** Reads a confirmation text back into the status and the note it reports. */
  function DecodeSuccess(msg: string): Option<(ConversationStatus, Option<string>)>
  {
    if !(SuccessPrefix <= msg) then None
    else
      var rest := msg[|SuccessPrefix|..];
      var name := UpToFullStop(rest);
      match (Parse(name), DecodeNote(rest[|name|..]))
      case (Some(status), Some(note)) => Some((status, note))
      case _ => None
  }

  /** A full stop ends the prefix `a` of `a + b` when `a` has none and `b` starts with one. */
  lemma {:induction false} UpToFullStopAppend(a: string, b: string)
    requires '.' !in a
    requires b == [] || b[0] == '.'
    ensures UpToFullStop(a + b) == a
  {
    if a != [] {
      assert (a + b)[1..] == a[1..] + b;
      UpToFullStopAppend(a[1..], b);
    }
  }

  /** The confirmation text names the status exactly, and the note exactly when it
      is truthy: the message can be read back into what was set. */
  lemma SuccessMessageDecodes(status: ConversationStatus, note: Option<string>)
    ensures DecodeSuccess(SuccessMessage(status, note))
         == Some((status, if Truthy(note) then note else None))
  {
    var suffix := if Truthy(note) then NoteSeparator + note.value else "";
    var msg := SuccessMessage(status, note);
    assert msg == SuccessPrefix + (Name(status) + suffix);
    assert msg[|SuccessPrefix|..] == Name(status) + suffix;
    UpToFullStopAppend(Name(status), suffix);
    assert (Name(status) + suffix)[|Name(status)|..] == suffix;
    ParseName(status);
    if Truthy(note) {
      assert suffix[|NoteSeparator|..] == note.value;
      assert DecodeNote(suffix) == Some(note);
    } else {
      assert DecodeNote(suffix) == Some(None);
    }
  }

  /** What a successful decoding has found in the text. */
  lemma DecodeParts(msg: string, status: ConversationStatus, note: Option<string>)
    requires DecodeSuccess(msg) == Some((status, note))
    ensures SuccessPrefix <= msg
    ensures Parse(UpToFullStop(msg[|SuccessPrefix|..])) == Some(status)
    ensures DecodeNote(msg[|SuccessPrefix|..][|UpToFullStop(msg[|SuccessPrefix|..])|..]) == Some(note)
  {
  }

  /** A text with a prefix is that prefix followed by its rest, cut anywhere. */
  lemma SplitAfterPrefix(msg: string, name: string)
    requires SuccessPrefix <= msg && name <= msg[|SuccessPrefix|..]
    ensures msg == SuccessPrefix + (name + msg[|SuccessPrefix|..][|name|..])
  {
    var rest := msg[|SuccessPrefix|..];
    assert rest == name + rest[|name|..];
  }

  /** The confirmation text in the shape a decoding produces. */
  lemma SuccessMessageParts(status: ConversationStatus, note: Option<string>)
    ensures note == None ==> SuccessMessage(status, note) == SuccessPrefix + (Name(status) + [])
    ensures Truthy(note) ==>
      SuccessMessage(status, note) == SuccessPrefix + (Name(status) + (NoteSeparator + note.value))
  {
    if note == None {
      assert SuccessMessage(status, note) == SuccessPrefix + Name(status) + [];
    }
    if Truthy(note) {
      assert SuccessMessage(status, note) == SuccessPrefix + Name(status) + (NoteSeparator + note.value);
    }
  }

  /** The parts a decoded confirmation is split into. */
  lemma DecodeSplit(msg: string, status: ConversationStatus, note: Option<string>)
    requires SuccessPrefix <= msg
    requires Parse(UpToFullStop(msg[|SuccessPrefix|..])) == Some(status)
    requires DecodeNote(msg[|SuccessPrefix|..][|UpToFullStop(msg[|SuccessPrefix|..])|..]) == Some(note)
    ensures note == None ==> msg == SuccessPrefix + (Name(status) + [])
    ensures note.Some? ==> |note.value| > 0 && msg == SuccessPrefix + (Name(status) + (NoteSeparator + note.value))
  {
    var rest := msg[|SuccessPrefix|..];
    var name := UpToFullStop(rest);
    var tail := rest[|name|..];
    assert name == Name(status);
    SplitAfterPrefix(msg, name);
    if note.Some? {
      assert tail == NoteSeparator + note.value;
    } else {
      assert tail == [];
    }
  }

  /** Conversely, a text that decodes as a confirmation is exactly the
      confirmation of what it decodes to: the prefix, the status value and,
      when a note is reported, the separator and that note. */
  lemma DecodeExact(msg: string, status: ConversationStatus, note: Option<string>)
    requires DecodeSuccess(msg) == Some((status, note))
    ensures msg == SuccessMessage(status, note)
    ensures note.Some? ==> Truthy(note)
  {
    DecodeParts(msg, status, note);
    DecodeSplit(msg, status, note);
    SuccessMessageParts(status, note);
  }

  /** A failure text is never mistaken for a confirmation. */
  lemma FailureIsNotSuccess(message: string)
    ensures DecodeSuccess(FailurePrefix + message) == None
    ensures !(SuccessPrefix <= FailurePrefix + message)
  {
    var failure := FailurePrefix + message;
    assert failure[0] == 'F';
    assert SuccessPrefix == ['C'] + SuccessPrefix[1..];
  }

  /** Why the schema refused an argument: the status is not an enum value. */
  datatype SchemaError = InvalidStatus(value: string)

  /** The tool's argument schema: `status` must be one of the seven values,
      `note` is an optional string that is passed through. */
  function ParseArguments(status: string, note: Option<string>): (r: Result<(ConversationStatus, Option<string>), SchemaError>)
    ensures r.Success? <==> Parse(status).Some?
    ensures r.Success? ==> Name(r.value.0) == status && r.value.1 == note
    ensures r.Failure? ==> r.error == InvalidStatus(status)
  {
    match Parse(status)
    case Some(s) => Success((s, note))
    case None => Failure(InvalidStatus(status))
  }

  /** The tool as the service wires it: the callback is the service's
      `UpdateStatus`, called once with the handler's own status and note; that
      call cannot throw, so the confirmation is returned, and it names the
      status now stored. */
  method UpdateConversationStatus(svc: DeepProcurmentAgentService, status: ConversationStatus, note: Option<string>)
    returns (msg: string)
    modifies svc
    ensures svc.config == ApplyUpdate(old(svc.config), status, note)
    ensures msg == HandlerResult(status, note, Completed)
    ensures DecodeSuccess(msg) == Some((svc.config.conversationStatus, if Truthy(note) then note else None))
  {
    svc.UpdateStatus(status, note);
    msg := HandlerResult(status, note, Completed);
    SuccessMessageDecodes(status, note);
  }

  /** A call of the tool with raw arguments: a status outside the enum is refused
      by the schema before the handler runs and nothing changes; otherwise the
      handler runs as above. */
  method InvokeTool(svc: DeepProcurmentAgentService, status: string, note: Option<string>)
    returns (r: Result<string, SchemaError>)
    modifies svc
    ensures Parse(status).None? ==> r == Failure(InvalidStatus(status)) && svc.config == old(svc.config)
    ensures Parse(status).Some? ==>
      && svc.config == ApplyUpdate(old(svc.config), Parse(status).value, note)
      && r == Success(SuccessMessage(Parse(status).value, note))
  {
    var args := ParseArguments(status, note);
    match args {
      case Failure(e) =>
        r := Failure(e);
      case Success(parsed) =>
        var msg := UpdateConversationStatus(svc, parsed.0, parsed.1);
        r := Success(msg);
    }
  }
}
