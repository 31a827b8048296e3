/** The typed inputs of the Go session hooks and the `parse*Input` helpers that
    build them from a decoded request: each field is taken only when the value
    under its key has the expected type and otherwise keeps its zero value;
    `toolArgs` and `toolResult` are copied as they are. */
module HookInputs {
  import opened Values

  datatype PreToolUseInput = PreToolUseInput(timestamp: int, cwd: string, toolName: string, toolArgs: Value)

  datatype PostToolUseInput =
    PostToolUseInput(timestamp: int, cwd: string, toolName: string, toolArgs: Value, toolResult: Value)

  datatype UserPromptSubmittedInput = UserPromptSubmittedInput(timestamp: int, cwd: string, prompt: string)

  datatype SessionStartInput =
    SessionStartInput(timestamp: int, cwd: string, source: string, initialPrompt: string)

  datatype SessionEndInput =
    SessionEndInput(timestamp: int, cwd: string, reason: string, finalMessage: string, error: string)

  datatype ErrorOccurredInput =
    ErrorOccurredInput(timestamp: int, cwd: string, error: string, errorContext: string, recoverable: bool)

  datatype HookInput =
    | PreToolUse(pre: PreToolUseInput)
    | PostToolUse(post: PostToolUseInput)
    | UserPromptSubmitted(prompt: UserPromptSubmittedInput)
    | SessionStart(start: SessionStartInput)
    | SessionEnd(end: SessionEndInput)
    | ErrorOccurred(failure: ErrorOccurredInput)

  function ParsePreToolUseInput(input: Object): (r: PreToolUseInput)
    ensures ReadAs(input, "timestamp", Number(r.timestamp)) && ReadAs(input, "cwd", Str(r.cwd))
    ensures ReadAs(input, "toolName", Str(r.toolName))
    ensures r.toolArgs == Field(input, "toolArgs")
  {
    PreToolUseInput(IntField(input, "timestamp"), StringField(input, "cwd"),
                    StringField(input, "toolName"), Field(input, "toolArgs"))
  }

  function ParsePostToolUseInput(input: Object): (r: PostToolUseInput)
    ensures ReadAs(input, "timestamp", Number(r.timestamp)) && ReadAs(input, "cwd", Str(r.cwd))
    ensures ReadAs(input, "toolName", Str(r.toolName))
    ensures r.toolArgs == Field(input, "toolArgs") && r.toolResult == Field(input, "toolResult")
  {
    PostToolUseInput(IntField(input, "timestamp"), StringField(input, "cwd"),
                     StringField(input, "toolName"), Field(input, "toolArgs"), Field(input, "toolResult"))
  }

  function ParseUserPromptSubmittedInput(input: Object): (r: UserPromptSubmittedInput)
    ensures ReadAs(input, "timestamp", Number(r.timestamp)) && ReadAs(input, "cwd", Str(r.cwd))
    ensures ReadAs(input, "prompt", Str(r.prompt))
  {
    UserPromptSubmittedInput(IntField(input, "timestamp"), StringField(input, "cwd"), StringField(input, "prompt"))
  }

  function ParseSessionStartInput(input: Object): (r: SessionStartInput)
    ensures ReadAs(input, "timestamp", Number(r.timestamp)) && ReadAs(input, "cwd", Str(r.cwd))
    ensures ReadAs(input, "source", Str(r.source)) && ReadAs(input, "initialPrompt", Str(r.initialPrompt))
  {
    SessionStartInput(IntField(input, "timestamp"), StringField(input, "cwd"),
                      StringField(input, "source"), StringField(input, "initialPrompt"))
  }

  function ParseSessionEndInput(input: Object): (r: SessionEndInput)
    ensures ReadAs(input, "timestamp", Number(r.timestamp)) && ReadAs(input, "cwd", Str(r.cwd))
    ensures ReadAs(input, "reason", Str(r.reason)) && ReadAs(input, "finalMessage", Str(r.finalMessage))
    ensures ReadAs(input, "error", Str(r.error))
  {
    SessionEndInput(IntField(input, "timestamp"), StringField(input, "cwd"), StringField(input, "reason"),
                    StringField(input, "finalMessage"), StringField(input, "error"))
  }

  function ParseErrorOccurredInput(input: Object): (r: ErrorOccurredInput)
    ensures ReadAs(input, "timestamp", Number(r.timestamp)) && ReadAs(input, "cwd", Str(r.cwd))
    ensures ReadAs(input, "error", Str(r.error)) && ReadAs(input, "errorContext", Str(r.errorContext))
    ensures ReadAs(input, "recoverable", Bool(r.recoverable))
  {
    ErrorOccurredInput(IntField(input, "timestamp"), StringField(input, "cwd"), StringField(input, "error"),
                       StringField(input, "errorContext"), BoolField(input, "recoverable"))
  }

  // The wire form of each input, as the CLI sends it.

  function PreToolUseWire(x: PreToolUseInput): Object {
    map["timestamp" := Number(x.timestamp), "cwd" := Str(x.cwd), "toolName" := Str(x.toolName),
        "toolArgs" := x.toolArgs]
  }

  function PostToolUseWire(x: PostToolUseInput): Object {
    map["timestamp" := Number(x.timestamp), "cwd" := Str(x.cwd), "toolName" := Str(x.toolName),
        "toolArgs" := x.toolArgs, "toolResult" := x.toolResult]
  }

  function UserPromptSubmittedWire(x: UserPromptSubmittedInput): Object {
    map["timestamp" := Number(x.timestamp), "cwd" := Str(x.cwd), "prompt" := Str(x.prompt)]
  }

  function SessionStartWire(x: SessionStartInput): Object {
    map["timestamp" := Number(x.timestamp), "cwd" := Str(x.cwd), "source" := Str(x.source),
        "initialPrompt" := Str(x.initialPrompt)]
  }

  function SessionEndWire(x: SessionEndInput): Object {
    map["timestamp" := Number(x.timestamp), "cwd" := Str(x.cwd), "reason" := Str(x.reason),
        "finalMessage" := Str(x.finalMessage), "error" := Str(x.error)]
  }

  function ErrorOccurredWire(x: ErrorOccurredInput): Object {
    map["timestamp" := Number(x.timestamp), "cwd" := Str(x.cwd), "error" := Str(x.error),
        "errorContext" := Str(x.errorContext), "recoverable" := Bool(x.recoverable)]
  }

  /** Every parser reads back exactly what the wire form of an input carries. */
  lemma ParseWireRoundTrip(pre: PreToolUseInput, post: PostToolUseInput, prompt: UserPromptSubmittedInput,
                           start: SessionStartInput, end: SessionEndInput, failure: ErrorOccurredInput)
    ensures ParsePreToolUseInput(PreToolUseWire(pre)) == pre
    ensures ParsePostToolUseInput(PostToolUseWire(post)) == post
    ensures ParseUserPromptSubmittedInput(UserPromptSubmittedWire(prompt)) == prompt
    ensures ParseSessionStartInput(SessionStartWire(start)) == start
    ensures ParseSessionEndInput(SessionEndWire(end)) == end
    ensures ParseErrorOccurredInput(ErrorOccurredWire(failure)) == failure
  {
    ToolHooksRoundTrip(pre, post, prompt);
    SessionHooksRoundTrip(start, end, failure);
  }

  lemma ToolHooksRoundTrip(pre: PreToolUseInput, post: PostToolUseInput, prompt: UserPromptSubmittedInput)
    ensures ParsePreToolUseInput(PreToolUseWire(pre)) == pre
    ensures ParsePostToolUseInput(PostToolUseWire(post)) == post
    ensures ParseUserPromptSubmittedInput(UserPromptSubmittedWire(prompt)) == prompt
  {
  }

  lemma SessionHooksRoundTrip(start: SessionStartInput, end: SessionEndInput, failure: ErrorOccurredInput)
    ensures ParseSessionStartInput(SessionStartWire(start)) == start
    ensures ParseSessionEndInput(SessionEndWire(end)) == end
    ensures ParseErrorOccurredInput(ErrorOccurredWire(failure)) == failure
  {
  }

  /** A value of the wrong type under a key leaves the field at its zero value:
      the parse is the same as if the key were absent. */
  lemma IllTypedFieldsAreIgnored(input: Object, key: string)
    requires key in input && key != "toolArgs" && key != "toolResult"
    requires key == "timestamp" ==> !input[key].Number?
    requires key == "recoverable" ==> !input[key].Bool?
    requires key != "timestamp" && key != "recoverable" ==> !input[key].Str?
    ensures ParsePreToolUseInput(input) == ParsePreToolUseInput(input - {key})
    ensures ParsePostToolUseInput(input) == ParsePostToolUseInput(input - {key})
    ensures ParseUserPromptSubmittedInput(input) == ParseUserPromptSubmittedInput(input - {key})
    ensures ParseSessionStartInput(input) == ParseSessionStartInput(input - {key})
    ensures ParseSessionEndInput(input) == ParseSessionEndInput(input - {key})
    ensures ParseErrorOccurredInput(input) == ParseErrorOccurredInput(input - {key})
  {
    ToolHooksIgnoreIllTyped(input, key);
    SessionHooksIgnoreIllTyped(input, key);
  }

  lemma ToolHooksIgnoreIllTyped(input: Object, key: string)
    requires key in input && key != "toolArgs" && key != "toolResult"
    requires key == "timestamp" ==> !input[key].Number?
    requires key != "timestamp" && key != "recoverable" ==> !input[key].Str?
    ensures ParsePreToolUseInput(input) == ParsePreToolUseInput(input - {key})
    ensures ParsePostToolUseInput(input) == ParsePostToolUseInput(input - {key})
    ensures ParseUserPromptSubmittedInput(input) == ParseUserPromptSubmittedInput(input - {key})
  {
  }

  lemma SessionHooksIgnoreIllTyped(input: Object, key: string)
    requires key in input
    requires key == "timestamp" ==> !input[key].Number?
    requires key == "recoverable" ==> !input[key].Bool?
    requires key != "timestamp" && key != "recoverable" ==> !input[key].Str?
    ensures ParseSessionStartInput(input) == ParseSessionStartInput(input - {key})
    ensures ParseSessionEndInput(input) == ParseSessionEndInput(input - {key})
    ensures ParseErrorOccurredInput(input) == ParseErrorOccurredInput(input - {key})
  {
  }

  /** `toolArgs` and `toolResult` are passed through whatever their shape. */
  lemma ToolPayloadCopied(input: Object)
    ensures ParsePreToolUseInput(input).toolArgs == Field(input, "toolArgs")
    ensures ParsePostToolUseInput(input).toolArgs == Field(input, "toolArgs")
    ensures ParsePostToolUseInput(input).toolResult == Field(input, "toolResult")
  {
  }
}
