// The chat-completion message dictionaries the agent stores in history and
// sends to the model, and a decoder back to their fields.

module Messages {
  import opened PyValues

  /** The fields of a chat message; `name` and `functionCall` are None when the key is absent. */
  datatype ChatMessage = ChatMessage(role: string, content: Json, name: Option<Json>, functionCall: Option<Json>)

  /** The dictionary for a message: role and content, plus name / function_call when present. */
  function Encode(m: ChatMessage): (j: Json)
    ensures j.JObj? && Truthy(j)
  {
    var base := map["role" := JStr(m.role), "content" := m.content];
    var withName := if m.name.Some? then base["name" := m.name.value] else base;
    var full := if m.functionCall.Some? then withName["function_call" := m.functionCall.value] else withName;
    assert "role" in full;
    JObj(full)
  }

  const MessageKeys: set<string> := {"role", "content", "name", "function_call"}

  /** Reads a history entry back as a message, if it has that shape. */
  function Decode(j: Json): Option<ChatMessage>
  {
    if j.JObj? && "role" in j.fields && j.fields["role"].JStr? && "content" in j.fields
       && j.fields.Keys <= MessageKeys then
      var f := j.fields;
      Some(ChatMessage(f["role"].s, f["content"],
                       if "name" in f then Some(f["name"]) else None,
                       if "function_call" in f then Some(f["function_call"]) else None))
    else None
  }

  lemma DecodeEncode(m: ChatMessage)
    ensures Decode(Encode(m)) == Some(m)
  {
    var f := Encode(m).fields;
    assert f.Keys <= MessageKeys;
    assert "name" in f <==> m.name.Some?;
    assert "function_call" in f <==> m.functionCall.Some?;
  }

  lemma EncodeDecode(j: Json)
    requires Decode(j).Some?
    ensures Encode(Decode(j).value) == j
  {
    var f := j.fields;
    var e := Encode(Decode(j).value).fields;
    assert e.Keys == f.Keys;
  }

  /** `create_prompt_message`: the system message carrying the compiled prompt. */
  function PromptMessage(content: string): (j: Json)
    ensures Decode(j) == Some(ChatMessage("system", JStr(content), None, None))
  {
    DecodeEncode(ChatMessage("system", JStr(content), None, None));
    Encode(ChatMessage("system", JStr(content), None, None))
  }

  /** The optional name key: only a non-empty name is added. */
  function NameKey(name: Option<string>): (r: Option<Json>)
    ensures r.Some? <==> name.Some? && name.value != ""
    ensures r.Some? ==> r.value == JStr(name.value)
  {
    if name.Some? && name.value != "" then Some(JStr(name.value)) else None
  }

  /** `create_user_message`. */
  function UserMessage(content: string, name: Option<string>): (j: Json)
    ensures Decode(j) == Some(ChatMessage("user", JStr(content), NameKey(name), None))
  {
    DecodeEncode(ChatMessage("user", JStr(content), NameKey(name), None));
    Encode(ChatMessage("user", JStr(content), NameKey(name), None))
  }

  /** `create_assistant_message`: name and function_call only when truthy. */
  function AssistantMessage(content: string, name: Option<string>, functionCall: Option<Json>): (j: Json)
    ensures Decode(j) == Some(ChatMessage("assistant", JStr(content), NameKey(name),
                                          if functionCall.Some? && Truthy(functionCall.value) then functionCall else None))
  {
    var fc := if functionCall.Some? && Truthy(functionCall.value) then functionCall else None;
    DecodeEncode(ChatMessage("assistant", JStr(content), NameKey(name), fc));
    Encode(ChatMessage("assistant", JStr(content), NameKey(name), fc))
  }

  /** The `{"name", "arguments"}` dictionary of a function call. */
  function CallObject(name: Option<string>, arguments: string): Json
  {
    JObj(map["name" := OptStr(name), "arguments" := JStr(arguments)])
  }

  /** `create_function_call_message`: an assistant message with empty content and the call. */
  function FunctionCallMessage(name: Option<string>, arguments: string): (j: Json)
    ensures Decode(j) == Some(ChatMessage("assistant", JStr(""), None, Some(CallObject(name, arguments))))
  {
    DecodeEncode(ChatMessage("assistant", JStr(""), None, Some(CallObject(name, arguments))));
    Encode(ChatMessage("assistant", JStr(""), None, Some(CallObject(name, arguments))))
  }

  /** `create_function_response_message`: role function, the call's name (even None), the response as content. */
  function FunctionResponseMessage(name: Option<string>, response: Json): (j: Json)
    ensures Decode(j) == Some(ChatMessage("function", response, Some(OptStr(name)), None))
  {
    DecodeEncode(ChatMessage("function", response, Some(OptStr(name)), None));
    Encode(ChatMessage("function", response, Some(OptStr(name)), None))
  }
}
