// The records that travel through the agent: the conversation lead and the
// job handed to the agent for one turn.

module Records {
  import opened PyValues

  /** A conversation participant; its token (the id) keys history and state. */
  datatype ChatLead = ChatLead(
    id: string,
    channelSource: string,
    tenantId: string,
    assistantId: string,
    metadata: Option<StateMap>,
    signature: Option<string>)
  {
    function Token(): string
    {
      id
    }
  }

  /** A lead as the controller, the plugin and the gateway build it. */
  function NewLead(id: string, channelSource: string, tenantId: string, assistantId: string): (lead: ChatLead)
    ensures lead.Token() == id
    ensures lead.tenantId == tenantId && lead.assistantId == assistantId
    ensures lead.metadata.None? && lead.signature.None?
  {
    ChatLead(id, channelSource, tenantId, assistantId, None, None)
  }

  const LITE_DEFAULT_PROMPT: string := "Hello {{state.name}} this is a default prompt"
  const ASSISTANT_DEFAULT_PROMPT: string := "Create an assistant funny and sarcastic, dark humor chatbot."

  /**
   * Whether a job object carries a `new_state` attribute at all: the lite
   * job class has none, the assistant job class has one (possibly None).
   */
  datatype NewStateAttr = Absent | Present(state: Option<StateMap>)

  datatype AgentJob = AgentJob(
    jobId: string,
    lead: ChatLead,
    message: Option<string>,
    prompt: string,
    initState: Option<StateMap>,
    newState: NewStateAttr)

  /** The lite job: `prompt or DEFAULT_PROMPT`, and no `new_state` attribute. */
  function LiteJob(jobId: string, lead: ChatLead, message: Option<string>, prompt: Option<string>,
                   initState: Option<StateMap>): (job: AgentJob)
    ensures job.prompt != ""
    ensures prompt.Some? && prompt.value != "" ==> job.prompt == prompt.value
    ensures prompt.None? || prompt.value == "" ==> job.prompt == LITE_DEFAULT_PROMPT
    ensures job.newState == Absent
    ensures job.lead == lead && job.message == message && job.initState == initState
  {
    AgentJob(jobId, lead, message, StrOr(prompt, LITE_DEFAULT_PROMPT), initState, Absent)
  }

  /** The assistant job: same defaulting, and it carries `new_state`. */
  function AssistantJob(jobId: string, lead: ChatLead, message: Option<string>, prompt: Option<string>,
                        initState: Option<StateMap>, newState: Option<StateMap>): (job: AgentJob)
    ensures job.prompt != ""
    ensures prompt.Some? && prompt.value != "" ==> job.prompt == prompt.value
    ensures prompt.None? || prompt.value == "" ==> job.prompt == ASSISTANT_DEFAULT_PROMPT
    ensures job.newState == Present(newState)
    ensures job.lead == lead && job.message == message && job.initState == initState
  {
    AgentJob(jobId, lead, message, StrOr(prompt, ASSISTANT_DEFAULT_PROMPT), initState, Present(newState))
  }

  /** A parsed client command such as `/reset all`. */
  datatype ClientCommand = ClientCommand(command: string, args: seq<string>)
}
