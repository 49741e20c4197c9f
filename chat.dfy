/** The chat service: the system prompt that casts the model as a knowledge
    agent, the user payload that frames the agent's matrix, the recent history
    and the question, and the single completion call that answers it. */
module Chat {
  import opened Wrappers
  import opened Strings
  import opened Governor
  import opened Completion
  import Store

  /** The agent record as the service reads it, key by key: `None` is a key
      the record does not have. */
  datatype AgentView = AgentView(
    name: Option<string>,
    specialty: Option<string>,
    matrix: Option<string>,
    agentType: Option<string>)

  /** One history entry as the service reads it; a missing key is `None`. */
  datatype Turn = Turn(role: Option<string>, content: Option<string>)

  /** The record a stored agent becomes: every key is present. */
  function ViewOf(a: Store.Agent): AgentView {
    AgentView(Some(a.name), Some(a.specialty), Some(a.matrix),
      Some(if a.agentType == Store.Corporativo then "Corporativo" else "Pessoal"))
  }

  /** A value read with `get(key)` and put into an f-string: a missing key
      prints as `None`. */
  function Rendered(v: Option<string>): string {
    match v
    case None => "None"
    case Some(s) => s
  }

  /** The prompt budget, in characters. */
  const PromptLimit := 8000

  /** The output-token cap of the single completion call. */
  const AnswerTokens := 1800

  // ---------------------------------------------------------- system prompt

  const Greeting := "Você é "
  const SpecialtyLabel := ".\nCore/Especialidade: "
  const ProfileLabel := "\n\nPerfil ativo: "
  const RulesHead := "\n\nRegras:\n"
  const RuleOne := "- Use a Matriz de " + "Conhecimento como base.\n"
  const RuleTwo := "- Se algo não estiver " + "suportado pela Matriz, " + "declare a lacuna.\n"
  const RuleThree := "- Evite extrapolações. " + "Seja operacional e claro."

  /** The fixed rules that close the system prompt. */
  function Rules(): string {
    RulesHead + RuleOne + RuleTwo + RuleThree
  }

  /** The system prompt before `.strip()`: it ends with one newline. */
  function SystemTemplate(agent: AgentView, profile: string): string {
    Greeting + Rendered(agent.name) + SpecialtyLabel + Rendered(agent.specialty)
      + ProfileLabel + profile + Rules() + "\n"
  }

  /** `build_system`. */
  function BuildSystem(agent: AgentView, profile: string): string {
    Strip(SystemTemplate(agent, profile))
  }

  /** The rules end with a full stop. */
  lemma RulesEndWithStop()
    ensures |Rules()| > 0 && Rules()[|Rules()| - 1] == '.'
  {
    assert RuleThree[|RuleThree| - 1] == '.';
  }

  /** The stripped prompt is the template without its closing newline: the
      name, the specialty and the profile appear verbatim, in that order,
      and nothing else is removed, since the text opens with a letter and the
      rules close with a full stop. */
  lemma SystemLayout(agent: AgentView, profile: string)
    ensures BuildSystem(agent, profile)
      == Greeting + Rendered(agent.name) + SpecialtyLabel + Rendered(agent.specialty)
         + ProfileLabel + profile + Rules()
  {
    var front := Greeting + Rendered(agent.name) + SpecialtyLabel + Rendered(agent.specialty) + ProfileLabel + profile;
    var x := front + Rules();
    assert front[0] == 'V';
    assert x[0] == 'V';
    RulesEndWithStop();
    assert x[|x| - 1] == '.';
    StripClosedLine(x);
  }

  // ----------------------------------------------------------- user payload

  const MatrixHeader := "[MATRIZ_DE_CONHECIMENTO]\n"
  const HistoryHeader := "\n\n[HISTÓRICO]\n"
  const QuestionTag := "\n\n[PERGUNTA_ATUAL]"

  /** One history line: the role upper-cased, a colon, the content; a
      missing key reads as the empty text. */
  function HistoryLine(t: Turn): (r: string)
    ensures |r| == |t.role.GetOr("")| + 2 + |t.content.GetOr("")|
  {
    Upper(t.role.GetOr("")) + ": " + t.content.GetOr("")
  }

  /** The lines of a history, one per entry, in order. */
  function HistoryLines(history: seq<Turn>): (r: seq<string>)
    ensures |r| == |history|
    ensures forall i :: 0 <= i < |history| ==> r[i] == HistoryLine(history[i])
  {
    seq(|history|, i requires 0 <= i < |history| => HistoryLine(history[i]))
  }

  /** `history_txt`: the lines joined by newlines. */
  function HistoryText(history: seq<Turn>): string {
    Join(HistoryLines(history), "\n")
  }

  /** The history block lists the entries in their order: no entry gives the
      empty text, one entry its line, and a later entry comes after a newline
      that follows everything before it. */
  lemma HistoryOrder(history: seq<Turn>, t: Turn)
    ensures HistoryText([]) == ""
    ensures HistoryText([t]) == HistoryLine(t)
    ensures history != [] ==> HistoryText(history + [t]) == HistoryText(history) + "\n" + HistoryLine(t)
  {
    assert HistoryLines([t]) == [HistoryLine(t)];
    if history != [] {
      assert HistoryLines(history + [t]) == HistoryLines(history) + [HistoryLine(t)];
      JoinSnoc(HistoryLines(history), HistoryLine(t), "\n");
    }
  }

  /** The history block begins with the first entry's line. */
  lemma HistoryStartsWithFirst(history: seq<Turn>)
    requires history != []
    ensures HistoryLine(history[0]) <= HistoryText(history)
  {
    JoinStartsWithFirst(HistoryLines(history), "\n");
  }

  /** The matrix and history sections, up to the question's tag. */
  function PayloadSections(agent: AgentView, history: seq<Turn>): string {
    MatrixHeader + agent.matrix.GetOr("") + HistoryHeader + HistoryText(history) + QuestionTag
  }

  /** Everything of the payload before the question. */
  function PayloadHead(agent: AgentView, history: seq<Turn>): string {
    PayloadSections(agent, history) + "\n"
  }

  /** `build_user_payload`. */
  function BuildUserPayload(agent: AgentView, history: seq<Turn>, prompt: string): string {
    Strip("\n" + PayloadHead(agent, history) + prompt + "\n")
  }

  /** The payload holds the matrix, then the history, then the question:
      `.strip()` removes only the opening newline and the whitespace after
      the question. */
  lemma PayloadLayout(agent: AgentView, history: seq<Turn>, prompt: string)
    requires !Blank(prompt)
    ensures BuildUserPayload(agent, history, prompt) == PayloadHead(agent, history) + TrimRight(prompt)
  {
    var head := PayloadHead(agent, history);
    assert head[0] == PayloadSections(agent, history)[0] == '[';
    StripOpenFramed(head, prompt);
  }

  /** With a blank question the payload ends at the question's tag. */
  lemma PayloadWithoutQuestion(agent: AgentView, history: seq<Turn>, prompt: string)
    requires Blank(prompt)
    ensures BuildUserPayload(agent, history, prompt) == PayloadSections(agent, history)
  {
    var head := PayloadHead(agent, history);
    var sections := PayloadSections(agent, history);
    assert head[0] == sections[0] == '[';
    StripOpenFramedBlank(head, prompt);
    assert sections[|sections| - 1] == ']';
    TrimRightNewline(sections);
  }

  // ----------------------------------------------------------------- answer

  /** 0.2 for a corporate agent, 0.4 for any other. */
  function ChooseTemperature(agent: AgentView): (t: Temperature)
    ensures t == PointTwo <==> agent.agentType == Some("Corporativo")
    ensures t == PointFour <==> agent.agentType != Some("Corporativo")
  {
    if agent.agentType == Some("Corporativo") then PointTwo else PointFour
  }

  /** A stored agent is answered at 0.2 exactly when it is corporate. */
  lemma StoredTemperature(a: Store.Agent)
    ensures ChooseTemperature(ViewOf(a)) == PointTwo <==> a.agentType == Store.Corporativo
  {
    if a.agentType != Store.Corporativo {
      assert "Pessoal" != "Corporativo";
    }
  }

  /** The history the payload frames: its last `maxHistoryMsgs` entries. */
  function RecentHistory(settings: Settings, history: seq<Turn>): (r: seq<Turn>)
    ensures |r| <= |history| && r == history[|history| - |r|..]
    ensures GetBudgets(settings).maxHistoryMsgs > 0 ==>
      |r| == if GetBudgets(settings).maxHistoryMsgs <= |history| then GetBudgets(settings).maxHistoryMsgs else |history|
  {
    PyTail(history, GetBudgets(settings).maxHistoryMsgs)
  }

  /** The one request `answer` sends. */
  function AnswerRequest(settings: Settings, agent: AgentView, history: seq<Turn>, prompt: string, profile: string): Request {
    SystemUserRequest(
      settings.chatModel,
      BuildSystem(agent, profile),
      BuildUserPayload(agent, RecentHistory(settings, history), EnforceMaxChars(Some(prompt), PromptLimit)),
      ChooseTemperature(agent),
      AnswerTokens)
  }

  /** `answer`: exactly one completion call, whose reply or error is the
      outcome. */
  function Answer(service: Service, settings: Settings, agent: AgentView, history: seq<Turn>, prompt: string, profile: string): (log: CallLog)
    ensures log.calls == [AnswerRequest(settings, agent, history, prompt, profile)]
    ensures log.outcome.Ok? <==> service(AnswerRequest(settings, agent, history, prompt, profile)).Ok?
    ensures log.outcome.Ok? ==> log.outcome.value == [service(AnswerRequest(settings, agent, history, prompt, profile)).value]
    ensures log.outcome.Err? ==> log.outcome.error == service(AnswerRequest(settings, agent, history, prompt, profile)).error
  {
    CallOnce(service, AnswerRequest(settings, agent, history, prompt, profile))
  }

  /** The request carries the configured chat model, the 1800-token cap, the
      system prompt first and the user payload second, and the temperature
      chosen by the agent's type. */
  lemma AnswerRequestShape(settings: Settings, agent: AgentView, history: seq<Turn>, prompt: string, profile: string)
    ensures AnswerRequest(settings, agent, history, prompt, profile).model == settings.chatModel
    ensures AnswerRequest(settings, agent, history, prompt, profile).maxTokens == 1800
    ensures |AnswerRequest(settings, agent, history, prompt, profile).messages| == 2
    ensures AnswerRequest(settings, agent, history, prompt, profile).messages[0].role == System
    ensures AnswerRequest(settings, agent, history, prompt, profile).messages[1].role == User
    ensures AnswerRequest(settings, agent, history, prompt, profile).messages[0].content
      == Greeting + Rendered(agent.name) + SpecialtyLabel + Rendered(agent.specialty) + ProfileLabel + profile + Rules()
    ensures AnswerRequest(settings, agent, history, prompt, profile).temperature == PointTwo
      <==> agent.agentType == Some("Corporativo")
  {
    SystemLayout(agent, profile);
  }

  /** The question in the payload is the prompt stripped and cut to 8000
      characters, placed after the matrix and the recent history; a blank
      prompt leaves the question section empty. */
  lemma AnswerQuestion(settings: Settings, agent: AgentView, history: seq<Turn>, prompt: string, profile: string)
    ensures !Blank(prompt) ==>
      AnswerRequest(settings, agent, history, prompt, profile).messages[1].content
        == PayloadHead(agent, RecentHistory(settings, history)) + TrimRight(EnforceMaxChars(Some(prompt), PromptLimit))
    ensures !Blank(prompt) ==>
      |AnswerRequest(settings, agent, history, prompt, profile).messages[1].content|
        <= |PayloadHead(agent, RecentHistory(settings, history))| + PromptLimit
    ensures Blank(prompt) ==>
      AnswerRequest(settings, agent, history, prompt, profile).messages[1].content
        == PayloadSections(agent, RecentHistory(settings, history))
  {
    var q := EnforceMaxChars(Some(prompt), PromptLimit);
    EnforceNonBlank(prompt, PromptLimit);
    if Blank(prompt) {
      PayloadWithoutQuestion(agent, RecentHistory(settings, history), q);
    } else {
      PayloadLayout(agent, RecentHistory(settings, history), q);
    }
  }
}
