/**
 * The fixed prompts of the assistant and the shape of the messages sent to
 * the chat model. The model itself is an opaque function.
 */
module Prompts {
  import opened Wrappers
  import opened Actions

  /** One chat message: the system instruction, a user turn or a model turn. */
  datatype Message = System(content: string) | Human(content: string) | Ai(content: string)

  /** The chat model: the reply text, or `None` when the remote call raises. */
  type ChatModel = seq<Message> -> Option<string>

  /** One entry of `prompts_list`: the entity's label and the instruction asking for it. */
  datatype EntityPrompt = EntityPrompt(entity: string, prompt: string)

  const PromptsList: seq<EntityPrompt> := [
    EntityPrompt("Agreement Type", "Extract the type of this agreement."),
    EntityPrompt("Parties Involved", "Extract the Parties or Companies involved in this intellectual property agreement. Answer in the most simplest form."),
    EntityPrompt("Effective Date", "Extract the Effective date of this intellectual property agreement. Answer in the most simplest form."),
    EntityPrompt("Governing Law", "Extract the governing law stated in this intellectual property agreement. Answer in the most simplest form."),
    EntityPrompt("Dispute Resolution", "Extract the dispute resolution stated in this intellectual property agreement."),
    EntityPrompt("Effect of Termination", "Extract the Effect of termination stated in this intellectual property agreement."),
    EntityPrompt("Parties Address", "Extract the address of the parties involved in the intellectual property agreement.")
  ]

  const SystemInstruction: string := "You are a legal assistant."

  const ResponsibilityPrompt: string := "Go through the agreement and identify the responsibilities of each party involved in the agreement."
  const RightsPrompt: string := "Go through the agreement and identify the rights of each party involved in the agreement."
  const LicenceTypePrompt: string := "Go through the agreement and identify what type of license each party is having."
  const RiskPrompt: string := "Go through the agreement and identify all financial, reputational and operational risks involved."
  const CompliancePrompt: string := "Go through the agreement and identify all the compliance involved."

  /** The obligations template splits at its one `{text}` field; the doubled braces are already undoubled here. */
  const ObligationsHead: string := "\nInput text: "
  const ObligationsTail: string :=
    "\nFrom the given input text extract all the possible obligations and return those obligations, section title, type of obligation like whether it is a task or non-task, and its frequency like one-time or recurring in the form of a list like:\n[\n    {\"section\":\"section title\", \"obligations\":[{\"obligation\":\"extracted obligation\", \"type\":\"type of task\", \"frequency\":\"frequency of task\"}]}\n]\nReturn this format only. If no obligations, return \"[]\"\n"


  /** The free-text actions and their templates (`prompt_map`). */
  const PromptMap: map<string, string> := map[
    ResponsibilitiesAction := ResponsibilityPrompt,
    RightsAction := RightsPrompt,
    LicenseTypeAction := LicenceTypePrompt,
    RisksAction := RiskPrompt,
    ComplianceAction := CompliancePrompt
  ]

  /**
   * The prompt texts the dispatcher works from: the entity list, the
   * obligations template split at its `{text}` field, and the free-text
   * templates by action.
   */
  datatype Templates = Templates(
    entities: seq<EntityPrompt>,
    obligationsHead: string,
    obligationsTail: string,
    freeText: map<string, string>)

  /** The prompt texts the script runs with. */
  function Catalogue(): Templates {
    Templates(PromptsList, ObligationsHead, ObligationsTail, PromptMap)
  }

  /** `prompt_map` is keyed by exactly the five free-text actions. */
  lemma PromptMapKeys()
    ensures PromptMap.Keys == FreeTextActions
  {
  }

  /**
   * The script's own free-text templates are keyed by exactly the five
   * free-text actions, which is what `Dispatcher.SavedKeyIsNotChat` and
   * `Dispatcher.NoChatEntryPreserved` require of their templates.
   */
  lemma CatalogueKeys()
    ensures Catalogue().freeText.Keys == FreeTextActions
  {
    PromptMapKeys();
  }

  /** `obligations_prompt.format(text=text)`. */
  function ObligationsPrompt(t: Templates, text: string): string {
    t.obligationsHead + text + t.obligationsTail
  }

  /** The two messages sent for one entity. */
  function EntityMessages(item: EntityPrompt, text: string): seq<Message> {
    [System(SystemInstruction), Human(item.prompt + "\n\nText:\n" + text)]
  }

  /** The two messages sent for obligation extraction. */
  function ObligationMessages(t: Templates, text: string): seq<Message> {
    [System(SystemInstruction), Human(ObligationsPrompt(t, text))]
  }

  /** The two messages sent for a free-text action with template `template`. */
  function FreeTextMessages(template: string, text: string): seq<Message> {
    [System(SystemInstruction), Human(template + "\n" + text)]
  }
}
