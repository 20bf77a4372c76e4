/** Part V of the report, Risks and Challenges
    (agents/report_part5_agent.py): four sections, each written by the
    model from the text the search finds for the section's query; the
    structured agent is held but not called. */
module ReportPart5 {
  import opened Wrappers
  import opened Text
  import opened OrderedDict
  import opened StructuredData
  import opened Services
  import opened FieldLoop

  const Backstory := "You are a financial analyst tasked with identifying the risks and challenges faced by the company."

  /** The part's fields, in the order of its dictionary. */
  const FieldNames := ["Regulatory Risks", "Market Risks", "Operational Challenges", "Financial Risks"]

  /** The query of the field at position `k` of the table, with the
      company's name where the f-string puts it. */
  function Query(k: nat, company: string): string
  {
    if k == 0 then "Identify any regulatory risks that " + company + " is facing."  // Regulatory Risks
    else if k == 1 then "Describe the market risks affecting " + company + "."  // Market Risks
    else if k == 2 then "Outline operational challenges mentioned in the report."  // Operational Challenges
    else "Highlight any financial risks disclosed by " + company + "."  // Financial Risks
  }

  /** The subtasks, in dictionary order: each field with its query. */
  function Tasks(company: string): seq<Task>
  {
    seq(|FieldNames|, k requires 0 <= k < |FieldNames| => Task(FieldNames[k], Query(k, company)))
  }

  /** The table holds the fields above, in order. */
  lemma TasksFields(company: string)
    ensures Fields(Tasks(company)) == FieldNames
  {
  }

  /** No field name repeats in a table with those fields. */
  lemma NamesDistinct(tasks: seq<Task>)
    requires Fields(tasks) == FieldNames
    ensures DistinctFields(tasks)
  {
  }

  const PartTemplate := Template(
    Backstory, "Goal: Provide insights on ", " for ", false,
    "Please write a detailed analysis of ", true, " based on the data above.\n",
    "If information is not available, indicate 'Not Available'.")

  /** The prompt for one field, written out line by line. */
  function PromptText(field: string, company: string, unstructuredData: string): string
  {
    (Backstory + "\n\n")
    + ("Goal: Provide insights on " + field + " for " + company + ".\n\n")
    + ("Unstructured Data:\n" + unstructuredData + "\n\n")
    + ("Please write a detailed analysis of " + Lower(field) + " based on the data above.\n")
    + "If information is not available, indicate 'Not Available'."
  }

  /** The part's template gives that text; it has no structured section. */
  lemma PromptLayout(field: string, company: string, structuredJson: string, unstructuredData: string)
    ensures Prompt(PartTemplate, field, company, structuredJson, unstructuredData) == PromptText(field, company, unstructuredData)
  {
  }

  /** A successful Part V holds its four sections, in this order. */
  lemma PartKeys(env: Env)
    requires Run(env, PartTemplate, Tasks(env.company)).outcome.Success?
    ensures Keys(Run(env, PartTemplate, Tasks(env.company)).outcome.value)
            == FieldNames
  {
    var tasks := Tasks(env.company);
    TasksFields(env.company);
    NamesDistinct(tasks);
    RunKeys(env, PartTemplate, tasks);
  }

  /** Every prompt a run of Part V sends, over any table, is the text above for its field, holding
      the joined chunks found for the field's query; no structured lookup
      is made. */
  lemma PartPrompts(env: Env, tasks: seq<Task>)
    ensures Run(env, PartTemplate, tasks).trace.lookups == []
    ensures var prompts := Run(env, PartTemplate, tasks).trace.prompts;
            forall k :: 0 <= k < |prompts| ==>
              k < |tasks| && env.search(tasks[k].query).Success?
              && prompts[k] == PromptText(tasks[k].field, env.company, Join(" ", env.search(tasks[k].query).value))
  {
    RunTrace(env, PartTemplate, tasks);
    var prompts := Run(env, PartTemplate, tasks).trace.prompts;
    forall k | 0 <= k < |prompts|
      ensures PromptText(tasks[k].field, env.company, Join(" ", env.search(tasks[k].query).value)) == prompts[k]
    {
      PromptLayout(tasks[k].field, env.company, env.structuredJson, Join(" ", env.search(tasks[k].query).value));
    }
  }

  /** `ReportPart5Agent`: the model, both data agents and the company name;
      the structured agent is kept but this part never calls it. */
  class ReportPart5Agent {
    const llm: GroqLlm
    const structuredAgent: StructuredDataAgent
    const unstructuredAgent: UnstructuredDataAgent
    const companyName: string
    /** The subtask table; it depends on the company name only. */
    const subtasks: seq<Task>

    constructor (llm: GroqLlm, structuredAgent: StructuredDataAgent,
                 unstructuredAgent: UnstructuredDataAgent, companyName: string)
      ensures this.llm == llm && this.structuredAgent == structuredAgent
      ensures this.unstructuredAgent == unstructuredAgent && this.companyName == companyName
      ensures subtasks == Tasks(companyName)
    {
      this.llm := llm;
      this.structuredAgent := structuredAgent;
      this.unstructuredAgent := unstructuredAgent;
      this.companyName := companyName;
      this.subtasks := Tasks(companyName);
    }

    /** What the agent's calls depend on. */
    function Environment(): Env
    {
      EnvOf(companyName, llm, unstructuredAgent, null, _ => "")
    }

    /** `generate_response()`: one search and one prompt per field,
        in table order; a search that raises ends the part with its error. */
    method GenerateResponse() returns (r: Result<Dict<string>>)
      modifies llm, unstructuredAgent
      ensures var run := Run(Environment(), PartTemplate, subtasks);
              && r == run.outcome
              && llm.prompts == old(llm.prompts) + run.trace.prompts
              && unstructuredAgent.queries == old(unstructuredAgent.queries) + run.trace.queries
    {
      r := RunFields(subtasks, PartTemplate, companyName,
                     llm, unstructuredAgent, null, _ => "");
    }
  }
}
