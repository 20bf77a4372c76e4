/** Part II of the report, Key Financial Figures
    (agents/report_part2_agent.py): six figures, each asked of the model
    with the structured rows of the company and the text the search finds
    for the figure's query, units included. */
module ReportPart2 {
  import opened Wrappers
  import opened Text
  import opened OrderedDict
  import opened StructuredData
  import opened Services
  import opened FieldLoop

  const Backstory := "You are a financial analyst tasked with extracting key financial figures."

  /** The part's fields, in the order of its dictionary. */
  const FieldNames := ["Revenue", "Net Income", "Cash", "Debt", "Equity", "Operating Cash Flow"]

  /** The query of the field at position `k` of the table, with the
      company's name where the f-string puts it. */
  function Query(k: nat, company: string): string
  {
    if k == 0 then "Retrieve the most recent total revenue of " + company + " as stated in the report."  // Revenue
    else if k == 1 then "Retrieve the most recent net income or net loss of " + company + " as stated in the report."  // Net Income
    else if k == 2 then "Retrieve the amount of available cash and cash equivalents for " + company + "."  // Cash
    else if k == 3 then "Retrieve the total amount of debt for " + company + "."  // Debt
    else if k == 4 then "Retrieve the total equity amount for " + company + "."  // Equity
    else "Retrieve the cash flow from operating activities for " + company + "."  // Operating Cash Flow
  }

  /** The subtasks, in dictionary order: each field with its query. */
  function Tasks(company: string): seq<Task>
  {
    seq(|FieldNames|, k requires 0 <= k < |FieldNames| => Task(FieldNames[k], Query(k, company)))
  }

  /** The table holds the fields above, in order. */
  lemma TasksFields(company: string)
    ensures Fields(Tasks(company)) == FieldNames
  {
  }

  /** No field name repeats in a table with those fields. */
  lemma NamesDistinct(tasks: seq<Task>)
    requires Fields(tasks) == FieldNames
    ensures DistinctFields(tasks)
  {
  }

  const PartTemplate := Template(
    Backstory, "Goal: Extract the ", " of ", true,
    "Please provide the ", false, " based on the data above, including the units (e.g., USD).\n",
    "If not available, respond with 'Not Available'.")

  /** The prompt for one field, written out line by line. */
  function PromptText(field: string, company: string, structuredJson: string, unstructuredData: string): string
  {
    (Backstory + "\n\n")
    + ("Goal: Extract the " + field + " of " + company + ".\n\n")
    + ("Structured Data:\n" + structuredJson + "\n\n")
    + ("Unstructured Data:\n" + unstructuredData + "\n\n")
    + ("Please provide the " + field + " based on the data above, including the units (e.g., USD).\n")
    + "If not available, respond with 'Not Available'."
  }

  /** The part's template gives that text. */
  lemma PromptLayout(field: string, company: string, structuredJson: string, unstructuredData: string)
    ensures Prompt(PartTemplate, field, company, structuredJson, unstructuredData) == PromptText(field, company, structuredJson, unstructuredData)
  {
  }

  /** A successful Part II holds its six figures, in this order. */
  lemma PartKeys(env: Env)
    requires Run(env, PartTemplate, Tasks(env.company)).outcome.Success?
    ensures Keys(Run(env, PartTemplate, Tasks(env.company)).outcome.value)
            == FieldNames
  {
    var tasks := Tasks(env.company);
    TasksFields(env.company);
    NamesDistinct(tasks);
    RunKeys(env, PartTemplate, tasks);
  }

  /** Every prompt a run of Part II sends, over any table, is the text above for its field, holding
      the company's rows and the joined chunks found for the field's
      query. */
  lemma PartPrompts(env: Env, tasks: seq<Task>)
    ensures var prompts := Run(env, PartTemplate, tasks).trace.prompts;
            forall k :: 0 <= k < |prompts| ==>
              k < |tasks| && env.search(tasks[k].query).Success?
              && prompts[k] == PromptText(tasks[k].field, env.company, env.structuredJson,
                                          Join(" ", env.search(tasks[k].query).value))
  {
    RunTrace(env, PartTemplate, tasks);
    var prompts := Run(env, PartTemplate, tasks).trace.prompts;
    forall k | 0 <= k < |prompts|
      ensures PromptText(tasks[k].field, env.company, env.structuredJson, Join(" ", env.search(tasks[k].query).value)) == prompts[k]
    {
      PromptLayout(tasks[k].field, env.company, env.structuredJson, Join(" ", env.search(tasks[k].query).value));
    }
  }

  /** `ReportPart2Agent`: the model, both data agents and the company name.
      `recordsJson` stands for pandas' `to_json(orient='records')`. */
  class ReportPart2Agent {
    const llm: GroqLlm
    const structuredAgent: StructuredDataAgent
    const unstructuredAgent: UnstructuredDataAgent
    const companyName: string
    /** The subtask table; it depends on the company name only. */
    const subtasks: seq<Task>
    const recordsJson: seq<Row> -> string

    constructor (llm: GroqLlm, structuredAgent: StructuredDataAgent,
                 unstructuredAgent: UnstructuredDataAgent, companyName: string,
                 recordsJson: seq<Row> -> string)
      ensures this.llm == llm && this.structuredAgent == structuredAgent
      ensures this.unstructuredAgent == unstructuredAgent && this.companyName == companyName
      ensures subtasks == Tasks(companyName)
      ensures this.recordsJson == recordsJson
    {
      this.llm := llm;
      this.structuredAgent := structuredAgent;
      this.unstructuredAgent := unstructuredAgent;
      this.companyName := companyName;
      this.subtasks := Tasks(companyName);
      this.recordsJson := recordsJson;
    }

    /** What the agent's calls depend on. */
    function Environment(): Env
    {
      EnvOf(companyName, llm, unstructuredAgent, structuredAgent, recordsJson)
    }

    /** `generate_response()`: one search, one structured lookup and one
        prompt per field, in table order; a search that raises ends the
        part with its error. */
    method GenerateResponse() returns (r: Result<Dict<string>>)
      modifies llm, structuredAgent, unstructuredAgent
      ensures var run := Run(Environment(), PartTemplate, subtasks);
              && r == run.outcome
              && llm.prompts == old(llm.prompts) + run.trace.prompts
              && unstructuredAgent.queries == old(unstructuredAgent.queries) + run.trace.queries
              && structuredAgent.queries == old(structuredAgent.queries) + run.trace.lookups
    {
      r := RunFields(subtasks, PartTemplate, companyName,
                     llm, unstructuredAgent, structuredAgent, recordsJson);
    }
  }
}
