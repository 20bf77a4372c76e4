/** The two remote services the report agents call: the Groq chat model
    (core/groq_llm.py) and the Chroma similarity search behind the
    unstructured-data agent (agents/unstructured_data_agent.py). Each is a
    fixed function of its input, and each object keeps a log of the inputs
    it was given, in order. */
module Services {
  import opened Wrappers

  /** `GROQLLM`: `llm(prompt)` returns the first choice's text, `""` when
      there is no choice, or `"Error: ..."` when the request fails, so any
      text at all may come back and no call raises. */
  class GroqLlm {
    const complete: string -> string
    ghost var prompts: seq<string>

    constructor (complete: string -> string)
      ensures this.complete == complete && prompts == []
    {
      this.complete := complete;
      prompts := [];
    }

    /** `llm(prompt)`: one request with the prompt as the user message. */
    method Call(prompt: string) returns (reply: string)
      modifies this
      ensures reply == complete(prompt)
      ensures prompts == old(prompts) + [prompt]
    {
      reply := complete(prompt);
      prompts := prompts + [prompt];
    }
  }

  /** `UnstructuredDataAgent`: the page contents of the chunks a similarity
      search returns, best first; the search may raise. */
  class UnstructuredDataAgent {
    const similaritySearch: string -> Result<seq<string>>
    ghost var queries: seq<string>

    constructor (similaritySearch: string -> Result<seq<string>>)
      ensures this.similaritySearch == similaritySearch && queries == []
    {
      this.similaritySearch := similaritySearch;
      queries := [];
    }

    /** `generate_response(query)`, which is `retrieve_relevant_chunks(query)`. */
    method GenerateResponse(query: string) returns (chunks: Result<seq<string>>)
      modifies this
      ensures chunks == similaritySearch(query)
      ensures queries == old(queries) + [query]
    {
      chunks := similaritySearch(query);
      queries := queries + [query];
    }
  }
}
