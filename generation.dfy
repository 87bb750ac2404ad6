/**
 * The generation client: get_gemini_response (app.py:14-30) and the three generate_* functions
 * that wrap it (app.py:32-91). The hosted model itself is outside the model; what it answers is
 * the function `reply`, given the position of the request and its prompt.
 */
module Generation {
  import opened Wrappers
  import opened Prompts

  class Service {
    /** What the n-th request, carrying the given prompt, gets back: the text, or None when the call raised. */
    const reply: (nat, string) -> Option<string>
    /** The prompts sent so far, oldest first. */
    var sent: seq<string>

    constructor (reply: (nat, string) -> Option<string>)
      ensures this.reply == reply && sent == []
    {
      this.reply := reply;
      sent := [];
    }

    /**
     * get_gemini_response: each prompt goes out in a chat of its own, with no history; an exception
     * is caught and turned into None.
     */
    method Generate(prompt: string) returns (r: Option<string>)
      modifies this
      ensures sent == old(sent) + [prompt]
      ensures r == reply(|old(sent)|, prompt)
    {
      r := reply(|sent|, prompt);
      sent := sent + [prompt];
    }

    /** generate_sales_battlecard: one request carrying the sales prompt. */
    method GenerateSales(name1: string, url1: string, name2: string, url2: string) returns (r: Option<string>)
      modifies this
      ensures sent == old(sent) + [SalesPrompt(name1, url1, name2, url2)]
      ensures r == reply(|old(sent)|, SalesPrompt(name1, url1, name2, url2))
    {
      r := Generate(SalesPrompt(name1, url1, name2, url2));
    }

    /** generate_marketing_battlecard: one request carrying the marketing prompt. */
    method GenerateMarketing(name1: string, url1: string, name2: string, url2: string) returns (r: Option<string>)
      modifies this
      ensures sent == old(sent) + [MarketingPrompt(name1, url1, name2, url2)]
      ensures r == reply(|old(sent)|, MarketingPrompt(name1, url1, name2, url2))
    {
      r := Generate(MarketingPrompt(name1, url1, name2, url2));
    }

    /** generate_swot_analysis: one request carrying the SWOT prompt. */
    method GenerateSwot(name: string) returns (r: Option<string>)
      modifies this
      ensures sent == old(sent) + [SwotPrompt(name)]
      ensures r == reply(|old(sent)|, SwotPrompt(name))
    {
      r := Generate(SwotPrompt(name));
    }
  }
}
