/** `OllamaLLMService.summarize`: the summary prompt and the normalisation of
    the backend's reply. The facts arrive already serialised to JSON text. */
module Llm {
  import opened Common
  import opened Text
  import opened Net

  const SummaryInstruction: string :=
    "Consider ONLY the JSON facts and write a concise, fluent summary in English. "
    + "Use 1\U{2013}2 short paragraphs and bullet tips if relevant. No JSON in the output."

  const FactsLabel: string := "FACTS = "

  /** The text that follows the system prompt and precedes the facts. */
  const SummaryMiddle: string := "\n\n" + SummaryInstruction + "\n\n" + FactsLabel

  /** The prompt: system prompt, blank line, instruction, blank line, then
      "FACTS = " and the facts. */
  function SummaryPrompt(system: string, facts: string): (p: string)
    ensures |p| == |system| + |SummaryMiddle| + |facts|
    ensures p[..|system|] == system
    ensures p[|system|..|system| + |SummaryMiddle|] == SummaryMiddle
    ensures p[|system| + |SummaryMiddle|..] == facts
  {
    system + SummaryMiddle + facts
  }

  /** The prompt determines the facts once the system prompt is known, and
      the system prompt once the facts are known. */
  lemma SummaryPromptInjective(s1: string, f1: string, s2: string, f2: string)
    requires SummaryPrompt(s1, f1) == SummaryPrompt(s2, f2)
    ensures s1 == s2 <==> f1 == f2
  {
    var p := SummaryPrompt(s1, f1);
    if s1 == s2 {
      assert f1 == p[|s1| + |SummaryMiddle|..];
    }
    if f1 == f2 {
      assert |s1| == |s2|;
      assert s1 == p[..|s1|];
    }
  }

  /** `(r.json() or {}).get("response", "").strip() or "No summary."` */
  function ReplyText(reply: GenerateReply): (text: string)
    ensures text != ""
    ensures Trimmed(text)
    ensures Strip(reply.response.GetOr("")) != "" ==> text == Strip(reply.response.GetOr(""))
    ensures Strip(reply.response.GetOr("")) == "" ==> text == "No summary."
  {
    var t := Strip(reply.response.GetOr(""));
    if t == "" then "No summary." else t
  }

  /** `summarize(system_prompt, facts)`: one request, then the reply text. */
  function Summarize(svc: LlmService, w: World, system: string, facts: string): (t: Traced<string>)
    ensures t.calls == [OllamaPost(svc.baseUrl, svc.model, SummaryPrompt(system, facts))]
    ensures t.value != ""
  {
    var prompt := SummaryPrompt(system, facts);
    Traced(ReplyText(w.ollama(svc.baseUrl, svc.model, prompt)), [OllamaPost(svc.baseUrl, svc.model, prompt)])
  }
}
