/** `BaseGeoCopilotEngine`: the rule list an engine owns, the prompt it builds
    from those rules and the serialised facts, and the single generation call. */
module AbstractEngine {
  import opened Common
  import opened Text
  import opened Net

  /** An engine's shared part: its LLM service and its own copy of the rules.
      Values are immutable, so the copy `list(prompt_rules)` makes is implicit:
      nothing the caller does later can change `rules`. */
  datatype BaseEngine = BaseEngine(llm: LlmService, rules: seq<string>)

  const RulesHeader: string := "Follow ALL these rules:\n"
  const FactsHeader: string := "\n\nFACTS (machine-provided, authoritative):\n"
  const Closing: string := "\n\nWrite the final answer now."

  /** `[f"- {r}" for r in rules]` */
  function Bulleted(rules: seq<string>): (lines: seq<string>)
    ensures |lines| == |rules|
    ensures forall i :: 0 <= i < |rules| ==> lines[i] == "- " + rules[i]
  {
    if rules == [] then [] else ["- " + rules[0]] + Bulleted(rules[1..])
  }

  /** The rules block: every rule, unchanged, behind "- ", one per line. */
  function RulesBlock(rules: seq<string>): string {
    Join(Bulleted(rules), "\n")
  }

  /** `build_prompt(facts)`, with the facts already serialised. */
  function BuildPrompt(rules: seq<string>, facts: string): (p: string)
    ensures |p| == |RulesHeader| + |RulesBlock(rules)| + |FactsHeader| + |facts| + |Closing|
  {
    RulesHeader + RulesBlock(rules) + FactsHeader + facts + Closing
  }

  /** Where each part of the prompt sits: the rules header and block open
      it, the facts header and facts follow, and the closing instruction
      ends it. */
  lemma BuildPromptLayout(rules: seq<string>, facts: string)
    ensures var p := BuildPrompt(rules, facts);
            && p[..|RulesHeader|] == RulesHeader
            && p[|RulesHeader|..|RulesHeader| + |RulesBlock(rules)|] == RulesBlock(rules)
            && p[|p| - |Closing| - |facts|..|p| - |Closing|] == facts
            && p[|p| - |Closing| - |facts| - |FactsHeader|..|p| - |Closing| - |facts|] == FactsHeader
            && p[|p| - |Closing|..] == Closing
            && RulesHeader + RulesBlock(rules) <= p
  {
    var p := BuildPrompt(rules, facts);
    assert p[..|RulesHeader| + |RulesBlock(rules)|] == RulesHeader + RulesBlock(rules);
  }

  /** Reading a rules block back: split at newlines and drop the bullets. */
  function ParseRulesBlock(block: string): seq<string> {
    if block == "" then [] else Unbullet(Split(block, '\n'))
  }

  function Unbullet(lines: seq<string>): (rules: seq<string>)
    ensures |rules| == |lines|
  {
    if lines == [] then []
    else
      var l := lines[0];
      [if |l| >= 2 && l[..2] == "- " then l[2..] else l] + Unbullet(lines[1..])
  }

  lemma {:induction false} UnbulletBulleted(rules: seq<string>)
    ensures Unbullet(Bulleted(rules)) == rules
  {
    if rules != [] {
      UnbulletBulleted(rules[1..]);
      assert Bulleted(rules)[1..] == Bulleted(rules[1..]);
      assert ("- " + rules[0])[2..] == rules[0];
    }
  }

  /** The block loses nothing: when no rule spans several lines, the rules
      are read back from it exactly and in order. */
  lemma RulesBlockRoundTrip(rules: seq<string>)
    requires forall i :: 0 <= i < |rules| ==> '\n' !in rules[i]
    ensures ParseRulesBlock(RulesBlock(rules)) == rules
  {
    var lines := Bulleted(rules);
    if rules != [] {
      forall i | 0 <= i < |lines| ensures '\n' !in lines[i] {
        assert lines[i] == "- " + rules[i];
      }
      SplitJoin(lines, '\n');
      assert RulesBlock(rules)[..2] == "- " by {
        if |lines| > 1 { assert RulesBlock(rules) == lines[0] + "\n" + Join(lines[1..], "\n"); }
      }
      UnbulletBulleted(rules);
    }
  }

  lemma {:induction false} BulletedAppend(a: seq<string>, b: seq<string>)
    ensures Bulleted(a + b) == Bulleted(a) + Bulleted(b)
  {
    if a == [] {
      assert a + b == b;
    } else {
      assert (a + b)[1..] == a[1..] + b;
      BulletedAppend(a[1..], b);
    }
  }

  /** Layered rules render as the first block, a newline, then the second:
      every earlier rule precedes every later one in the prompt. */
  lemma RulesBlockAppend(first: seq<string>, second: seq<string>)
    requires first != [] && second != []
    ensures RulesBlock(first + second) == RulesBlock(first) + "\n" + RulesBlock(second)
  {
    BulletedAppend(first, second);
    JoinAppend(Bulleted(first), Bulleted(second), "\n");
  }

  /** With no rules the block is empty and both headers are still there. */
  lemma EmptyRulesPrompt(facts: string)
    ensures RulesBlock([]) == ""
    ensures BuildPrompt([], facts) == RulesHeader + FactsHeader + facts + Closing
  {
    assert RulesBlock([]) == "";
  }

  /** Different facts never give the same prompt. */
  lemma BuildPromptInjective(rules: seq<string>, f1: string, f2: string)
    requires BuildPrompt(rules, f1) == BuildPrompt(rules, f2)
    ensures f1 == f2
  {
    var p := BuildPrompt(rules, f1);
    var k := |RulesHeader| + |RulesBlock(rules)| + |FactsHeader|;
    assert f1 == p[k..k + |f1|];
  }

  /** `_generate(facts)`: exactly the built prompt goes to the LLM, whose
      answer is returned untouched. */
  function Generate(e: BaseEngine, w: World, facts: string): (t: Traced<string>)
    ensures t.calls == [Call.Generate(e.llm, BuildPrompt(e.rules, facts))]
    ensures t.value == w.generate(e.llm, BuildPrompt(e.rules, facts))
  {
    var prompt := BuildPrompt(e.rules, facts);
    Traced(w.generate(e.llm, prompt), [Call.Generate(e.llm, prompt)])
  }
}
