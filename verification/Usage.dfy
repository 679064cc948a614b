/** Token counts reported by the model servers (tokencount/extractor.go, openaiapi/util.go). */
module Usage {
  import opened Text

  datatype Tokens = Tokens(prompt: int, completion: int, total: int, input: int, output: int)

  const ZERO := Tokens(0, 0, 0, 0, 0)

  /** Copies the Responses API counters into the Chat Completions ones where those are zero. */
  function Normalize(u: Tokens): Tokens {
    var p := if u.prompt == 0 && u.input > 0 then u.input else u.prompt;
    var c := if u.completion == 0 && u.output > 0 then u.output else u.completion;
    u.(prompt := p, completion := c)
  }

  /** The total a hop contributes: its own, or prompt plus completion when it reports none. */
  function EffectiveTotal(u: Tokens): int {
    var n := Normalize(u);
    if n.total > 0 then n.total else n.prompt + n.completion
  }

  // What a raw report stands for, counter by counter.

  /** The prompt of a report in either form: its own counter, or the input of the Responses API where it is zero. */
  function PromptOf(u: Tokens): int {
    if u.prompt != 0 then u.prompt else if u.input > 0 then u.input else 0
  }

  function CompletionOf(u: Tokens): int {
    if u.completion != 0 then u.completion else if u.output > 0 then u.output else 0
  }

  function TotalOf(u: Tokens): int {
    if u.total > 0 then u.total else PromptOf(u) + CompletionOf(u)
  }

  lemma NormalizedExactly(u: Tokens)
    ensures Normalize(u) == Tokens(PromptOf(u), CompletionOf(u), u.total, u.input, u.output)
    ensures EffectiveTotal(u) == TotalOf(u)
  {
  }

  function Sum(f: Tokens -> int, usages: seq<Option<Tokens>>): int {
    if usages == [] then 0
    else
      Sum(f, usages[..|usages| - 1])
      + (if usages[|usages| - 1].Some? then f(usages[|usages| - 1].value) else 0)
  }

  lemma {:induction false} SumAppend(f: Tokens -> int, a: seq<Option<Tokens>>, b: seq<Option<Tokens>>)
    ensures Sum(f, a + b) == Sum(f, a) + Sum(f, b)
  {
    if b == [] {
      assert a + b == a;
    } else {
      SumAppend(f, a, b[..|b| - 1]);
      assert (a + b)[..|a + b| - 1] == a + b[..|b| - 1];
    }
  }

  /** The counters of a list of raw reports, each summed up on its own. */
  function Sums(usages: seq<Option<Tokens>>): Tokens {
    Tokens(Sum(PromptOf, usages), Sum(CompletionOf, usages), Sum(TotalOf, usages),
           Sum((u: Tokens) => u.input, usages), Sum((u: Tokens) => u.output, usages))
  }

  function Plus(a: Tokens, b: Tokens): Tokens {
    Tokens(a.prompt + b.prompt, a.completion + b.completion, a.total + b.total, a.input + b.input, a.output + b.output)
  }

  /** Accumulating is adding up the raw reports counter by counter. */
  lemma {:induction false} AccumulatingSums(acc: Tokens, usages: seq<Option<Tokens>>)
    ensures AccumulateAll(acc, usages) == Plus(acc, Sums(usages))
  {
    hide Normalize, EffectiveTotal, PromptOf, CompletionOf, TotalOf;
    if usages != [] {
      AccumulatingSums(acc, usages[..|usages| - 1]);
      var last := usages[|usages| - 1];
      if last.Some? {
        NormalizedExactly(last.value);
      }
    }
  }

  predicate NonNegative(u: Tokens) {
    u.prompt >= 0 && u.completion >= 0 && u.total >= 0 && u.input >= 0 && u.output >= 0
  }

  function Accumulate(acc: Tokens, usage: Option<Tokens>): Tokens {
    match usage
    case None => acc
    case Some(u) =>
      var n := Normalize(u);
      Tokens(acc.prompt + n.prompt, acc.completion + n.completion, acc.total + EffectiveTotal(u),
             acc.input + n.input, acc.output + n.output)
  }

  function AccumulateAll(acc: Tokens, usages: seq<Option<Tokens>>): Tokens {
    if usages == [] then acc
    else Accumulate(AccumulateAll(acc, usages[..|usages| - 1]), usages[|usages| - 1])
  }

  /** The running sum over the hops of one tool loop. */
  class UsageAccumulator {
    var promptTokens: int
    var completionTokens: int
    var totalTokens: int
    var inputTokens: int
    var outputTokens: int

    constructor ()
      ensures ToUsage() == ZERO
    {
      promptTokens, completionTokens, totalTokens, inputTokens, outputTokens := 0, 0, 0, 0, 0;
    }

    function ToUsage(): Tokens
      reads this
    {
      Tokens(promptTokens, completionTokens, totalTokens, inputTokens, outputTokens)
    }

    method Add(usage: Option<Tokens>)
      modifies this
      ensures ToUsage() == Accumulate(old(ToUsage()), usage)
    {
      if usage.None? {
        return;
      }
      var n := Normalize(usage.value);
      promptTokens := promptTokens + n.prompt;
      completionTokens := completionTokens + n.completion;
      if n.total > 0 {
        totalTokens := totalTokens + n.total;
      } else {
        totalTokens := totalTokens + n.prompt + n.completion;
      }
      inputTokens := inputTokens + n.input;
      outputTokens := outputTokens + n.output;
    }
  }
}
