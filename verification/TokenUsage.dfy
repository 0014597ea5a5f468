/** Token counts: reading them from a provider's usage record and summing them over spans. */
module TokenUsage {

  type Usage = map<string, int>

  /** A normalised record; a count of zero is the same as no entry. */
  datatype Tokens = Tokens(input: nat, output: nat, total: nat, cacheRead: nat, cacheWrite: nat, reasoning: nat)

  const ZERO := Tokens(0, 0, 0, 0, 0, 0)

  function Plus(a: Tokens, b: Tokens): Tokens {
    Tokens(a.input + b.input, a.output + b.output, a.total + b.total, a.cacheRead + b.cacheRead,
           a.cacheWrite + b.cacheWrite, a.reasoning + b.reasoning)
  }

  /** The first name that is present decides, and negative counts are zero. */
  function FirstOf(usage: Usage, names: seq<string>): nat {
    if names == [] then 0
    else if names[0] in usage then (if usage[names[0]] < 0 then 0 else usage[names[0]])
    else FirstOf(usage, names[1..])
  }

  function Normalised(usage: Usage): Tokens {
    var input := FirstOf(usage, ["input", "input_tokens", "prompt_tokens"]);
    var output := FirstOf(usage, ["output", "output_tokens", "completion_tokens"]);
    var total := FirstOf(usage, ["total", "total_tokens"]);
    Tokens(input, output, if total == 0 then input + output else total,
           FirstOf(usage, ["cache_read", "cache_read_tokens", "cached_tokens"]),
           FirstOf(usage, ["cache_write", "cache_write_tokens"]),
           FirstOf(usage, ["reasoning", "reasoning_tokens"]))
  }

  function Entry(name: string, count: nat): Usage {
    if count == 0 then map[] else map[name := count]
  }

  /** A normalised record as it is stored on a span, read as a usage record again. */
  function AsUsage(t: Tokens): Usage {
    Entry("input", t.input) + Entry("output", t.output) + Entry("total", t.total) + Entry("cacheRead", t.cacheRead)
    + Entry("cacheWrite", t.cacheWrite) + Entry("reasoning", t.reasoning)
  }

  lemma {:induction false} StoredCount(t: Tokens, name: string)
    ensures name == "input" ==> FirstOf(AsUsage(t), [name]) == t.input
    ensures name == "output" ==> FirstOf(AsUsage(t), [name]) == t.output
    ensures name == "total" ==> FirstOf(AsUsage(t), [name]) == t.total
    ensures name == "reasoning" ==> FirstOf(AsUsage(t), [name]) == t.reasoning
    ensures name !in {"input", "output", "total", "cacheRead", "cacheWrite", "reasoning"} ==> name !in AsUsage(t)
  {
  }

  lemma {:induction false} FirstOfAbsent(usage: Usage, first: string, rest: seq<string>)
    requires forall i :: 0 <= i < |rest| ==> rest[i] !in usage
    ensures FirstOf(usage, [first] + rest) == FirstOf(usage, [first])
  {
    AllAbsent(usage, rest);
    assert ([first] + rest)[1..] == rest;
    assert [first][1..] == [];
  }

  lemma {:induction false} AllAbsent(usage: Usage, names: seq<string>)
    requires forall i :: 0 <= i < |names| ==> names[i] !in usage
    ensures FirstOf(usage, names) == 0
  {
    if names != [] {
      AllAbsent(usage, names[1..]);
    }
  }

  lemma {:induction false} InputAndOutputReread(t: Tokens)
    ensures FirstOf(AsUsage(t), ["input", "input_tokens", "prompt_tokens"]) == t.input
    ensures FirstOf(AsUsage(t), ["output", "output_tokens", "completion_tokens"]) == t.output
  {
    StoredCount(t, "input");
    StoredCount(t, "input_tokens");
    StoredCount(t, "prompt_tokens");
    FirstOfAbsent(AsUsage(t), "input", ["input_tokens", "prompt_tokens"]);
    StoredCount(t, "output");
    StoredCount(t, "output_tokens");
    StoredCount(t, "completion_tokens");
    FirstOfAbsent(AsUsage(t), "output", ["output_tokens", "completion_tokens"]);
  }

  lemma {:induction false} TotalAndReasoningReread(t: Tokens)
    ensures FirstOf(AsUsage(t), ["total", "total_tokens"]) == t.total
    ensures FirstOf(AsUsage(t), ["reasoning", "reasoning_tokens"]) == t.reasoning
  {
    StoredCount(t, "total");
    StoredCount(t, "total_tokens");
    FirstOfAbsent(AsUsage(t), "total", ["total_tokens"]);
    StoredCount(t, "reasoning");
    StoredCount(t, "reasoning_tokens");
    FirstOfAbsent(AsUsage(t), "reasoning", ["reasoning_tokens"]);
  }

  lemma {:induction false} CacheReread(t: Tokens)
    ensures FirstOf(AsUsage(t), ["cache_read", "cache_read_tokens", "cached_tokens"]) == 0
    ensures FirstOf(AsUsage(t), ["cache_write", "cache_write_tokens"]) == 0
  {
    StoredCount(t, "cache_read");
    StoredCount(t, "cache_read_tokens");
    StoredCount(t, "cached_tokens");
    AllAbsent(AsUsage(t), ["cache_read", "cache_read_tokens", "cached_tokens"]);
    StoredCount(t, "cache_write");
    StoredCount(t, "cache_write_tokens");
    AllAbsent(AsUsage(t), ["cache_write", "cache_write_tokens"]);
  }

  /** Reading a stored record again keeps the four counts and drops the cache counts. */
  lemma {:induction false} RereadDropsCache(usage: Usage)
    ensures var t := Normalised(usage); Reread(t) == t.(cacheRead := 0, cacheWrite := 0)
  {
    var t := Normalised(usage);
    InputAndOutputReread(t);
    TotalAndReasoningReread(t);
    CacheReread(t);
  }

  /** A stored record as the totals of a snapshot see it. */
  function Reread(t: Tokens): Tokens {
    Normalised(AsUsage(t))
  }
}
