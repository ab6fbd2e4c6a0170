/**
 * The token estimate of a text and the per-model token budget. A character
 * in the CJK Unified Ideographs block U+4E00..U+9FFF counts 2/3 of a token,
 * any other character 1/3, and the total is rounded down; the budget is 60%
 * of the model's context limit, rounded down.
 */
module Tokens {

  predicate IsCjk(c: char)
  {
    '\U{4E00}' <= c <= '\U{9FFF}'
  }

  /** The number of CJK ideographs in `s`. */
  function CjkCount(s: string): (r: nat)
    ensures r <= |s|
  {
    if s == [] then 0 else CjkCount(s[..|s| - 1]) + (if IsCjk(s[|s| - 1]) then 1 else 0)
  }

  /** Three times the exact (unrounded) estimate: 2 per ideograph, 1 per other character. */
  function Weight(s: string): (r: nat)
    ensures |s| <= r <= 2 * |s|
  {
    |s| + CjkCount(s)
  }

  /** `AIService._estimate_tokens`: the weight divided by three, rounded down. */
  function Estimate(s: string): (r: nat)
    ensures 3 * r <= Weight(s) < 3 * r + 3
    ensures |s| / 3 <= r <= 2 * |s| / 3
  {
    Weight(s) / 3
  }

  lemma {:induction false} CjkCountAppend(a: string, b: string)
    ensures CjkCount(a + b) == CjkCount(a) + CjkCount(b)
    decreases |b|
  {
    if b == [] {
      assert a + b == a;
    } else {
      assert (a + b)[..|a + b| - 1] == a + b[..|b| - 1];
      CjkCountAppend(a, b[..|b| - 1]);
    }
  }

  /** Weights add up over concatenation. */
  lemma WeightAppend(a: string, b: string)
    ensures Weight(a + b) == Weight(a) + Weight(b)
  {
    CjkCountAppend(a, b);
  }

  /**
   * Estimates of parts add up to at most the estimate of the whole, and lose
   * less than one token to rounding.
   */
  lemma EstimateAppend(a: string, b: string)
    ensures Estimate(a) + Estimate(b) <= Estimate(a + b) <= Estimate(a) + Estimate(b) + 1
  {
    WeightAppend(a, b);
  }

  /** A text costs nothing exactly when its weight is at most 2: empty, one or two other characters, or one ideograph. */
  lemma EstimateZero(s: string)
    ensures Estimate(s) == 0 <==> Weight(s) <= 2
  {
  }

  /** The context limits `_get_max_tokens` knows; any other model gets 65536. */
  function ModelLimit(model: string): (r: nat)
    ensures r in {65536, 8192, 4096, 200000}
  {
    if model == "deepseek-chat" || model == "deepseek-coder" then 65536
    else if model == "gpt-4" then 8192
    else if model == "gpt-3.5-turbo" then 4096
    else if model == "claude-3" then 200000
    else 65536
  }

  /** `AIService._get_max_tokens`: 60% of the model's limit, rounded down. */
  function MaxTokens(model: string): (r: nat)
    ensures 10 * r <= 6 * ModelLimit(model) < 10 * r + 10
  {
    ModelLimit(model) * 6 / 10
  }

  /** The budgets of the known models, and the default. */
  lemma MaxTokensTable(model: string)
    ensures model == "gpt-4" ==> MaxTokens(model) == 4915
    ensures model == "gpt-3.5-turbo" ==> MaxTokens(model) == 2457
    ensures model == "claude-3" ==> MaxTokens(model) == 120000
    ensures model !in {"gpt-4", "gpt-3.5-turbo", "claude-3"} ==> MaxTokens(model) == 39321
  {
  }
}
