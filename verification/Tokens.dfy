/** Token estimates and context budgets (internal/tokenbudget/tokenbudget.go; usableContextBudget and
    modelContext of internal/app/service.go). Which runes count as wide is a parameter. */
module Tokens {
  import Strings

  type Wide = char -> bool

  function WideIn(s: string, wide: Wide): nat {
    if s == "" then 0 else WideIn(s[..|s| - 1], wide) + if wide(s[|s| - 1]) then 1 else 0
  }

  lemma {:induction false} WideAtMostAll(s: string, wide: Wide)
    ensures WideIn(s, wide) <= |s|
  {
    if s != "" { WideAtMostAll(s[..|s| - 1], wide); }
  }

  function Quarter(others: int): int {
    (others + 3) / 4
  }

  function WithMargin(base: int): int {
    (base * 115 + 99) / 100
  }

  /** Wide runes one by one, others four to a token, and 15 percent on top, rounded up. */
  function Estimate(s: string, wide: Wide): int {
    WithMargin(WideIn(s, wide) + Quarter(|s| - WideIn(s, wide)))
  }

  method EstimateText(s: string, wide: Wide) returns (tokens: int)
    ensures tokens == Estimate(s, wide)
  {
    if s == "" {
      return 0;
    }
    var cjk, other := 0, 0;
    for i := 0 to |s|
      invariant cjk == WideIn(s[..i], wide) && cjk + other == i
    {
      assert s[..i + 1][..i] == s[..i];
      if wide(s[i]) {
        cjk := cjk + 1;
      } else {
        other := other + 1;
      }
    }
    assert s[..|s|] == s;
    var base := cjk + (other + 3) / 4;
    if base == 0 && |s| > 0 {
      base := 1;
    }
    tokens := (base * 115 + 99) / 100;
  }

  lemma {:induction false} WideAdds(a: string, b: string, wide: Wide)
    ensures WideIn(a + b, wide) == WideIn(a, wide) + WideIn(b, wide)
  {
    if b == "" {
      assert a + b == a;
    } else {
      assert (a + b)[..|a + b| - 1] == a + b[..|b| - 1];
      WideAdds(a, b[..|b| - 1], wide);
    }
  }

  lemma QuarterAdds(a: nat, b: nat)
    ensures Quarter(a) <= Quarter(a + b) <= Quarter(a) + Quarter(b)
    ensures Quarter(a) >= 0 && (Quarter(a) == 0 <==> a == 0)
  {
  }

  lemma MarginAdds(a: nat, b: nat)
    ensures WithMargin(a + b) <= WithMargin(a) + WithMargin(b)
    ensures WithMargin(a) >= 0 && (WithMargin(a) == 0 <==> a == 0)
  {
  }

  lemma MarginGrows(a: nat, b: nat)
    requires a <= b
    ensures WithMargin(a) <= WithMargin(b)
  {
  }

  /** Putting texts together never costs more than the texts apart, and no less than either;
      only the empty text is free. */
  lemma EstimateIsSubadditive(a: string, b: string, wide: Wide)
    ensures Estimate(a + b, wide) <= Estimate(a, wide) + Estimate(b, wide)
    ensures Estimate(a, wide) <= Estimate(a + b, wide) && Estimate(b, wide) <= Estimate(a + b, wide)
    ensures Estimate(a, wide) >= 0 && (Estimate(a, wide) == 0 <==> a == "")
  {
    hide Quarter, WithMargin;
    WideAdds(a, b, wide);
    WideAtMostAll(a, wide);
    WideAtMostAll(b, wide);
    var x, y := |a| - WideIn(a, wide), |b| - WideIn(b, wide);
    var p, q := WideIn(a, wide) + Quarter(x), WideIn(b, wide) + Quarter(y);
    var together := WideIn(a, wide) + WideIn(b, wide) + Quarter(x + y);
    QuarterAdds(x, y);
    QuarterAdds(y, x);
    MarginAdds(p, q);
    MarginGrows(together, p + q);
    MarginGrows(p, together);
    MarginGrows(q, together);
  }

  function WideAt(s: string, wide: Wide): set<int> {
    set i | 0 <= i < |s| && wide(s[i])
  }

  lemma WideAtGrows(s: string, n: nat, wide: Wide)
    requires n + 1 == |s|
    ensures WideAt(s, wide) == WideAt(s[..n], wide) + if wide(s[n]) then {n} else {}
    ensures n !in WideAt(s[..n], wide)
  {
    forall i | i in WideAt(s, wide) ensures i in WideAt(s[..n], wide) || (i == n && wide(s[n])) {
      if i < n { assert s[..n][i] == s[i]; }
    }
    forall i | i in WideAt(s[..n], wide) ensures i in WideAt(s, wide) { assert s[..n][i] == s[i]; }
  }

  lemma {:induction false} WideInCounts(s: string, wide: Wide)
    ensures WideIn(s, wide) == |set i | 0 <= i < |s| && wide(s[i])|
  {
    assert WideAt(s, wide) == set i | 0 <= i < |s| && wide(s[i]);
    if s == "" {
      assert WideAt(s, wide) == {};
    } else {
      var n := |s| - 1;
      assert |WideAt(s[..n], wide)| == WideIn(s[..n], wide) by { WideInCounts(s[..n], wide); }
      hide WideAt;
      WideAtGrows(s, n, wide);
    }
  }

  /** The estimate is the smallest number of tokens that is 15 percent above one for each wide rune and a quarter,
      rounded up, for each other. */
  lemma EstimateIsExact(s: string, wide: Wide) returns (base: int)
    ensures var w := |set i | 0 <= i < |s| && wide(s[i])|;
      4 * (base - w) - 4 < |s| - w <= 4 * (base - w)
    ensures 100 * Estimate(s, wide) - 100 < 115 * base <= 100 * Estimate(s, wide)
  {
    WideInCounts(s, wide);
    base := WideIn(s, wide) + Quarter(|s| - WideIn(s, wide));
  }

  // The part of a window that compiled context may fill.

  const DEFAULT_WINDOW := 8192

  function EffectiveWindow(window: int): int {
    if window <= 0 then DEFAULT_WINDOW else window
  }

  function ResponseReserve(window: int, maxOutput: int): int {
    var third := EffectiveWindow(window) / 3;
    var wanted := if maxOutput <= 0 || maxOutput > third then third else maxOutput;
    if wanted < 256 then 256 else wanted
  }

  /** Context of that size leaves the prompt within 80 percent of the window, and room for the response
      reserve and 256 tokens more. */
  predicate ContextFits(window: int, maxOutput: int, overhead: int, context: int) {
    && overhead + context <= EffectiveWindow(window) * 8 / 10
    && overhead + context + ResponseReserve(window, maxOutput) + 256 <= EffectiveWindow(window)
  }

  /** The largest context that fits, if that is at least 128 tokens. */
  method UsableContextBudget(window: int, maxOutput: int, overhead: nat) returns (budget: Strings.Option<int>)
    ensures budget.Some? <==> ContextFits(window, maxOutput, overhead, 128)
    ensures budget.Some? ==> budget.value >= 128 && ContextFits(window, maxOutput, overhead, budget.value)
    ensures budget.Some? ==> !ContextFits(window, maxOutput, overhead, budget.value + 1)
    ensures var w := if window > 0 then window else 8192;
      var wanted := if 0 < maxOutput <= w / 3 then maxOutput else w / 3;
      var reserve := if wanted > 256 then wanted else 256;
      budget.Some? <==> overhead + 128 <= w * 8 / 10 && overhead + 128 + reserve + 256 <= w
  {
    var w := window;
    if w <= 0 {
      w := DEFAULT_WINDOW;
    }
    var reserve := maxOutput;
    if reserve <= 0 || reserve > w / 3 {
      reserve := w / 3;
    }
    if reserve < 256 {
      reserve := 256;
    }
    var ceiling := w * 8 / 10;
    var available := ceiling - overhead;
    var headroom := w - ceiling;
    if headroom < reserve + 256 {
      available := available - (reserve + 256 - headroom);
    }
    if available < 128 {
      return Strings.None;
    }
    return Strings.Some(available);
  }

  /** The limit modelContext compiles for: the step's own one cut to what is usable. */
  function ContextLimit(maxInput: int, usable: int): int {
    var limit := if usable > 0 && (maxInput <= 0 || usable < maxInput) then usable else maxInput;
    if limit <= 0 then 8192 else limit
  }
}
