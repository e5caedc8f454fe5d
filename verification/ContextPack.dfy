/** Selecting context under a token budget (internal/contextpack/compiler.go), and the worker's check of the
    result (internal/worker/worker.go, validateContextPackage). */
module ContextPack {
  import opened Ordering
  import opened Strings
  import opened Segment
  import opened Tokens

  datatype Section = Section(kind: string, content: string, refs: seq<string>, priority: int, tokens: int)

  datatype Input = Input(
    role: string, taskId: string, stepId: string, limit: int, reserved: int, perSource: int, sections: seq<Section>)

  datatype Package = Package(stepId: string, role: string, taskId: string, sections: seq<Section>, limit: int,
      used: int, reserved: int)

  datatype CompileError = InvalidInput | ContextOverflow

  datatype Compiled = Compiled(package: Package, omitted: seq<Section>) | Rejected(error: CompileError)

  // Normal form of a section.

  /** The trimmed, non-empty values, each once. */
  function Unique(values: seq<string>): seq<string> {
    if values == [] then []
    else
      var before := Unique(values[..|values| - 1]);
      var v := TrimSpace(values[|values| - 1]);
      if v == "" || v in before then before else before + [v]
  }

  function SortedUnique(values: seq<string>): seq<string> {
    SortStrings(Unique(values))
  }

  function Normal(s: Section, wide: Wide): Section {
    s.(tokens := if s.tokens == 0 then Estimate(s.content, wide) else s.tokens, refs := SortedUnique(s.refs))
  }

  predicate SectionValid(s: Section) {
    !Blank(s.kind) && !Blank(s.content) && s.tokens >= 0
  }

  function SourceKey(s: Section): string {
    if s.refs == [] then "type:" + s.kind else JoinNul(s.refs)
  }

  function SectionKey(s: Section): string {
    s.kind + "\U{0000}" + SourceKey(s) + "\U{0000}" + s.content
  }

  /** Higher priority first, then the cheaper, then by key. */
  predicate Before(a: Section, b: Section) {
    if a.priority != b.priority then a.priority > b.priority
    else if a.tokens != b.tokens then a.tokens < b.tokens
    else StringLeq(SectionKey(a), SectionKey(b))
  }

  function AllNormal(sections: seq<Section>, wide: Wide): (r: seq<Section>)
    ensures |r| == |sections|
    ensures forall i :: 0 <= i < |sections| ==> r[i] == Normal(sections[i], wide)
  {
    seq(|sections|, i requires 0 <= i < |sections| => Normal(sections[i], wide))
  }

  // Greedy selection.

  function Total(sections: seq<Section>): int {
    if sections == [] then 0 else Total(sections[..|sections| - 1]) + sections[|sections| - 1].tokens
  }

  function FromSource(sections: seq<Section>, key: string): nat {
    if sections == [] then 0
    else FromSource(sections[..|sections| - 1], key) + if SourceKey(sections[|sections| - 1]) == key then 1 else 0
  }

  predicate MayAdd(selected: seq<Section>, s: Section, available: int, perSource: int) {
    FromSource(selected, SourceKey(s)) < perSource && Total(selected) + s.tokens <= available
  }

  function Selected(sorted: seq<Section>, available: int, perSource: int): seq<Section> {
    if sorted == [] then []
    else
      var before := Selected(sorted[..|sorted| - 1], available, perSource);
      if MayAdd(before, sorted[|sorted| - 1], available, perSource) then before + [sorted[|sorted| - 1]] else before
  }

  function Omitted(sorted: seq<Section>, available: int, perSource: int): seq<Section> {
    if sorted == [] then []
    else
      var before := Selected(sorted[..|sorted| - 1], available, perSource);
      Omitted(sorted[..|sorted| - 1], available, perSource) +
      (if MayAdd(before, sorted[|sorted| - 1], available, perSource) then [] else [sorted[|sorted| - 1]])
  }

  function PerSource(input: Input): int {
    if input.perSource <= 0 then 1 else input.perSource
  }

  predicate HeaderValid(input: Input) {
    !Blank(input.role) && !Blank(input.taskId) && input.limit > 0 && 0 <= input.reserved < input.limit
  }

  predicate InputValid(input: Input) {
    HeaderValid(input) && forall i :: 0 <= i < |input.sections| ==> SectionValid(input.sections[i])
  }

  function Sorted(input: Input, wide: Wide): seq<Section> {
    SortBy(Before, AllNormal(input.sections, wide))
  }

  lemma SelectionStep(sorted: seq<Section>, i: nat, available: int, perSource: int)
    requires i < |sorted|
    ensures var before := Selected(sorted[..i], available, perSource);
      var add := MayAdd(before, sorted[i], available, perSource);
      && Selected(sorted[..i + 1], available, perSource) == (if add then before + [sorted[i]] else before)
      && Omitted(sorted[..i + 1], available, perSource) == Omitted(sorted[..i], available, perSource)
          + (if add then [] else [sorted[i]])
  {
    hide MayAdd;
    assert sorted[..i + 1][..i] == sorted[..i];
  }

  lemma AddedSection(selected: seq<Section>, s: Section, key: string)
    ensures Total(selected + [s]) == Total(selected) + s.tokens
    ensures FromSource(selected + [s], key) == FromSource(selected, key) + if SourceKey(s) == key then 1 else 0
  {
    hide SourceKey;
    assert (selected + [s])[..|selected|] == selected;
  }

  method SelectSections(sorted: seq<Section>, available: int, perSource: int)
      returns (selected: seq<Section>, omitted: seq<Section>, used: int)
    ensures selected == Selected(sorted, available, perSource) && omitted == Omitted(sorted, available, perSource)
        && used == Total(selected)
  {
    hide SourceKey, Selected, Omitted, Total, FromSource;
    selected, omitted, used := [], [], 0;
    var bySource: map<string, nat> := map[];
    StartOfSelection(available, perSource);
    for i := 0 to |sorted|
      invariant selected == Selected(sorted[..i], available, perSource)
          && omitted == Omitted(sorted[..i], available, perSource)
      invariant used == Total(selected)
      invariant forall key :: FromSource(selected, key) == if key in bySource then bySource[key] else 0
    {
      SelectionStep(sorted, i, available, perSource);
      var section := sorted[i];
      var key := SourceKey(section);
      var count := if key in bySource then bySource[key] else 0;
      if count >= perSource || used + section.tokens > available {
        omitted := omitted + [section];
        continue;
      }
      forall k ensures FromSource(selected + [section], k) == FromSource(selected, k) + if key == k then 1 else 0 {
        AddedSection(selected, section, k);
      }
      AddedSection(selected, section, key);
      selected := selected + [section];
      used := used + section.tokens;
      bySource := bySource[key := count + 1];
    }
    assert sorted[..|sorted|] == sorted;
  }

  lemma StartOfSelection(available: int, perSource: int)
    ensures Selected([], available, perSource) == [] && Omitted([], available, perSource) == [] && Total([]) == 0
    ensures forall key :: FromSource([], key) == 0
  {
  }

  method NormalizeSections(sections: seq<Section>, wide: Wide) returns (normal: Option<seq<Section>>)
    ensures normal == if forall i :: 0 <= i < |sections| ==> SectionValid(sections[i])
        then Some(AllNormal(sections, wide)) else None
  {
    hide Normal, SectionValid;
    var done: seq<Section> := [];
    for i := 0 to |sections|
      invariant |done| == i
      invariant forall k :: 0 <= k < i ==> SectionValid(sections[k]) && done[k] == Normal(sections[k], wide)
    {
      var section := sections[i];
      if !SectionValid(section) {
        return None;
      }
      done := done + [Normal(section, wide)];
    }
    assert done == AllNormal(sections, wide);
    normal := Some(done);
  }

  lemma InvalidSections(sections: seq<Section>)
    ensures (exists s :: s in sections && (Blank(s.kind) || Blank(s.content) || s.tokens < 0))
        <==> !(forall i :: 0 <= i < |sections| ==> SectionValid(sections[i]))
  {
    hide Blank;
    if i :| 0 <= i < |sections| && !SectionValid(sections[i]) { assert sections[i] in sections; }
  }

  method Compile(input: Input, wide: Wide) returns (r: Compiled)
    ensures r == CompiledOf(input, wide)
    ensures r == Rejected(InvalidInput) <==>
      || Blank(input.role) || Blank(input.taskId) || input.limit <= 0 || input.reserved < 0
      || input.reserved >= input.limit
      || exists s :: s in input.sections && (Blank(s.kind) || Blank(s.content) || s.tokens < 0)
    ensures r.Compiled? ==>
      var p := r.package;
      && p.stepId == input.stepId && p.role == input.role && p.taskId == input.taskId
      && p.limit == input.limit && p.reserved == input.reserved && p.used == Total(p.sections)
  {
    InvalidSections(input.sections);
    hide Selected, Omitted, SortBy, Blank, SectionValid;
    if !HeaderValid(input) {
      return Rejected(InvalidInput);
    }
    var perSource := input.perSource;
    if perSource <= 0 {
      perSource := 1;
    }
    var normal := NormalizeSections(input.sections, wide);
    if normal.None? {
      return Rejected(InvalidInput);
    }
    var sorted := SortBy(Before, normal.value);
    var selected, omitted, used := SelectSections(sorted, input.limit - input.reserved, perSource);
    if |sorted| > 0 && |selected| == 0 {
      return Rejected(ContextOverflow);
    }
    return Compiled(Package(input.stepId, input.role, input.taskId, selected, input.limit, used, input.reserved),
        omitted);
  }

  function CompiledOf(input: Input, wide: Wide): Compiled {
    if !InputValid(input) then Rejected(InvalidInput)
    else
      var sorted := Sorted(input, wide);
      var available := input.limit - input.reserved;
      var selected := Selected(sorted, available, PerSource(input));
      if sorted != [] && selected == [] then Rejected(ContextOverflow)
      else
        Compiled(
          Package(input.stepId, input.role, input.taskId, selected, input.limit, Total(selected), input.reserved),
          Omitted(sorted, available, PerSource(input)))
  }

  // What the selection guarantees.

  lemma {:induction false} SelectionPartitions(sorted: seq<Section>, available: int, perSource: int)
    ensures multiset(Selected(sorted, available, perSource)) + multiset(Omitted(sorted, available, perSource))
        == multiset(sorted)
  {
    hide MayAdd;
    if sorted != [] {
      SelectionPartitions(sorted[..|sorted| - 1], available, perSource);
      assert sorted == sorted[..|sorted| - 1] + [sorted[|sorted| - 1]];
    }
  }

  lemma {:induction false} SelectionIsWithinBounds(sorted: seq<Section>, available: int, perSource: int, key: string)
    requires available >= 0 && perSource >= 0
    ensures Total(Selected(sorted, available, perSource)) <= available
    ensures FromSource(Selected(sorted, available, perSource), key) <= perSource
  {
    hide SourceKey;
    if sorted != [] {
      var before := Selected(sorted[..|sorted| - 1], available, perSource);
      SelectionIsWithinBounds(sorted[..|sorted| - 1], available, perSource, key);
      AddedSection(before, sorted[|sorted| - 1], key);
    }
  }

  /** No omitted section could still be added to the final selection. */
  lemma {:induction false} SelectionIsMaximal(sorted: seq<Section>, available: int, perSource: int, o: Section)
    requires forall i :: 0 <= i < |sorted| ==> sorted[i].tokens >= 0
    requires o in Omitted(sorted, available, perSource)
    ensures !MayAdd(Selected(sorted, available, perSource), o, available, perSource)
  {
    hide SourceKey, Selected, Omitted, Total, FromSource;
    if sorted == [] {
      StartOfSelection(available, perSource);
    } else {
      var n := |sorted| - 1;
      var before := Selected(sorted[..n], available, perSource);
      assert sorted[..n + 1] == sorted;
      SelectionStep(sorted, n, available, perSource);
      AddedSection(before, sorted[n], SourceKey(o));
      if o in Omitted(sorted[..n], available, perSource) {
        SelectionIsMaximal(sorted[..n], available, perSource, o);
      }
    }
  }

  lemma {:induction false} SelectionIsEmptyIff(sorted: seq<Section>, available: int, perSource: int)
    requires perSource >= 1
    ensures Selected(sorted, available, perSource) == [] <==> forall i :: 0 <= i < |sorted| ==>
        sorted[i].tokens > available
  {
    if sorted != [] {
      var init := sorted[..|sorted| - 1];
      SelectionIsEmptyIff(init, available, perSource);
      assert forall i :: 0 <= i < |init| ==> init[i] == sorted[i];
    }
  }

  lemma {:induction false} SelectedComeFromInput(sorted: seq<Section>, available: int, perSource: int)
    ensures forall i :: 0 <= i < |Selected(sorted, available, perSource)| ==>
        Selected(sorted, available, perSource)[i] in sorted
  {
    if sorted != [] {
      SelectedComeFromInput(sorted[..|sorted| - 1], available, perSource);
      assert sorted == sorted[..|sorted| - 1] + [sorted[|sorted| - 1]];
    }
  }

  /** A section of a valid input costs at least one token. */
  lemma NormalCosts(s: Section, wide: Wide)
    requires SectionValid(s)
    ensures Normal(s, wide).tokens >= 1 && Normal(s, wide).kind == s.kind && Normal(s, wide).content == s.content
  {
    hide SortedUnique, Estimate;
    EstimateIsSubadditive(s.content, "", wide);
  }

  lemma SortedSections(input: Input, wide: Wide)
    requires InputValid(input)
    ensures multiset(Sorted(input, wide)) == multiset(AllNormal(input.sections, wide))
    ensures forall i :: 0 <= i < |Sorted(input, wide)| ==>
      Sorted(input, wide)[i].tokens >= 1 && !Blank(Sorted(input, wide)[i].kind)
          && !Blank(Sorted(input, wide)[i].content)
  {
    hide Before, Normal, Blank;
    var normal := AllNormal(input.sections, wide);
    var sorted := Sorted(input, wide);
    SortMembers(Before, normal);
    forall i | 0 <= i < |sorted| ensures sorted[i].tokens >= 1 && !Blank(sorted[i].kind) && !Blank(sorted[i].content) {
      assert sorted[i] in normal;
      var k :| 0 <= k < |normal| && normal[k] == sorted[i];
      NormalCosts(input.sections[k], wide);
    }
  }

  lemma CompiledShape(input: Input, wide: Wide)
    requires CompiledOf(input, wide).Compiled?
    ensures InputValid(input)
    ensures CompiledOf(input, wide).package.sections
        == Selected(Sorted(input, wide), input.limit - input.reserved, PerSource(input))
    ensures CompiledOf(input, wide).package.used == Total(CompiledOf(input, wide).package.sections)
    ensures CompiledOf(input, wide).omitted
        == Omitted(Sorted(input, wide), input.limit - input.reserved, PerSource(input))
  {
    hide Selected, Omitted, Sorted, SectionValid;
  }

  /** A compiled package holds, with what was omitted, exactly the normalised sections; it keeps the budget and
      the cap per source, and nothing omitted would still fit. */
  lemma CompileSelectsWell(input: Input, wide: Wide, key: string, o: Section)
    requires CompiledOf(input, wide).Compiled?
    ensures var p := CompiledOf(input, wide).package;
      var omitted := CompiledOf(input, wide).omitted;
      && multiset(p.sections) + multiset(omitted) == multiset(AllNormal(input.sections, wide))
      && p.used == Total(p.sections) <= input.limit - input.reserved
      && FromSource(p.sections, key) <= (if input.perSource > 0 then input.perSource else 1)
      && (o in omitted ==> !MayAdd(p.sections, o, input.limit - input.reserved, PerSource(input)))
  {
    hide Selected, Omitted, Sorted, AllNormal, MayAdd, CompiledOf, SectionValid, Blank, Total, FromSource;
    CompiledShape(input, wide);
    var sorted := Sorted(input, wide);
    var available := input.limit - input.reserved;
    SortedSections(input, wide);
    SelectionPartitions(sorted, available, PerSource(input));
    SelectionIsWithinBounds(sorted, available, PerSource(input), key);
    if o in Omitted(sorted, available, PerSource(input)) { SelectionIsMaximal(sorted, available, PerSource(input), o); }
  }

  /** A valid input is refused exactly when it has sections and each of them alone exceeds the budget. */
  lemma OverflowIff(input: Input, wide: Wide)
    requires InputValid(input)
    ensures CompiledOf(input, wide) == Rejected(ContextOverflow) <==>
      (input.sections != [] && forall i :: 0 <= i < |input.sections| ==>
          Normal(input.sections[i], wide).tokens > input.limit - input.reserved)
  {
    hide Selected, Omitted, Before, Normal, SortBy, InputValid;
    var normal := AllNormal(input.sections, wide);
    var sorted := SortBy(Before, normal);
    var available := input.limit - input.reserved;
    SortMembers(Before, normal);
    SelectionIsEmptyIff(sorted, available, PerSource(input));
    if forall i :: 0 <= i < |normal| ==> normal[i].tokens > available { SameCosts(normal, sorted, available); }
    if forall i :: 0 <= i < |sorted| ==> sorted[i].tokens > available { SameCosts(sorted, normal, available); }
  }

  lemma SameCosts(a: seq<Section>, b: seq<Section>, bound: int)
    requires forall x :: x in b ==> x in a
    requires forall i :: 0 <= i < |a| ==> a[i].tokens > bound
    ensures forall i :: 0 <= i < |b| ==> b[i].tokens > bound
  {
    forall i | 0 <= i < |b| ensures b[i].tokens > bound {
      assert b[i] in a;
      var k :| 0 <= k < |a| && a[k] == b[i];
    }
  }

  // The worker's check.

  predicate PackageAccepted(stepId: string, p: Package) {
    && !Blank(p.taskId) && !Blank(p.role)
    && (p.stepId == "" || p.stepId == stepId)
    && p.limit > 0 && p.reserved >= 0 && 0 <= p.used <= p.limit - p.reserved
    && (forall i :: 0 <= i < |p.sections| ==>
        !Blank(p.sections[i].kind) && !Blank(p.sections[i].content) && p.sections[i].tokens > 0)
    && Total(p.sections) == p.used
  }

  method ValidateContextPackage(stepId: string, p: Package) returns (ok: bool)
    ensures ok == PackageAccepted(stepId, p)
    ensures ok <==>
      && !Blank(p.taskId) && !Blank(p.role) && p.stepId in {"", stepId} && p.limit > 0
      && 0 <= p.reserved <= p.limit && 0 <= p.used == Total(p.sections) <= p.limit - p.reserved
      && forall i :: 0 <= i < |p.sections| ==>
           p.sections[i].tokens > 0 && !Blank(p.sections[i].kind) && !Blank(p.sections[i].content)
  {
    hide Blank;
    if Blank(p.taskId) || Blank(p.role) || (p.stepId != "" && p.stepId != stepId) {
      return false;
    }
    if p.limit <= 0 || p.reserved < 0 || p.used < 0 || p.used > p.limit - p.reserved {
      return false;
    }
    var used := 0;
    for i := 0 to |p.sections|
      invariant used == Total(p.sections[..i])
      invariant forall k :: 0 <= k < i ==>
          !Blank(p.sections[k].kind) && !Blank(p.sections[k].content) && p.sections[k].tokens > 0
    {
      assert p.sections[..i + 1][..i] == p.sections[..i];
      if Blank(p.sections[i].kind) || Blank(p.sections[i].content) || p.sections[i].tokens <= 0 {
        return false;
      }
      used := used + p.sections[i].tokens;
    }
    assert p.sections[..|p.sections|] == p.sections;
    ok := used == p.used;
  }

  lemma {:induction false} TotalIsNotNegative(sections: seq<Section>)
    requires forall i :: 0 <= i < |sections| ==> sections[i].tokens >= 0
    ensures Total(sections) >= 0
  {
    if sections != [] { TotalIsNotNegative(sections[..|sections| - 1]); }
  }

  /** The worker accepts every package compiled for its step. */
  lemma WorkerAcceptsCompiledPackages(input: Input, wide: Wide)
    requires CompiledOf(input, wide).Compiled?
    ensures PackageAccepted(input.stepId, CompiledOf(input, wide).package)
  {
    hide Selected, Omitted, Sorted, Blank;
    var sorted := Sorted(input, wide);
    SortedSections(input, wide);
    SelectedComeFromInput(sorted, input.limit - input.reserved, PerSource(input));
    SelectionIsWithinBounds(sorted, input.limit - input.reserved, PerSource(input), "");
    var p := CompiledOf(input, wide).package;
    forall i | 0 <= i < |p.sections| ensures !Blank(p.sections[i].kind) && !Blank(p.sections[i].content)
        && p.sections[i].tokens > 0 {
      assert p.sections[i] in sorted;
      var k :| 0 <= k < |sorted| && sorted[k] == p.sections[i];
    }
    TotalIsNotNegative(p.sections);
  }

  // Context for a step (internal/app/service.go, RunModelStep and modelContext).

  function StepInput(taskId: string, stepId: string, maxInput: int, usable: int, sections: seq<Section>): Input {
    Input("EXECUTOR", taskId, stepId, ContextLimit(maxInput, usable), 0, 0, sections)
  }

  /** What is compiled for a step fits its window: within 80 percent of it together with the fixed prompt, and with
      room for the response reserve and 256 tokens more. */
  lemma CompiledContextFits(
    window: int, maxOutput: int, overhead: nat, maxInput: int, usable: int, input: Input, wide: Wide)
    requires usable > 0 && ContextFits(window, maxOutput, overhead, usable)
    requires input.limit == ContextLimit(maxInput, usable) && input.reserved == 0 && CompiledOf(input, wide).Compiled?
    ensures ContextFits(window, maxOutput, overhead, CompiledOf(input, wide).package.used)
    ensures PackageAccepted(input.stepId, CompiledOf(input, wide).package)
  {
    hide CompiledOf;
    CompileSelectsWell(input, wide, "", Section("", "", [], 0, 0));
    WorkerAcceptsCompiledPackages(input, wide);
  }

  lemma CompiledIsAddressed(input: Input, wide: Wide)
    requires CompiledOf(input, wide).Compiled?
    ensures var p := CompiledOf(input, wide).package;
      && p.taskId == input.taskId && p.stepId == input.stepId && p.role == input.role
      && p.limit == input.limit && p.reserved == input.reserved
  {
    hide Selected, Omitted, Sorted, InputValid;
  }

  /** Budget first, then compilation; `None` when the window has no room for context. */
  method ModelContext(
    window: int, maxOutput: int, overhead: nat, maxInput: int,
    taskId: string, stepId: string, sections: seq<Section>, wide: Wide)
    returns (r: Option<Compiled>)
    ensures r.Some? <==> ContextFits(window, maxOutput, overhead, 128)
    ensures r.Some? && r.value.Compiled? ==>
      ContextFits(window, maxOutput, overhead, r.value.package.used) && PackageAccepted(stepId, r.value.package)
    ensures r.Some? && r.value.Compiled? ==>
      var p := r.value.package;
      && p.taskId == taskId && p.stepId == stepId && p.role == "EXECUTOR" && p.reserved == 0
      && ContextFits(window, maxOutput, overhead, p.limit) && (maxInput > 0 ==> p.limit <= maxInput)
      && (p.limit != maxInput ==> !ContextFits(window, maxOutput, overhead, p.limit + 1))
  {
    hide CompiledOf, PackageAccepted;
    var usable := UsableContextBudget(window, maxOutput, overhead);
    if usable.None? {
      return None;
    }
    var input := StepInput(taskId, stepId, maxInput, usable.value, sections);
    var compiled := Compile(input, wide);
    if compiled.Compiled? {
      CompiledContextFits(window, maxOutput, overhead, maxInput, usable.value, input, wide);
      CompiledIsAddressed(input, wide);
    }
    return Some(compiled);
  }
}
