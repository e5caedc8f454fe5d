/** Which sections a compiled context takes (internal/contextpack/compiler.go): by priority, then by cost, then by key;
    each section that is left out had to give way to sections that rank before it. */
module ContextPriority {
  import opened Ordering
  import opened Strings
  import opened ContextPack
  import opened ContextOrder
  import Segment
  import Tokens

  /** The higher priority first; at equal priority the cheaper; at equal cost the smaller key. */
  predicate RanksBefore(a: Section, b: Section) {
    || a.priority > b.priority
    || (a.priority == b.priority && a.tokens < b.tokens)
    || (a.priority == b.priority && a.tokens == b.tokens && StringLeq(SectionKey(a), SectionKey(b)))
  }

  lemma {:induction false} SelectionContinues(sorted: seq<Section>, m: nat, available: int, perSource: int)
    requires m <= |sorted|
    ensures var front, all := Selected(sorted[..m], available, perSource), Selected(sorted, available, perSource);
      && front <= all && (forall i :: |front| <= i < |all| ==> all[i] in sorted[m..])
  {
    hide Selected, Omitted, MayAdd;
    if m == |sorted| {
      assert sorted[..m] == sorted;
    } else {
      var n := |sorted| - 1;
      assert sorted[..n + 1] == sorted;
      SelectionStep(sorted, n, available, perSource);
      SelectionContinues(sorted[..n], m, available, perSource);
      assert sorted[..n][..m] == sorted[..m] && sorted[m..] == sorted[..n][m..] + [sorted[n]];
    }
  }

  lemma {:induction false} OmittedWasRefused(sorted: seq<Section>, available: int, perSource: int, o: Section)
    returns (m: nat)
    requires o in Omitted(sorted, available, perSource)
    ensures m < |sorted| && sorted[m] == o
    ensures !MayAdd(Selected(sorted[..m], available, perSource), o, available, perSource)
  {
    hide MayAdd;
    var n := |sorted| - 1;
    if o in Omitted(sorted[..n], available, perSource) {
      m := OmittedWasRefused(sorted[..n], available, perSource, o);
      assert sorted[..n][..m] == sorted[..m];
    } else {
      m := n;
    }
  }

  lemma SelectedAreSorted(sorted: seq<Section>, available: int, perSource: int)
    requires SortedBy(Before, sorted)
    ensures SortedBy(Before, Selected(sorted, available, perSource))
    decreases |sorted|
  {
    hide Before, MayAdd;
    if sorted != [] {
      var n := |sorted| - 1;
      var before := Selected(sorted[..n], available, perSource);
      SelectedAreSorted(sorted[..n], available, perSource);
      SelectedComeFromInput(sorted[..n], available, perSource);
      forall i | 0 <= i < |before| ensures Before(before[i], sorted[n]) {
        var k :| 0 <= k < n && sorted[..n][k] == before[i];
        assert Before(sorted[k], sorted[n]);
      }
    }
  }

  /** The selected sections stand in order of rank: priorities fall, and at equal priority costs rise. */
  lemma SelectedStandInOrder(input: Input, wide: Tokens.Wide)
    requires CompiledOf(input, wide).Compiled?
    ensures var p := CompiledOf(input, wide).package.sections;
      && (forall i, j :: 0 <= i < j < |p| ==> RanksBefore(p[i], p[j]))
      && (forall i, j :: 0 <= i < j < |p| ==> p[i].priority >= p[j].priority)
      && (forall i, j :: 0 <= i < j < |p| && p[i].priority == p[j].priority ==> p[i].tokens <= p[j].tokens)
  {
    hide CompiledOf, Selected, Sorted;
    CompiledShape(input, wide);
    SectionsAreSorted(input, wide);
    SelectedAreSorted(Sorted(input, wide), input.limit - input.reserved, PerSource(input));
  }

  lemma SectionsAreSorted(input: Input, wide: Tokens.Wide)
    ensures SortedBy(Before, Sorted(input, wide))
  {
    hide Before, SortBy;
    BeforeIsTotalPreorder();
    SortByIsSorted(Before, AllNormal(input.sections, wide));
  }

  /** The first sections of a package, all of a rank before a section, and how they keep it out. */
  ghost predicate GivesWay(p: seq<Section>, k: nat, o: Section, available: int, perSource: int) {
    && k <= |p|
    && (forall i :: 0 <= i < k ==> RanksBefore(p[i], o)) && (forall i :: k <= i < |p| ==> RanksBefore(o, p[i]))
    && (FromSource(p[..k], SourceKey(o)) >= perSource || available - Total(p[..k]) < o.tokens)
  }

  /** A section is left out exactly because selected sections that rank before it already fill its source's share or
      leave less room than it costs. */
  lemma OmittedGiveWay(input: Input, wide: Tokens.Wide, o: Section) returns (k: nat)
    requires CompiledOf(input, wide).Compiled? && o in CompiledOf(input, wide).omitted
    ensures GivesWay(CompiledOf(input, wide).package.sections, k, o, input.limit - input.reserved,
        if input.perSource > 0 then input.perSource else 1)
  {
    hide CompiledOf, Selected, Omitted, Sorted, Total, FromSource, SourceKey;
    CompiledShape(input, wide);
    SectionsAreSorted(input, wide);
    var sorted, available, perSource := Sorted(input, wide), input.limit - input.reserved, PerSource(input);
    var m := OmittedWasRefused(sorted, available, perSource, o);
    SelectionContinues(sorted, m, available, perSource);
    SelectedComeFromInput(sorted[..m], available, perSource);
    var front, all := Selected(sorted[..m], available, perSource), Selected(sorted, available, perSource);
    k := |front|;
    assert all[..k] == front;
    forall i | 0 <= i < k ensures RanksBefore(all[i], o) {
      var j :| 0 <= j < m && sorted[..m][j] == front[i];
      assert Before(sorted[j], sorted[m]);
    }
    forall i | k <= i < |all| ensures RanksBefore(o, all[i]) {
      var j :| 0 <= j < |sorted[m..]| && sorted[m..][j] == all[i];
      if j == 0 { SameRank(o); } else { assert Before(sorted[m], sorted[m + j]); }
    }
  }

  lemma SameRank(s: Section)
    ensures RanksBefore(s, s)
  {
    StringLeqTotal(SectionKey(s), SectionKey(s));
  }

  /** Plain sections share a source exactly if they have the same references, or have none and are of one kind. */
  lemma SameSourceIff(a: Section, b: Section)
    requires Plain(a) && Plain(b)
    requires a.refs != ["type:" + b.kind] && b.refs != ["type:" + a.kind]
    ensures SourceKey(a) == SourceKey(b) <==> a.refs == b.refs && (a.refs == [] ==> a.kind == b.kind)
  {
    hide Segment.JoinNul;
    var p := if a.refs == [] then ["type:" + a.kind] else a.refs;
    var q := if b.refs == [] then ["type:" + b.kind] else b.refs;
    SourceIsJoined(a);
    SourceIsJoined(b);
    OwnMarkIsClean(a);
    OwnMarkIsClean(b);
    if SourceKey(a) == SourceKey(b) { JoinIsInjective(p, q); }
    SameMarkIff(a.kind, b.kind);
  }

  lemma SourceIsJoined(s: Section)
    ensures SourceKey(s) == Segment.JoinNul(if s.refs == [] then ["type:" + s.kind] else s.refs)
  {
  }

  lemma OwnMarkIsClean(s: Section)
    requires Plain(s)
    ensures AllClean(if s.refs == [] then ["type:" + s.kind] else s.refs)
  {
    var own := "type:" + s.kind;
    assert Clean(own);
  }

  lemma SameMarkIff(a: string, b: string)
    ensures ["type:" + a] == ["type:" + b] <==> a == b
  {
    assert ("type:" + a)[5..] == a && ("type:" + b)[5..] == b;
  }

  // The normal form.

  lemma {:induction false} UniqueMembers(values: seq<string>)
    ensures forall x :: x in Unique(values) <==> x != "" && exists i :: 0 <= i < |values| && TrimSpace(values[i]) == x
    ensures Distinct(Unique(values))
  {
    if values != [] {
      var n := |values| - 1;
      UniqueMembers(values[..n]);
      forall x ensures x in Unique(values) <==> x != "" && exists i :: 0 <= i < |values| && TrimSpace(values[i]) == x {
        if i :| 0 <= i < |values| && TrimSpace(values[i]) == x {
          if i < n { assert values[..n][i] == values[i]; }
        }
        if j :| 0 <= j < n && TrimSpace(values[..n][j]) == x { assert values[j] == values[..n][j]; }
      }
    }
  }

  /** References are trimmed, emptied of blanks, freed of repetitions and put in ascending order; a cost that was given
      is kept, and a missing one is estimated. */
  lemma NormalFormIs(s: Section, wide: Tokens.Wide)
    ensures var n := Normal(s, wide);
      && n.kind == s.kind && n.content == s.content && n.priority == s.priority
      && (s.tokens != 0 ==> n.tokens == s.tokens)
      && (s.tokens == 0 ==> n.tokens == Tokens.Estimate(s.content, wide))
      && (forall x :: x in n.refs <==> x != "" && exists i :: 0 <= i < |s.refs| && TrimSpace(s.refs[i]) == x)
      && SortedBy(StringLeq, n.refs) && Distinct(n.refs)
  {
    UniqueMembers(s.refs);
    SortMembers(StringLeq, Unique(s.refs));
    StringLeqIsTotalOrder();
    SortByIsSorted(StringLeq, Unique(s.refs));
    Segment.SortKeepsDistinct(Unique(s.refs));
  }
}
