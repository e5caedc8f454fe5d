/** Compiled context does not depend on the order of its sections (internal/contextpack/compiler.go). Sections are
    sorted by priority, cost and a key that joins kind, content and references; the key of two different sections is
    the same only if a NUL in a field moves a border of the join, or if one section has a single reference spelled like
    the type mark that stands in the key of a section without references. Without such sections the order is total. */
module ContextOrder {
  import opened Ordering
  import Segment
  import Tokens
  import opened ContextPack

  const NUL: char := '\U{0000}'

  predicate Clean(s: string) {
    forall i :: 0 <= i < |s| ==> s[i] != NUL
  }

  predicate AllClean(names: seq<string>) {
    forall i :: 0 <= i < |names| ==> Clean(names[i])
  }

  /** No NUL in a field, and no single reference spelled like the key of a section without references. */
  predicate Plain(s: Section) {
    Clean(s.kind) && Clean(s.content) && AllClean(s.refs) && s.refs != ["type:" + s.kind]
  }

  // Joining with NUL loses nothing.

  lemma FirstNul(a: string, x: string)
    requires Clean(a)
    ensures (a + [NUL] + x)[|a|] == NUL
    ensures forall i :: 0 <= i < |a| ==> (a + [NUL] + x)[i] != NUL
    ensures (a + [NUL] + x)[..|a|] == a && (a + [NUL] + x)[|a| + 1..] == x
  {
  }

  lemma SplitAtNul(a: string, x: string, b: string, y: string)
    requires Clean(a) && Clean(b) && a + [NUL] + x == b + [NUL] + y
    ensures a == b && x == y
  {
    FirstNul(a, x);
    FirstNul(b, y);
  }

  lemma CleanJoinIsSingle(a: seq<string>)
    requires a != [] && AllClean(a)
    ensures Clean(Segment.JoinNul(a)) <==> |a| == 1
  {
    if |a| > 1 { FirstNul(a[0], Segment.JoinNul(a[1..])); }
  }

  lemma {:induction false} JoinIsInjective(a: seq<string>, b: seq<string>)
    requires a != [] && b != [] && AllClean(a) && AllClean(b) && Segment.JoinNul(a) == Segment.JoinNul(b)
    ensures a == b
  {
    CleanJoinIsSingle(a);
    CleanJoinIsSingle(b);
    if |a| > 1 {
      SplitAtNul(a[0], Segment.JoinNul(a[1..]), b[0], Segment.JoinNul(b[1..]));
      JoinIsInjective(a[1..], b[1..]);
      assert a == [a[0]] + a[1..] && b == [b[0]] + b[1..];
    } else {
      assert a == [a[0]] && b == [b[0]];
    }
  }

  lemma {:induction false} JoinAppends(a: seq<string>, last: string)
    requires a != []
    ensures Segment.JoinNul(a + [last]) == Segment.JoinNul(a) + [NUL] + last
  {
    if |a| == 1 {
      assert (a + [last])[1..] == [last];
    } else {
      assert (a + [last])[1..] == a[1..] + [last];
      JoinAppends(a[1..], last);
    }
  }

  function KeyParts(s: Section): seq<string> {
    [s.kind] + (if s.refs == [] then ["type:" + s.kind] else s.refs) + [s.content]
  }

  lemma KeyIsJoined(s: Section)
    ensures SectionKey(s) == Segment.JoinNul(KeyParts(s))
  {
    var middle := if s.refs == [] then ["type:" + s.kind] else s.refs;
    var head := [s.kind] + middle;
    JoinAppends(head, s.content);
    assert head[1..] == middle;
    assert Segment.JoinNul(head) == s.kind + [NUL] + SourceKey(s);
  }

  lemma PartsDetermineFields(a: Section, b: Section)
    requires KeyParts(a) == KeyParts(b) && a.refs != ["type:" + a.kind] && b.refs != ["type:" + b.kind]
    ensures a.kind == b.kind && a.content == b.content && a.refs == b.refs
  {
    var p, q := KeyParts(a), KeyParts(b);
    assert p[0] == a.kind && q[0] == b.kind;
    assert p[|p| - 1] == a.content && q[|q| - 1] == b.content;
    var m := p[1..|p| - 1];
    assert m == (if a.refs == [] then ["type:" + a.kind] else a.refs);
    assert q[1..|q| - 1] == (if b.refs == [] then ["type:" + b.kind] else b.refs);
  }

  /** Plain sections with the same order key are the same section. */
  lemma KeysTellSectionsApart(a: Section, b: Section)
    requires Plain(a) && Plain(b) && Before(a, b) && Before(b, a)
    ensures a == b
  {
    hide SectionKey, Segment.JoinNul, StringLeq, KeyParts, AllClean;
    StringLeqAntiSymmetric(SectionKey(a), SectionKey(b));
    KeyIsJoined(a);
    KeyIsJoined(b);
    PartsAreClean(a);
    PartsAreClean(b);
    JoinIsInjective(KeyParts(a), KeyParts(b));
    PartsDetermineFields(a, b);
  }

  lemma PartsAreClean(s: Section)
    requires Plain(s)
    ensures KeyParts(s) != [] && AllClean(KeyParts(s))
  {
    var own := "type:" + s.kind;
    assert Clean(own);
  }

  lemma BeforeIsTotalPreorder()
    ensures TotalPreorder(Before)
  {
    forall a, b ensures Before(a, b) || Before(b, a) {
      StringLeqTotal(SectionKey(a), SectionKey(b));
    }
    forall a, b, c | Before(a, b) && Before(b, c) ensures Before(a, c) {
      if StringLeq(SectionKey(a), SectionKey(b)) && StringLeq(SectionKey(b), SectionKey(c)) {
        StringLeqTransitive(SectionKey(a), SectionKey(b), SectionKey(c));
      }
    }
  }

  lemma RemovedAt<T>(s: seq<T>, k: nat)
    requires k < |s|
    ensures multiset(s[..k] + s[k + 1..]) == multiset(s) - multiset{s[k]}
  {
    assert s == s[..k] + [s[k]] + s[k + 1..];
  }

  lemma TakeFirst<T>(a: seq<T>, b: seq<T>) returns (k: nat)
    requires a != [] && multiset(a) == multiset(b)
    ensures k < |b| && b[k] == a[0] && multiset(a[..0] + a[1..]) == multiset(b[..k] + b[k + 1..])
  {
    assert a[0] in multiset(b);
    k :| 0 <= k < |b| && b[k] == a[0];
    RemovedAt(a, 0);
    RemovedAt(b, k);
  }

  lemma NormalFormsOfParts(s: seq<Section>, k: nat, wide: Tokens.Wide)
    requires k < |s|
    ensures multiset(AllNormal(s, wide)) == multiset{Normal(s[k], wide)}
        + multiset(AllNormal(s[..k] + s[k + 1..], wide))
  {
    hide Normal;
    var all := AllNormal(s, wide);
    assert AllNormal(s[..k] + s[k + 1..], wide) == all[..k] + all[k + 1..];
    RemovedAt(all, k);
    assert all[k] in multiset(all);
  }

  lemma {:induction false} NormalFormsPermute(a: seq<Section>, b: seq<Section>, wide: Tokens.Wide)
    requires multiset(a) == multiset(b)
    ensures multiset(AllNormal(a, wide)) == multiset(AllNormal(b, wide))
    decreases |a|
  {
    hide Normal, AllNormal;
    if a == [] {
      assert |multiset(b)| == 0;
    } else {
      var k := TakeFirst(a, b);
      NormalFormsPermute(a[..0] + a[1..], b[..k] + b[k + 1..], wide);
      NormalFormsOfParts(a, 0, wide);
      NormalFormsOfParts(b, k, wide);
    }
  }

  lemma ValidityPermutes(a: Input, b: Input)
    requires b == a.(sections := b.sections) && multiset(a.sections) == multiset(b.sections) && InputValid(a)
    ensures InputValid(b)
  {
    hide SectionValid;
    forall i | 0 <= i < |b.sections| ensures SectionValid(b.sections[i]) {
      assert b.sections[i] in multiset(a.sections);
      var k :| 0 <= k < |a.sections| && a.sections[k] == b.sections[i];
    }
  }

  /** Permuting the sections changes nothing in the compiled package, nor in what is omitted, nor in whether
      the input is refused. */
  lemma CompileIgnoresOrder(a: Input, b: Input, wide: Tokens.Wide)
    requires b == a.(sections := b.sections) && multiset(a.sections) == multiset(b.sections)
    requires forall i :: 0 <= i < |a.sections| ==> Plain(Normal(a.sections[i], wide))
    ensures CompiledOf(a, wide) == CompiledOf(b, wide)
  {
    hide Before, Normal, Plain, Selected, Omitted, SortBy, SectionValid;
    if InputValid(a) { ValidityPermutes(a, b); }
    if InputValid(b) { ValidityPermutes(b, a); }
    var s, t := AllNormal(a.sections, wide), AllNormal(b.sections, wide);
    NormalFormsPermute(a.sections, b.sections, wide);
    BeforeIsTotalPreorder();
    SortByIsSorted(Before, s);
    SortByIsSorted(Before, t);
    SortMembers(Before, s);
    forall x, y | x in SortBy(Before, s) && y in SortBy(Before, s) && Before(x, y) && Before(y, x) ensures x == y {
      KeysTellSectionsApart(x, y);
    }
    SortedIsCanonical(Before, SortBy(Before, s), SortBy(Before, t));
  }
}
