/** The nesting depth that traces.py gives a span, on any span set: cyclic, self-parented, or with
    several spans of one id. */
module SpanDepth {

  type SpanId = nat

  datatype Ref = Ref(childOf: bool, spanId: SpanId)

  datatype Span = Span(id: SpanId, refs: seq<Ref>)

  datatype Parent = NoParent | ParentId(id: SpanId)

  type Index = map<SpanId, Span>

  /** by_id: of several spans with one id, the last wins. */
  function ById(spans: seq<Span>): (m: Index)
    ensures forall k :: k in m ==> m[k].id == k && m[k] in spans
    ensures forall s :: s in spans ==> s.id in m
  {
    if spans == [] then map[]
    else
      var front, s := spans[..|spans| - 1], spans[|spans| - 1];
      assert spans == front + [s];
      ById(front)[s.id := s]
  }

  ghost predicate IsIndex(m: Index) {
    forall k :: k in m ==> m[k].id == k
  }

  /** The first CHILD_OF reference whose target is in the trace. */
  function FirstParent(m: Index, refs: seq<Ref>): (p: Parent)
    ensures p.ParentId? ==> p.id in m
  {
    if refs == [] then NoParent
    else if refs[0].childOf && refs[0].spanId in m then ParentId(refs[0].spanId)
    else FirstParent(m, refs[1..])
  }

  /** A reference that counts: CHILD_OF, and to a span of the trace. */
  predicate IsParentRef(m: Index, r: Ref) {
    r.childOf && r.spanId in m
  }

  /** The parent is the target of the first CHILD_OF reference into the trace, and there is none exactly
      when there is no such reference; references of other types never make a parent. */
  lemma {:induction false} FirstParentMeans(m: Index, refs: seq<Ref>, p: SpanId)
    ensures FirstParent(m, refs) == ParentId(p) <==>
      exists i :: 0 <= i < |refs| && refs[i] == Ref(true, p) && p in m
                  && forall j :: 0 <= j < i ==> !IsParentRef(m, refs[j])
    ensures FirstParent(m, refs) == NoParent <==> forall i :: 0 <= i < |refs| ==> !IsParentRef(m, refs[i])
  {
    if refs != [] && !IsParentRef(m, refs[0]) {
      var rest := refs[1..];
      FirstParentMeans(m, rest, p);
      assert forall i :: 0 <= i < |rest| ==> rest[i] == refs[i + 1];
      if FirstParent(m, refs) == ParentId(p) {
        var i :| 0 <= i < |rest| && rest[i] == Ref(true, p) && p in m
                 && forall j :: 0 <= j < i ==> !IsParentRef(m, rest[j]);
        FirstOneLater(m, refs, i);
      }
    }
  }

  lemma FirstOneLater(m: Index, refs: seq<Ref>, i: nat)
    requires refs != [] && i < |refs| - 1 && !IsParentRef(m, refs[0])
    requires forall j :: 0 <= j < i ==> !IsParentRef(m, refs[1..][j])
    ensures refs[i + 1] == refs[1..][i] && forall j :: 0 <= j < i + 1 ==> !IsParentRef(m, refs[j])
  {
    forall j | 0 < j < i + 1
      ensures !IsParentRef(m, refs[j])
    {
      assert refs[1..][j - 1] == refs[j];
    }
  }

  /** The ids a recursion has not stepped out of yet. */
  function Left(m: Index, seen: set<SpanId>): set<SpanId> {
    m.Keys - seen
  }

  lemma LeftShrinks(m: Index, seen: set<SpanId>, id: SpanId)
    requires id in m
    ensures |Left(m, seen + {id})| == |Left(m, seen)| - if id in seen then 0 else 1
  {
    if id in seen {
      assert Left(m, seen + {id}) == Left(m, seen);
    } else {
      assert Left(m, seen) == Left(m, seen + {id}) + {id};
    }
  }

  /** depth(s, seen); a span can be visited once more right after itself, hence the second term. */
  function Depth(m: Index, s: Span, seen: set<SpanId>): nat
    requires IsIndex(m) && s.id in m
    decreases 2 * |Left(m, seen)| + if s.id in seen then 1 else 0
  {
    var p := FirstParent(m, s.refs);
    if p.NoParent? || p.id in seen then 0
    else
      LeftShrinks(m, seen, s.id);
      1 + Depth(m, m[p.id], seen + {s.id})
  }

  // ---- Only CHILD_OF references into the trace matter ----------------------------------------------

  function ParentRefs(m: Index, refs: seq<Ref>): seq<Ref> {
    if refs == [] then []
    else (if IsParentRef(m, refs[0]) then [refs[0]] else []) + ParentRefs(m, refs[1..])
  }

  function Stripped(m: Index, s: Span): Span {
    Span(s.id, ParentRefs(m, s.refs))
  }

  /** The trace without the references that do not count. */
  function StrippedIndex(m: Index): Index {
    map k | k in m :: Stripped(m, m[k])
  }

  lemma {:induction false} SameFirstParent(m: Index, refs: seq<Ref>)
    ensures FirstParent(StrippedIndex(m), ParentRefs(m, refs)) == FirstParent(m, refs)
  {
    if refs != [] {
      SameFirstParent(m, refs[1..]);
      var kept := ParentRefs(m, refs);
      if IsParentRef(m, refs[0]) {
        assert kept[0] == refs[0];
      } else {
        assert kept == ParentRefs(m, refs[1..]);
      }
    }
  }

  /** Removing every other reference from every span changes no depth. */
  lemma {:induction false} OtherReferencesDoNotMatter(m: Index, s: Span, seen: set<SpanId>)
    requires IsIndex(m) && s.id in m
    ensures IsIndex(StrippedIndex(m))
    ensures Depth(StrippedIndex(m), Stripped(m, s), seen) == Depth(m, s, seen)
    decreases 2 * |Left(m, seen)| + if s.id in seen then 1 else 0
  {
    var m' := StrippedIndex(m);
    SameFirstParent(m, s.refs);
    var p := FirstParent(m, s.refs);
    if p.ParentId? && p.id !in seen {
      LeftShrinks(m, seen, s.id);
      OtherReferencesDoNotMatter(m, m[p.id], seen + {s.id});
    }
  }

  // ---- How large it can get -----------------------------------------------------------------

  /** From a span that by_id holds, and that is not seen yet. */
  lemma {:induction false} IndexedDepthBound(m: Index, s: Span, seen: set<SpanId>)
    requires IsIndex(m) && s.id in m && m[s.id] == s && s.id !in seen
    ensures Depth(m, s, seen) <= |Left(m, seen)|
    decreases |Left(m, seen)|
  {
    LeftShrinks(m, seen, s.id);
    var p := FirstParent(m, s.refs);
    if p.ParentId? && p.id !in seen && p.id != s.id {
      IndexedDepthBound(m, m[p.id], seen + {s.id});
    }
  }

  /** A span hidden behind a later one of its id, and naming that id as its parent. */
  predicate ShadowedSelfParent(m: Index, s: Span) {
    s.id in m && m[s.id] != s && FirstParent(m, s.refs) == ParentId(s.id)
  }

  /** The depth is at most the number of distinct ids, except for shadowed self-parents, which can
      exceed it by one. */
  lemma DepthBound(m: Index, s: Span)
    requires IsIndex(m) && s.id in m
    ensures Depth(m, s, {}) <= |m| + 1
    ensures !ShadowedSelfParent(m, s) ==> Depth(m, s, {}) <= |m|
  {
    assert Left(m, {}) == m.Keys && |m| == |m.Keys|;
    LeftShrinks(m, {}, s.id);
    var p := FirstParent(m, s.refs);
    if m[s.id] == s {
      IndexedDepthBound(m, s, {});
    } else if p.ParentId? {
      if p.id != s.id {
        IndexedDepthBound(m, m[p.id], {s.id});
      } else {
        SecondVisitBound(m, s);
      }
    }
  }

  /** Two steps into a shadowed self-parent, the recursion stands on an indexed span again. */
  lemma SecondVisitBound(m: Index, s: Span)
    requires IsIndex(m) && ShadowedSelfParent(m, s)
    ensures var p := FirstParent(m, m[s.id].refs);
      Depth(m, s, {}) ==
        if p.NoParent? || p.id == s.id then 1 else 2 + Depth(m, m[p.id], {s.id})
    ensures Depth(m, s, {}) <= |m| + 1
  {
    assert Left(m, {}) == m.Keys && |m| == |m.Keys|;
    LeftShrinks(m, {}, s.id);
    var p := FirstParent(m, m[s.id].refs);
    assert {} + {s.id} == {s.id} && {s.id} + {s.id} == {s.id};
    if p.ParentId? && p.id != s.id {
      IndexedDepthBound(m, m[p.id], {s.id});
    }
  }

  /** The parents from s on step through every id that is left, and the last one is its own parent. */
  predicate CoversRest(m: Index, s: Span, seen: set<SpanId>)
    requires IsIndex(m) && s.id in m && m[s.id] == s && s.id !in seen
    decreases |Left(m, seen)|
  {
    var p := FirstParent(m, s.refs);
    LeftShrinks(m, seen, s.id);
    && p.ParentId? && p.id !in seen
    && if p.id == s.id then Left(m, seen) == {s.id}
       else CoversRest(m, m[p.id], seen + {s.id})
  }

  lemma {:induction false} FullDepthIffCovers(m: Index, s: Span, seen: set<SpanId>)
    requires IsIndex(m) && s.id in m && m[s.id] == s && s.id !in seen
    ensures Depth(m, s, seen) == |Left(m, seen)| <==> CoversRest(m, s, seen)
    decreases |Left(m, seen)|
  {
    LeftShrinks(m, seen, s.id);
    var p := FirstParent(m, s.refs);
    assert s.id in Left(m, seen);
    if p.ParentId? && p.id !in seen {
      if p.id == s.id {
        assert Depth(m, s, seen) == 1;
        assert Left(m, seen) == Left(m, seen + {s.id}) + {s.id};
        assert Left(m, seen) == {s.id} <==> Left(m, seen + {s.id}) == {};
      } else {
        FullDepthIffCovers(m, m[p.id], seen + {s.id});
      }
    }
  }

  /** Exactly when the depth exceeds the number of ids: a shadowed self-parent whose indexed namesake
      starts a parent chain through every other id into a self-parent. */
  lemma DepthExceedsIff(m: Index, s: Span)
    requires IsIndex(m) && s.id in m
    ensures Depth(m, s, {}) > |m| <==>
      && ShadowedSelfParent(m, s)
      && var p := FirstParent(m, m[s.id].refs);
         p.ParentId? && p.id != s.id && CoversRest(m, m[p.id], {s.id})
  {
    DepthBound(m, s);
    if ShadowedSelfParent(m, s) {
      SecondVisitBound(m, s);
      assert Left(m, {}) == m.Keys && |m| == |m.Keys|;
      LeftShrinks(m, {}, s.id);
      assert {} + {s.id} == {s.id};
      var p := FirstParent(m, m[s.id].refs);
      if p.ParentId? && p.id != s.id {
        IndexedDepthBound(m, m[p.id], {s.id});
        FullDepthIffCovers(m, m[p.id], {s.id});
      }
    }
  }

  function ChildOf(id: SpanId, parent: SpanId): Span {
    Span(id, [Ref(true, parent)])
  }

  /** One step up a single reference. */
  lemma DepthUp(m: Index, s: Span, parent: SpanId, seen: set<SpanId>)
    requires IsIndex(m) && s.id in m && parent in m && s.refs == [Ref(true, parent)]
    ensures Depth(m, s, seen) == if parent in seen then 0 else 1 + Depth(m, m[parent], seen + {s.id})
  {
  }

  const SHADOWING := [ChildOf(1, 1), ChildOf(1, 2), ChildOf(2, 3), ChildOf(3, 3)]

  lemma ShadowingIndex()
    ensures ById(SHADOWING) == map[1 := ChildOf(1, 2), 2 := ChildOf(2, 3), 3 := ChildOf(3, 3)]
  {
    assert SHADOWING[..3] == [ChildOf(1, 1), ChildOf(1, 2), ChildOf(2, 3)];
    assert SHADOWING[..3][..2] == [ChildOf(1, 1), ChildOf(1, 2)];
    assert SHADOWING[..3][..2][..1] == [ChildOf(1, 1)];
  }

  /** Four spans with three ids reach depth four. */
  lemma DepthCanExceedIds()
    ensures |ById(SHADOWING)| == 3 && Depth(ById(SHADOWING), ChildOf(1, 1), {}) == 4
  {
    ShadowingIndex();
    var m := ById(SHADOWING);
    assert m.Keys == {1, 2, 3} && |m| == |m.Keys|;
    DepthUp(m, ChildOf(1, 1), 1, {});
    DepthUp(m, ChildOf(1, 2), 2, {} + {1});
    DepthUp(m, ChildOf(2, 3), 3, {} + {1} + {1});
    DepthUp(m, ChildOf(3, 3), 3, {} + {1} + {1} + {2});
    DepthUp(m, ChildOf(3, 3), 3, {} + {1} + {1} + {2} + {3});
  }

  // ---- What it means on a sane trace ------------------------------------------------------------

  /** A span, its parent, its parent's parent and so on, up to a span without one. */
  ghost predicate IsAncestry(m: Index, path: seq<Span>) {
    && path != []
    && path[0].id in m && m[path[0].id] == path[0]
    && var p := FirstParent(m, path[0].refs);
       if |path| == 1 then p.NoParent?
       else p == ParentId(path[1].id) && IsAncestry(m, path[1..])
  }

  lemma {:induction false} AncestrySuffix(m: Index, path: seq<Span>, i: nat)
    requires IsAncestry(m, path) && i < |path|
    ensures IsAncestry(m, path[i..])
    decreases i
  {
    if i > 0 {
      AncestrySuffix(m, path[1..], i - 1);
      assert path[1..][i - 1..] == path[i..];
    }
  }

  lemma {:induction false} AncestryIsUnique(m: Index, a: seq<Span>, b: seq<Span>)
    requires IsAncestry(m, a) && IsAncestry(m, b) && a[0].id == b[0].id
    ensures |a| == |b|
    decreases |a|
  {
    if |a| > 1 && |b| > 1 {
      AncestryIsUnique(m, a[1..], b[1..]);
    }
  }

  /** A path to a root cannot pass an id twice. */
  lemma AncestryIdsDiffer(m: Index, path: seq<Span>, i: nat, j: nat)
    requires IsAncestry(m, path) && i < |path| && j < |path| && path[i].id == path[j].id
    ensures i == j
  {
    AncestrySuffix(m, path, i);
    AncestrySuffix(m, path, j);
    AncestryIsUnique(m, path[i..], path[j..]);
  }

  /** The ids before position i. */
  ghost function Before(path: seq<Span>, i: nat): set<SpanId>
    requires i <= |path|
  {
    set k | 0 <= k < i :: path[k].id
  }

  // ---- Every indexed span: a root or a cycle ------------------------------------------------------

  /** Indexed spans with different ids, each the parent of the one before. */
  ghost predicate IsWalk(m: Index, path: seq<Span>) {
    && path != []
    && (forall i :: 0 <= i < |path| ==> path[i].id in m && m[path[i].id] == path[i])
    && (forall i, j :: 0 <= i < j < |path| ==>
          path[i].id != path[j].id && (j == i + 1 ==> FirstParent(m, path[i].refs) == ParentId(path[j].id)))
  }

  /** The walk runs back into itself: a tail of j spans and a cycle of the others. */
  ghost predicate Closes(m: Index, path: seq<Span>, j: nat)
    requires path != []
  {
    j < |path| && FirstParent(m, path[|path| - 1].refs) == ParentId(path[j].id)
  }

  lemma {:induction false} DepthAlongWalk(m: Index, path: seq<Span>, i: nat)
    requires IsIndex(m) && IsWalk(m, path) && i < |path|
    ensures var n := |path| - 1;
      Depth(m, path[i], Before(path, i)) == n - i + Depth(m, path[n], Before(path, n))
    decreases |path| - i
  {
    if i + 1 < |path| {
      DepthAlongWalk(m, path, i + 1);
      assert Before(path, i + 1) == Before(path, i) + {path[i].id};
    }
  }

  lemma {:induction false} AncestryIsWalk(m: Index, path: seq<Span>)
    requires IsAncestry(m, path)
    ensures IsWalk(m, path) && FirstParent(m, path[|path| - 1].refs).NoParent?
  {
    forall i | 0 <= i < |path|
      ensures path[i].id in m && m[path[i].id] == path[i]
      ensures i < |path| - 1 ==> FirstParent(m, path[i].refs) == ParentId(path[i + 1].id)
      ensures i == |path| - 1 ==> FirstParent(m, path[i].refs).NoParent?
    {
      AncestrySuffix(m, path, i);
      assert path[i..][0] == path[i];
      assert i < |path| - 1 ==> path[i..][1] == path[i + 1];
    }
    forall i, j | 0 <= i < j < |path|
      ensures path[i].id != path[j].id
    {
      if path[i].id == path[j].id {
        AncestryIdsDiffer(m, path, i, j);
      }
    }
  }

  lemma {:induction false} WalkIsAncestry(m: Index, path: seq<Span>, i: nat)
    requires IsWalk(m, path) && FirstParent(m, path[|path| - 1].refs).NoParent? && i < |path|
    ensures IsAncestry(m, path[i..])
    decreases |path| - i
  {
    if i + 1 < |path| {
      WalkIsAncestry(m, path, i + 1);
      assert path[i..][1..] == path[i + 1..];
    }
  }

  /** Where the ancestors of an indexed span end at a root, the depth is their number. */
  lemma DepthIsAncestorCount(m: Index, path: seq<Span>)
    requires IsIndex(m) && IsAncestry(m, path)
    ensures Depth(m, path[0], {}) == |path| - 1
  {
    AncestryIsWalk(m, path);
    DepthAlongWalk(m, path, 0);
    assert Before(path, 0) == {};
  }

  /** Where they run into a cycle, it is the tail plus the cycle less one, and for a self-parent at the
      end of the tail it is the tail plus one. */
  lemma DepthOnCycle(m: Index, path: seq<Span>, tail: nat)
    requires IsIndex(m) && IsWalk(m, path) && Closes(m, path, tail)
    ensures var cycle := |path| - tail;
      Depth(m, path[0], {}) == tail + if cycle == 1 then 1 else cycle - 1
  {
    DepthAlongWalk(m, path, 0);
    assert Before(path, 0) == {};
    var n := |path| - 1;
    var last, seen := path[n], Before(path, n);
    if tail == n {
      assert last.id !in seen;
      assert Depth(m, last, seen + {last.id}) == 0;
    } else {
      assert path[tail].id in seen;
    }
  }

  lemma BeforeNext(path: seq<Span>, s: Span)
    ensures Before(path + [s], |path| + 1) == Before(path, |path|) + {s.id}
  {
    var next := path + [s];
    assert next[|path|].id in Before(next, |next|);
    forall k | 0 <= k < |path|
      ensures path[k].id in Before(next, |next|)
    {
      assert next[k].id in Before(next, |next|);
    }
  }

  ghost function Unseen(m: Index, path: seq<Span>): nat {
    |Left(m, Before(path, |path|))|
  }

  lemma UnseenShrinks(m: Index, path: seq<Span>, s: Span)
    requires s.id in m && s.id !in Before(path, |path|)
    ensures Unseen(m, path + [s]) < Unseen(m, path)
  {
    BeforeNext(path, s);
    LeftShrinks(m, Before(path, |path|), s.id);
  }

  lemma WalkGrows(m: Index, path: seq<Span>, p: SpanId)
    requires IsIndex(m) && IsWalk(m, path) && FirstParent(m, path[|path| - 1].refs) == ParentId(p)
    requires forall k :: 0 <= k < |path| ==> path[k].id != p
    ensures IsWalk(m, path + [m[p]])
  {
  }

  lemma {:induction false} WalkOn(m: Index, path: seq<Span>) returns (full: seq<Span>, j: nat)
    requires IsIndex(m) && IsWalk(m, path)
    ensures IsWalk(m, full) && path <= full
    ensures FirstParent(m, full[|full| - 1].refs).NoParent? || Closes(m, full, j)
    decreases Unseen(m, path)
  {
    full, j := path, 0;
    var p := FirstParent(m, path[|path| - 1].refs);
    if p.ParentId? {
      if k: nat :| k < |path| && path[k].id == p.id {
        j := k;
      } else {
        WalkGrows(m, path, p.id);
        UnseenShrinks(m, path, m[p.id]);
        full, j := WalkOn(m, path + [m[p.id]]);
      }
    }
  }

  /** There is no third case: the ancestors of every indexed span end at a root or in a cycle. */
  lemma EverySpanHasAnEnd(m: Index, s: Span) returns (path: seq<Span>, tail: nat)
    requires IsIndex(m) && s.id in m && m[s.id] == s
    ensures path != [] && path[0] == s
    ensures IsAncestry(m, path) || (IsWalk(m, path) && Closes(m, path, tail))
  {
    path, tail := WalkOn(m, [s]);
    if !Closes(m, path, tail) {
      WalkIsAncestry(m, path, 0);
      assert path[0..] == path;
    }
  }

  /** With unique ids by_id holds every span, so both results apply to each of them. */
  lemma {:induction false} UniqueIdsAreIndexed(spans: seq<Span>, i: nat)
    requires i < |spans|
    requires forall j, k :: 0 <= j < k < |spans| ==> spans[j].id != spans[k].id
    ensures spans[i].id in ById(spans) && ById(spans)[spans[i].id] == spans[i]
    ensures Depth(ById(spans), spans[i], {}) <= |ById(spans)|
  {
    IndexedByPosition(spans, i);
    DepthBound(ById(spans), spans[i]);
  }

  lemma {:induction false} IndexedByPosition(spans: seq<Span>, i: nat)
    requires i < |spans|
    requires forall j, k :: 0 <= j < k < |spans| ==> spans[j].id != spans[k].id
    ensures spans[i].id in ById(spans) && ById(spans)[spans[i].id] == spans[i]
  {
    if i < |spans| - 1 {
      IndexedByPosition(spans[..|spans| - 1], i);
    }
  }
}
