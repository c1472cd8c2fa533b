/** The cached columns: when they are coherent, what invalidation drops, and why
    that is enough (docs/bk7258/kconfiglib.py). */
module KconfigCaches {
  import opened Options
  import opened Tristate
  import opened KconfigExpr
  import opened KconfigModel
  import opened KconfigTheory
  import opened KconfigOrder
  import opened KconfigProgram

  // ---- Cache coherence, entry by entry ----

  ghost predicate SymOk(t: Tree, u: Users, sc: Scope, s: nat, val: Option<string>, write: bool, vis: Option<Tri>)
    requires ChoicesOk(t) && Fits(t, u) && s < |t.syms|
  {
    var y := t.syms[s];
    var out := SymbolOut(t, u, sc, s);
    && (y.special.Some? ==> val == y.special)
    && (y.special.Some? || y.typ == UnknownType ==> !write)
    && (val.Some? ==> val.value == out.val && write == out.write)
    && (vis.Some? && y.special.None? ==> vis.value == SymVis(t, sc, s))
  }

  ghost predicate ChoiceOk(t: Tree, u: Users, sc: Scope, c: nat, selection: Option<Option<nat>>, vis: Option<Tri>)
    requires ChoicesOk(t) && Fits(t, u) && c < |t.choices|
  {
    && (selection.Some? ==> selection.value == Selection(t, u, sc, c))
    && (vis.Some? && t.choices[c].actual != [] ==> vis.value == ChoiceVis(t, sc, c))
    && (t.choices[c].actual == [] && selection.Some? ==> vis.Some?)
  }

  /** The cached columns, one entry per symbol or per choice. */
  datatype Caches = Caches(
    val: seq<Option<string>>, write: seq<bool>, vis: seq<Option<Tri>>,
    selection: seq<Option<Option<nat>>>, choiceVis: seq<Option<Tri>>)

  predicate CachesSized(t: Tree, k: Caches) {
    |k.val| == |k.write| == |k.vis| == |t.syms| && |k.selection| == |k.choiceVis| == |t.choices|
  }

  /** Every cached entry is what cache-free evaluation gives. The entries the source
      never invalidates are exempt: the visibility of a constant and that of a choice
      without choice symbols stay what they were when first read. */
  ghost predicate CachesOk(t: Tree, u: Users, sc: Scope, k: Caches)
    requires ChoicesOk(t) && Fits(t, u) && CachesSized(t, k)
  {
    && (forall s: nat :: s < |t.syms| ==> SymOk(t, u, sc, s, k.val[s], k.write[s], k.vis[s]))
    && (forall c: nat :: c < |t.choices| ==> ChoiceOk(t, u, sc, c, k.selection[c], k.choiceVis[c]))
  }

  // ---- Dropping cache entries ----

  function ReachAll(t: Tree, xs: set<nat>): set<nat>
    requires WellFormed(t)
  {
    set x, y | x in xs && x < |t.syms| && y in Reach(t, x) :: y
  }

  function DepAll(t: Tree, xs: set<nat>): set<nat>
    requires ChoicesOk(t)
  {
    set x, y | x in xs && y in Dep(t, x) :: y
  }

  /** What _get_dependent has collected after visiting some siblings. */
  function ReachVia(t: Tree, s: nat, siblings: set<nat>): set<nat>
    requires WellFormed(t)
  {
    var near := Dep(t, s) + DepAll(t, siblings);
    near + siblings + ReachAll(t, near)
  }

  lemma SiblingDep(t: Tree, s: nat, x: nat)
    requires ChoicesOk(t) && s < |t.syms| && x != s
    requires t.syms[s].choice.Some? && x in t.choices[t.syms[s].choice.value].actual
    ensures x < |t.syms| && Dep(t, x) <= NodeDep(t, s)
  {
    hide Reads, Dep;
    assert x in Siblings(t, s);
  }

  /** What GetDependent asks of the neighbourhood of s. */
  lemma Neighbours(t: Tree, s: nat)
    requires WellFormed(t) && s < |t.syms|
    ensures Dep(t, s) <= NodeDep(t, s)
    ensures forall x <- NodeDep(t, s) :: x < |t.syms| && t.rank[s] < t.rank[x]
    ensures t.syms[s].choice.None? ==> Siblings(t, s) == {}
    ensures t.syms[s].choice.Some? ==>
      && t.syms[s].choice.value < |t.choices|
      && var actual := t.choices[t.syms[s].choice.value].actual;
      && Visited(actual, |actual|, s) == Siblings(t, s)
      && forall x <- actual :: x != s ==> x < |t.syms| && Dep(t, x) <= NodeDep(t, s)
  {
    hide RanksOk, ModulesOk, TypesOk, Reads, Dep;
    forall x | x in NodeDep(t, s) ensures x < |t.syms| && t.rank[s] < t.rank[x] {
      NodeDepRanks(t, s, x);
    }
    if t.syms[s].choice.Some? {
      var actual := t.choices[t.syms[s].choice.value].actual;
      assert actual[..|actual|] == actual;
      forall x | x in actual && x != s ensures x < |t.syms| && Dep(t, x) <= NodeDep(t, s) {
        SiblingDep(t, s, x);
      }
    }
  }

  lemma ReachViaAdd(t: Tree, s: nat, siblings: set<nat>, x: nat)
    requires WellFormed(t)
    ensures ReachVia(t, s, siblings + {x}) == ReachVia(t, s, siblings) + {x} + Dep(t, x) + ReachAll(t, Dep(t, x))
  {
    hide RanksOk, ModulesOk, TypesOk, ChoicesOk, Reads, Dep, Reach;
    var near := Dep(t, s) + DepAll(t, siblings);
    var near' := Dep(t, s) + DepAll(t, siblings + {x});
    assert near' == near + Dep(t, x);
    assert ReachAll(t, near') == ReachAll(t, near) + ReachAll(t, Dep(t, x));
  }

  lemma ReachViaSiblings(t: Tree, s: nat)
    requires WellFormed(t) && s < |t.syms|
    ensures ReachVia(t, s, Siblings(t, s)) == Reach(t, s)
  {
    hide RanksOk, ModulesOk, TypesOk, ChoicesOk, Reads, Dep;
    var near := NodeDep(t, s);
    forall z | z in ReachAll(t, near) ensures z in Reach(t, s) {
      var x :| x in near && x < |t.syms| && z in Reach(t, x);
      ReachHas(t, s, x, z);
    }
  }

  lemma ReachViaNone(t: Tree, s: nat)
    requires WellFormed(t)
    ensures ReachVia(t, s, {}) == Dep(t, s) + ReachAll(t, Dep(t, s))
  {
    hide RanksOk, ModulesOk, TypesOk, ChoicesOk, Reads, Dep, Reach;
    assert DepAll(t, {}) == {};
    assert Dep(t, s) + DepAll(t, {}) == Dep(t, s);
  }

  /** The siblings of s among the first i members. */
  function Visited(actual: seq<nat>, i: nat, s: nat): (r: set<nat>)
    requires i <= |actual|
    ensures forall x :: x in r <==> x != s && x in actual[..i]
  {
    if i == 0 then {} else
      assert actual[..i] == actual[..i - 1] + [actual[i - 1]];
      Visited(actual, i - 1, s) + (if actual[i - 1] != s then {actual[i - 1]} else {})
  }

  function UpTo(n: nat): (r: set<nat>)
    ensures forall x: nat :: x in r <==> x < n
  {
    if n == 0 then {} else UpTo(n - 1) + {n - 1}
  }

  /** The columns after Symbol._invalidate on s. */
  function Drop(t: Tree, k: Caches, s: nat): Caches
    requires ChoicesOk(t) && CachesSized(t, k) && s < |t.syms|
  {
    var y := t.syms[s];
    if y.special.Some? then k
    else
      var k' := k.(val := k.val[s := None], vis := k.vis[s := None]);
      if y.choice.None? then k'
      else k'.(selection := k'.selection[y.choice.value := None], choiceVis := k'.choiceVis[y.choice.value := None])
  }

  /** The choice has a member among xs whose entries can be dropped. */
  predicate Touched(t: Tree, xs: set<nat>, c: nat) {
    exists s :: s in xs && s < |t.syms| && t.syms[s].special.None? && t.syms[s].choice == Some(c)
  }

  /** The columns after Symbol._invalidate on every symbol of xs, in whatever order. */
  function DropSet(t: Tree, k: Caches, xs: set<nat>): (r: Caches)
    requires CachesSized(t, k)
    ensures CachesSized(t, r)
  {
    Caches(
      seq(|t.syms|, s requires 0 <= s < |t.syms| =>
        if s in xs && t.syms[s].special.None? then None else k.val[s]),
      k.write,
      seq(|t.syms|, s requires 0 <= s < |t.syms| =>
        if s in xs && t.syms[s].special.None? then None else k.vis[s]),
      seq(|t.choices|, c requires 0 <= c < |t.choices| => if Touched(t, xs, c) then None else k.selection[c]),
      seq(|t.choices|, c requires 0 <= c < |t.choices| => if Touched(t, xs, c) then None else k.choiceVis[c]))
  }

  lemma DropNothing(t: Tree, k: Caches)
    requires CachesSized(t, k)
    ensures DropSet(t, k, {}) == k
  {
    var r := DropSet(t, k, {});
    assert r.val == k.val && r.vis == k.vis && r.selection == k.selection && r.choiceVis == k.choiceVis;
  }

  lemma TouchedMore(t: Tree, xs: set<nat>, s: nat, c: nat)
    requires s < |t.syms|
    ensures Touched(t, xs + {s}, c) <==>
      Touched(t, xs, c) || (t.syms[s].special.None? && t.syms[s].choice == Some(c))
  {
    if Touched(t, xs, c) {
      var x :| x in xs && x < |t.syms| && t.syms[x].special.None? && t.syms[x].choice == Some(c);
      assert x in xs + {s};
    }
    if t.syms[s].special.None? && t.syms[s].choice == Some(c) {
      assert s in xs + {s};
    }
  }

  /** Symbols may be dropped one by one. */
  lemma DropMore(t: Tree, k: Caches, xs: set<nat>, s: nat)
    requires ChoicesOk(t) && CachesSized(t, k) && s < |t.syms|
    ensures Drop(t, DropSet(t, k, xs), s) == DropSet(t, k, xs + {s})
  {
    var a, b := Drop(t, DropSet(t, k, xs), s), DropSet(t, k, xs + {s});
    forall c: nat | c < |t.choices|
      ensures a.selection[c] == b.selection[c] && a.choiceVis[c] == b.choiceVis[c]
    {
      TouchedMore(t, xs, s, c);
    }
    assert a.val == b.val && a.vis == b.vis;
    assert a.selection == b.selection && a.choiceVis == b.choiceVis && a.write == b.write;
  }

  lemma DropOne(t: Tree, k: Caches, s: nat)
    requires ChoicesOk(t) && CachesSized(t, k) && s < |t.syms|
    ensures Drop(t, k, s) == DropSet(t, k, {s})
  {
    DropNothing(t, k);
    DropMore(t, k, {}, s);
    assert {} + {s} == {s};
  }

  // ---- Entries no assignment drops ----

  predicate SymFrozen(t: Tree, vis: seq<Option<Tri>>, s: nat) {
    s < |t.syms| && s < |vis| && t.syms[s].special.Some? && vis[s].Some?
  }

  predicate ChoiceFrozen(t: Tree, vis: seq<Option<Tri>>, c: nat) {
    c < |t.choices| && c < |vis| && t.choices[c].actual == [] && vis[c].Some?
  }

  function FrostOf(t: Tree, vis: seq<Option<Tri>>, choiceVis: seq<Option<Tri>>): Frost {
    Frost(map s: nat | s < |vis| && SymFrozen(t, vis, s) :: vis[s].value,
          map c: nat | c < |choiceVis| && ChoiceFrozen(t, choiceVis, c) :: choiceVis[c].value)
  }

  lemma FrostStore(t: Tree, vis: seq<Option<Tri>>, choiceVis: seq<Option<Tri>>, s: nat, v: Tri)
    requires s < |t.syms| == |vis|
    ensures FrostOf(t, vis[s := Some(v)], choiceVis) == FreezeSym(t, FrostOf(t, vis, choiceVis), s, v)
  {
    assert FrostOf(t, vis[s := Some(v)], choiceVis).syms == FreezeSym(t, FrostOf(t, vis, choiceVis), s, v).syms;
  }

  lemma FrostStoreChoice(t: Tree, vis: seq<Option<Tri>>, choiceVis: seq<Option<Tri>>, c: nat, v: Tri)
    requires c < |t.choices| == |choiceVis|
    ensures FrostOf(t, vis, choiceVis[c := Some(v)]) == FreezeChoice(t, FrostOf(t, vis, choiceVis), c, v)
  {
    assert FrostOf(t, vis, choiceVis[c := Some(v)]).choices ==
      FreezeChoice(t, FrostOf(t, vis, choiceVis), c, v).choices;
  }

  lemma ReachInRange(t: Tree, s: nat)
    requires WellFormed(t) && s < |t.syms|
    ensures forall x <- Reach(t, s) :: x < |t.syms|
    decreases t.bound - t.rank[s]
  {
    hide RanksOk, ModulesOk, TypesOk, Reads;
    forall x | x in Reach(t, s) ensures x < |t.syms| {
      if x in NodeDep(t, s) {
        NodeDepRanks(t, s, x);
      } else if x !in Siblings(t, s) {
        var via :| via in NodeDep(t, s) && via < |t.syms| && t.rank[s] < t.rank[via] && x in Reach(t, via);
        ReachInRange(t, via);
      }
    }
  }

  lemma {:induction false} FrostOutlastsDrops(t: Tree, k: Caches, xs: set<nat>)
    requires ChoicesOk(t) && CachesSized(t, k)
    ensures FrostOf(t, DropSet(t, k, xs).vis, DropSet(t, k, xs).choiceVis) == FrostOf(t, k.vis, k.choiceVis)
  {
    var r := DropSet(t, k, xs);
    forall c: nat | c < |t.choices| && t.choices[c].actual == [] ensures r.choiceVis[c] == k.choiceVis[c] {
      EmptyUntouched(t, xs, c);
    }
    hide Touched;
    assert FrostOf(t, r.vis, r.choiceVis).syms == FrostOf(t, k.vis, k.choiceVis).syms;
    assert FrostOf(t, r.vis, r.choiceVis).choices == FrostOf(t, k.vis, k.choiceVis).choices;
  }

  // ---- Coherence after an assignment ----

  /** The symbols an assignment to s can change. */
  ghost function Changed(t: Tree, s: nat): set<nat>
    requires WellFormed(t) && s < |t.syms|
  {
    if t.syms[s].special.Some? then {} else Affected(t, s)
  }

  lemma AssignFrame(t: Tree, u: Users, s: nat, v: string)
    requires WellFormed(t) && Fits(t, u) && s < |t.syms|
    ensures Fits(t, Assign(t, u, s, v)) && AgreeOutside(t, u, Assign(t, u, s, v), Changed(t, s))
  {
    hide RanksOk, ModulesOk, TypesOk, NodeDep;
    forall x: nat | x < |t.syms| && x !in Changed(t, s) && t.syms[x].special.None?
      ensures SameUser(t, u, Assign(t, u, s, v), x)
    {
      assert x !in Siblings(t, s);
    }
  }

  lemma UnassignFrame(t: Tree, u: Users, s: nat)
    requires WellFormed(t) && Fits(t, u) && s < |t.syms|
    ensures Fits(t, Unassign(t, u, s)) && AgreeOutside(t, u, Unassign(t, u, s), Changed(t, s))
  {
    hide RanksOk, ModulesOk, TypesOk, NodeDep;
    forall x: nat | x < |t.syms| && x !in Changed(t, s) && t.syms[x].special.None?
      ensures SameUser(t, u, Unassign(t, u, s), x)
    {
      assert x !in Siblings(t, s);
    }
  }

  lemma EmptySelection(t: Tree, u: Users, sc: Scope, c: nat)
    requires ChoicesOk(t) && Fits(t, u) && c < |t.choices| && t.choices[c].actual == []
    ensures Selection(t, u, sc, c) == None
  {
  }

  /** MODULES affects nothing but itself through dependencies unless it is assigned. */
  lemma ModulesUnaffected(t: Tree, s: nat)
    requires WellFormed(t) && s < |t.syms| && t.modules.Some? && t.modules.value != s
    ensures Constant(t.syms[s]) || t.modules.value !in Affected(t, s)
  {
    hide RanksOk, TypesOk, ChoicesOk, Reads, NodeDep;
    if t.modules.value in Affected(t, s) && !Constant(t.syms[s]) {
      AffectedRanksAbove(t, s, t.modules.value);
    }
  }

  lemma AffectedRanksAbove(t: Tree, s: nat, x: nat)
    requires WellFormed(t) && s < |t.syms| && x in Affected(t, s)
    ensures x < |t.syms| && t.rank[s] <= t.rank[x]
    decreases t.bound - t.rank[s]
  {
    hide RanksOk, ModulesOk, TypesOk, Reads, Reach;
    var via := ReachCases(t, s, x);
    if x != s {
      if x in Siblings(t, s) {
        MatesShareRank(t, s, x);
      } else {
        AffectedRanksAbove(t, via, x);
      }
    }
  }

  lemma ChangedClosed(t: Tree, s: nat)
    requires WellFormed(t) && s < |t.syms|
    ensures Changed(t, s) <= Affected(t, s) && Closed(t, Changed(t, s))
    ensures t.modules.Some? && t.modules != Some(s) ==> t.modules.value !in Changed(t, s)
  {
    hide RanksOk, ModulesOk, TypesOk, Reads, NodeDep, Reach, Affected;
    if t.syms[s].special.None? {
      ReachClosed(t, s);
      if t.modules.Some? && t.modules != Some(s) {
        ModulesUnaffected(t, s);
      }
    }
  }

  /** Outside a, values, visibilities and selections are the same under both assignments. */
  ghost predicate Unmoved(t: Tree, u1: Users, u2: Users, a: set<nat>)
    requires WellFormed(t) && Fits(t, u1) && Fits(t, u2)
  {
    var sc1, sc2 := MeaningOf(t, u1), MeaningOf(t, u2);
    && (forall s: nat :: s < |t.syms| && s !in a && t.syms[s].special.None? ==>
          SymbolOut(t, u1, sc1, s) == SymbolOut(t, u2, sc2, s) && SymVis(t, sc1, s) == SymVis(t, sc2, s))
    && (forall c: nat :: c < |t.choices| && t.choices[c].actual != [] && !Touched(t, a, c) ==>
          Selection(t, u1, sc1, c) == Selection(t, u2, sc2, c) && ChoiceVis(t, sc1, c) == ChoiceVis(t, sc2, c))
  }

  /** All there is to cache under an assignment. */
  ghost function FullCaches(t: Tree, u: Users): (k: Caches)
    requires WellFormed(t) && Fits(t, u)
    ensures CachesSized(t, k)
  {
    var sc := MeaningOf(t, u);
    Caches(
      seq(|t.syms|, s requires 0 <= s < |t.syms| => Some(SymbolOut(t, u, sc, s).val)),
      seq(|t.syms|, s requires 0 <= s < |t.syms| => SymbolOut(t, u, sc, s).write),
      seq(|t.syms|, s requires 0 <= s < |t.syms| => Some(SymVis(t, sc, s))),
      seq(|t.choices|, c requires 0 <= c < |t.choices| => Some(Selection(t, u, sc, c))),
      seq(|t.choices|, c requires 0 <= c < |t.choices| => Some(ChoiceVis(t, sc, c))))
  }

  lemma FullCachesOk(t: Tree, u: Users)
    requires WellFormed(t) && Fits(t, u)
    ensures CachesOk(t, u, MeaningOf(t, u), FullCaches(t, u))
  {
    hide RanksOk, ModulesOk, TypesOk, Solve, SymVis, Selection, ChoiceVis;
  }

  /** When nothing moves outside a, dropping a keeps every cache right. */
  lemma UnmovedKeeps(t: Tree, u1: Users, u2: Users, a: set<nat>, k: Caches)
    requires WellFormed(t) && Fits(t, u1) && Fits(t, u2) && CachesSized(t, k)
    requires Unmoved(t, u1, u2, a) && CachesOk(t, u1, MeaningOf(t, u1), k)
    ensures CachesOk(t, u2, MeaningOf(t, u2), DropSet(t, k, a))
  {
    hide RanksOk, ModulesOk, TypesOk, Solve, SymVis, Selection, ChoiceVis, SymbolOut, Fits, Touched;
    var r := DropSet(t, k, a);
    forall s: nat | s < |t.syms|
      ensures SymOk(t, u2, MeaningOf(t, u2), s, r.val[s], r.write[s], r.vis[s])
    {
      assert SymOk(t, u1, MeaningOf(t, u1), s, k.val[s], k.write[s], k.vis[s]);
      if t.syms[s].special.Some? {
        SpecialOut(t, u1, MeaningOf(t, u1), s);
        SpecialOut(t, u2, MeaningOf(t, u2), s);
      }
    }
    forall c: nat | c < |t.choices|
      ensures ChoiceOk(t, u2, MeaningOf(t, u2), c, r.selection[c], r.choiceVis[c])
    {
      assert ChoiceOk(t, u1, MeaningOf(t, u1), c, k.selection[c], k.choiceVis[c]);
      if t.choices[c].actual == [] {
        EmptySelection(t, u1, MeaningOf(t, u1), c);
        EmptySelection(t, u2, MeaningOf(t, u2), c);
        EmptyUntouched(t, a, c);
      }
    }
  }

  lemma EmptyUntouched(t: Tree, a: set<nat>, c: nat)
    requires ChoicesOk(t) && c < |t.choices| && t.choices[c].actual == []
    ensures !Touched(t, a, c)
  {
  }

  /** And only then: the full caches go wrong as soon as something has moved. */
  lemma MovedBreaks(t: Tree, u1: Users, u2: Users, a: set<nat>)
    requires WellFormed(t) && Fits(t, u1) && Fits(t, u2)
    requires CachesOk(t, u2, MeaningOf(t, u2), DropSet(t, FullCaches(t, u1), a))
    ensures Unmoved(t, u1, u2, a)
  {
    hide RanksOk, ModulesOk, TypesOk, Solve, SymVis, Selection, ChoiceVis, SymbolOut, Fits, Touched;
    var k := FullCaches(t, u1);
    var r := DropSet(t, k, a);
    forall s: nat | s < |t.syms| && s !in a && t.syms[s].special.None?
      ensures SymbolOut(t, u1, MeaningOf(t, u1), s) == SymbolOut(t, u2, MeaningOf(t, u2), s)
      ensures SymVis(t, MeaningOf(t, u1), s) == SymVis(t, MeaningOf(t, u2), s)
    {
      assert SymOk(t, u2, MeaningOf(t, u2), s, r.val[s], r.write[s], r.vis[s]);
    }
    forall c: nat | c < |t.choices| && t.choices[c].actual != [] && !Touched(t, a, c)
      ensures Selection(t, u1, MeaningOf(t, u1), c) == Selection(t, u2, MeaningOf(t, u2), c)
      ensures ChoiceVis(t, MeaningOf(t, u1), c) == ChoiceVis(t, MeaningOf(t, u2), c)
    {
      assert ChoiceOk(t, u2, MeaningOf(t, u2), c, r.selection[c], r.choiceVis[c]);
    }
  }

  /** Dropping a keeps every right cache right exactly when nothing outside a has moved. */
  lemma DroppingSufficesExactly(t: Tree, u1: Users, u2: Users, a: set<nat>)
    requires WellFormed(t) && Fits(t, u1) && Fits(t, u2)
    ensures Unmoved(t, u1, u2, a) <==>
      forall k: Caches :: CachesSized(t, k) && CachesOk(t, u1, MeaningOf(t, u1), k) ==>
        CachesOk(t, u2, MeaningOf(t, u2), DropSet(t, k, a))
  {
    hide RanksOk, ModulesOk, TypesOk, Solve, Unmoved, CachesOk, ChoicesOk, Fits, FullCaches, DropSet;
    if Unmoved(t, u1, u2, a) {
      forall k: Caches | CachesSized(t, k) && CachesOk(t, u1, MeaningOf(t, u1), k)
        ensures CachesOk(t, u2, MeaningOf(t, u2), DropSet(t, k, a))
      {
        UnmovedKeeps(t, u1, u2, a, k);
      }
    } else {
      FullCachesOk(t, u1);
      if CachesOk(t, u2, MeaningOf(t, u2), DropSet(t, FullCaches(t, u1), a)) {
        MovedBreaks(t, u1, u2, a);
      }
    }
  }

  /** An assignment to s moves nothing outside what s reaches, as long as MODULES is on or off
      as before. */
  lemma NothingMoves(t: Tree, u1: Users, u2: Users, s: nat)
    requires WellFormed(t) && Fits(t, u1) && Fits(t, u2) && s < |t.syms|
    requires AgreeOutside(t, u1, u2, Changed(t, s))
    requires t.modules != Some(s) || ModulesOn(t, Solve(t, u1)) == ModulesOn(t, Solve(t, u2))
    ensures Unmoved(t, u1, u2, Affected(t, s))
  {
    hide RanksOk, ModulesOk, TypesOk, Reads, Closed, Fits, Affected, Solve, AgreeOutside;
    hide SameOutside, Changed, Solution, SymbolOut, SymVis, Selection, ChoiceVis, Touched;
    ChangedClosed(t, s);
    SolveIsSolution(t, u1);
    SolveIsSolution(t, u2);
    var a := Changed(t, s);
    FrameScopes(t, u1, Solve(t, u1), u2, Solve(t, u2), a);
    var sc1, sc2 := MeaningOf(t, u1), MeaningOf(t, u2);
    forall x: nat | x < |t.syms| && x !in Affected(t, s) && t.syms[x].special.None?
      ensures SymbolOut(t, u1, sc1, x) == SymbolOut(t, u2, sc2, x) && SymVis(t, sc1, x) == SymVis(t, sc2, x)
    {
      FrameSymbol(t, u1, u2, sc1, sc2, a, x);
    }
    forall c: nat | c < |t.choices| && t.choices[c].actual != [] && !Touched(t, Affected(t, s), c)
      ensures Selection(t, u1, sc1, c) == Selection(t, u2, sc2, c) && ChoiceVis(t, sc1, c) == ChoiceVis(t, sc2, c)
    {
      UntouchedFirst(t, Affected(t, s), c);
      FrameChoice(t, u1, u2, sc1, sc2, a, c);
    }
  }

  lemma UntouchedFirst(t: Tree, a: set<nat>, c: nat)
    requires WellFormed(t) && c < |t.choices| && t.choices[c].actual != [] && !Touched(t, a, c)
    ensures t.choices[c].actual[0] !in a
  {
    var first := t.choices[c].actual[0];
    assert t.syms[first].choice == Some(c);
    MemberFacts(t, first);
  }

  /** Dropping what an assignment to s reaches leaves a coherent cache. */
  lemma StaysCoherent(t: Tree, u1: Users, u2: Users, s: nat, k: Caches)
    requires WellFormed(t) && Fits(t, u1) && Fits(t, u2) && s < |t.syms|
    requires AgreeOutside(t, u1, u2, Changed(t, s))
    requires t.modules != Some(s) || ModulesOn(t, Solve(t, u1)) == ModulesOn(t, Solve(t, u2))
    requires CachesSized(t, k) && CachesOk(t, u1, MeaningOf(t, u1), k)
    ensures CachesOk(t, u2, MeaningOf(t, u2), DropSet(t, k, Affected(t, s)))
  {
    hide RanksOk, ModulesOk, TypesOk, ChoicesOk, Solve, Unmoved, CachesOk, Affected, AgreeOutside, DropSet;
    NothingMoves(t, u1, u2, s);
    UnmovedKeeps(t, u1, u2, Affected(t, s), k);
  }

  /** Nothing but constants is cached, and what is never dropped. */
  ghost predicate Bare(t: Tree, k: Caches)
    requires ChoicesOk(t) && CachesSized(t, k)
  {
    && (forall s: nat :: s < |t.syms| ==>
          var y := t.syms[s];
          && (y.special.Some? || y.typ == UnknownType ==> !k.write[s])
          && (y.special.Some? ==> k.val[s] == y.special)
          && (y.special.None? ==> k.val[s] == None && k.vis[s] == None))
    && (forall c: nat :: c < |t.choices| ==>
          if t.choices[c].actual == [] then
            k.selection[c].Some? ==> k.selection[c].value == None && k.choiceVis[c].Some?
          else k.selection[c] == None && k.choiceVis[c] == None)
  }

  /** A bare cache is coherent whatever the assignment. */
  lemma BareOk(t: Tree, u: Users, k: Caches)
    requires WellFormed(t) && Fits(t, u) && CachesSized(t, k) && Bare(t, k)
    ensures CachesOk(t, u, MeaningOf(t, u), k)
  {
    hide RanksOk, ModulesOk, TypesOk, Fits, Solve, Selection, ChoiceVis;
    forall c: nat | c < |t.choices|
      ensures ChoiceOk(t, u, MeaningOf(t, u), c, k.selection[c], k.choiceVis[c])
    {
      if t.choices[c].actual == [] {
        EmptySelection(t, u, MeaningOf(t, u), c);
      }
    }
  }

  lemma AllDroppedBare(t: Tree, u: Users, k: Caches)
    requires WellFormed(t) && Fits(t, u) && CachesSized(t, k)
    requires CachesOk(t, u, MeaningOf(t, u), k)
    ensures Bare(t, DropSet(t, k, UpTo(|t.syms|)))
  {
    hide RanksOk, ModulesOk, TypesOk, Fits, Solve, Selection, ChoiceVis, SymbolOut, SymVis;
    var r := DropSet(t, k, UpTo(|t.syms|));
    forall c: nat | c < |t.choices|
      ensures if t.choices[c].actual == [] then
          r.selection[c].Some? ==> r.selection[c].value == None && r.choiceVis[c].Some?
        else r.selection[c] == None && r.choiceVis[c] == None
    {
      assert ChoiceOk(t, u, MeaningOf(t, u), c, k.selection[c], k.choiceVis[c]);
      if t.choices[c].actual == [] {
        EmptySelection(t, u, MeaningOf(t, u), c);
        EmptyUntouched(t, UpTo(|t.syms|), c);
      } else {
        var first := t.choices[c].actual[0];
        MemberFacts(t, first);
        assert first in UpTo(|t.syms|) && t.syms[first].choice == Some(c);
      }
    }
    forall x: nat | x < |t.syms|
      ensures t.syms[x].special.Some? || t.syms[x].typ == UnknownType ==> !r.write[x]
      ensures t.syms[x].special.Some? ==> r.val[x] == t.syms[x].special
    {
      assert SymOk(t, u, MeaningOf(t, u), x, k.val[x], k.write[x], k.vis[x]);
    }
  }
}
