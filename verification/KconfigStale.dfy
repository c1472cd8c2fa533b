/** Three reads the invalidation does not cover, each with trees that show it
    (docs/bk7258/kconfiglib.py). */
module KconfigStale {
  import opened Options
  import opened Tristate
  import opened KconfigExpr
  import opened KconfigModel
  import opened KconfigTheory
  import opened KconfigProgram
  import opened KconfigCaches
  import opened KconfigFrozen

  /** A bool with an unconditional prompt and nothing else. */
  predicate FreeBool(y: Symbol) {
    && y.typ == BoolType && y.prompts == [Always] && y.defaults == [] && y.ranges == []
    && y.revDep == NO && y.choice.None? && y.special.None?
  }

  lemma FreeBoolReads(t: Tree, s: nat)
    requires s < |t.syms| && FreeBool(t.syms[s])
    ensures Reads(t, s) == OwnReads(t.syms[s]) == {}
  {
    assert [Always][1..] == [];
    assert CondsSyms([Always]) == CondSyms(Always) + CondsSyms([]);
  }

  lemma FreeBoolOut(t: Tree, u: Users, sc: Scope, s: nat)
    requires ChoicesOk(t) && Fits(t, u) && s < |t.syms| && FreeBool(t.syms[s])
    ensures u.vals[s] == None ==> SymbolOut(t, u, sc, s).val == "n"
    ensures u.vals[s] == Some("y") ==> SymbolOut(t, u, sc, s).val == "y"
  {
    assert [Always][1..] == [];
    assert PromptMax(sc, [Always]) == Y;
    assert EvalCond(sc, If(NO)) == N by { ReadShow(N); }
    ReadShow(Y);
  }

  lemma TwoSolve(t: Tree, u: Users, a: string, b: string)
    requires WellFormed(t) && Fits(t, u) && |t.syms| == 2
    requires SymbolOut(t, u, ScopeOf(t, map[0 := a, 1 := b]), 0).val == a
    requires SymbolOut(t, u, ScopeOf(t, map[0 := a, 1 := b]), 1).val == b
    ensures Solve(t, u) == map[0 := a, 1 := b]
  {
    hide RanksOk, ModulesOk, TypesOk, ChoicesOk, Fits, SymbolOut, Solve, ScopeOf;
    var vals := map[0 := a, 1 := b];
    assert Solution(t, u, vals);
    SolveIsSolution(t, u);
    SolutionUnique(t, u, Solve(t, u), vals);
  }

  // ---- unset_user_value on MODULES ----

  /** MODULES (0) is a free bool; T (1) is a tristate whose only property is "default m". */
  predicate ModulesShape(t: Tree) {
    && |t.syms| == 2 && |t.choices| == 0 && t.modules == Some(0) && t.rank == [0, 1] && t.bound == 2
    && FreeBool(t.syms[0])
    && var y := t.syms[1];
    && y.typ == TristateType && y.prompts == [] && y.defaults == [Default(Leaf(Text("m")), Always)]
    && y.ranges == [] && y.revDep == NO && y.choice.None? && y.special.None?
  }

  lemma ModulesShapeReads(t: Tree)
    requires ModulesShape(t)
    ensures Reads(t, 0) == Reads(t, 1) == {}
  {
    FreeBoolReads(t, 0);
    var d := t.syms[1].defaults;
    assert d[1..] == [];
    assert DefaultsSyms(d) == Syms(d[0].value) + CondSyms(d[0].cond) + DefaultsSyms([]);
  }

  lemma ModulesShapeOk(t: Tree, u: Users)
    requires ModulesShape(t) && u == Users([Some("y"), None], [], [])
    ensures WellFormed(t) && Fits(t, u) && 1 !in Affected(t, 0)
  {
    hide Reads;
    ModulesShapeReads(t);
    assert RanksOk(t);
    assert ModulesOk(t) by { FreeBoolReads(t, 0); assert "n" != "m" by { assert "n"[0] != "m"[0]; } }
    assert TypesOk(t);
    assert "y"[0] != "m"[0];
    assert NodeDep(t, 0) == {};
  }

  lemma TOut(t: Tree, u: Users, sc: Scope)
    requires ModulesShape(t) && ChoicesOk(t) && Fits(t, u)
    ensures SymbolOut(t, u, sc, 1).val == if sc.modules then "m" else "y"
  {
    var d := t.syms[1].defaults;
    assert d[1..] == [];
    ReadShow(M);
    ReadShow(N);
    assert FirstDefault(sc, d) == Some(d[0]);
    assert EvalCond(sc, If(NO)) == N;
  }

  lemma ModulesShapeSolved(t: Tree, u: Users)
    requires ModulesShape(t) && WellFormed(t) && Fits(t, u)
    ensures u.vals[0] == Some("y") ==> Solve(t, u) == map[0 := "y", 1 := "m"]
    ensures u.vals[0] == None ==> Solve(t, u) == map[0 := "n", 1 := "y"]
  {
    hide RanksOk, ModulesOk, TypesOk, SymbolOut, Solve, FreeBool;
    var on, off := ScopeOf(t, map[0 := "y", 1 := "m"]), ScopeOf(t, map[0 := "n", 1 := "y"]);
    assert "n"[0] != "y"[0];
    assert on.modules && !off.modules;
    TOut(t, u, on);
    TOut(t, u, off);
    FreeBoolOut(t, u, on, 0);
    FreeBoolOut(t, u, off, 0);
    if u.vals[0] == Some("y") {
      TwoSolve(t, u, "y", "m");
    } else if u.vals[0] == None {
      TwoSolve(t, u, "n", "y");
    }
  }

  /** Taking MODULES back changes T, and nothing drops it: T does not read MODULES as a
      dependency, and only set_user_value clears everything when the symbol is MODULES. */
  lemma UnsetModulesIsStale(t: Tree, u: Users, k: Caches)
    requires ModulesShape(t) && u == Users([Some("y"), None], [], [])
    requires WellFormed(t) && Fits(t, u) && CachesSized(t, k)
    requires CachesOk(t, u, MeaningOf(t, u), k) && k.val[1] == Some("m")
    ensures var after := DropSet(t, k, Affected(t, 0));
      && after.val[1] == Some("m")
      && Solve(t, Unassign(t, u, 0)) == map[0 := "n", 1 := "y"]
      && !CachesOk(t, Unassign(t, u, 0), MeaningOf(t, Unassign(t, u, 0)), after)
  {
    ModulesShapeOk(t, u);
    var v := Unassign(t, u, 0);
    var after := DropSet(t, k, Affected(t, 0));
    assert after.val[1] == k.val[1];
    hide RanksOk, ModulesOk, TypesOk, Solve, FreeBool, Affected, SymbolOut;
    ModulesShapeSolved(t, v);
    TOut(t, v, MeaningOf(t, v));
    assert "m"[0] != "y"[0];
    assert !SymOk(t, v, MeaningOf(t, v), 1, after.val[1], after.write[1], after.vis[1]);
  }

  /** Such caches are what a program that has read everything holds. */
  lemma UnsetModulesCanHappen(t: Tree, u: Users)
    requires ModulesShape(t) && u == Users([Some("y"), None], [], [])
    ensures WellFormed(t) && Fits(t, u) && t.modules == Some(0)
    ensures CachesOk(t, u, MeaningOf(t, u), FullCaches(t, u)) && FullCaches(t, u).val[1] == Some("m")
  {
    ModulesShapeOk(t, u);
    FullCachesOk(t, u);
    hide RanksOk, ModulesOk, TypesOk, Solve, FreeBool, SymbolOut;
    ModulesShapeSolved(t, u);
    TOut(t, u, MeaningOf(t, u));
  }

  /** For any configuration and symbol, MODULES included: unsetting it keeps every right cache right
      exactly when no value, visibility or selection outside what it reaches has moved. */
  lemma UnsetIsRightExactly(t: Tree, u: Users, s: nat)
    requires WellFormed(t) && Fits(t, u) && s < |t.syms|
    ensures var v := Unassign(t, u, s);
      Unmoved(t, u, v, Affected(t, s)) <==>
      forall k: Caches :: CachesSized(t, k) && CachesOk(t, u, MeaningOf(t, u), k) ==>
        CachesOk(t, v, MeaningOf(t, v), DropSet(t, k, Affected(t, s)))
    ensures OpSafe(t, u, UnsetOp(s)) ==> Unmoved(t, u, Unassign(t, u, s), Affected(t, s))
  {
    hide RanksOk, ModulesOk, TypesOk, ChoicesOk, Solve, Unmoved, CachesOk, Fits, Affected, DropSet, Unassign;
    DroppingSufficesExactly(t, u, Unassign(t, u, s), Affected(t, s));
    UnassignFrame(t, u, s);
    if OpSafe(t, u, UnsetOp(s)) {
      NothingMoves(t, u, Unassign(t, u, s), s);
    }
  }

  // ---- Visibilities that are never invalidated ----

  /** X (0) is a free bool; ENV (1) takes its value from the environment and has a prompt
      "if X"; the choice has no choice symbols and the same prompt. */
  predicate PromptShape(t: Tree) {
    && |t.syms| == 2 && |t.choices| == 1 && t.modules == None && t.rank == [0, 1] && t.bound == 2
    && FreeBool(t.syms[0]) && t.syms[0].defined
    && t.syms[1] == Symbol("ENV", StringType, [If(Leaf(Symb(0)))], [], [], NO, None, Some("v"), true)
    && t.choices[0] == Choice(BoolType, [If(Leaf(Symb(0)))], [], false, [])
  }

  lemma IfXSyms()
    ensures CondsSyms([If(Leaf(Symb(0)))]) == {0}
  {
    var c := [If(Leaf(Symb(0)))];
    assert c[1..] == [];
    assert CondsSyms(c) == CondSyms(c[0]) + CondsSyms([]);
  }

  lemma IfXVisibility(sc: Scope)
    requires 0 in sc.tri && 0 in sc.vals
    ensures sc.vals[0] == "y" ==> PromptMax(sc, [If(Leaf(Symb(0)))]) == Y
    ensures sc.vals[0] == "n" ==> PromptMax(sc, [If(Leaf(Symb(0)))]) == N
  {
    var c := [If(Leaf(Symb(0)))];
    assert c[1..] == [];
    assert PromptMax(sc, c) == Max(EvalCond(sc, c[0]), PromptMax(sc, []));
    assert "n"[0] != "y"[0] && "n"[0] != "m"[0];
  }

  lemma PromptShapeOk(t: Tree, u: Users)
    requires PromptShape(t) && u == Users([Some("y"), None], [None], [None])
    ensures WellFormed(t) && Fits(t, u) && Reads(t, 1) == {0} && 1 in Affected(t, 0)
  {
    FreeBoolReads(t, 0);
    IfXSyms();
    assert ChoicesOk(t);
    assert Reads(t, 1) == {0};
    assert ChoiceReads(t.choices[0]) == {0};
    hide Reads, ChoiceReads;
    assert RanksOk(t);
    assert TypesOk(t);
    assert 1 in NodeDep(t, 0);
  }

  lemma PromptShapeSolved(t: Tree, u: Users)
    requires PromptShape(t) && WellFormed(t) && Fits(t, u)
    ensures u.vals[0] == Some("y") ==> Solve(t, u) == map[0 := "y", 1 := "v"]
    ensures u.vals[0] == None ==> Solve(t, u) == map[0 := "n", 1 := "v"]
  {
    hide RanksOk, ModulesOk, TypesOk, SymbolOut, Solve, FreeBool;
    var on, off := ScopeOf(t, map[0 := "y", 1 := "v"]), ScopeOf(t, map[0 := "n", 1 := "v"]);
    SpecialOut(t, u, on, 1);
    SpecialOut(t, u, off, 1);
    FreeBoolOut(t, u, on, 0);
    FreeBoolOut(t, u, off, 0);
    if u.vals[0] == Some("y") {
      TwoSolve(t, u, "y", "v");
    } else if u.vals[0] == None {
      TwoSolve(t, u, "n", "v");
    }
  }

  lemma PromptMaxes(t: Tree, u: Users)
    requires PromptShape(t) && u == Users([Some("y"), None], [None], [None])
    ensures WellFormed(t) && Fits(t, u)
    ensures PromptMax(MeaningOf(t, u), [If(Leaf(Symb(0)))]) == Y
    ensures PromptMax(MeaningOf(t, Unassign(t, u, 0)), [If(Leaf(Symb(0)))]) == N
  {
    PromptShapeOk(t, u);
    hide RanksOk, ModulesOk, TypesOk, Solve, PromptMax;
    PromptShapeSolved(t, u);
    PromptShapeSolved(t, Unassign(t, u, 0));
    IfXVisibility(MeaningOf(t, u));
    IfXVisibility(MeaningOf(t, Unassign(t, u, 0)));
  }

  lemma SetX(t: Tree)
    requires PromptShape(t) && WellFormed(t)
    ensures Fine(t, []) && Fine(t, [SetOp(0, "y")])
    ensures After(t, []) == Users([None, None], [None], [None])
    ensures After(t, [SetOp(0, "y")]) == Users([Some("y"), None], [None], [None])
  {
    FineNothing(t);
    assert After(t, []) == Users([None, None], [None], [None]);
    assert ValidFor(t, 0, "y");
    hide RanksOk, ModulesOk, TypesOk, ChoicesOk, Fine, After;
    FineMore(t, [], SetOp(0, "y"));
    assert [] + [SetOp(0, "y")] == [SetOp(0, "y")];
  }

  /** ENV's prompt, and the empty choice's, are hidden until X is set; what was read before stays. */
  lemma FrozenReadsGoStale(t: Tree, read: Op)
    requires PromptShape(t) && (read == VisibilityOp(1) || read == ChoiceVisibilityOp(0))
    ensures WellFormed(t) && Exempt(t, read)
    ensures var all := [read] + [SetOp(0, "y")] + [read];
      && Fine(t, all)
      && Answers(t, Unset(t), NoFrost, all)[2] == VisibilityIs(N)
      && Replies(t, Unset(t), all)[2] == VisibilityIs(Y)
  {
    PromptShapeOk(t, Users([Some("y"), None], [None], [None]));
    assert Exempt(t, read);
    hide WellFormed, PromptShape, Exempt, After, VisAfter, OpsSafe;
    SetX(t);
    PromptVis(t, read);
    ReadAround(t, [SetOp(0, "y")], read);
  }

  lemma PromptVis(t: Tree, read: Op)
    requires PromptShape(t) && WellFormed(t) && Fine(t, []) && Fine(t, [SetOp(0, "y")])
    requires read == VisibilityOp(1) || read == ChoiceVisibilityOp(0)
    requires After(t, []) == Users([None, None], [None], [None])
    requires After(t, [SetOp(0, "y")]) == Users([Some("y"), None], [None], [None])
    ensures VisAfter(t, [], read) == N && VisAfter(t, [SetOp(0, "y")], read) == Y
  {
    var u := Users([Some("y"), None], [None], [None]);
    assert Unassign(t, u, 0) == Users([None, None], [None], [None]);
    hide RanksOk, ModulesOk, TypesOk, Fine, After, Solve, PromptMax, FreeBool;
    PromptMaxes(t, u);
  }

  /** The visibility of such a constant is read wrong by some program. */
  lemma ConstantVisibilityIsStale(t: Tree)
    requires PromptShape(t)
    ensures WellFormed(t) && Exempt(t, VisibilityOp(1))
    ensures !Steady(t, VisibilityOp(1)) && !NeverStale(t, VisibilityOp(1))
  {
    StaleRead(t, VisibilityOp(1));
  }

  /** And so is that of such a choice. */
  lemma EmptyChoiceVisibilityIsStale(t: Tree)
    requires PromptShape(t)
    ensures WellFormed(t) && Exempt(t, ChoiceVisibilityOp(0))
    ensures !Steady(t, ChoiceVisibilityOp(0)) && !NeverStale(t, ChoiceVisibilityOp(0))
  {
    StaleRead(t, ChoiceVisibilityOp(0));
  }

  lemma StaleRead(t: Tree, read: Op)
    requires PromptShape(t) && (read == VisibilityOp(1) || read == ChoiceVisibilityOp(0))
    ensures WellFormed(t) && Exempt(t, read) && !Steady(t, read) && !NeverStale(t, read)
  {
    FrozenReadsGoStale(t, read);
    SetX(t);
    PromptVis(t, read);
    hide WellFormed, Fine, After, FreshVis, PromptShape;
    assert VisAfter(t, [SetOp(0, "y")], read) != VisAfter(t, [], read);
    FrozenIsHarmlessExactly(t, read);
  }
}
