/** What the values of a configuration mean, law by law (docs/bk7258/kconfiglib.py). */
module KconfigLaws {
  import opened Options
  import opened Tristate
  import opened KconfigExpr
  import opened KconfigModel
  import opened KconfigTheory
  import opened KconfigProgram

  // ---- Expressions ----

  /** && is worth the least of its arguments. */
  lemma {:induction false} AndIsLeast(sc: Scope, es: seq<Expr>)
    ensures forall i :: 0 <= i < |es| ==> !Less(Eval(sc, es[i]), Eval(sc, And(es)))
    ensures Eval(sc, And(es)) == Y || exists i :: 0 <= i < |es| && Eval(sc, es[i]) == Eval(sc, And(es))
  {
    assert Eval(sc, And(es)) == EvalMinAll(sc, es);
    if es != [] {
      AndIsLeast(sc, es[1..]);
      assert Eval(sc, And(es[1..])) == EvalMinAll(sc, es[1..]);
      assert forall i :: 1 <= i < |es| ==> es[i] == es[1..][i - 1];
      assert forall i :: 0 <= i < |es[1..]| ==> es[1..][i] == es[i + 1];
    }
  }

  /** || is worth the greatest. */
  lemma {:induction false} OrIsGreatest(sc: Scope, es: seq<Expr>)
    ensures forall i :: 0 <= i < |es| ==> !Less(Eval(sc, Or(es)), Eval(sc, es[i]))
    ensures Eval(sc, Or(es)) == N || exists i :: 0 <= i < |es| && Eval(sc, es[i]) == Eval(sc, Or(es))
  {
    assert Eval(sc, Or(es)) == EvalMaxAll(sc, es);
    if es != [] {
      OrIsGreatest(sc, es[1..]);
      assert Eval(sc, Or(es[1..])) == EvalMaxAll(sc, es[1..]);
      assert forall i :: 1 <= i < |es| ==> es[i] == es[1..][i - 1];
      assert forall i :: 0 <= i < |es[1..]| ==> es[1..][i] == es[i + 1];
    }
  }

  /** ! turns the order round, and twice is nothing; != is the contrary of =. */
  lemma NotReverses(sc: Scope, a: Expr, b: Expr, l: Operand, r: Operand)
    ensures Less(Eval(sc, a), Eval(sc, b)) ==> Less(Eval(sc, Not(b)), Eval(sc, Not(a)))
    ensures Eval(sc, Not(Not(a))) == Eval(sc, a)
    ensures Eval(sc, Unequal(l, r)) == Eval(sc, Not(Equal(l, r)))
    ensures Eval(sc, Equal(l, r)) == if ValueOf(sc.vals, l) == ValueOf(sc.vals, r) then Y else N
  {
    assert Eval(sc, Not(a)) == (match Eval(sc, a) case Y => N case M => M case N => Y);
  }

  /** A symbol in an expression is worth its value if it is a bool or tristate and n otherwise; a text
      counts as the tristate it spells, n if none. In comparisons, all go by their values. */
  lemma OperandsMean(t: Tree, u: Users, s: nat, text: string)
    requires WellFormed(t) && Fits(t, u) && s < |t.syms|
    ensures var sc := MeaningOf(t, u);
      && Eval(sc, Leaf(Symb(s))) ==
           (if t.syms[s].typ != BoolType && t.syms[s].typ != TristateType then N
            else if Worth(t, u, s) == "y" then Y else if Worth(t, u, s) == "m" then M else N)
      && Eval(sc, Leaf(Text(text))) == (if text == "y" then Y else if text == "m" then M else N)
      && ValueOf(sc.vals, Text(text)) == text
  {
    hide WellFormed, Fits, Solve;
  }

  /** Modules are on exactly if there is a MODULES symbol worth y; while they are off, no condition is m. */
  lemma ModulesDecide(t: Tree, u: Users, c: Cond)
    requires WellFormed(t) && Fits(t, u)
    ensures var sc := MeaningOf(t, u);
      && (sc.modules <==> t.modules.Some? && t.modules.value < |t.syms| && Worth(t, u, t.modules.value) == "y")
      && (!sc.modules ==> EvalCond(sc, c) != M)
      && (c.If? && (sc.modules || Eval(sc, c.expr) != M) ==> EvalCond(sc, c) == Eval(sc, c.expr))
  {
    hide RanksOk, TypesOk, ChoicesOk, Fits, Solve;
    assert t.modules.Some? ==> t.modules.value < |t.syms|;
  }

  // ---- Visibility ----

  predicate Hidden(sc: Scope, prompts: seq<Cond>) {
    forall i :: 0 <= i < |prompts| ==> EvalCond(sc, prompts[i]) == N
  }

  predicate Full(sc: Scope, prompts: seq<Cond>) {
    exists i :: 0 <= i < |prompts| && EvalCond(sc, prompts[i]) == Y
  }

  lemma {:induction false} PromptsDecide(sc: Scope, prompts: seq<Cond>)
    ensures PromptMax(sc, prompts) == N <==> Hidden(sc, prompts)
    ensures PromptMax(sc, prompts) == Y <==> Full(sc, prompts)
  {
    if prompts != [] {
      PromptsDecide(sc, prompts[1..]);
      assert forall i :: 1 <= i < |prompts| ==> prompts[i] == prompts[1..][i - 1];
      assert forall i :: 0 <= i < |prompts[1..]| ==> prompts[1..][i] == prompts[i + 1];
    }
  }

  function Visible(t: Tree, u: Users, s: nat): Tri
    requires WellFormed(t) && Fits(t, u) && s < |t.syms|
  {
    Reply(t, u, VisibilityOp(s)).vis
  }

  function ChoiceVisible(t: Tree, u: Users, c: nat): Tri
    requires WellFormed(t) && Fits(t, u) && c < |t.choices|
  {
    Reply(t, u, ChoiceVisibilityOp(c)).vis
  }

  /** A choice shows as far as its most open prompt, and fully if it is no tristate choice. */
  lemma ChoiceVisibility(t: Tree, u: Users, c: nat)
    requires WellFormed(t) && Fits(t, u) && c < |t.choices|
    ensures var sc, ch := MeaningOf(t, u), t.choices[c];
      && (ChoiceVisible(t, u, c) == N <==> Hidden(sc, ch.prompts))
      && (ChoiceVisible(t, u, c) == Y <==>
            if ch.typ == TristateType then Full(sc, ch.prompts) else !Hidden(sc, ch.prompts))
  {
    hide WellFormed, Fits, Hidden, Full, MeaningOf, ChoiceVis;
    ChoiceVisLaw(t, MeaningOf(t, u), c);
  }

  lemma ChoiceVisLaw(t: Tree, sc: Scope, c: nat)
    requires c < |t.choices|
    ensures var ch := t.choices[c];
      && (ChoiceVis(t, sc, c) == N <==> Hidden(sc, ch.prompts))
      && (ChoiceVis(t, sc, c) == Y <==>
            if ch.typ == TristateType then Full(sc, ch.prompts) else !Hidden(sc, ch.prompts))
  {
    PromptsDecide(sc, t.choices[c].prompts);
    hide PromptMax, Hidden, Full;
  }

  /** A symbol shows as far as its most open prompt, and no further than its choice; fully, if it
      shows at all and is no tristate. */
  lemma Visibility(t: Tree, u: Users, s: nat)
    requires WellFormed(t) && Fits(t, u) && s < |t.syms|
    ensures var sc, y := MeaningOf(t, u), t.syms[s];
      y.choice.None? ==>
        && (Visible(t, u, s) == N <==> Hidden(sc, y.prompts))
        && (Visible(t, u, s) == Y <==>
              if y.typ == TristateType then Full(sc, y.prompts) else !Hidden(sc, y.prompts))
    ensures var sc, y := MeaningOf(t, u), t.syms[s];
      y.choice.Some? ==>
        && y.choice.value < |t.choices|
        && (Visible(t, u, s) == N <==>
              Hidden(sc, y.prompts) || ChoiceVisible(t, u, y.choice.value) == N)
        && (Visible(t, u, s) == Y <==>
              if y.typ == TristateType then Full(sc, y.prompts) && ChoiceVisible(t, u, y.choice.value) == Y
              else !Hidden(sc, y.prompts) && ChoiceVisible(t, u, y.choice.value) != N)
  {
    hide Fits, Hidden, Full, MeaningOf, ChoiceVis, SymVis, ModulesOk, RanksOk, TypesOk;
    assert Placed(t, s);
    SymVisLaw(t, MeaningOf(t, u), s);
  }

  lemma SymVisLaw(t: Tree, sc: Scope, s: nat)
    requires s < |t.syms| && Placed(t, s)
    ensures var y := t.syms[s];
      y.choice.None? ==>
        && (SymVis(t, sc, s) == N <==> Hidden(sc, y.prompts))
        && (SymVis(t, sc, s) == Y <==>
              if y.typ == TristateType then Full(sc, y.prompts) else !Hidden(sc, y.prompts))
    ensures var y := t.syms[s];
      y.choice.Some? ==>
        && (SymVis(t, sc, s) == N <==> Hidden(sc, y.prompts) || ChoiceVis(t, sc, y.choice.value) == N)
        && (SymVis(t, sc, s) == Y <==>
              if y.typ == TristateType then Full(sc, y.prompts) && ChoiceVis(t, sc, y.choice.value) == Y
              else !Hidden(sc, y.prompts) && ChoiceVis(t, sc, y.choice.value) != N)
  {
    PromptsDecide(sc, t.syms[s].prompts);
    hide PromptMax, Hidden, Full, ChoiceVis;
  }

  // ---- Bools and tristates ----

  /** The default at d is the first whose condition holds. */
  predicate FirstAt(sc: Scope, ds: seq<Default>, d: int) {
    && 0 <= d < |ds|
    && EvalCond(sc, ds[d].cond) != N
    && forall i :: 0 <= i < d ==> EvalCond(sc, ds[i].cond) == N
  }

  predicate NoneActive(sc: Scope, ds: seq<Default>) {
    forall i :: 0 <= i < |ds| ==> EvalCond(sc, ds[i].cond) == N
  }

  lemma {:induction false} FirstDefaultIs(sc: Scope, ds: seq<Default>)
    ensures FirstDefault(sc, ds).None? <==> NoneActive(sc, ds)
    ensures forall d :: FirstAt(sc, ds, d) ==> FirstDefault(sc, ds) == Some(ds[d])
  {
    if ds != [] {
      FirstDefaultIs(sc, ds[1..]);
      assert forall i :: 1 <= i < |ds| ==> ds[i] == ds[1..][i - 1];
      assert forall i :: 0 <= i < |ds[1..]| ==> ds[1..][i] == ds[i + 1];
      forall d | FirstAt(sc, ds, d) ensures FirstDefault(sc, ds) == Some(ds[d]) {
        if d > 0 {
          assert ds[0] == ds[0] && EvalCond(sc, ds[0].cond) == N;
          assert FirstAt(sc, ds[1..], d - 1);
        }
      }
    }
  }

  function Worth(t: Tree, u: Users, s: nat): string
    requires WellFormed(t) && Fits(t, u) && s < |t.syms|
  {
    ValueOf(MeaningOf(t, u).vals, Symb(s))
  }

  /** Whether the symbol gets a line in the .config file. */
  function Written(t: Tree, u: Users, s: nat): bool
    requires WellFormed(t) && Fits(t, u) && s < |t.syms|
  {
    Reply(t, u, ValueOp(s)).write
  }

  lemma Evaluated(t: Tree, u: Users, s: nat)
    requires WellFormed(t) && Fits(t, u) && s < |t.syms|
    ensures var out := SymbolOut(t, u, MeaningOf(t, u), s);
      Worth(t, u, s) == out.val && Written(t, u, s) == out.write
  {
    SolveIsSolution(t, u);
    hide RanksOk, ModulesOk, TypesOk, Solve, SymbolOut;
  }

  /** A bool or tristate of its own. */
  predicate Free(t: Tree, s: nat) {
    s < |t.syms| && IsTri(t.syms[s].typ) && t.syms[s].choice.None? && t.syms[s].special.None?
  }

  /** A tristate as a value of the type: a bool is never m. */
  function AsValue(typ: Type, v: Tri): string {
    if v == Y || (v == M && typ == BoolType) then "y" else if v == M then "m" else "n"
  }

  /** What the symbols that select s ask for. */
  function Selected(t: Tree, u: Users, s: nat): Tri
    requires WellFormed(t) && Fits(t, u) && s < |t.syms|
  {
    EvalCond(MeaningOf(t, u), If(t.syms[s].revDep))
  }

  lemma TriLaw(t: Tree, u: Users, sc: Scope, s: nat)
    requires ChoicesOk(t) && Fits(t, u) && Free(t, s)
    ensures Placed(t, s)
    ensures var out, typ, selected := SymbolOut(t, u, sc, s), t.syms[s].typ, EvalCond(sc, If(t.syms[s].revDep));
      var vis, dflt := SymVis(t, sc, s), FirstDefault(sc, t.syms[s].defaults);
      if vis != N && u.vals[s].Some? then
        out == Out(AsValue(typ, Max(Min(Promote(sc.modules, Read(u.vals[s].value)), vis), selected)), true)
      else if dflt.Some? then
        out == Out(AsValue(typ, Max(Min(EvalCond(sc, If(dflt.value.value)), EvalCond(sc, dflt.value.cond)),
                                    selected)), true)
      else out == Out(AsValue(typ, selected), vis != N || selected != N)
  {
    hide Fits, SymVis, FirstDefault, EvalCond, Min, Read, Promote;
  }

  lemma SelectedLaw(t: Tree, u: Users, sc: Scope, s: nat)
    requires ChoicesOk(t) && Fits(t, u) && Free(t, s)
    ensures var out, selected := SymbolOut(t, u, sc, s), EvalCond(sc, If(t.syms[s].revDep));
      && !Less(Read(out.val), selected)
      && (selected != N ==> out.write)
      && (selected == Y ==> out.val == "y")
  {
    ReadShow(Y);
    ReadShow(M);
    ReadShow(N);
    hide Fits, TriOwn, SymVis, FirstDefault, EvalCond, Read;
  }

  /** A selected symbol is never worth less than its selectors ask, whatever the user says. */
  lemma SelectsCount(t: Tree, u: Users, s: nat)
    requires WellFormed(t) && Fits(t, u) && Free(t, s)
    ensures !Less(Read(Worth(t, u, s)), Selected(t, u, s))
    ensures Selected(t, u, s) != N ==> Written(t, u, s)
    ensures Selected(t, u, s) == Y ==> Worth(t, u, s) == "y"
  {
    hide RanksOk, ModulesOk, TypesOk, Fits, MeaningOf, SymbolOut, Worth, Written, Read, EvalCond;
    Evaluated(t, u, s);
    SelectedLaw(t, u, MeaningOf(t, u), s);
  }

  /** A visible user value counts as far as the visibility goes. */
  lemma UserValueCounts(t: Tree, u: Users, s: nat)
    requires WellFormed(t) && Fits(t, u) && Free(t, s)
    requires Visible(t, u, s) != N && u.vals[s].Some?
    ensures var wanted := Min(Promote(MeaningOf(t, u).modules, Read(u.vals[s].value)), Visible(t, u, s));
      && Worth(t, u, s) == AsValue(t.syms[s].typ, Max(wanted, Selected(t, u, s)))
      && (Selected(t, u, s) == N ==> Worth(t, u, s) == AsValue(t.syms[s].typ, wanted))
    ensures Written(t, u, s)
  {
    hide RanksOk, ModulesOk, TypesOk, Fits, SymVis, MeaningOf, SymbolOut, FirstDefault, EvalCond;
    hide Worth, Written, Visible, AsValue, Min, Read, Promote;
    Evaluated(t, u, s);
    VisibleIs(t, u, s);
    TriLaw(t, u, MeaningOf(t, u), s);
  }

  /** Without one, the first active default counts as far as its condition goes. */
  lemma DefaultCounts(t: Tree, u: Users, s: nat, d: nat)
    requires WellFormed(t) && Fits(t, u) && Free(t, s)
    requires Visible(t, u, s) == N || u.vals[s].None?
    requires FirstAt(MeaningOf(t, u), t.syms[s].defaults, d)
    ensures var sc, dflt := MeaningOf(t, u), t.syms[s].defaults[d];
      var given := Min(EvalCond(sc, If(dflt.value)), EvalCond(sc, dflt.cond));
      && Worth(t, u, s) == AsValue(t.syms[s].typ, Max(given, Selected(t, u, s)))
      && (Selected(t, u, s) == N ==> Worth(t, u, s) == AsValue(t.syms[s].typ, given))
    ensures Written(t, u, s)
  {
    hide RanksOk, ModulesOk, TypesOk, Fits, SymVis, MeaningOf, SymbolOut, FirstDefault, EvalCond, FirstAt;
    hide Worth, Written, Visible, AsValue, Min, Read, Promote;
    Evaluated(t, u, s);
    VisibleIs(t, u, s);
    TriLaw(t, u, MeaningOf(t, u), s);
    FirstDefaultIs(MeaningOf(t, u), t.syms[s].defaults);
  }

  /** With neither, the symbol is worth what its selectors ask, n if nothing. */
  lemma NothingCounts(t: Tree, u: Users, s: nat)
    requires WellFormed(t) && Fits(t, u) && Free(t, s)
    requires Visible(t, u, s) == N || u.vals[s].None?
    requires NoneActive(MeaningOf(t, u), t.syms[s].defaults)
    ensures Worth(t, u, s) == AsValue(t.syms[s].typ, Selected(t, u, s))
    ensures Written(t, u, s) <==> Visible(t, u, s) != N || Selected(t, u, s) != N
  {
    hide RanksOk, ModulesOk, TypesOk, Fits, SymVis, MeaningOf, SymbolOut, FirstDefault, EvalCond, NoneActive;
    hide Worth, Written, Visible, AsValue, Min, Read, Promote;
    Evaluated(t, u, s);
    VisibleIs(t, u, s);
    TriLaw(t, u, MeaningOf(t, u), s);
    FirstDefaultIs(MeaningOf(t, u), t.syms[s].defaults);
  }

  // ---- Choices ----

  function Mode(t: Tree, u: Users, c: nat): Tri
    requires WellFormed(t) && Fits(t, u) && c < |t.choices|
  {
    Reply(t, u, ModeOp(c)).mode
  }

  function Chosen(t: Tree, u: Users, c: nat): Option<nat>
    requires WellFormed(t) && Fits(t, u) && c < |t.choices|
  {
    Reply(t, u, SelectionOp(c)).selection
  }

  /** What the choice is asked for: the user's mode, else n if it may be left, else m. */
  function Asked(t: Tree, u: Users, c: nat): Tri
    requires Fits(t, u) && c < |t.choices|
  {
    if u.mode[c].Some? then u.mode[c].value else if t.choices[c].optional then N else M
  }

  /** A choice is on exactly when it shows and is asked for; a bool choice is then in y mode, and
      another when both go all the way, m going for y without modules. */
  lemma ModeLaw(t: Tree, u: Users, c: nat)
    requires WellFormed(t) && Fits(t, u) && c < |t.choices|
    ensures Mode(t, u, c) == N <==> ChoiceVisible(t, u, c) == N || Asked(t, u, c) == N
    ensures Mode(t, u, c) == Y <==>
      if t.choices[c].typ == BoolType then ChoiceVisible(t, u, c) != N && Asked(t, u, c) != N
      else (ChoiceVisible(t, u, c) == Y &&
            (Asked(t, u, c) == Y || (Asked(t, u, c) == M && !MeaningOf(t, u).modules)))
  {
    hide WellFormed, ChoiceVis, MeaningOf;
  }

  /** A member is worth y in y mode exactly if it is the one chosen and shows, and m in m mode exactly
      if the user set it; otherwise n. */
  lemma MemberValue(t: Tree, u: Users, s: nat)
    requires WellFormed(t) && Fits(t, u) && s < |t.syms|
    requires t.syms[s].choice.Some? && IsTri(t.syms[s].typ)
    ensures t.syms[s].choice.value < |t.choices|
    ensures var c := t.syms[s].choice.value;
      && (Visible(t, u, s) == N || Mode(t, u, c) == N ==> Worth(t, u, s) == "n")
      && (Visible(t, u, s) != N && Mode(t, u, c) == Y ==>
            Worth(t, u, s) == if Chosen(t, u, c) == Some(s) then "y" else "n")
      && (Visible(t, u, s) != N && Mode(t, u, c) == M ==>
            Worth(t, u, s) ==
              if u.vals[s] == Some("m") || u.vals[s] == Some("y") then AsValue(t.syms[s].typ, M) else "n")
      && (Written(t, u, s) <==> Visible(t, u, s) != N && Mode(t, u, c) != N)
  {
    hide RanksOk, ModulesOk, TypesOk, Fits, SymVis, ChoiceMode, Selection, MeaningOf, SymbolOut;
    hide Worth, Written, Visible, Mode, Chosen, AsValue;
    Evaluated(t, u, s);
    MemberOut(t, u, MeaningOf(t, u), s);
    VisibleIs(t, u, s);
    ChoiceReadings(t, u, t.syms[s].choice.value);
  }

  lemma VisibleIs(t: Tree, u: Users, s: nat)
    requires WellFormed(t) && Fits(t, u) && s < |t.syms|
    ensures Placed(t, s) && Visible(t, u, s) == SymVis(t, MeaningOf(t, u), s)
  {
    hide RanksOk, ModulesOk, TypesOk, Fits, SymVis, MeaningOf;
  }

  lemma ChoiceReadings(t: Tree, u: Users, c: nat)
    requires WellFormed(t) && Fits(t, u) && c < |t.choices|
    ensures Mode(t, u, c) == ChoiceMode(t, u, MeaningOf(t, u), c)
    ensures Chosen(t, u, c) == Selection(t, u, MeaningOf(t, u), c)
  {
    hide RanksOk, ModulesOk, TypesOk, ChoicesOk, Fits, ChoiceMode, Selection, MeaningOf;
  }

  lemma MemberOut(t: Tree, u: Users, sc: Scope, s: nat)
    requires ChoicesOk(t) && Fits(t, u) && s < |t.syms|
    requires t.syms[s].choice.Some? && IsTri(t.syms[s].typ)
    ensures t.syms[s].choice.value < |t.choices| && Placed(t, s)
    ensures var c, out := t.syms[s].choice.value, SymbolOut(t, u, sc, s);
      && (SymVis(t, sc, s) == N || ChoiceMode(t, u, sc, c) == N ==> out == Out("n", false))
      && (SymVis(t, sc, s) != N && ChoiceMode(t, u, sc, c) == Y ==>
            out == Out(if Selection(t, u, sc, c) == Some(s) then "y" else "n", true))
      && (SymVis(t, sc, s) != N && ChoiceMode(t, u, sc, c) == M ==>
            out == Out(
              if u.vals[s] == Some("m") || u.vals[s] == Some("y") then AsValue(t.syms[s].typ, M) else "n", true))
  {
    hide Fits, SymVis, ChoiceMode, Selection;
    assert t.syms[s].special.None?;
  }

  /** At most one member of a choice is worth y in y mode. */
  lemma OneMemberIsY(t: Tree, u: Users, c: nat, a: nat, b: nat)
    requires WellFormed(t) && Fits(t, u) && c < |t.choices| && a < |t.syms| && b < |t.syms|
    requires t.syms[a].choice == Some(c) == t.syms[b].choice && IsTri(t.syms[a].typ) && IsTri(t.syms[b].typ)
    requires Mode(t, u, c) == Y && Worth(t, u, a) == "y" && Worth(t, u, b) == "y"
    ensures a == b && Chosen(t, u, c) == Some(a)
  {
    MemberValue(t, u, a);
    MemberValue(t, u, b);
    hide WellFormed, Fits, Worth, Visible, Mode, Chosen, Written;
  }

  /** The choice's default at d is the first whose condition holds. */
  predicate FirstChoiceAt(sc: Scope, ds: seq<ChoiceDefault>, d: int) {
    && 0 <= d < |ds|
    && EvalCond(sc, ds[d].cond) != N
    && forall i :: 0 <= i < d ==> EvalCond(sc, ds[i].cond) == N
  }

  lemma {:induction false} FirstActiveIs(sc: Scope, ds: seq<ChoiceDefault>)
    ensures FirstActive(sc, ds).None? <==> forall i :: 0 <= i < |ds| ==> EvalCond(sc, ds[i].cond) == N
    ensures forall d :: FirstChoiceAt(sc, ds, d) ==> FirstActive(sc, ds) == Some(ds[d].symbol)
    ensures FirstActive(sc, ds).Some? ==>
      exists d :: FirstChoiceAt(sc, ds, d) && FirstActive(sc, ds) == Some(ds[d].symbol)
  {
    if ds != [] {
      FirstActiveIs(sc, ds[1..]);
      assert forall i :: 1 <= i < |ds| ==> ds[i] == ds[1..][i - 1];
      assert forall i :: 0 <= i < |ds[1..]| ==> ds[1..][i] == ds[i + 1];
      forall d | FirstChoiceAt(sc, ds, d) ensures FirstActive(sc, ds) == Some(ds[d].symbol) {
        if d > 0 {
          assert FirstChoiceAt(sc, ds[1..], d - 1);
        }
      }
      if EvalCond(sc, ds[0].cond) != N {
        assert FirstChoiceAt(sc, ds, 0);
      } else if FirstActive(sc, ds).Some? {
        var d :| FirstChoiceAt(sc, ds[1..], d) && FirstActive(sc, ds[1..]) == Some(ds[1..][d].symbol);
        assert FirstChoiceAt(sc, ds, d + 1);
      }
    }
  }

  /** The member at k is the first that shows. */
  predicate FirstShown(t: Tree, u: Users, xs: seq<nat>, k: int)
    requires WellFormed(t) && Fits(t, u) && forall i :: 0 <= i < |xs| ==> xs[i] < |t.syms|
  {
    0 <= k < |xs| && Visible(t, u, xs[k]) != N && forall i :: 0 <= i < k ==> Visible(t, u, xs[i]) == N
  }

  lemma {:induction false} FirstVisibleIs(t: Tree, u: Users, xs: seq<nat>)
    requires WellFormed(t) && Fits(t, u) && forall i :: 0 <= i < |xs| ==> xs[i] < |t.syms|
    ensures FirstVisible(t, MeaningOf(t, u), xs).None? ==>
      forall i :: 0 <= i < |xs| ==> Visible(t, u, xs[i]) == N
    ensures FirstVisible(t, MeaningOf(t, u), xs).Some? ==>
      exists k :: FirstShown(t, u, xs, k) && FirstVisible(t, MeaningOf(t, u), xs) == Some(xs[k])
  {
    hide RanksOk, ModulesOk, TypesOk, Solve, Fits, SymVis, MeaningOf;
    if xs != [] {
      FirstVisibleIs(t, u, xs[1..]);
      assert forall i :: 1 <= i < |xs| ==> xs[i] == xs[1..][i - 1];
      if Visible(t, u, xs[0]) != N {
        assert FirstShown(t, u, xs, 0);
      } else if FirstVisible(t, MeaningOf(t, u), xs).Some? {
        var k :| FirstShown(t, u, xs[1..], k) && FirstVisible(t, MeaningOf(t, u), xs[1..]) == Some(xs[1..][k]);
        assert FirstShown(t, u, xs, k + 1);
      }
    }
  }

  lemma MembersInRange(t: Tree, c: nat)
    requires ChoicesOk(t) && c < |t.choices|
    ensures forall i :: 0 <= i < |t.choices[c].actual| ==> t.choices[c].actual[i] < |t.syms|
    ensures forall i :: 0 <= i < |t.choices[c].defaults| ==> t.choices[c].defaults[i].symbol < |t.syms|
  {
  }

  /** Who is chosen: nobody outside y mode; the member the user set, if it shows fully; else nobody if
      the choice may be left; else its first active default, if that shows; else the first member that
      shows, if any does. */
  lemma SelectionLaw(t: Tree, u: Users, c: nat)
    requires WellFormed(t) && Fits(t, u) && c < |t.choices|
    ensures forall i :: 0 <= i < |t.choices[c].actual| ==> t.choices[c].actual[i] < |t.syms|
    ensures forall i :: 0 <= i < |t.choices[c].defaults| ==> t.choices[c].defaults[i].symbol < |t.syms|
    ensures Mode(t, u, c) != Y ==> Chosen(t, u, c) == None
    ensures u.selection[c].Some? ==> u.selection[c].value < |t.syms|
    ensures Mode(t, u, c) == Y && UserShows(t, u, c) ==> Chosen(t, u, c) == u.selection[c]
    ensures Mode(t, u, c) == Y && !UserShows(t, u, c) && t.choices[c].optional ==> Chosen(t, u, c) == None
    ensures Mode(t, u, c) == Y && !UserShows(t, u, c) && !t.choices[c].optional ==>
      ByDefault(t, u, c, Chosen(t, u, c))
  {
    MembersInRange(t, c);
    assert u.selection[c].Some? ==> u.selection[c].value in t.choices[c].actual;
    hide RanksOk, ModulesOk, TypesOk, SymVis, MeaningOf, ChoiceMode, DefaultSelection, ByDefault;
    hide Mode, Chosen, Visible;
    ChoiceReadings(t, u, c);
    if u.selection[c].Some? {
      VisibleIs(t, u, u.selection[c].value);
    }
    if Mode(t, u, c) == Y && !UserShows(t, u, c) && !t.choices[c].optional {
      DefaultLaw(t, u, c);
    }
  }

  predicate UserShows(t: Tree, u: Users, c: nat)
    requires WellFormed(t) && Fits(t, u) && c < |t.choices|
  {
    u.selection[c].Some? && u.selection[c].value < |t.syms| && Visible(t, u, u.selection[c].value) == Y
  }

  ghost predicate ByDefault(t: Tree, u: Users, c: nat, chosen: Option<nat>)
    requires WellFormed(t) && Fits(t, u) && c < |t.choices|
    requires forall i :: 0 <= i < |t.choices[c].actual| ==> t.choices[c].actual[i] < |t.syms|
    requires forall i :: 0 <= i < |t.choices[c].defaults| ==> t.choices[c].defaults[i].symbol < |t.syms|
  {
    var ch, sc := t.choices[c], MeaningOf(t, u);
    if exists d :: FirstChoiceAt(sc, ch.defaults, d) && Visible(t, u, ch.defaults[d].symbol) != N then
      exists d :: FirstChoiceAt(sc, ch.defaults, d) && chosen == Some(ch.defaults[d].symbol)
    else if chosen.Some? then
      exists k :: FirstShown(t, u, ch.actual, k) && chosen == Some(ch.actual[k])
    else forall i :: 0 <= i < |ch.actual| ==> Visible(t, u, ch.actual[i]) == N
  }

  lemma DefaultLaw(t: Tree, u: Users, c: nat)
    requires WellFormed(t) && Fits(t, u) && c < |t.choices|
    requires forall i :: 0 <= i < |t.choices[c].actual| ==> t.choices[c].actual[i] < |t.syms|
    requires forall i :: 0 <= i < |t.choices[c].defaults| ==> t.choices[c].defaults[i].symbol < |t.syms|
    ensures ByDefault(t, u, c, DefaultSelection(t, MeaningOf(t, u), c))
  {
    var ch, sc := t.choices[c], MeaningOf(t, u);
    hide WellFormed, Fits, SymVis, MeaningOf, FirstActive, FirstVisible, FirstChoiceAt, FirstShown, Visible;
    hide DefaultSelection;
    DefaultCases(t, u, c);
    FirstActiveIs(sc, ch.defaults);
    FirstVisibleIs(t, u, ch.actual);
  }

  /** The active default if it shows, else the first member that shows. */
  lemma DefaultCases(t: Tree, u: Users, c: nat)
    requires WellFormed(t) && Fits(t, u) && c < |t.choices|
    requires forall i :: 0 <= i < |t.choices[c].actual| ==> t.choices[c].actual[i] < |t.syms|
    requires forall i :: 0 <= i < |t.choices[c].defaults| ==> t.choices[c].defaults[i].symbol < |t.syms|
    ensures var ch, sc := t.choices[c], MeaningOf(t, u);
      var active := FirstActive(sc, ch.defaults);
      && (active.Some? ==> active.value < |t.syms|)
      && DefaultSelection(t, sc, c) ==
           if active.Some? && Visible(t, u, active.value) != N then active else FirstVisible(t, sc, ch.actual)
  {
    var ch, sc := t.choices[c], MeaningOf(t, u);
    FirstActiveIs(sc, ch.defaults);
    DefaultsAreMembers(t, c);
    hide RanksOk, ModulesOk, TypesOk, ChoicesOk, Fits, SymVis, MeaningOf, FirstActive, FirstChoiceAt;
    var active := FirstActive(sc, ch.defaults);
    if active.Some? {
      VisibleIs(t, u, active.value);
    } else if ch.actual != [] {
      VisibleIs(t, u, ch.actual[0]);
    }
  }

  lemma DefaultsAreMembers(t: Tree, c: nat)
    requires ChoicesOk(t) && c < |t.choices|
    ensures t.choices[c].actual == [] ==> t.choices[c].defaults == []
  {
    if t.choices[c].defaults != [] {
      assert t.choices[c].defaults[0].symbol in t.choices[c].actual;
    }
  }

  // ---- Numbers ----

  predicate Numeric(t: Tree, s: nat) {
    s < |t.syms| && (t.syms[s].typ == HexType || t.syms[s].typ == IntType) && t.syms[s].special.None?
  }

  function Radix(t: Tree, s: nat): nat
    requires s < |t.syms|
  {
    if t.syms[s].typ == HexType then 16 else 10
  }

  /** The range at r is the first whose condition holds. */
  predicate FirstRangeAt(sc: Scope, rs: seq<Range>, r: int) {
    && 0 <= r < |rs|
    && EvalCond(sc, rs[r].cond) != N
    && forall i :: 0 <= i < r ==> EvalCond(sc, rs[i].cond) == N
  }

  predicate NoRange(sc: Scope, rs: seq<Range>) {
    forall i :: 0 <= i < |rs| ==> EvalCond(sc, rs[i].cond) == N
  }

  lemma {:induction false} FirstRangeIs(sc: Scope, rs: seq<Range>)
    ensures FirstRange(sc, rs).None? <==> NoRange(sc, rs)
    ensures forall r :: FirstRangeAt(sc, rs, r) ==> FirstRange(sc, rs) == Some(rs[r])
  {
    if rs != [] {
      FirstRangeIs(sc, rs[1..]);
      assert forall i :: 1 <= i < |rs| ==> rs[i] == rs[1..][i - 1];
      assert forall i :: 0 <= i < |rs[1..]| ==> rs[1..][i] == rs[i + 1];
      forall r | FirstRangeAt(sc, rs, r) ensures FirstRange(sc, rs) == Some(rs[r]) {
        if r > 0 {
          assert FirstRangeAt(sc, rs[1..], r - 1);
        }
      }
    }
  }

  /** An end of a range as a number; what is none counts as 0. */
  function End(t: Tree, u: Users, op: Operand, base: nat): int
    requires WellFormed(t) && Fits(t, u)
  {
    var text := ValueOf(MeaningOf(t, u).vals, op);
    if t.num.isNum(text, base) then t.num.toInt(text, base) else 0
  }

  /** The text is a number of the symbol's base, inside its active range if there is one. */
  ghost predicate InRange(t: Tree, u: Users, s: nat, text: string)
    requires WellFormed(t) && Fits(t, u) && s < |t.syms|
  {
    var base := Radix(t, s);
    && t.num.isNum(text, base)
    && forall r :: FirstRangeAt(MeaningOf(t, u), t.syms[s].ranges, r) ==>
         End(t, u, t.syms[s].ranges[r].low, base) <= t.num.toInt(text, base)
           <= End(t, u, t.syms[s].ranges[r].high, base)
  }

  ghost predicate UserNumberCounts(t: Tree, u: Users, s: nat)
    requires WellFormed(t) && Fits(t, u) && s < |t.syms|
  {
    Visible(t, u, s) != N && u.vals[s].Some? && InRange(t, u, s, u.vals[s].value)
  }

  /** Whether a range is active, and its ends. */
  lemma RangeLaw(t: Tree, u: Users, s: nat) returns (range: Option<Range>)
    requires WellFormed(t) && Fits(t, u) && s < |t.syms|
    ensures range == FirstRange(MeaningOf(t, u), t.syms[s].ranges)
    ensures range.None? <==> NoRange(MeaningOf(t, u), t.syms[s].ranges)
    ensures forall r :: FirstRangeAt(MeaningOf(t, u), t.syms[s].ranges, r) ==>
      range == Some(t.syms[s].ranges[r])
    ensures range.Some? ==> exists r :: FirstRangeAt(MeaningOf(t, u), t.syms[s].ranges, r)
  {
    range := FirstRange(MeaningOf(t, u), t.syms[s].ranges);
    FirstRangeIs(MeaningOf(t, u), t.syms[s].ranges);
    if range.Some? {
      SomeRange(MeaningOf(t, u), t.syms[s].ranges);
    }
    hide FirstRange, FirstRangeAt, MeaningOf, WellFormed;
  }

  lemma {:induction false} SomeRange(sc: Scope, rs: seq<Range>)
    requires FirstRange(sc, rs).Some?
    ensures exists r :: FirstRangeAt(sc, rs, r)
  {
    if EvalCond(sc, rs[0].cond) != N {
      assert FirstRangeAt(sc, rs, 0);
    } else {
      SomeRange(sc, rs[1..]);
      var r :| FirstRangeAt(sc, rs[1..], r);
      assert forall i :: 1 <= i < |rs| ==> rs[i] == rs[1..][i - 1];
      assert FirstRangeAt(sc, rs, r + 1);
    }
  }

  lemma NumLaw(t: Tree, u: Users, s: nat, range: Option<Range>)
    requires WellFormed(t) && Fits(t, u) && Numeric(t, s)
    requires range == FirstRange(MeaningOf(t, u), t.syms[s].ranges)
    ensures Placed(t, s)
    ensures var sc, base := MeaningOf(t, u), Radix(t, s);
      var vis, dflt, out := SymVis(t, sc, s), FirstDefault(sc, t.syms[s].defaults), SymbolOut(t, u, sc, s);
      var low, high := Low(t, u, range, base), High(t, u, range, base);
      if vis != N && u.vals[s].Some? && t.num.isNum(u.vals[s].value, base) &&
         (range.None? || low <= t.num.toInt(u.vals[s].value, base) <= high) then
        out == Out(u.vals[s].value, true)
      else if dflt.Some? then
        out == Out(Clamp(t, DefaultText(sc, dflt.value), base, range.Some?, low, high), true)
      else out == Out(if range.Some? && low > 0 then t.num.render(low, base) else "", vis != N)
  {
    hide RanksOk, ModulesOk, TypesOk, Fits, SymVis, MeaningOf, FirstDefault, FirstRange, Clamp, DefaultText;
  }

  /** A user number counts exactly if the range found allows it. */
  lemma CountsIs(t: Tree, u: Users, s: nat, range: Option<Range>)
    requires WellFormed(t) && Fits(t, u) && Numeric(t, s)
    requires range == FirstRange(MeaningOf(t, u), t.syms[s].ranges)
    ensures Placed(t, s)
    ensures var base := Radix(t, s);
      UserNumberCounts(t, u, s) <==>
        && SymVis(t, MeaningOf(t, u), s) != N && u.vals[s].Some? && t.num.isNum(u.vals[s].value, base)
        && (range.None? || Low(t, u, range, base) <= t.num.toInt(u.vals[s].value, base) <= High(t, u, range, base))
  {
    VisibleIs(t, u, s);
    var same := RangeLaw(t, u, s);
    hide RanksOk, ModulesOk, TypesOk, Fits, SymVis, MeaningOf, FirstRange, FirstRangeAt, NoRange, End, Visible;
  }

  /** A visible user number inside the range is the value, as the user wrote it. */
  lemma UserNumber(t: Tree, u: Users, s: nat)
    requires WellFormed(t) && Fits(t, u) && Numeric(t, s) && UserNumberCounts(t, u, s)
    ensures Worth(t, u, s) == u.vals[s].value && Written(t, u, s)
  {
    hide WellFormed, Fits, SymVis, MeaningOf, SymbolOut, FirstDefault, FirstRange, Worth, Written, Low, High;
    hide UserNumberCounts, Clamp, DefaultText;
    Evaluated(t, u, s);
    var range := FirstRange(MeaningOf(t, u), t.syms[s].ranges);
    NumLaw(t, u, s, range);
    CountsIs(t, u, s, range);
  }

  /** What becomes of a default: inside the range, or without one, it stays as written; a number
      outside becomes the end it lies beyond. */
  ghost predicate Fitting(t: Tree, u: Users, s: nat, text: string, val: string)
    requires WellFormed(t) && Fits(t, u) && s < |t.syms|
  {
    var sc, base, rs := MeaningOf(t, u), Radix(t, s), t.syms[s].ranges;
    && (!t.num.isNum(text, base) || NoRange(sc, rs) || InRange(t, u, s, text) ==> val == text)
    && (forall r :: FirstRangeAt(sc, rs, r) && t.num.isNum(text, base) ==>
          var n, low, high := t.num.toInt(text, base), End(t, u, rs[r].low, base), End(t, u, rs[r].high, base);
          && (n < low ==> val == t.num.render(low, base))
          && (low <= n && high < n ==> val == t.num.render(high, base)))
  }

  lemma DefaultNumber(t: Tree, u: Users, s: nat, d: nat)
    requires WellFormed(t) && Fits(t, u) && Numeric(t, s) && !UserNumberCounts(t, u, s)
    requires FirstAt(MeaningOf(t, u), t.syms[s].defaults, d)
    ensures t.syms[s].defaults[d].value.Leaf?
    ensures Written(t, u, s)
    ensures Fitting(t, u, s, ValueOf(MeaningOf(t, u).vals, t.syms[s].defaults[d].value.op), Worth(t, u, s))
  {
    assert t.syms[s].defaults[d].value.Leaf?;
    DefaultOut(t, u, s, d);
    Evaluated(t, u, s);
    hide WellFormed, Fits, MeaningOf, Worth, Written, SymbolOut, Fitting, FirstAt, UserNumberCounts;
  }

  /** The ends of the range found, 0 if none was. */
  function Low(t: Tree, u: Users, range: Option<Range>, base: nat): int
    requires WellFormed(t) && Fits(t, u)
  {
    if range.Some? then End(t, u, range.value.low, base) else 0
  }

  function High(t: Tree, u: Users, range: Option<Range>, base: nat): int
    requires WellFormed(t) && Fits(t, u)
  {
    if range.Some? then End(t, u, range.value.high, base) else 0
  }

  lemma DefaultOut(t: Tree, u: Users, s: nat, d: nat)
    requires WellFormed(t) && Fits(t, u) && Numeric(t, s) && !UserNumberCounts(t, u, s)
    requires FirstAt(MeaningOf(t, u), t.syms[s].defaults, d) && t.syms[s].defaults[d].value.Leaf?
    ensures var out := SymbolOut(t, u, MeaningOf(t, u), s);
      && out.write
      && Fitting(t, u, s, ValueOf(MeaningOf(t, u).vals, t.syms[s].defaults[d].value.op), out.val)
  {
    var range := RangeLaw(t, u, s);
    FirstDefaultIs(MeaningOf(t, u), t.syms[s].defaults);
    ClampFits(t, u, s, ValueOf(MeaningOf(t, u).vals, t.syms[s].defaults[d].value.op), range);
    ClampedOut(t, u, s, d, range);
    hide WellFormed, Fits, MeaningOf, SymbolOut, Fitting, FirstAt, UserNumberCounts, Clamp, Low, High;
  }

  lemma ClampedOut(t: Tree, u: Users, s: nat, d: nat, range: Option<Range>)
    requires WellFormed(t) && Fits(t, u) && Numeric(t, s) && !UserNumberCounts(t, u, s)
    requires 0 <= d < |t.syms[s].defaults| && t.syms[s].defaults[d].value.Leaf?
    requires FirstDefault(MeaningOf(t, u), t.syms[s].defaults) == Some(t.syms[s].defaults[d])
    requires range == FirstRange(MeaningOf(t, u), t.syms[s].ranges)
    ensures var text, base := ValueOf(MeaningOf(t, u).vals, t.syms[s].defaults[d].value.op), Radix(t, s);
      SymbolOut(t, u, MeaningOf(t, u), s) ==
        Out(Clamp(t, text, base, range.Some?, Low(t, u, range, base), High(t, u, range, base)), true)
  {
    hide WellFormed, Fits, SymVis, MeaningOf, SymbolOut, FirstDefault, FirstRange, Low, High, UserNumberCounts;
    hide Clamp, Numeric;
    NumLaw(t, u, s, range);
    CountsIs(t, u, s, range);
  }

  lemma ClampFits(t: Tree, u: Users, s: nat, text: string, range: Option<Range>)
    requires WellFormed(t) && Fits(t, u) && Numeric(t, s)
    requires range == FirstRange(MeaningOf(t, u), t.syms[s].ranges)
    ensures var base := Radix(t, s);
      Fitting(t, u, s, text,
              Clamp(t, text, base, range.Some?, Low(t, u, range, base), High(t, u, range, base)))
  {
    var same := RangeLaw(t, u, s);
    hide WellFormed, Fits, MeaningOf, FirstRange, FirstRangeAt, NoRange, End;
  }

  /** Without user number and default, the low end of the range if it is above 0, else nothing. */
  lemma NoNumber(t: Tree, u: Users, s: nat)
    requires WellFormed(t) && Fits(t, u) && Numeric(t, s) && !UserNumberCounts(t, u, s)
    requires NoneActive(MeaningOf(t, u), t.syms[s].defaults)
    ensures Written(t, u, s) <==> Visible(t, u, s) != N
    ensures NoRange(MeaningOf(t, u), t.syms[s].ranges) ==> Worth(t, u, s) == ""
    ensures forall r :: FirstRangeAt(MeaningOf(t, u), t.syms[s].ranges, r) ==>
      var low := End(t, u, t.syms[s].ranges[r].low, Radix(t, s));
      Worth(t, u, s) == if low > 0 then t.num.render(low, Radix(t, s)) else ""
  {
    hide WellFormed, Fits, SymVis, MeaningOf, SymbolOut, FirstDefault, FirstRange, Worth, Written, High;
    hide UserNumberCounts, Clamp, DefaultText, Visible, FirstRangeAt, NoRange, NoneActive, End;
    Evaluated(t, u, s);
    VisibleIs(t, u, s);
    var range := RangeLaw(t, u, s);
    FirstDefaultIs(MeaningOf(t, u), t.syms[s].defaults);
    NumLaw(t, u, s, range);
    CountsIs(t, u, s, range);
  }

  // ---- Strings, and symbols with a fixed value ----

  /** A visible user string is the value; else the first active default; else nothing. */
  lemma StringLaw(t: Tree, u: Users, s: nat)
    requires WellFormed(t) && Fits(t, u) && s < |t.syms|
    requires t.syms[s].typ == StringType && t.syms[s].special.None?
    ensures Visible(t, u, s) != N && u.vals[s].Some? ==>
      Worth(t, u, s) == u.vals[s].value && Written(t, u, s)
    ensures Visible(t, u, s) == N || u.vals[s].None? ==>
      forall d :: FirstAt(MeaningOf(t, u), t.syms[s].defaults, d) ==>
        && t.syms[s].defaults[d].value.Leaf?
        && Worth(t, u, s) == ValueOf(MeaningOf(t, u).vals, t.syms[s].defaults[d].value.op)
        && Written(t, u, s)
    ensures (Visible(t, u, s) == N || u.vals[s].None?) && NoneActive(MeaningOf(t, u), t.syms[s].defaults) ==>
      Worth(t, u, s) == "" && (Written(t, u, s) <==> Visible(t, u, s) != N)
  {
    hide RanksOk, ModulesOk, TypesOk, Fits, SymVis, MeaningOf, SymbolOut, FirstDefault, NoneActive, FirstAt;
    hide Worth, Written, Visible;
    Evaluated(t, u, s);
    VisibleIs(t, u, s);
    FirstDefaultIs(MeaningOf(t, u), t.syms[s].defaults);
    StringIs(t, u, MeaningOf(t, u), s);
    LeafDefaults(t, u, s);
  }

  lemma StringIs(t: Tree, u: Users, sc: Scope, s: nat)
    requires ChoicesOk(t) && Fits(t, u) && s < |t.syms|
    requires t.syms[s].typ == StringType && t.syms[s].special.None?
    ensures Placed(t, s)
    ensures var vis, dflt, out := SymVis(t, sc, s), FirstDefault(sc, t.syms[s].defaults), SymbolOut(t, u, sc, s);
      if vis != N && u.vals[s].Some? then out == Out(u.vals[s].value, true)
      else if dflt.Some? then out == Out(DefaultText(sc, dflt.value), true)
      else out == Out("", vis != N)
  {
    hide Fits, SymVis, FirstDefault, DefaultText;
  }

  lemma LeafDefaults(t: Tree, u: Users, s: nat)
    requires WellFormed(t) && Fits(t, u) && s < |t.syms| && !IsTri(t.syms[s].typ)
    ensures forall d :: FirstAt(MeaningOf(t, u), t.syms[s].defaults, d) ==> t.syms[s].defaults[d].value.Leaf?
  {
    hide RanksOk, ModulesOk, ChoicesOk, Fits, MeaningOf;
  }

  /** Constants keep their value, and an undefined symbol is worth its name; neither is written. */
  lemma FixedValue(t: Tree, u: Users, s: nat)
    requires WellFormed(t) && Fits(t, u) && s < |t.syms|
    ensures t.syms[s].special.Some? ==> Worth(t, u, s) == t.syms[s].special.value && !Written(t, u, s)
    ensures t.syms[s].special.None? && t.syms[s].typ == UnknownType ==>
      Worth(t, u, s) == t.syms[s].name && !Written(t, u, s)
  {
    Evaluated(t, u, s);
    hide RanksOk, ModulesOk, TypesOk, Fits, SymVis, MeaningOf;
  }

  // ---- Assignments ----

  /** The texts a symbol takes: n and y, and m if it is a tristate; numbers of its base; any string. */
  predicate Takes(t: Tree, s: nat, v: string)
    requires s < |t.syms|
  {
    var y := t.syms[s];
    && y.special.None? && y.defined
    && (y.typ == BoolType ==> v in ["n", "y"])
    && (y.typ == TristateType ==> v in ["n", "m", "y"])
    && (y.typ == IntType ==> t.num.isNum(v, 10))
    && (y.typ == HexType ==> t.num.isNum(v, 16))
    && y.typ != UnknownType
  }

  /** What is not taken changes nothing. What is taken is the symbol's user value; y makes a choice
      member the user's selection in y mode, m leaves no selection, in m mode, and n neither. */
  lemma AssignLaw(t: Tree, u: Users, s: nat, v: string)
    requires WellFormed(t) && Fits(t, u) && s < |t.syms|
    ensures var r := Next(t, u, SetOp(s, v));
      var c := t.syms[s].choice;
      && (!Takes(t, s, v) ==> r == u)
      && (Takes(t, s, v) ==> r.vals == u.vals[s := Some(v)])
      && (Takes(t, s, v) && c.Some? && IsTri(t.syms[s].typ) && v == "y" ==>
            r.selection == u.selection[c.value := Some(s)] && r.mode == u.mode[c.value := Some(Y)])
      && (Takes(t, s, v) && c.Some? && IsTri(t.syms[s].typ) && v == "m" ==>
            r.selection == u.selection[c.value := None] && r.mode == u.mode[c.value := Some(M)])
      && (c.None? || !IsTri(t.syms[s].typ) || v == "n" ==> r.selection == u.selection && r.mode == u.mode)
  {
    assert "m"[0] != "y"[0] && "n"[0] != "y"[0] && "n"[0] != "m"[0];
    hide RanksOk, ModulesOk, TypesOk;
  }

  /** So setting a member of a choice to y, where both then show fully, makes it y and all others n. */
  lemma SettingChooses(t: Tree, u: Users, s: nat, x: nat)
    requires WellFormed(t) && Fits(t, u) && s < |t.syms| && x < |t.syms|
    requires t.syms[s].choice.Some? && t.syms[x].choice == t.syms[s].choice
    requires IsTri(t.syms[s].typ) && IsTri(t.syms[x].typ) && t.syms[s].defined
    ensures t.syms[s].choice.value < |t.choices|
    ensures var r := Next(t, u, SetOp(s, "y"));
      Visible(t, r, s) == Y && ChoiceVisible(t, r, t.syms[s].choice.value) == Y ==>
        Worth(t, r, x) == if x == s then "y" else "n"
  {
    hide RanksOk, ModulesOk, TypesOk, Visible, ChoiceVisible, Worth, Mode, Chosen, ByDefault, Next, Written;
    assert t.syms[s].special.None?;
    var r, c := Next(t, u, SetOp(s, "y")), t.syms[s].choice.value;
    AssignLaw(t, u, s, "y");
    if Visible(t, r, s) == Y && ChoiceVisible(t, r, c) == Y {
      hide Fits, ChoicesOk;
      ModeLaw(t, r, c);
      SelectionLaw(t, r, c);
      MemberValue(t, r, x);
    }
  }

  /** Unsetting a symbol takes its user value back, and its choice's selection and mode. */
  lemma UnsetLaw(t: Tree, u: Users, s: nat)
    requires WellFormed(t) && Fits(t, u) && s < |t.syms|
    ensures var r, c := Next(t, u, UnsetOp(s)), t.syms[s].choice;
      && r.vals == u.vals[s := None]
      && r.selection == (if c.Some? then u.selection[c.value := None] else u.selection)
      && r.mode == (if c.Some? then u.mode[c.value := None] else u.mode)
  {
    hide RanksOk, ModulesOk, TypesOk;
  }

  /** The line at i is the last that gives s a text it takes. */
  predicate LastTaken(t: Tree, lines: seq<(nat, string)>, s: nat, i: int) {
    && 0 <= i < |lines| && lines[i].0 == s < |t.syms| && Takes(t, s, lines[i].1)
    && forall j :: i < j < |lines| ==> lines[j].0 != s || !Takes(t, s, lines[j].1)
  }

  predicate NoneTaken(t: Tree, lines: seq<(nat, string)>, s: nat)
    requires s < |t.syms|
  {
    forall j :: 0 <= j < |lines| ==> lines[j].0 != s || !Takes(t, s, lines[j].1)
  }

  lemma {:induction false} AssignedLast(t: Tree, u: Users, lines: seq<(nat, string)>, s: nat)
    requires WellFormed(t) && Fits(t, u) && AssignmentsOk(t, lines) && s < |t.syms|
    ensures forall i :: LastTaken(t, lines, s, i) ==> AssignAll(t, u, lines).vals[s] == Some(lines[i].1)
    ensures NoneTaken(t, lines, s) ==> AssignAll(t, u, lines).vals[s] == u.vals[s]
    decreases |lines|
  {
    hide RanksOk, ModulesOk, TypesOk, ChoicesOk, Fits, Takes, Assign, LastTaken, NoneTaken;
    if lines == [] {
      NoLines(t, s);
    } else {
      var front, last := lines[..|lines| - 1], lines[|lines| - 1];
      AssignedLast(t, u, front, s);
      LastLine(t, lines, s);
      var before := AssignAll(t, u, front);
      AssignedOne(t, before, last.0, last.1, s);
    }
  }

  lemma NoLines(t: Tree, s: nat)
    ensures forall i :: !LastTaken(t, [], s, i)
  {
  }

  /** What the last line changes about who is last. */
  lemma LastLine(t: Tree, lines: seq<(nat, string)>, s: nat)
    requires lines != [] && AssignmentsOk(t, lines) && s < |t.syms|
    ensures var front, last := lines[..|lines| - 1], lines[|lines| - 1];
      if last.0 == s && Takes(t, s, last.1) then
        !NoneTaken(t, lines, s) && forall i :: LastTaken(t, lines, s, i) ==> i == |front|
      else
        && (NoneTaken(t, lines, s) ==> NoneTaken(t, front, s))
        && forall i :: LastTaken(t, lines, s, i) ==> 0 <= i < |front| && LastTaken(t, front, s, i)
  {
    hide Takes;
    var front := lines[..|lines| - 1];
    assert forall j :: 0 <= j < |front| ==> front[j] == lines[j];
  }

  lemma AssignedOne(t: Tree, u: Users, x: nat, v: string, s: nat)
    requires WellFormed(t) && Fits(t, u) && x < |t.syms| && s < |t.syms|
    ensures Assign(t, u, x, v).vals[s] == if x == s && Takes(t, s, v) then Some(v) else u.vals[s]
  {
    AssignLaw(t, u, x, v);
    hide RanksOk, ModulesOk, TypesOk, Takes, Assign;
  }

  /** After loading, a symbol has the value of the last line for it that it takes; without such a line,
      its old value, or none if the file replaces the configuration. */
  lemma LoadLaw(t: Tree, u: Users, lines: seq<(nat, string)>, replace: bool, s: nat)
    requires WellFormed(t) && Fits(t, u) && AssignmentsOk(t, lines) && s < |t.syms|
    ensures var r := Next(t, u, LoadOp(lines, replace));
      && (forall i :: LastTaken(t, lines, s, i) ==> r.vals[s] == Some(lines[i].1))
      && (NoneTaken(t, lines, s) ==> r.vals[s] == if replace then None else u.vals[s])
  {
    var start := if replace then UnassignUpTo(t, u, |t.syms|) else u;
    AssignedLast(t, start, lines, s);
    UnassignForgets(t, u, |t.syms|);
    hide RanksOk, ModulesOk, TypesOk, AssignAll, LastTaken, NoneTaken, UnassignUpTo;
    if replace {
      assert start.vals[s] == None;
    }
  }
}
