/** The value equations have exactly one solution, and which symbols an assignment
    can change. */
module KconfigTheory {
  import opened Options
  import opened Tristate
  import opened KconfigExpr
  import opened KconfigModel

  // ---- Values depend only on what a symbol reads ----

  ghost predicate Same(sc1: Scope, sc2: Scope, xs: set<nat>) {
    && sc1.tri == sc2.tri && sc1.modules == sc2.modules
    && forall x <- xs :: ValueOf(sc1.vals, Symb(x)) == ValueOf(sc2.vals, Symb(x))
  }

  /** s and x are one node of the dependency graph: the same symbol or two members of a choice. */
  predicate Mates(t: Tree, s: nat, x: nat)
    requires s < |t.syms| && x < |t.syms|
  {
    s == x || (t.syms[s].choice.Some? && t.syms[s].choice == t.syms[x].choice)
  }

  ghost predicate SameNode(t: Tree, sc1: Scope, sc2: Scope, s: nat)
    requires ChoicesOk(t) && s < |t.syms|
  {
    forall x: nat :: x < |t.syms| && Mates(t, s, x) ==> Same(sc1, sc2, Reads(t, x))
  }

  lemma {:induction false} PromptMaxAgrees(sc1: Scope, sc2: Scope, cs: seq<Cond>)
    requires Same(sc1, sc2, CondsSyms(cs))
    ensures PromptMax(sc1, cs) == PromptMax(sc2, cs)
  {
    if cs != [] {
      CondAgrees(sc1, sc2, cs[0]);
      PromptMaxAgrees(sc1, sc2, cs[1..]);
    }
  }

  lemma {:induction false} FirstDefaultAgrees(sc1: Scope, sc2: Scope, ds: seq<Default>)
    requires Same(sc1, sc2, DefaultsSyms(ds))
    ensures FirstDefault(sc1, ds) == FirstDefault(sc2, ds)
    ensures var d := FirstDefault(sc1, ds); d.Some? ==>
      && EvalCond(sc1, If(d.value.value)) == EvalCond(sc2, If(d.value.value))
      && EvalCond(sc1, d.value.cond) == EvalCond(sc2, d.value.cond)
      && DefaultText(sc1, d.value) == DefaultText(sc2, d.value)
  {
    if ds != [] {
      CondAgrees(sc1, sc2, ds[0].cond);
      CondAgrees(sc1, sc2, If(ds[0].value));
      if ds[0].value.Leaf? {
        OperandAgrees(sc1, sc2, ds[0].value.op);
      }
      FirstDefaultAgrees(sc1, sc2, ds[1..]);
    }
  }

  lemma {:induction false} FirstRangeAgrees(sc1: Scope, sc2: Scope, rs: seq<Range>)
    requires Same(sc1, sc2, RangesSyms(rs))
    ensures FirstRange(sc1, rs) == FirstRange(sc2, rs)
    ensures var r := FirstRange(sc1, rs); r.Some? ==>
      && ValueOf(sc1.vals, r.value.low) == ValueOf(sc2.vals, r.value.low)
      && ValueOf(sc1.vals, r.value.high) == ValueOf(sc2.vals, r.value.high)
  {
    if rs != [] {
      CondAgrees(sc1, sc2, rs[0].cond);
      OperandAgrees(sc1, sc2, rs[0].low);
      OperandAgrees(sc1, sc2, rs[0].high);
      FirstRangeAgrees(sc1, sc2, rs[1..]);
    }
  }

  lemma {:induction false} FirstActiveAgrees(sc1: Scope, sc2: Scope, ds: seq<ChoiceDefault>)
    requires Same(sc1, sc2, ChoiceDefaultsSyms(ds))
    ensures FirstActive(sc1, ds) == FirstActive(sc2, ds)
  {
    if ds != [] {
      CondAgrees(sc1, sc2, ds[0].cond);
      FirstActiveAgrees(sc1, sc2, ds[1..]);
    }
  }

  lemma ChoiceVisAgrees(t: Tree, sc1: Scope, sc2: Scope, c: nat)
    requires c < |t.choices| && Same(sc1, sc2, ChoiceReads(t.choices[c]))
    ensures ChoiceVis(t, sc1, c) == ChoiceVis(t, sc2, c)
  {
    PromptMaxAgrees(sc1, sc2, t.choices[c].prompts);
  }

  lemma SymVisAgrees(t: Tree, sc1: Scope, sc2: Scope, s: nat)
    requires ChoicesOk(t) && s < |t.syms| && Same(sc1, sc2, Reads(t, s))
    ensures SymVis(t, sc1, s) == SymVis(t, sc2, s)
  {
    PromptMaxAgrees(sc1, sc2, t.syms[s].prompts);
    if t.syms[s].choice.Some? {
      ChoiceVisAgrees(t, sc1, sc2, t.syms[s].choice.value);
    }
  }

  lemma {:induction false} FirstVisibleAgrees(t: Tree, sc1: Scope, sc2: Scope, xs: seq<nat>)
    requires ChoicesOk(t) && forall i :: 0 <= i < |xs| ==> xs[i] < |t.syms| && Same(sc1, sc2, Reads(t, xs[i]))
    ensures FirstVisible(t, sc1, xs) == FirstVisible(t, sc2, xs)
  {
    if xs != [] {
      SymVisAgrees(t, sc1, sc2, xs[0]);
      FirstVisibleAgrees(t, sc1, sc2, xs[1..]);
    }
  }

  lemma {:induction false} FirstActiveIsMember(sc: Scope, ds: seq<ChoiceDefault>, actual: seq<nat>)
    requires forall i :: 0 <= i < |ds| ==> ds[i].symbol in actual
    ensures FirstActive(sc, ds).Some? ==> FirstActive(sc, ds).value in actual
  {
    if ds != [] {
      FirstActiveIsMember(sc, ds[1..], actual);
    }
  }

  lemma MemberVisAgrees(t: Tree, sc1: Scope, sc2: Scope, c: nat, x: nat)
    requires ChoicesOk(t) && c < |t.choices| && x in t.choices[c].actual
    requires forall i :: 0 <= i < |t.choices[c].actual| ==> Same(sc1, sc2, Reads(t, t.choices[c].actual[i]))
    ensures SymVis(t, sc1, x) == SymVis(t, sc2, x)
  {
    SymVisAgrees(t, sc1, sc2, x);
  }

  lemma DefaultSelectionAgrees(t: Tree, sc1: Scope, sc2: Scope, c: nat)
    requires ChoicesOk(t) && c < |t.choices|
    requires Same(sc1, sc2, ChoiceReads(t.choices[c]))
    requires forall i :: 0 <= i < |t.choices[c].actual| ==> Same(sc1, sc2, Reads(t, t.choices[c].actual[i]))
    ensures DefaultSelection(t, sc1, c) == DefaultSelection(t, sc2, c)
  {
    var ch := t.choices[c];
    FirstActiveAgrees(sc1, sc2, ch.defaults);
    FirstActiveIsMember(sc1, ch.defaults, ch.actual);
    FirstVisibleAgrees(t, sc1, sc2, ch.actual);
    if ch.actual != [] {
      var active := FirstActive(sc1, ch.defaults);
      MemberVisAgrees(t, sc1, sc2, c, if active.Some? then active.value else ch.actual[0]);
    }
  }

  /** A choice's mode and selection depend only on what its members read. */
  lemma SelectionAgrees(t: Tree, u1: Users, u2: Users, sc1: Scope, sc2: Scope, c: nat)
    requires ChoicesOk(t) && Fits(t, u1) && Fits(t, u2) && c < |t.choices|
    requires u1.selection[c] == u2.selection[c] && u1.mode[c] == u2.mode[c]
    requires Same(sc1, sc2, ChoiceReads(t.choices[c]))
    requires forall i :: 0 <= i < |t.choices[c].actual| ==> Same(sc1, sc2, Reads(t, t.choices[c].actual[i]))
    ensures ChoiceMode(t, u1, sc1, c) == ChoiceMode(t, u2, sc2, c)
    ensures Selection(t, u1, sc1, c) == Selection(t, u2, sc2, c)
  {
    ChoiceVisAgrees(t, sc1, sc2, c);
    DefaultSelectionAgrees(t, sc1, sc2, c);
    if u1.selection[c].Some? {
      MemberVisAgrees(t, sc1, sc2, c, u1.selection[c].value);
    }
  }

  /** The users of s and of its choice agree. */
  predicate SameUser(t: Tree, u1: Users, u2: Users, s: nat)
    requires ChoicesOk(t) && Fits(t, u1) && Fits(t, u2) && s < |t.syms|
  {
    && u1.vals[s] == u2.vals[s]
    && var c := t.syms[s].choice;
    c.Some? ==> u1.selection[c.value] == u2.selection[c.value] && u1.mode[c.value] == u2.mode[c.value]
  }

  /** What SymbolOut computes from, apart from the choice. */
  ghost predicate SameInputs(t: Tree, sc1: Scope, sc2: Scope, s: nat)
    requires s < |t.syms| && Placed(t, s)
  {
    var y := t.syms[s];
    var d := FirstDefault(sc1, y.defaults);
    var r := FirstRange(sc1, y.ranges);
    && (sc1.modules == sc2.modules || (y.typ != TristateType && y.choice.None?))
    && SymVis(t, sc1, s) == SymVis(t, sc2, s)
    && d == FirstDefault(sc2, y.defaults)
    && (d.Some? ==>
          && EvalCond(sc1, If(d.value.value)) == EvalCond(sc2, If(d.value.value))
          && EvalCond(sc1, d.value.cond) == EvalCond(sc2, d.value.cond)
          && DefaultText(sc1, d.value) == DefaultText(sc2, d.value))
    && r == FirstRange(sc2, y.ranges)
    && (r.Some? ==>
          && ValueOf(sc1.vals, r.value.low) == ValueOf(sc2.vals, r.value.low)
          && ValueOf(sc1.vals, r.value.high) == ValueOf(sc2.vals, r.value.high))
    && EvalCond(sc1, If(y.revDep)) == EvalCond(sc2, If(y.revDep))
  }

  lemma TriFromInputs(t: Tree, u1: Users, u2: Users, sc1: Scope, sc2: Scope, s: nat)
    requires ChoicesOk(t) && Fits(t, u1) && Fits(t, u2) && s < |t.syms|
    requires u1.vals[s] == u2.vals[s] && SameInputs(t, sc1, sc2, s)
    requires IsTri(t.syms[s].typ) && t.syms[s].choice.None?
    ensures TriOut(t, u1, sc1, s) == TriOut(t, u2, sc2, s)
  {
    hide SymVis, FirstDefault, FirstRange, EvalCond, ChoicesOk, DefaultText;
    if u1.vals[s].Some? && t.syms[s].typ == BoolType {
      assert Read(u1.vals[s].value) != M;
    }
  }

  lemma NumFromInputs(t: Tree, u1: Users, u2: Users, sc1: Scope, sc2: Scope, s: nat)
    requires ChoicesOk(t) && Fits(t, u1) && Fits(t, u2) && s < |t.syms|
    requires u1.vals[s] == u2.vals[s] && SameInputs(t, sc1, sc2, s)
    ensures NumOut(t, u1, sc1, s) == NumOut(t, u2, sc2, s)
    ensures StringOut(t, u1, sc1, s) == StringOut(t, u2, sc2, s)
  {
    hide SymVis, FirstDefault, FirstRange, EvalCond, ChoicesOk, DefaultText;
  }

  lemma OutFromInputs(t: Tree, u1: Users, u2: Users, sc1: Scope, sc2: Scope, s: nat)
    requires ChoicesOk(t) && Fits(t, u1) && Fits(t, u2) && s < |t.syms|
    requires u1.vals[s] == u2.vals[s] && SameInputs(t, sc1, sc2, s)
    requires var c := t.syms[s].choice; c.Some? ==>
      && ChoiceMode(t, u1, sc1, c.value) == ChoiceMode(t, u2, sc2, c.value)
      && Selection(t, u1, sc1, c.value) == Selection(t, u2, sc2, c.value)
    ensures SymbolOut(t, u1, sc1, s) == SymbolOut(t, u2, sc2, s)
  {
    hide SymVis, FirstDefault, FirstRange, EvalCond, DefaultText, ChoiceMode, Selection, TriOut;
    hide NumOut, StringOut;
    NumFromInputs(t, u1, u2, sc1, sc2, s);
    if IsTri(t.syms[s].typ) && t.syms[s].choice.None? {
      TriFromInputs(t, u1, u2, sc1, sc2, s);
    }
  }

  lemma InputsAgree(t: Tree, sc1: Scope, sc2: Scope, s: nat)
    requires ChoicesOk(t) && s < |t.syms| && Same(sc1, sc2, Reads(t, s))
    ensures SameInputs(t, sc1, sc2, s)
  {
    var y := t.syms[s];
    SymVisAgrees(t, sc1, sc2, s);
    FirstDefaultAgrees(sc1, sc2, y.defaults);
    FirstRangeAgrees(sc1, sc2, y.ranges);
    CondAgrees(sc1, sc2, If(y.revDep));
  }

  lemma OutAgrees(t: Tree, u1: Users, u2: Users, sc1: Scope, sc2: Scope, s: nat)
    requires ChoicesOk(t) && Fits(t, u1) && Fits(t, u2) && s < |t.syms|
    requires SameUser(t, u1, u2, s) && SameNode(t, sc1, sc2, s)
    ensures SymbolOut(t, u1, sc1, s) == SymbolOut(t, u2, sc2, s)
  {
    assert Mates(t, s, s);
    InputsAgree(t, sc1, sc2, s);
    if t.syms[s].choice.Some? {
      ChoiceInputsAgree(t, sc1, sc2, s);
      SelectionAgrees(t, u1, u2, sc1, sc2, t.syms[s].choice.value);
    }
    OutFromInputs(t, u1, u2, sc1, sc2, s);
  }

  lemma ChoiceInputsAgree(t: Tree, sc1: Scope, sc2: Scope, s: nat)
    requires ChoicesOk(t) && s < |t.syms| && t.syms[s].choice.Some? && SameNode(t, sc1, sc2, s)
    ensures var c := t.syms[s].choice.value;
      && Same(sc1, sc2, ChoiceReads(t.choices[c]))
      && forall i :: 0 <= i < |t.choices[c].actual| ==> Same(sc1, sc2, Reads(t, t.choices[c].actual[i]))
  {
    var c := t.syms[s].choice.value;
    forall i | 0 <= i < |t.choices[c].actual|
      ensures Same(sc1, sc2, Reads(t, t.choices[c].actual[i]))
    {
      assert Mates(t, s, t.choices[c].actual[i]);
    }
  }

  // ---- MODULES is worth the same whatever is assumed about MODULES ----

  ghost predicate ConstantsRight(t: Tree, sc: Scope, xs: set<nat>) {
    forall x <- xs :: x < |t.syms| && t.syms[x].special.Some? && ValueOf(sc.vals, Symb(x)) == t.syms[x].special.value
  }

  lemma {:induction false} NeverM(t: Tree, sc: Scope, e: Expr)
    requires MFree(t, e) && ConstantsRight(t, sc, Syms(e))
    ensures Eval(sc, e) != M
    decreases e, 1
  {
    match e
    case Leaf(op) =>
      if op.Symb? { assert op.id in OperandSyms(op); assert op == Symb(op.id); }
    case And(args) => NeverMAll(t, sc, args);
    case Or(args) => NeverMAll(t, sc, args);
    case Not(a) => NeverM(t, sc, a);
    case Equal(_, _) =>
    case Unequal(_, _) =>
  }

  lemma {:induction false} NeverMAll(t: Tree, sc: Scope, es: seq<Expr>)
    requires forall i :: 0 <= i < |es| ==> MFree(t, es[i])
    requires ConstantsRight(t, sc, SymsAll(es))
    ensures EvalMinAll(sc, es) != M && EvalMaxAll(sc, es) != M
    decreases es, 0
  {
    if es != [] {
      NeverM(t, sc, es[0]);
      NeverMAll(t, sc, es[1..]);
    }
  }

  lemma CondStable(t: Tree, sc: Scope, on: bool, c: Cond)
    requires MFreeCond(t, c) && ConstantsRight(t, sc, CondSyms(c))
    ensures EvalCond(sc, c) == EvalCond(sc.(modules := on), c) != M
  {
    if c.If? {
      NeverM(t, sc, c.expr);
      EvalAgrees(sc, sc.(modules := on), c.expr);
    }
  }

  lemma {:induction false} PromptMaxStable(t: Tree, sc: Scope, on: bool, cs: seq<Cond>)
    requires forall i :: 0 <= i < |cs| ==> MFreeCond(t, cs[i])
    requires ConstantsRight(t, sc, CondsSyms(cs))
    ensures PromptMax(sc, cs) == PromptMax(sc.(modules := on), cs)
  {
    if cs != [] {
      CondStable(t, sc, on, cs[0]);
      PromptMaxStable(t, sc, on, cs[1..]);
    }
  }

  lemma {:induction false} FirstDefaultStable(t: Tree, sc: Scope, on: bool, ds: seq<Default>)
    requires forall i :: 0 <= i < |ds| ==> MFree(t, ds[i].value) && MFreeCond(t, ds[i].cond)
    requires ConstantsRight(t, sc, DefaultsSyms(ds))
    ensures FirstDefault(sc, ds) == FirstDefault(sc.(modules := on), ds)
    ensures var d := FirstDefault(sc, ds); d.Some? ==>
      && EvalCond(sc, If(d.value.value)) == EvalCond(sc.(modules := on), If(d.value.value))
      && EvalCond(sc, d.value.cond) == EvalCond(sc.(modules := on), d.value.cond)
  {
    if ds != [] {
      CondStable(t, sc, on, ds[0].cond);
      CondStable(t, sc, on, If(ds[0].value));
      FirstDefaultStable(t, sc, on, ds[1..]);
    }
  }

  lemma {:induction false} FirstRangeStable(t: Tree, sc: Scope, on: bool, rs: seq<Range>)
    requires forall i :: 0 <= i < |rs| ==> MFreeCond(t, rs[i].cond)
    requires ConstantsRight(t, sc, RangesSyms(rs))
    ensures FirstRange(sc, rs) == FirstRange(sc.(modules := on), rs)
  {
    if rs != [] {
      CondStable(t, sc, on, rs[0].cond);
      FirstRangeStable(t, sc, on, rs[1..]);
    }
  }

  lemma ModulesInputsStable(t: Tree, sc: Scope, on: bool)
    requires WellFormed(t) && t.modules.Some?
    requires ConstantsRight(t, sc, OwnReads(t.syms[t.modules.value]))
    ensures SameInputs(t, sc, sc.(modules := on), t.modules.value)
  {
    var y := t.syms[t.modules.value];
    PromptMaxStable(t, sc, on, y.prompts);
    FirstDefaultStable(t, sc, on, y.defaults);
    FirstRangeStable(t, sc, on, y.ranges);
    CondStable(t, sc, on, If(y.revDep));
  }

  lemma ModulesOutStable(t: Tree, u: Users, sc: Scope, on: bool)
    requires WellFormed(t) && Fits(t, u) && t.modules.Some?
    requires ConstantsRight(t, sc, OwnReads(t.syms[t.modules.value]))
    ensures SymbolOut(t, u, sc, t.modules.value) == SymbolOut(t, u, sc.(modules := on), t.modules.value)
  {
    ModulesInputsStable(t, sc, on);
    OutFromInputs(t, u, u, sc, sc.(modules := on), t.modules.value);
  }

  // ---- The frame: a change stays inside a dependency-closed set ----

  /** Everything that reads a member of a, and every choice mate of a member, is in a. */
  ghost predicate Closed(t: Tree, a: set<nat>)
    requires ChoicesOk(t)
  {
    && (forall s: nat, x :: s < |t.syms| && x in a && x in Reads(t, s) ==> s in a)
    && (forall s: nat, x: nat :: s < |t.syms| && x < |t.syms| && x in a && Mates(t, s, x) ==> s in a)
  }

  lemma ReadsRanked(t: Tree, s: nat, x: nat)
    requires WellFormed(t) && s < |t.syms| && x in Reads(t, s)
    ensures x < |t.syms| && t.rank[x] < t.rank[s]
  {
    hide Reads;
  }

  lemma ClosedHas(t: Tree, a: set<nat>, x: nat, r: nat)
    requires ChoicesOk(t) && Closed(t, a) && r < |t.syms| && x in a
    ensures x in Reads(t, r) ==> r in a
    ensures x < |t.syms| && Mates(t, r, x) ==> r in a
  {
    hide Reads, ChoicesOk, Mates;
  }

  lemma MatesShareRank(t: Tree, s: nat, x: nat)
    requires WellFormed(t) && s < |t.syms| && x < |t.syms| && Mates(t, s, x)
    ensures t.rank[s] == t.rank[x]
  {
    if s != x {
      var members := t.choices[t.syms[s].choice.value].actual;
      assert s in members && x in members;
    }
  }

  /** Equal values where s and its mates look give s the same value, also for
      MODULES itself, whatever the two sides think of modules. */
  lemma OutStable(t: Tree, u1: Users, u2: Users, v1: map<nat, string>, v2: map<nat, string>, s: nat)
    requires WellFormed(t) && Fits(t, u1) && Fits(t, u2) && s < |t.syms|
    requires t.syms[s].special.None? ==> SameUser(t, u1, u2, s)
    requires forall x: nat, r :: x < |t.syms| && Mates(t, s, x) && r in Reads(t, x) ==>
      ValueOf(v1, Symb(r)) == ValueOf(v2, Symb(r))
    requires ModulesOn(t, v1) == ModulesOn(t, v2)
      || (t.modules == Some(s) && ConstantsRight(t, ScopeOf(t, v1), OwnReads(t.syms[s])))
      || t.syms[s].special.Some?
    ensures SymbolOut(t, u1, ScopeOf(t, v1), s) == SymbolOut(t, u2, ScopeOf(t, v2), s)
  {
    if t.syms[s].special.None? {
      var sc1, sc2 := ScopeOf(t, v1), ScopeOf(t, v2);
      if sc1.modules != sc2.modules {
        ModulesOutStable(t, u1, sc1, sc2.modules);
      }
      assert SameNode(t, sc1.(modules := sc2.modules), sc2, s);
      OutAgrees(t, u1, u2, sc1.(modules := sc2.modules), sc2, s);
    }
  }

  /** Outside a, the two assignments agree on every symbol that has a value of its own. */
  ghost predicate AgreeOutside(t: Tree, u1: Users, u2: Users, a: set<nat>)
    requires ChoicesOk(t) && Fits(t, u1) && Fits(t, u2)
  {
    forall s: nat :: s < |t.syms| && s !in a && t.syms[s].special.None? ==> SameUser(t, u1, u2, s)
  }

  lemma {:induction false} FrameAt(
      t: Tree, u1: Users, v1: map<nat, string>, u2: Users, v2: map<nat, string>, a: set<nat>, s: nat)
    requires WellFormed(t) && Fits(t, u1) && Fits(t, u2)
    requires Solution(t, u1, v1) && Solution(t, u2, v2)
    requires Closed(t, a) && AgreeOutside(t, u1, u2, a)
    requires t.modules.Some? ==> t.modules.value !in a || ModulesOn(t, v1) == ModulesOn(t, v2)
    requires s < |t.syms| && s !in a
    ensures v1[s] == v2[s]
    decreases t.rank[s]
  {
    hide Reads, RanksOk, Closed, SymbolOut, ModulesOn;
    if t.syms[s].special.None? {
      forall x: nat, r | x < |t.syms| && Mates(t, s, x) && r in Reads(t, x)
        ensures ValueOf(v1, Symb(r)) == ValueOf(v2, Symb(r))
      {
        MatesShareRank(t, s, x);
        ReadsRanked(t, x, r);
        if r in a {
          ClosedHas(t, a, r, x);
          ClosedHas(t, a, x, s);
        }
        FrameAt(t, u1, v1, u2, v2, a, r);
      }
      if t.modules.Some? && t.modules.value !in a {
        if t.modules.value != s {
          FrameAt(t, u1, v1, u2, v2, a, t.modules.value);
        } else {
          ModulesReadConstants(t, u1, v1);
        }
      }
      assert t.modules != Some(s) ==> ModulesOn(t, v1) == ModulesOn(t, v2) by {
        if t.modules != Some(s) && (t.modules.Some? ==> t.modules.value !in a) { SameModules(t, v1, v2); }
      }
      OutStable(t, u1, u2, v1, v2, s);
    } else {
      SpecialOut(t, u1, ScopeOf(t, v1), s);
      SpecialOut(t, u2, ScopeOf(t, v2), s);
    }
  }

  lemma SameModules(t: Tree, v1: map<nat, string>, v2: map<nat, string>)
    requires t.modules.Some? ==>
      ValueOf(v1, Symb(t.modules.value)) == ValueOf(v2, Symb(t.modules.value))
    ensures ModulesOn(t, v1) == ModulesOn(t, v2)
  {
  }

  lemma SpecialOut(t: Tree, u: Users, sc: Scope, s: nat)
    requires ChoicesOk(t) && Fits(t, u) && s < |t.syms| && t.syms[s].special.Some?
    ensures SymbolOut(t, u, sc, s) == Out(t.syms[s].special.value, false)
  {
  }

  lemma ModulesReadConstants(t: Tree, u: Users, vals: map<nat, string>)
    requires WellFormed(t) && Fits(t, u) && Solution(t, u, vals) && t.modules.Some?
    ensures ConstantsRight(t, ScopeOf(t, vals), OwnReads(t.syms[t.modules.value]))
  {
  }

  /** Cache-free evaluation has one answer only. */
  lemma SolutionUnique(t: Tree, u: Users, v1: map<nat, string>, v2: map<nat, string>)
    requires WellFormed(t) && Fits(t, u) && Solution(t, u, v1) && Solution(t, u, v2)
    ensures v1 == v2
  {
    forall s: nat | s < |t.syms| ensures v1[s] == v2[s] {
      FrameAt(t, u, v1, u, v2, {}, s);
    }
  }

  ghost predicate SameOutside(t: Tree, sc1: Scope, sc2: Scope, a: set<nat>) {
    && sc1.tri == sc2.tri && sc1.modules == sc2.modules
    && forall x: nat :: x < |t.syms| && x !in a ==> ValueOf(sc1.vals, Symb(x)) == ValueOf(sc2.vals, Symb(x))
  }

  lemma FrameScopes(t: Tree, u1: Users, v1: map<nat, string>, u2: Users, v2: map<nat, string>, a: set<nat>)
    requires WellFormed(t) && Fits(t, u1) && Fits(t, u2)
    requires Solution(t, u1, v1) && Solution(t, u2, v2)
    requires Closed(t, a) && AgreeOutside(t, u1, u2, a)
    requires t.modules.Some? ==> t.modules.value !in a || ModulesOn(t, v1) == ModulesOn(t, v2)
    ensures SameOutside(t, ScopeOf(t, v1), ScopeOf(t, v2), a)
  {
    forall s: nat | s < |t.syms| && s !in a ensures v1[s] == v2[s] {
      FrameAt(t, u1, v1, u2, v2, a, s);
    }
  }

  lemma SameReads(t: Tree, sc1: Scope, sc2: Scope, a: set<nat>, s: nat)
    requires WellFormed(t) && Closed(t, a) && SameOutside(t, sc1, sc2, a)
    requires s < |t.syms| && s !in a
    ensures Same(sc1, sc2, Reads(t, s))
  {
    hide Reads;
    forall x | x in Reads(t, s)
      ensures ValueOf(sc1.vals, Symb(x)) == ValueOf(sc2.vals, Symb(x))
    {
      ReadsRanked(t, s, x);
      assert x !in a;
    }
  }

  /** Outside the set, visibilities and values stay. */
  lemma FrameSymbol(t: Tree, u1: Users, u2: Users, sc1: Scope, sc2: Scope, a: set<nat>, s: nat)
    requires WellFormed(t) && Fits(t, u1) && Fits(t, u2)
    requires Closed(t, a) && SameOutside(t, sc1, sc2, a) && AgreeOutside(t, u1, u2, a)
    requires s < |t.syms| && s !in a
    ensures SymVis(t, sc1, s) == SymVis(t, sc2, s)
    ensures SymbolOut(t, u1, sc1, s) == SymbolOut(t, u2, sc2, s)
  {
    SameReads(t, sc1, sc2, a, s);
    SymVisAgrees(t, sc1, sc2, s);
    forall x: nat | x < |t.syms| && Mates(t, s, x) ensures Same(sc1, sc2, Reads(t, x)) {
      assert Mates(t, s, x);
      SameReads(t, sc1, sc2, a, x);
    }
    if t.syms[s].special.None? {
      OutAgrees(t, u1, u2, sc1, sc2, s);
    }
  }

  /** Outside the set, choices keep their visibility, mode and selection. */
  lemma FrameChoice(t: Tree, u1: Users, u2: Users, sc1: Scope, sc2: Scope, a: set<nat>, c: nat)
    requires WellFormed(t) && Fits(t, u1) && Fits(t, u2)
    requires Closed(t, a) && SameOutside(t, sc1, sc2, a) && AgreeOutside(t, u1, u2, a)
    requires c < |t.choices| && t.choices[c].actual != [] && t.choices[c].actual[0] !in a
    ensures ChoiceVis(t, sc1, c) == ChoiceVis(t, sc2, c)
    ensures Selection(t, u1, sc1, c) == Selection(t, u2, sc2, c)
  {
    var first := t.choices[c].actual[0];
    SameReads(t, sc1, sc2, a, first);
    assert ChoiceReads(t.choices[c]) <= Reads(t, first);
    ChoiceVisAgrees(t, sc1, sc2, c);
    forall i | 0 <= i < |t.choices[c].actual|
      ensures Same(sc1, sc2, Reads(t, t.choices[c].actual[i]))
    {
      assert Mates(t, first, t.choices[c].actual[i]);
      SameReads(t, sc1, sc2, a, t.choices[c].actual[i]);
    }
    SelectionAgrees(t, u1, u2, sc1, sc2, c);
  }

  // ---- Cache-free evaluation, in dependency order ----

  function SolveUpTo(t: Tree, u: Users, k: nat): map<nat, string>
    requires WellFormed(t) && Fits(t, u)
  {
    if k == 0 then map[]
    else
      var lower := SolveUpTo(t, u, k - 1);
      map s: nat | 0 <= s < |t.syms| && t.rank[s] < k ::
        if s in lower && t.rank[s] < k - 1 then lower[s] else SymbolOut(t, u, ScopeOf(t, lower), s).val
  }

  /** Evaluates every symbol without caches. */
  function Solve(t: Tree, u: Users): map<nat, string>
    requires WellFormed(t) && Fits(t, u)
  {
    SolveUpTo(t, u, t.bound)
  }

  ghost predicate SolvedBelow(t: Tree, u: Users, vals: map<nat, string>, k: nat)
    requires WellFormed(t) && Fits(t, u)
  {
    && (forall s: nat :: s in vals <==> s < |t.syms| && t.rank[s] < k)
    && (forall s: nat :: s in vals ==> vals[s] == SymbolOut(t, u, ScopeOf(t, vals), s).val)
  }

  lemma {:induction false} SolveUpToSolves(t: Tree, u: Users, k: nat)
    requires WellFormed(t) && Fits(t, u)
    ensures SolvedBelow(t, u, SolveUpTo(t, u, k), k)
  {
    hide SymbolOut, ModulesOk, TypesOk, ChoicesOk, RanksOk;
    if k > 0 {
      SolveUpToSolves(t, u, k - 1);
      var lower, vals := SolveUpTo(t, u, k - 1), SolveUpTo(t, u, k);
      forall s: nat | s < |t.syms| && t.rank[s] < k
        ensures vals[s] == SymbolOut(t, u, ScopeOf(t, vals), s).val
      {
        assert vals[s] == SymbolOut(t, u, ScopeOf(t, lower), s).val;
        SolveStep(t, u, k, s);
      }
    }
  }

  lemma OwnReadsRead(t: Tree, s: nat, r: nat)
    requires ChoicesOk(t) && s < |t.syms| && r in OwnReads(t.syms[s])
    ensures r in Reads(t, s)
  {
  }

  lemma SolveStep(t: Tree, u: Users, k: nat, s: nat)
    requires WellFormed(t) && Fits(t, u) && k > 0 && s < |t.syms| && t.rank[s] < k
    requires SolvedBelow(t, u, SolveUpTo(t, u, k - 1), k - 1)
    ensures var lower, vals := SolveUpTo(t, u, k - 1), SolveUpTo(t, u, k);
      SymbolOut(t, u, ScopeOf(t, lower), s) == SymbolOut(t, u, ScopeOf(t, vals), s)
  {
    hide Reads, RanksOk, SymbolOut, ModulesOn;
    var lower, vals := SolveUpTo(t, u, k - 1), SolveUpTo(t, u, k);
    forall x: nat, r | x < |t.syms| && Mates(t, s, x) && r in Reads(t, x)
      ensures ValueOf(lower, Symb(r)) == ValueOf(vals, Symb(r))
    {
      MatesShareRank(t, s, x);
      ReadsRanked(t, x, r);
    }
    if t.modules == Some(s) {
      forall r | r in OwnReads(t.syms[s]) ensures r in Reads(t, s) { OwnReadsRead(t, s, r); }
      assert Mates(t, s, s);
      forall r | r in OwnReads(t.syms[s])
        ensures ValueOf(lower, Symb(r)) == t.syms[r].special.value
      {
        ReadsRanked(t, s, r);
        SpecialOut(t, u, ScopeOf(t, lower), r);
      }
    } else if !Constant(t.syms[s]) {
      SameModules(t, lower, vals);
    }
    OutStable(t, u, u, lower, vals, s);
  }

  lemma SolveIsSolution(t: Tree, u: Users)
    requires WellFormed(t) && Fits(t, u)
    ensures Solution(t, u, Solve(t, u))
  {
    SolveUpToSolves(t, u, t.bound);
  }

  // ---- The symbols to invalidate ----

  /** Symbol.dep: who reads s. */
  function Dep(t: Tree, s: nat): set<nat>
    requires ChoicesOk(t)
  {
    set r: nat | 0 <= r < |t.syms| && s in Reads(t, r)
  }

  function Siblings(t: Tree, s: nat): set<nat>
    requires ChoicesOk(t) && s < |t.syms|
  {
    if t.syms[s].choice.None? then {}
    else set x | x in t.choices[t.syms[s].choice.value].actual && x != s
  }

  /** Who reads s or, if s is in a choice, who reads one of its siblings. */
  function NodeDep(t: Tree, s: nat): set<nat>
    requires ChoicesOk(t) && s < |t.syms|
  {
    Dep(t, s) + (set x, y | x in Siblings(t, s) && y in Dep(t, x) :: y)
  }

  lemma NodeDepRanks(t: Tree, s: nat, x: nat)
    requires WellFormed(t) && s < |t.syms| && x in NodeDep(t, s)
    ensures x < |t.syms| && t.rank[s] < t.rank[x] < t.bound
  {
    hide Reads, RanksOk, ModulesOk, TypesOk;
    if x in Dep(t, s) {
      ReadsRanked(t, x, s);
    } else {
      var y :| y in Siblings(t, s) && x in Dep(t, y);
      ReadsRanked(t, x, y);
      MatesShareRank(t, s, y);
    }
  }

  /** The transitive closure _get_dependent computes. */
  function Reach(t: Tree, s: nat): set<nat>
    requires WellFormed(t) && s < |t.syms|
    decreases t.bound - t.rank[s]
  {
    var direct := NodeDep(t, s);
    direct + Siblings(t, s) +
      (set x, y | x in direct && x < |t.syms| && t.rank[s] < t.rank[x] && y in Reach(t, x) :: y)
  }

  ghost function Affected(t: Tree, s: nat): set<nat>
    requires WellFormed(t) && s < |t.syms|
  {
    {s} + Reach(t, s)
  }

  lemma ReachHas(t: Tree, s: nat, x: nat, y: nat)
    requires WellFormed(t) && s < |t.syms| && x in NodeDep(t, s)
    ensures x < |t.syms| && x in Reach(t, s)
    ensures y in Reach(t, x) ==> y in Reach(t, s)
  {
    NodeDepRanks(t, s, x);
  }

  /** The closure misses nothing: whoever reads an affected symbol, and every
      choice mate of one, is affected. */
  lemma {:induction false} ReachClosed(t: Tree, s: nat)
    requires WellFormed(t) && s < |t.syms|
    ensures Closed(t, Affected(t, s))
    decreases t.bound - t.rank[s], 1
  {
    hide Reads, RanksOk, ModulesOk, TypesOk;
    var a := Affected(t, s);
    forall r: nat, x | r < |t.syms| && x in a && x in Reads(t, r)
      ensures r in a
    {
      ReadersIncluded(t, s, x, r);
    }
    forall y: nat, x: nat | y < |t.syms| && x < |t.syms| && x in a && Mates(t, y, x)
      ensures y in a
    {
      MatesIncluded(t, s, x, y);
    }
  }

  /** The members of the closure: a direct neighbour, a sibling, or beyond a neighbour. */
  lemma ReachCases(t: Tree, s: nat, x: nat) returns (via: nat)
    requires WellFormed(t) && s < |t.syms| && x in Affected(t, s)
    ensures x == s || x in Siblings(t, s)
      || (via in NodeDep(t, s) && via < |t.syms| && t.rank[s] < t.rank[via] && x in Affected(t, via))
  {
    if x == s || x in Siblings(t, s) {
      via := s;
    } else if x in NodeDep(t, s) {
      NodeDepRanks(t, s, x);
      via := x;
    } else {
      via :| via in NodeDep(t, s) && via < |t.syms| && t.rank[s] < t.rank[via] && x in Reach(t, via);
    }
  }

  lemma DirectReader(t: Tree, s: nat, x: nat, r: nat)
    requires ChoicesOk(t) && s < |t.syms| && r < |t.syms|
    requires (x == s || x in Siblings(t, s)) && x in Reads(t, r)
    ensures r in NodeDep(t, s)
  {
    hide Reads;
    assert r in Dep(t, x);
  }

  lemma SiblingMate(t: Tree, s: nat, x: nat, y: nat)
    requires WellFormed(t) && s < |t.syms| && x < |t.syms| && y < |t.syms|
    requires (x == s || x in Siblings(t, s)) && Mates(t, y, x)
    ensures y in Affected(t, s)
  {
    hide Reads, RanksOk, ModulesOk, TypesOk, NodeDep;
    if y != s {
      assert y in Siblings(t, s);
    }
  }

  lemma ReadersIncluded(t: Tree, s: nat, x: nat, r: nat)
    requires WellFormed(t) && s < |t.syms| && r < |t.syms|
    requires x in Affected(t, s) && x in Reads(t, r)
    ensures r in Affected(t, s)
    decreases t.bound - t.rank[s], 0
  {
    hide Reads, RanksOk, ModulesOk, TypesOk, Closed, ChoicesOk, NodeDep;
    var via := ReachCases(t, s, x);
    if x == s || x in Siblings(t, s) {
      DirectReader(t, s, x, r);
      ReachHas(t, s, r, r);
    } else {
      NodeDepRanks(t, s, via);
      ReachClosed(t, via);
      ClosedHas(t, Affected(t, via), x, r);
      ReachHas(t, s, via, r);
    }
  }

  lemma MatesIncluded(t: Tree, s: nat, x: nat, y: nat)
    requires WellFormed(t) && s < |t.syms| && x < |t.syms| && y < |t.syms|
    requires x in Affected(t, s) && Mates(t, y, x)
    ensures y in Affected(t, s)
    decreases t.bound - t.rank[s], 0
  {
    hide Reads, RanksOk, ModulesOk, TypesOk, Closed, ChoicesOk, NodeDep;
    var via := ReachCases(t, s, x);
    if x == s || x in Siblings(t, s) {
      SiblingMate(t, s, x, y);
    } else {
      NodeDepRanks(t, s, via);
      ReachClosed(t, via);
      ClosedHas(t, Affected(t, via), x, y);
      ReachHas(t, s, via, y);
    }
  }
}
