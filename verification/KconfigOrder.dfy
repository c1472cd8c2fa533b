/** Why the recursive evaluator terminates: everything a symbol asks for ranks below
    it, and MODULES never has to ask for itself (docs/bk7258/kconfiglib.py). */
module KconfigOrder {
  import opened Options
  import opened Tristate
  import opened KconfigExpr
  import opened KconfigModel
  import opened KconfigTheory

  // ---- What the recursion needs: lower ranks only, and MODULES never asks for itself ----

  ghost predicate Below(t: Tree, k: nat, xs: set<nat>)
    requires Sized(t)
  {
    forall x <- xs :: x < |t.syms| && t.rank[x] < k
  }

  /** At this rank MODULES may not be consulted. */
  predicate High(t: Tree, k: nat)
    requires Sized(t)
  {
    t.modules.Some? && (t.modules.value < |t.syms| ==> k <= t.rank[t.modules.value])
  }

  ghost predicate CondOk(t: Tree, k: nat, c: Cond)
    requires Sized(t)
  {
    && Below(t, k, CondSyms(c))
    && (High(t, k) ==> MFreeCond(t, c) && forall x <- CondSyms(c) :: t.syms[x].special.Some?)
  }

  ghost predicate RangeOk(t: Tree, k: nat, r: Range)
    requires Sized(t)
  {
    CondOk(t, k, r.cond) && Below(t, k, OperandSyms(r.low)) && Below(t, k, OperandSyms(r.high))
  }

  lemma {:induction false} CondsOk(t: Tree, k: nat, cs: seq<Cond>)
    requires Sized(t) && Below(t, k, CondsSyms(cs))
    requires High(t, k) ==> forall x <- CondsSyms(cs) :: t.syms[x].special.Some?
    requires High(t, k) ==> forall i :: 0 <= i < |cs| ==> MFreeCond(t, cs[i])
    ensures forall i :: 0 <= i < |cs| ==> CondOk(t, k, cs[i])
  {
    if cs != [] {
      CondsOk(t, k, cs[1..]);
      assert forall i :: 1 <= i < |cs| ==> cs[i] == cs[1..][i - 1];
    }
  }

  lemma {:induction false} DefaultsOk(t: Tree, k: nat, ds: seq<Default>)
    requires Sized(t) && Below(t, k, DefaultsSyms(ds))
    requires High(t, k) ==> forall x <- DefaultsSyms(ds) :: t.syms[x].special.Some?
    requires High(t, k) ==> forall i :: 0 <= i < |ds| ==> MFree(t, ds[i].value) && MFreeCond(t, ds[i].cond)
    ensures forall i :: 0 <= i < |ds| ==> CondOk(t, k, If(ds[i].value)) && CondOk(t, k, ds[i].cond)
  {
    if ds != [] {
      DefaultsOk(t, k, ds[1..]);
      assert forall i :: 1 <= i < |ds| ==> ds[i] == ds[1..][i - 1];
    }
  }

  lemma {:induction false} RangesOk(t: Tree, k: nat, rs: seq<Range>)
    requires Sized(t) && Below(t, k, RangesSyms(rs))
    requires High(t, k) ==> forall x <- RangesSyms(rs) :: t.syms[x].special.Some?
    requires High(t, k) ==> forall i :: 0 <= i < |rs| ==> MFreeCond(t, rs[i].cond)
    ensures forall i :: 0 <= i < |rs| ==> RangeOk(t, k, rs[i])
  {
    if rs != [] {
      RangesOk(t, k, rs[1..]);
      assert forall i :: 1 <= i < |rs| ==> rs[i] == rs[1..][i - 1];
    }
  }

  lemma {:induction false} ChoiceDefaultsOk(t: Tree, k: nat, ds: seq<ChoiceDefault>)
    requires Sized(t) && Below(t, k, ChoiceDefaultsSyms(ds)) && !High(t, k)
    ensures forall i :: 0 <= i < |ds| ==> CondOk(t, k, ds[i].cond)
  {
    if ds != [] {
      ChoiceDefaultsOk(t, k, ds[1..]);
      assert forall i :: 1 <= i < |ds| ==> ds[i] == ds[1..][i - 1];
    }
  }

  /** Everything a symbol's own evaluation asks for ranks below it. */
  ghost predicate SymbolReady(t: Tree, s: nat)
    requires Sized(t) && s < |t.syms|
  {
    var k, y := t.rank[s], t.syms[s];
    && (forall i :: 0 <= i < |y.prompts| ==> CondOk(t, k, y.prompts[i]))
    && (y.special.None? ==>
      && (forall i :: 0 <= i < |y.defaults| ==>
            CondOk(t, k, If(y.defaults[i].value)) && CondOk(t, k, y.defaults[i].cond))
      && (forall i :: 0 <= i < |y.ranges| ==> RangeOk(t, k, y.ranges[i]))
      && CondOk(t, k, If(y.revDep)))
  }

  lemma SymbolIsReady(t: Tree, s: nat)
    requires WellFormed(t) && s < |t.syms|
    ensures SymbolReady(t, s)
  {
    hide RanksOk, Reads, ChoicesOk, TypesOk;
    var k, y := t.rank[s], t.syms[s];
    forall x | x in OwnReads(y) ensures x < |t.syms| && t.rank[x] < k {
      OwnReadsRead(t, s, x);
      ReadsRanked(t, s, x);
    }
    if !Constant(y) {
      CondsOk(t, k, y.prompts);
      DefaultsOk(t, k, y.defaults);
      RangesOk(t, k, y.ranges);
    }
  }

  /** The rank at which a choice is evaluated: that of its members. */
  function NodeRank(t: Tree, c: nat): nat
    requires WellFormed(t) && c < |t.choices|
  {
    if t.choices[c].actual == [] then t.bound else t.rank[t.choices[c].actual[0]]
  }

  ghost predicate ChoiceReady(t: Tree, c: nat)
    requires WellFormed(t) && c < |t.choices|
  {
    var k := NodeRank(t, c);
    && !High(t, k)
    && (forall i :: 0 <= i < |t.choices[c].prompts| ==> CondOk(t, k, t.choices[c].prompts[i]))
    && (forall i :: 0 <= i < |t.choices[c].defaults| ==> CondOk(t, k, t.choices[c].defaults[i].cond))
    && (forall i :: 0 <= i < |t.choices[c].actual| ==> t.rank[t.choices[c].actual[i]] == k)
  }

  lemma ChoiceReadsRanked(t: Tree, c: nat, x: nat)
    requires WellFormed(t) && c < |t.choices| && x in ChoiceReads(t.choices[c])
    ensures x < |t.syms| && t.rank[x] < NodeRank(t, c)
  {
    hide ChoiceReads;
    if t.choices[c].actual != [] {
      var first := t.choices[c].actual[0];
      assert x in Reads(t, first);
      ReadsRanked(t, first, x);
    }
  }

  lemma ChoiceIsReady(t: Tree, c: nat)
    requires WellFormed(t) && c < |t.choices|
    ensures ChoiceReady(t, c)
  {
    var k, ch := NodeRank(t, c), t.choices[c];
    forall x | x in ChoiceReads(ch) ensures x < |t.syms| && t.rank[x] < k {
      ChoiceReadsRanked(t, c, x);
    }
    if ch.actual != [] {
      assert t.syms[ch.actual[0]].choice == Some(c);
    }
    CondsOk(t, k, ch.prompts);
    ChoiceDefaultsOk(t, k, ch.defaults);
  }

  // ---- Promotion has already happened in every visibility ----

  lemma {:induction false} PromptMaxPromoted(sc: Scope, cs: seq<Cond>)
    ensures PromptMax(sc, cs) == M ==> sc.modules
  {
    if cs != [] {
      PromptMaxPromoted(sc, cs[1..]);
    }
  }

  lemma VisPromotedAt(t: Tree, sc: Scope, s: nat)
    requires ChoicesOk(t) && s < |t.syms|
    ensures SymVis(t, sc, s) == M ==> sc.modules && t.syms[s].typ == TristateType
  {
    PromptMaxPromoted(sc, t.syms[s].prompts);
    if t.syms[s].choice.Some? {
      PromptMaxPromoted(sc, t.choices[t.syms[s].choice.value].prompts);
    }
  }

  lemma CondPromoted(sc: Scope, c: Cond)
    ensures EvalCond(sc, c) == M ==> sc.modules
  {
  }

  /** A member shares its choice's rank and ranks above MODULES. */
  lemma MemberFacts(t: Tree, s: nat)
    requires WellFormed(t) && s < |t.syms| && t.syms[s].choice.Some?
    ensures var c := t.syms[s].choice.value;
      && c < |t.choices| && t.choices[c].actual != [] && s in t.choices[c].actual
      && t.syms[s].special.None? && t.rank[s] == NodeRank(t, c) && !High(t, t.rank[s])
  {
    hide Reads;
    ChoiceIsReady(t, t.syms[s].choice.value);
  }

  /** A tristate written as a constant symbol, as the evaluator passes them around. */
  function Const(v: Tri): Cond {
    If(Leaf(Text(Show(v))))
  }

  lemma ConstMeaning(sc: Scope, v: Tri)
    ensures EvalCond(sc, Const(v)) == Promote(sc.modules, v)
  {
    ReadShow(v);
  }

  /** Passing a promoted tristate as text does not change it. */
  lemma ConstOk(t: Tree, sc: Scope, k: nat, v: Tri)
    requires Sized(t) && (v == M ==> sc.modules && !High(t, k))
    ensures CondOk(t, k, Const(v)) && EvalCond(sc, Const(v)) == v
  {
    ConstMeaning(sc, v);
    ShowIsM(v);
  }

  lemma VisTexts(t: Tree, sc: Scope, s: nat, own: Tri, choiceVis: Tri)
    requires WellFormed(t) && s < |t.syms| && t.syms[s].choice.Some?
    requires own == PromptMax(sc, t.syms[s].prompts)
    requires choiceVis == ChoiceVis(t, sc, t.syms[s].choice.value)
    ensures CondOk(t, t.rank[s], Const(own)) && CondOk(t, t.rank[s], Const(choiceVis))
    ensures EvalCond(sc, Const(own)) == own && EvalCond(sc, Const(choiceVis)) == choiceVis
  {
    hide RanksOk, ModulesOk, TypesOk;
    MemberFacts(t, s);
    PromptMaxPromoted(sc, t.syms[s].prompts);
    PromptMaxPromoted(sc, t.choices[t.syms[s].choice.value].prompts);
    ConstOk(t, sc, t.rank[s], own);
    ConstOk(t, sc, t.rank[s], choiceVis);
  }

  /** Only constants and MODULES itself rank too low to consult MODULES. */
  lemma HighIsModules(t: Tree, s: nat)
    requires WellFormed(t) && s < |t.syms|
    ensures High(t, t.rank[s]) ==> t.modules == Some(s) || Constant(t.syms[s])
  {
  }

  lemma ShowIsM(v: Tri)
    ensures Show(v) == "m" <==> v == M
  {
    ReadShow(v);
  }
}
