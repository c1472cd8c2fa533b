/** The evaluator as it runs: values, visibilities and selections are cached, and an
    assignment throws away what it may have changed (docs/bk7258/kconfiglib.py). */
module KconfigEngine {
  import opened Options
  import opened Tristate
  import opened KconfigExpr
  import opened KconfigModel
  import opened KconfigTheory
  import opened KconfigOrder
  import opened KconfigProgram
  import opened KconfigCaches

  class Kconfig {
    const tree: Tree
    var userVal: seq<Option<string>>
    var choiceUser: seq<Option<nat>>
    var choiceMode: seq<Option<Tri>>
    var dep: seq<set<nat>>
    var cachedVal: seq<Option<string>>
    var writeToConf: seq<bool>
    var cachedVis: seq<Option<Tri>>
    var cachedDeps: seq<Option<set<nat>>>
    var cachedSelection: seq<Option<Option<nat>>>
    var choiceCachedVis: seq<Option<Tri>>

    ghost function User(): Users
      reads `userVal, `choiceUser, `choiceMode
    {
      Users(userVal, choiceUser, choiceMode)
    }

    /** The tree is well-formed, the tables have its shape, and dependencies are as parsed. */
    ghost predicate Valid()
      reads this
    {
      && WellFormed(tree) && Fits(tree, User())
      && |userVal| == |tree.syms| && |choiceUser| == |choiceMode| == |tree.choices|
      && |dep| == |cachedVal| == |writeToConf| == |cachedVis| == |cachedDeps| == |tree.syms|
      && |cachedSelection| == |choiceCachedVis| == |tree.choices|
      && (forall s :: 0 <= s < |dep| ==> dep[s] == Dep(tree, s))
      && (forall s: nat :: s < |cachedDeps| && cachedDeps[s].Some? ==> cachedDeps[s].value == Reach(tree, s))
    }

    /** What the current assignment means, without caches. */
    ghost function Meaning(): Scope
      requires WellFormed(tree) && Fits(tree, User())
      reads `userVal, `choiceUser, `choiceMode
    {
      MeaningOf(tree, User())
    }

    ghost function Snapshot(): Caches
      reads this
    {
      Caches(cachedVal, writeToConf, cachedVis, cachedSelection, choiceCachedVis)
    }

    /** The visibilities that no invalidation drops. */
    ghost function Frozen(): Frost
      reads `cachedVis, `choiceCachedVis
    {
      FrostOf(tree, cachedVis, choiceCachedVis)
    }

    /** Reading gives what evaluating without caches would, but for frozen visibilities. */
    ghost predicate Coherent()
      reads this
      ensures Coherent() ==> Valid()
    {
      Valid() && CachesOk(tree, User(), Meaning(), Snapshot())
    }

    // ---- Cache entries ----

    lemma EntryOk(s: nat)
      requires Coherent() && s < |tree.syms|
      ensures SymOk(tree, User(), Meaning(), s, cachedVal[s], writeToConf[s], cachedVis[s])
    {
      hide SymOk, Valid;
    }

    lemma ChoiceEntryOk(c: nat)
      requires Coherent() && c < |tree.choices|
      ensures ChoiceOk(tree, User(), Meaning(), c, cachedSelection[c], choiceCachedVis[c])
    {
      hide ChoiceOk;
    }

    method StoreVis(s: nat, vis: Tri)
      requires Coherent() && s < |tree.syms|
      requires tree.syms[s].special.None? ==> vis == SymVis(tree, Meaning(), s)
      modifies `cachedVis
      ensures Coherent() && cachedVis == old(cachedVis)[s := Some(vis)]
      ensures Frozen() == FreezeSym(tree, old(Frozen()), s, vis)
    {
      FrostStore(tree, cachedVis, choiceCachedVis, s, vis);
      hide SymbolOut, SymVis, ChoiceOk, RanksOk, ModulesOk, TypesOk, ChoicesOk;
      cachedVis := cachedVis[s := Some(vis)];
    }

    method StoreChoiceVis(c: nat, vis: Tri)
      requires Coherent() && c < |tree.choices|
      requires tree.choices[c].actual != [] ==> vis == ChoiceVis(tree, Meaning(), c)
      modifies `choiceCachedVis
      ensures Coherent() && choiceCachedVis == old(choiceCachedVis)[c := Some(vis)]
      ensures Frozen() == FreezeChoice(tree, old(Frozen()), c, vis)
    {
      FrostStoreChoice(tree, cachedVis, choiceCachedVis, c, vis);
      hide SymOk, Selection, ChoiceVis, RanksOk, ModulesOk, TypesOk, ChoicesOk;
      choiceCachedVis := choiceCachedVis[c := Some(vis)];
    }

    method StoreSelection(c: nat, selection: Option<nat>)
      requires Coherent() && c < |tree.choices| && selection == Selection(tree, User(), Meaning(), c)
      requires tree.choices[c].actual == [] ==> choiceCachedVis[c].Some?
      modifies `cachedSelection
      ensures Coherent() && cachedSelection == old(cachedSelection)[c := Some(selection)]
    {
      hide SymOk, Selection, ChoiceVis, RanksOk, ModulesOk, TypesOk, ChoicesOk;
      cachedSelection := cachedSelection[c := Some(selection)];
    }

    method StoreValue(s: nat, val: string, write: bool)
      requires Coherent() && s < |tree.syms| && tree.syms[s].special.None?
      requires Out(val, write) == SymbolOut(tree, User(), Meaning(), s)
      requires tree.syms[s].typ == UnknownType ==> !write
      modifies `cachedVal, `writeToConf
      ensures Coherent()
      ensures cachedVal == old(cachedVal)[s := Some(val)] && writeToConf == old(writeToConf)[s := write]
    {
      hide SymbolOut, SymVis, ChoiceOk, RanksOk, ModulesOk, TypesOk, ChoicesOk;
      writeToConf := writeToConf[s := write];
      cachedVal := cachedVal[s := Some(val)];
    }

    // ---- Reading ----

    /** _str_val */
    method StrVal(op: Operand, ghost k: nat) returns (r: string)
      requires Coherent() && Below(tree, k, OperandSyms(op))
      modifies `cachedVal, `writeToConf, `cachedVis, `cachedSelection, `choiceCachedVis
      ensures Frozen() == old(Frozen())
      ensures Coherent() && r == ValueOf(Meaning().vals, op)
      decreases k, 0
    {
      hide Coherent, Frozen, RanksOk, ModulesOk, TypesOk, ChoicesOk, Fits;
      match op
      case Symb(id) => r := GetValue(id);
      case Text(text) => r := text;
      case Junk(_) => r := "";
    }

    /** _eval_expr_rec */
    method EvalExprRec(e: Expr, ghost k: nat) returns (r: Tri)
      requires Coherent() && Below(tree, k, Syms(e))
      modifies `cachedVal, `writeToConf, `cachedVis, `cachedSelection, `choiceCachedVis
      ensures Frozen() == old(Frozen())
      ensures Coherent() && r == Eval(Meaning(), e)
      decreases k, 1, e, 1
    {
      hide Coherent, Frozen, Meaning, RanksOk, ModulesOk, TypesOk, ChoicesOk, Fits;
      match e
      case Leaf(op) =>
        r := EvalOperandValue(op, k);
      case And(args) =>
        r := EvalAnd(args, k);
      case Or(args) =>
        r := EvalOr(args, k);
      case Not(arg) =>
        var ev := EvalExprRec(arg, k);
        r := if ev == Y then N else if ev == N then Y else M;
      case Equal(lhs, rhs) =>
        var a := StrVal(lhs, k);
        var b := StrVal(rhs, k);
        r := if a == b then Y else N;
      case Unequal(lhs, rhs) =>
        var a := StrVal(lhs, k);
        var b := StrVal(rhs, k);
        r := if a != b then Y else N;
    }

    /** A symbol that is neither bool nor tristate counts as n. */
    method EvalOperandValue(op: Operand, ghost k: nat) returns (r: Tri)
      requires Coherent() && Below(tree, k, OperandSyms(op))
      modifies `cachedVal, `writeToConf, `cachedVis, `cachedSelection, `choiceCachedVis
      ensures Frozen() == old(Frozen())
      ensures Coherent() && r == EvalOperand(Meaning(), op)
      decreases k, 0
    {
      hide Coherent, Frozen, RanksOk, ModulesOk, TypesOk, ChoicesOk, Fits;
      match op
      case Symb(id) =>
        assert id in OperandSyms(op);
        if !IsTri(tree.syms[id].typ) {
          return N;
        }
        var v := GetValue(id);
        r := Read(v);
      case Text(text) => r := Read(text);
      case Junk(_) => r := N;
    }

    /** && stops at the first n. */
    method EvalAnd(args: seq<Expr>, ghost k: nat) returns (r: Tri)
      requires Coherent() && Below(tree, k, SymsAll(args))
      modifies `cachedVal, `writeToConf, `cachedVis, `cachedSelection, `choiceCachedVis
      ensures Frozen() == old(Frozen())
      ensures Coherent() && r == EvalMinAll(Meaning(), args)
      decreases k, 1, args, 0
    {
      hide Coherent, Frozen, Meaning, RanksOk, ModulesOk, TypesOk, ChoicesOk, Fits;
      r := Y;
      var i := 0;
      while i < |args|
        invariant 0 <= i <= |args| && Coherent() && r != N
        invariant Frozen() == old(Frozen())
        invariant Below(tree, k, SymsAll(args[i..]))
        invariant Min(r, EvalMinAll(Meaning(), args[i..])) == EvalMinAll(Meaning(), args)
      {
        assert args[i..][1..] == args[i + 1..];
        var ev := EvalExprRec(args[i], k);
        if ev == N {
          return N;
        }
        if ev == M {
          r := M;
        }
        i := i + 1;
      }
    }

    /** || stops at the first y. */
    method EvalOr(args: seq<Expr>, ghost k: nat) returns (r: Tri)
      requires Coherent() && Below(tree, k, SymsAll(args))
      modifies `cachedVal, `writeToConf, `cachedVis, `cachedSelection, `choiceCachedVis
      ensures Frozen() == old(Frozen())
      ensures Coherent() && r == EvalMaxAll(Meaning(), args)
      decreases k, 1, args, 0
    {
      hide Coherent, Frozen, Meaning, RanksOk, ModulesOk, TypesOk, ChoicesOk, Fits;
      r := N;
      var i := 0;
      while i < |args|
        invariant 0 <= i <= |args| && Coherent() && r != Y
        invariant Frozen() == old(Frozen())
        invariant Below(tree, k, SymsAll(args[i..]))
        invariant Max(r, EvalMaxAll(Meaning(), args[i..])) == EvalMaxAll(Meaning(), args)
      {
        assert args[i..][1..] == args[i + 1..];
        var ev := EvalExprRec(args[i], k);
        if ev == Y {
          return Y;
        }
        if ev == M {
          r := M;
        }
        i := i + 1;
      }
    }

    /** _eval_expr: an absent expression is y, and m is y without modules. */
    method EvalExpr(c: Cond, ghost k: nat) returns (r: Tri)
      requires Coherent() && CondOk(tree, k, c)
      modifies `cachedVal, `writeToConf, `cachedVis, `cachedSelection, `choiceCachedVis
      ensures Frozen() == old(Frozen())
      ensures Coherent() && r == EvalCond(Meaning(), c)
      ensures High(tree, k) ==> r != M
      decreases k, 2
    {
      hide Coherent, Frozen, RanksOk, ModulesOk, TypesOk, ChoicesOk, Fits;
      if c.Always? {
        return Y;
      }
      r := EvalExprRec(c.expr, k);
      if High(tree, k) {
        SpecialsKeepTheirValue(CondSyms(c));
        NeverM(tree, Meaning(), c.expr);
      }
      if r == M {
        if tree.modules.None? {
          return Y;
        }
        var modules := GetValue(tree.modules.value);
        if modules != "y" {
          return Y;
        }
      }
    }

    lemma SpecialsKeepTheirValue(xs: set<nat>)
      requires Coherent() && forall x <- xs :: x < |tree.syms| && tree.syms[x].special.Some?
      ensures ConstantsRight(tree, Meaning(), xs)
    {
      SolveIsSolution(tree, User());
    }

    method EvalMin(c1: Cond, c2: Cond, ghost k: nat) returns (r: Tri)
      requires Coherent() && CondOk(tree, k, c1) && CondOk(tree, k, c2)
      modifies `cachedVal, `writeToConf, `cachedVis, `cachedSelection, `choiceCachedVis
      ensures Frozen() == old(Frozen())
      ensures Coherent() && r == Min(EvalCond(Meaning(), c1), EvalCond(Meaning(), c2))
      ensures High(tree, k) ==> r != M
      decreases k, 3
    {
      hide Coherent, Frozen, RanksOk, ModulesOk, TypesOk, ChoicesOk, Fits;
      var a := EvalExpr(c1, k);
      var b := EvalExpr(c2, k);
      r := if Less(a, b) then a else b;
    }

    method EvalMax(c1: Cond, c2: Cond, ghost k: nat) returns (r: Tri)
      requires Coherent() && CondOk(tree, k, c1) && CondOk(tree, k, c2)
      modifies `cachedVal, `writeToConf, `cachedVis, `cachedSelection, `choiceCachedVis
      ensures Frozen() == old(Frozen())
      ensures Coherent() && r == Max(EvalCond(Meaning(), c1), EvalCond(Meaning(), c2))
      ensures High(tree, k) ==> r != M
      decreases k, 3
    {
      hide Coherent, Frozen, RanksOk, ModulesOk, TypesOk, ChoicesOk, Fits;
      var a := EvalExpr(c1, k);
      var b := EvalExpr(c2, k);
      r := if Less(b, a) then a else b;
    }

    /** The shared loop of _get_visibility over the prompts of a symbol or choice. */
    method PromptVisibility(prompts: seq<Cond>, ghost k: nat) returns (vis: Tri)
      requires Coherent() && forall i :: 0 <= i < |prompts| ==> CondOk(tree, k, prompts[i])
      modifies `cachedVal, `writeToConf, `cachedVis, `cachedSelection, `choiceCachedVis
      ensures Frozen() == old(Frozen())
      ensures Coherent() && vis == PromptMax(Meaning(), prompts)
      ensures High(tree, k) ==> vis != M
      decreases k, 4
    {
      hide Coherent, Frozen, RanksOk, ModulesOk, TypesOk, ChoicesOk, Fits;
      vis := N;
      var i := 0;
      while i < |prompts|
        invariant 0 <= i <= |prompts| && Coherent()
        invariant Frozen() == old(Frozen())
        invariant High(tree, k) ==> vis != M
        invariant vis == M ==> Meaning().modules
        invariant Max(vis, PromptMax(Meaning(), prompts[i..])) == PromptMax(Meaning(), prompts)
      {
        assert prompts[i..][1..] == prompts[i + 1..];
        ConstMeaning(Meaning(), vis);
        ShowIsM(vis);
        vis := EvalMax(Const(vis), prompts[i], k);
        i := i + 1;
      }
    }

    method GetChoiceVisibility(c: nat) returns (vis: Tri)
      requires Coherent() && c < |tree.choices|
      modifies `cachedVal, `writeToConf, `cachedVis, `cachedSelection, `choiceCachedVis
      ensures Coherent() && choiceCachedVis[c] == Some(vis)
      ensures vis == ShownChoiceVis(tree, Meaning(), old(Frozen()), c)
      ensures Frozen() == FreezeChoice(tree, old(Frozen()), c, vis)
      decreases NodeRank(tree, c), 5, 1
    {
      hide Coherent, Frozen, RanksOk, ModulesOk, TypesOk, ChoicesOk, Fits, ChoiceVis;
      FrozenChoice(c);
      if choiceCachedVis[c].None? {
        ChoiceIsReady(tree, c);
        vis := FreshChoiceVisibility(c);
        StoreChoiceVis(c, vis);
        return;
      }
      ChoiceEntryOk(c);
      return choiceCachedVis[c].value;
    }

    method FreshChoiceVisibility(c: nat) returns (vis: Tri)
      requires Coherent() && c < |tree.choices|
      modifies `cachedVal, `writeToConf, `cachedVis, `cachedSelection, `choiceCachedVis
      ensures Frozen() == old(Frozen())
      ensures Coherent() && vis == ChoiceVis(tree, Meaning(), c)
      decreases NodeRank(tree, c), 5, 0
    {
      hide Coherent, Frozen, RanksOk, ModulesOk, TypesOk, ChoicesOk, Fits;
      ChoiceIsReady(tree, c);
      vis := PromptVisibility(tree.choices[c].prompts, NodeRank(tree, c));
      if vis == M && tree.choices[c].typ != TristateType {
        vis := Y;
      }
    }

    /** What the cache holds of a choice without choice symbols is what is frozen. */
    lemma FrozenChoice(c: nat)
      requires Valid() && c < |tree.choices|
      ensures tree.choices[c].actual == [] ==>
        (choiceCachedVis[c].Some? <==> c in Frozen().choices) &&
        (c in Frozen().choices ==> choiceCachedVis[c].value == Frozen().choices[c])
      ensures choiceCachedVis[c].Some? && tree.choices[c].actual == [] ==>
        Frozen() == FreezeChoice(tree, Frozen(), c, choiceCachedVis[c].value)
    {
      hide RanksOk, ModulesOk, TypesOk, ChoicesOk, Fits;
      assert ChoiceFrozen(tree, choiceCachedVis, c) <==> tree.choices[c].actual == [] && choiceCachedVis[c].Some?;
    }

    lemma FrozenSym(s: nat)
      requires Valid() && s < |tree.syms|
      ensures tree.syms[s].special.Some? ==>
        (cachedVis[s].Some? <==> s in Frozen().syms) &&
        (s in Frozen().syms ==> cachedVis[s].value == Frozen().syms[s])
      ensures cachedVis[s].Some? && tree.syms[s].special.Some? ==>
        Frozen() == FreezeSym(tree, Frozen(), s, cachedVis[s].value)
    {
      hide RanksOk, ModulesOk, TypesOk, ChoicesOk, Fits;
      assert SymFrozen(tree, cachedVis, s) <==> tree.syms[s].special.Some? && cachedVis[s].Some?;
    }

    method GetVisibility(s: nat) returns (vis: Tri)
      requires Coherent() && s < |tree.syms|
      modifies `cachedVal, `writeToConf, `cachedVis, `cachedSelection, `choiceCachedVis
      ensures Coherent() && vis == ShownVis(tree, Meaning(), old(Frozen()), s)
      ensures Frozen() == FreezeSym(tree, old(Frozen()), s, vis)
      decreases tree.rank[s], 6, 1
    {
      hide Coherent, Frozen, RanksOk, ModulesOk, TypesOk, ChoicesOk, Fits, SymVis;
      FrozenSym(s);
      if cachedVis[s].None? {
        vis := FreshVisibility(s);
        StoreVis(s, vis);
        return;
      }
      EntryOk(s);
      return cachedVis[s].value;
    }

    method FreshVisibility(s: nat) returns (vis: Tri)
      requires Coherent() && s < |tree.syms|
      modifies `cachedVal, `writeToConf, `cachedVis, `cachedSelection, `choiceCachedVis
      ensures Frozen() == old(Frozen())
      ensures Coherent() && vis == SymVis(tree, Meaning(), s)
      decreases tree.rank[s], 6, 0
    {
      hide Coherent, Frozen, RanksOk, ModulesOk, TypesOk, ChoicesOk, Fits;
      SymbolIsReady(tree, s);
      vis := PromptVisibility(tree.syms[s].prompts, tree.rank[s]);
      if tree.syms[s].choice.Some? {
        MemberFacts(tree, s);
        var c := tree.syms[s].choice.value;
        var choiceVis := GetChoiceVisibility(c);
        VisTexts(tree, Meaning(), s, vis, choiceVis);
        vis := EvalMin(Const(vis), Const(choiceVis), tree.rank[s]);
      }
      if vis == M && tree.syms[s].typ != TristateType {
        vis := Y;
      }
    }

    method GetMode(c: nat) returns (mode: Tri)
      requires Coherent() && c < |tree.choices|
      modifies `cachedVal, `writeToConf, `cachedVis, `cachedSelection, `choiceCachedVis
      ensures Coherent()
      ensures mode == ShownMode(tree, User(), Meaning(), old(Frozen()), c)
      ensures Frozen() == FreezeChoice(tree, old(Frozen()), c, ShownChoiceVis(tree, Meaning(), old(Frozen()), c))
      decreases NodeRank(tree, c), 6
    {
      hide Coherent, Frozen, RanksOk, ModulesOk, TypesOk, ChoicesOk;
      var minimum := if tree.choices[c].optional then N else M;
      mode := if choiceMode[c].Some? then choiceMode[c].value else minimum;
      ChoiceIsReady(tree, c);
      var vis := GetChoiceVisibility(c);
      ConstMeaning(Meaning(), mode);
      ConstMeaning(Meaning(), vis);
      mode := EvalMin(Const(mode), Const(vis), NodeRank(tree, c));
      if mode == M && tree.choices[c].typ == BoolType {
        return Y;
      }
    }

    /** The mode of a choice with choice symbols is its meaning. */
    lemma ModeMeaning(f: Frost, c: nat)
      requires Valid() && c < |tree.choices|
      ensures tree.choices[c].actual != [] || c !in f.choices ==>
        ShownMode(tree, User(), Meaning(), f, c) == ChoiceMode(tree, User(), Meaning(), c)
    {
      hide RanksOk, ModulesOk, TypesOk, ChoicesOk;
      PromptMaxPromoted(Meaning(), tree.choices[c].prompts);
    }

    /** The default loop of get_selection_from_defaults. */
    method ActiveDefault(ds: seq<ChoiceDefault>, ghost k: nat) returns (r: Option<nat>)
      requires Coherent() && forall i :: 0 <= i < |ds| ==> CondOk(tree, k, ds[i].cond)
      modifies `cachedVal, `writeToConf, `cachedVis, `cachedSelection, `choiceCachedVis
      ensures Frozen() == old(Frozen())
      ensures Coherent() && r == FirstActive(Meaning(), ds)
      decreases k, 4
    {
      hide Coherent, Frozen, RanksOk, ModulesOk, TypesOk, ChoicesOk, Fits;
      var i := 0;
      while i < |ds|
        invariant 0 <= i <= |ds| && Coherent()
        invariant Frozen() == old(Frozen())
        invariant FirstActive(Meaning(), ds) == FirstActive(Meaning(), ds[i..])
      {
        assert ds[i..][1..] == ds[i + 1..];
        var v := EvalExpr(ds[i].cond, k);
        if v != N {
          return Some(ds[i].symbol);
        }
        i := i + 1;
      }
      return None;
    }

    method GetSelectionFromDefaults(c: nat) returns (r: Option<nat>)
      requires Coherent() && c < |tree.choices|
      modifies `cachedVal, `writeToConf, `cachedVis, `cachedSelection, `choiceCachedVis
      ensures Frozen() == old(Frozen())
      ensures Coherent() && r == DefaultSelection(tree, Meaning(), c)
      decreases NodeRank(tree, c), 7
    {
      hide Coherent, Frozen, RanksOk, ModulesOk, TypesOk, Fits, SymVis, FirstActive, CondOk;
      var actual := tree.choices[c].actual;
      if actual == [] {
        return None;
      }
      ChoiceIsReady(tree, c);
      FirstActiveIsMember(Meaning(), tree.choices[c].defaults, actual);
      var active := ActiveDefault(tree.choices[c].defaults, NodeRank(tree, c));
      var chosen := if active.Some? then active.value else actual[0];
      var vis := GetVisibility(chosen);
      if vis != N {
        return Some(chosen);
      }
      var i := 0;
      while i < |actual|
        invariant 0 <= i <= |actual| && Coherent()
        invariant Frozen() == old(Frozen())
        invariant FirstVisible(tree, Meaning(), actual) == FirstVisible(tree, Meaning(), actual[i..])
      {
        assert actual[i..][1..] == actual[i + 1..];
        vis := GetVisibility(actual[i]);
        if vis != N {
          return Some(actual[i]);
        }
        i := i + 1;
      }
      return None;
    }

    method GetSelection(c: nat) returns (r: Option<nat>)
      requires Coherent() && c < |tree.choices|
      modifies `cachedVal, `writeToConf, `cachedVis, `cachedSelection, `choiceCachedVis
      ensures Coherent() && r == Selection(tree, User(), Meaning(), c)
      ensures Frozen() == FreezeChoice(tree, old(Frozen()), c, ShownChoiceVis(tree, Meaning(), old(Frozen()), c))
      decreases NodeRank(tree, c), 8
    {
      hide Coherent, Frozen, RanksOk, ModulesOk, TypesOk, SymVis, ChoiceMode, ShownMode, FirstVisible;
      hide FirstActive, ChoiceVis, ChoiceReady;
      ChoiceEntryOk(c);
      FrozenChoice(c);
      if cachedSelection[c].Some? {
        return cachedSelection[c].value;
      }
      ChoiceIsReady(tree, c);
      r := None;
      ModeMeaning(Frozen(), c);
      if tree.choices[c].actual == [] {
        EmptySelection(tree, User(), Meaning(), c);
      }
      var mode := GetMode(c);
      ghost var f := Frozen();
      if mode == Y {
        var userVisible := false;
        if choiceUser[c].Some? {
          MemberFacts(tree, choiceUser[c].value);
          var vis := GetVisibility(choiceUser[c].value);
          userVisible := vis == Y;
        }
        if userVisible {
          r := choiceUser[c];
        } else if !tree.choices[c].optional {
          r := GetSelectionFromDefaults(c);
        }
      }
      FrozenChoice(c);
      StoreSelection(c, r);
    }

    lemma UserText(s: nat, vis: Tri)
      requires Valid() && s < |tree.syms| && tree.syms[s].special.None? && IsTri(tree.syms[s].typ)
      requires userVal[s].Some? && vis == SymVis(tree, Meaning(), s)
      ensures CondOk(tree, tree.rank[s], If(Leaf(Text(userVal[s].value)))) && CondOk(tree, tree.rank[s], Const(vis))
      ensures EvalCond(Meaning(), If(Leaf(Text(userVal[s].value)))) ==
        Promote(Meaning().modules, Read(userVal[s].value))
      ensures EvalCond(Meaning(), Const(vis)) == vis && (vis == M ==> Meaning().modules)
    {
      hide RanksOk, TypesOk, ChoicesOk;
      HighIsModules(tree, s);
      VisPromotedAt(tree, Meaning(), s);
      ConstMeaning(Meaning(), vis);
      ShowIsM(vis);
    }

    /** get_value for a bool or tristate outside a choice, up to its selects. */
    method TriOwnValue(s: nat, vis: Tri) returns (val: Tri, write: bool)
      requires Coherent() && s < |tree.syms| && tree.syms[s].special.None?
      requires IsTri(tree.syms[s].typ) && tree.syms[s].choice.None? && vis == SymVis(tree, Meaning(), s)
      modifies `cachedVal, `writeToConf, `cachedVis, `cachedSelection, `choiceCachedVis
      ensures Frozen() == old(Frozen())
      ensures Coherent() && val == TriOwn(tree, User(), Meaning(), s)
      ensures write == (vis != N || FirstDefault(Meaning(), tree.syms[s].defaults).Some?)
      ensures (val == M ==> Meaning().modules) && (High(tree, tree.rank[s]) ==> val != M)
      decreases tree.rank[s], 6
    {
      hide Coherent, Frozen, RanksOk, ModulesOk, TypesOk, ChoicesOk, SymVis, FirstDefault;
      hide KconfigExpr.EvalCond, CondOk, Fits, High;
      SymbolIsReady(tree, s);
      write := false;
      if vis != N {
        write := true;
        if userVal[s].Some? {
          UserText(s, vis);
          val := EvalMin(If(Leaf(Text(userVal[s].value))), Const(vis), tree.rank[s]);
          return;
        }
      }
      var found;
      val, found := TriDefault(tree.syms[s].defaults, tree.rank[s]);
      write := write || found;
    }

    /** get_value for a bool or tristate outside a choice; selects take precedence. */
    method TriValue(s: nat, vis: Tri) returns (val: Tri, write: bool)
      requires Coherent() && s < |tree.syms| && tree.syms[s].special.None?
      requires IsTri(tree.syms[s].typ) && tree.syms[s].choice.None? && vis == SymVis(tree, Meaning(), s)
      modifies `cachedVal, `writeToConf, `cachedVis, `cachedSelection, `choiceCachedVis
      ensures Frozen() == old(Frozen())
      ensures Coherent() && Out(Show(val), write) == TriOut(tree, User(), Meaning(), s)
      decreases tree.rank[s], 7
    {
      hide Coherent, Frozen, RanksOk, ModulesOk, TypesOk, ChoicesOk, SymVis, FirstDefault;
      hide KconfigExpr.EvalCond, CondOk, Fits, High, TriOwn;
      var y := tree.syms[s];
      SymbolIsReady(tree, s);
      val, write := TriOwnValue(s, vis);
      var selected := EvalExpr(If(y.revDep), tree.rank[s]);
      if selected != N {
        write := true;
        CondPromoted(Meaning(), If(y.revDep));
        ConstOk(tree, Meaning(), tree.rank[s], val);
        ConstOk(tree, Meaning(), tree.rank[s], selected);
        val := EvalMax(Const(val), Const(selected), tree.rank[s]);
      }
      if val == M && y.typ == BoolType {
        val := Y;
      }
    }

    /** The default loop of get_value for bools and tristates. */
    method TriDefault(ds: seq<Default>, ghost k: nat) returns (val: Tri, found: bool)
      requires Coherent()
      requires forall i :: 0 <= i < |ds| ==> CondOk(tree, k, If(ds[i].value)) && CondOk(tree, k, ds[i].cond)
      modifies `cachedVal, `writeToConf, `cachedVis, `cachedSelection, `choiceCachedVis
      ensures Frozen() == old(Frozen())
      ensures Coherent() && found == FirstDefault(Meaning(), ds).Some?
      ensures found ==> var d := FirstDefault(Meaning(), ds).value;
        val == Min(EvalCond(Meaning(), If(d.value)), EvalCond(Meaning(), d.cond))
      ensures !found ==> val == N
      ensures (val == M ==> Meaning().modules) && (High(tree, k) ==> val != M)
      decreases k, 4
    {
      hide Coherent, Frozen, RanksOk, ModulesOk, TypesOk, ChoicesOk, Fits;
      var i := 0;
      while i < |ds|
        invariant 0 <= i <= |ds| && Coherent()
        invariant Frozen() == old(Frozen())
        invariant FirstDefault(Meaning(), ds) == FirstDefault(Meaning(), ds[i..])
      {
        assert ds[i..][1..] == ds[i + 1..];
        var cond := EvalExpr(ds[i].cond, k);
        if cond != N {
          ConstOk(tree, Meaning(), k, cond);
          val := EvalMin(If(ds[i].value), Const(cond), k);
          return val, true;
        }
        i := i + 1;
      }
      return N, false;
    }

    /** The default loop of get_value for numbers and strings. */
    method TextDefault(ds: seq<Default>, ghost k: nat) returns (val: string, found: bool)
      requires Coherent() && forall i :: 0 <= i < |ds| ==> ds[i].value.Leaf?
      requires forall i :: 0 <= i < |ds| ==> CondOk(tree, k, If(ds[i].value)) && CondOk(tree, k, ds[i].cond)
      modifies `cachedVal, `writeToConf, `cachedVis, `cachedSelection, `choiceCachedVis
      ensures Frozen() == old(Frozen())
      ensures Coherent() && found == FirstDefault(Meaning(), ds).Some?
      ensures val == if found then DefaultText(Meaning(), FirstDefault(Meaning(), ds).value) else ""
      decreases k, 4
    {
      hide Coherent, Frozen, RanksOk, ModulesOk, TypesOk, ChoicesOk, Fits;
      var i := 0;
      while i < |ds|
        invariant 0 <= i <= |ds| && Coherent()
        invariant Frozen() == old(Frozen())
        invariant FirstDefault(Meaning(), ds) == FirstDefault(Meaning(), ds[i..])
      {
        assert ds[i..][1..] == ds[i + 1..];
        var cond := EvalExpr(ds[i].cond, k);
        if cond != N {
          val := StrVal(ds[i].value.op, k);
          return val, true;
        }
        i := i + 1;
      }
      return "", false;
    }

    /** The range loop of get_value: the first active range, as numbers. */
    method ActiveRange(rs: seq<Range>, base: nat, ghost k: nat) returns (active: bool, low: int, high: int)
      requires Coherent()
      requires forall i :: 0 <= i < |rs| ==> RangeOk(tree, k, rs[i])
      modifies `cachedVal, `writeToConf, `cachedVis, `cachedSelection, `choiceCachedVis
      ensures Frozen() == old(Frozen())
      ensures Coherent() && active == FirstRange(Meaning(), rs).Some?
      ensures active ==> var r := FirstRange(Meaning(), rs).value;
        && low == NumberOr0(tree, ValueOf(Meaning().vals, r.low), base)
        && high == NumberOr0(tree, ValueOf(Meaning().vals, r.high), base)
      ensures !active ==> low == high == 0
      decreases k, 4
    {
      hide Coherent, Frozen, RanksOk, ModulesOk, TypesOk, ChoicesOk, Fits;
      var i := 0;
      while i < |rs|
        invariant 0 <= i <= |rs| && Coherent()
        invariant Frozen() == old(Frozen())
        invariant FirstRange(Meaning(), rs) == FirstRange(Meaning(), rs[i..])
      {
        assert rs[i..][1..] == rs[i + 1..];
        var cond := EvalExpr(rs[i].cond, k);
        if cond != N {
          var lowText := StrVal(rs[i].low, k);
          var highText := StrVal(rs[i].high, k);
          low := if tree.num.isNum(lowText, base) then tree.num.toInt(lowText, base) else 0;
          high := if tree.num.isNum(highText, base) then tree.num.toInt(highText, base) else 0;
          return true, low, high;
        }
        i := i + 1;
      }
      return false, 0, 0;
    }

    /** get_value for ints and hexes. */
    method NumValue(s: nat, vis: Tri) returns (val: string, write: bool)
      requires Coherent() && s < |tree.syms| && tree.syms[s].special.None?
      requires (tree.syms[s].typ == HexType || tree.syms[s].typ == IntType) && vis == SymVis(tree, Meaning(), s)
      modifies `cachedVal, `writeToConf, `cachedVis, `cachedSelection, `choiceCachedVis
      ensures Frozen() == old(Frozen())
      ensures Coherent() && Out(val, write) == NumOut(tree, User(), Meaning(), s)
      decreases tree.rank[s], 7
    {
      hide Coherent, Frozen, RanksOk, ModulesOk, ChoicesOk, SymVis, FirstDefault, FirstRange, CondOk;
      hide RangeOk, DefaultText, Fits, Meaning, High, Clamp;
      var y := tree.syms[s];
      SymbolIsReady(tree, s);
      var base := if y.typ == HexType then 16 else 10;
      val, write := "", false;
      var useDefaults := true;
      var active, low, high := ActiveRange(y.ranges, base, tree.rank[s]);
      if vis != N {
        write := true;
        if userVal[s].Some? && tree.num.isNum(userVal[s].value, base)
           && (!active || low <= tree.num.toInt(userVal[s].value, base) <= high) {
          useDefaults := false;
          val := userVal[s].value;
        }
      }
      if useDefaults {
        var found;
        val, found := TextDefault(y.defaults, tree.rank[s]);
        if found {
          write := true;
          val := IntoRange(val, base, active, low, high);
        } else if active && low > 0 {
          val := tree.num.render(low, base);
        }
      }
    }

    /** A default outside the active range becomes the nearer end. */
    method IntoRange(text: string, base: nat, active: bool, low: int, high: int) returns (val: string)
      ensures val == Clamp(tree, text, base, active, low, high)
    {
      val := text;
      if tree.num.isNum(val, base) && active {
        if tree.num.toInt(val, base) < low {
          val := tree.num.render(low, base);
        } else if tree.num.toInt(val, base) > high {
          val := tree.num.render(high, base);
        }
      }
    }

    method StringValue(s: nat, vis: Tri) returns (val: string, write: bool)
      requires Coherent() && s < |tree.syms| && tree.syms[s].special.None?
      requires tree.syms[s].typ == StringType && vis == SymVis(tree, Meaning(), s)
      modifies `cachedVal, `writeToConf, `cachedVis, `cachedSelection, `choiceCachedVis
      ensures Frozen() == old(Frozen())
      ensures Coherent() && Out(val, write) == StringOut(tree, User(), Meaning(), s)
      decreases tree.rank[s], 7
    {
      hide Coherent, Frozen, RanksOk, ModulesOk, ChoicesOk, SymVis, FirstDefault;
      SymbolIsReady(tree, s);
      val, write := "", false;
      if vis != N {
        write := true;
        if userVal[s].Some? {
          return userVal[s].value, true;
        }
      }
      var found;
      val, found := TextDefault(tree.syms[s].defaults, tree.rank[s]);
      write := write || found;
    }

    /** get_value for a choice member. */
    method MemberValue(s: nat, vis: Tri) returns (val: Tri, write: bool)
      requires Coherent() && s < |tree.syms| && IsTri(tree.syms[s].typ)
      requires tree.syms[s].choice.Some? && vis == SymVis(tree, Meaning(), s)
      modifies `cachedVal, `writeToConf, `cachedVis, `cachedSelection, `choiceCachedVis
      ensures Frozen() == old(Frozen())
      ensures Coherent() && Out(Show(val), write) == ChoiceMemberOut(tree, User(), Meaning(), s)
      decreases tree.rank[s], 9
    {
      hide Coherent, Frozen, RanksOk, ModulesOk, TypesOk, ChoicesOk, SymVis, Selection, ChoiceMode;
      MemberFacts(tree, s);
      var c := tree.syms[s].choice.value;
      val, write := N, false;
      if vis != N {
        ModeMeaning(Frozen(), c);
        var mode := GetMode(c);
        write := mode != N;
        if mode == Y {
          var selection := GetSelection(c);
          val := if selection == Some(s) then Y else N;
        } else if mode == M {
          if userVal[s] == Some("m") || userVal[s] == Some("y") {
            val := M;
          }
        }
      }
      if val == M && tree.syms[s].typ == BoolType {
        val := Y;
      }
    }

    lemma ValueMeaning(s: nat)
      requires Valid() && s < |tree.syms|
      ensures ValueOf(Meaning().vals, Symb(s)) == SymbolOut(tree, User(), Meaning(), s).val
    {
      hide RanksOk, TypesOk, ChoicesOk, ModulesOk, Fits, SymbolOut;
      SolveIsSolution(tree, User());
    }

    /** Reads a symbol: the cached value, or a fresh one that is then cached. */
    method GetValue(s: nat) returns (r: string)
      requires Coherent() && s < |tree.syms|
      modifies `cachedVal, `writeToConf, `cachedVis, `cachedSelection, `choiceCachedVis
      ensures Frozen() == old(Frozen())
      ensures Coherent() && cachedVal[s] == Some(r)
      ensures r == ValueOf(Meaning().vals, Symb(s))
      ensures writeToConf[s] == SymbolOut(tree, User(), Meaning(), s).write
      decreases tree.rank[s], 10
    {
      hide Coherent, Frozen, RanksOk, ModulesOk, TypesOk, ChoicesOk, Fits, TriOut, NumOut, StringOut;
      hide ChoiceMemberOut, SymVis, Solve;
      ValueMeaning(s);
      EntryOk(s);
      if cachedVal[s].Some? {
        return cachedVal[s].value;
      }
      var y := tree.syms[s];
      if y.typ == UnknownType {
        StoreValue(s, y.name, false);
        return y.name;
      }
      var write := false;
      var vis := GetVisibility(s);
      if y.typ == BoolType || y.typ == TristateType {
        var tri;
        if y.choice.Some? {
          tri, write := MemberValue(s, vis);
        } else {
          tri, write := TriValue(s, vis);
        }
        r := Show(tri);
      } else if y.typ == StringType {
        r, write := StringValue(s, vis);
      } else {
        r, write := NumValue(s, vis);
      }
      StoreValue(s, r, write);
    }

    // ---- Dependencies ----

    /** add_expr_deps: s joins the dependents of every symbol in xs. */
    method AddDeps(xs: set<nat>, s: nat)
      requires |dep| == |tree.syms| && forall x <- xs :: x < |dep|
      modifies `dep
      ensures |dep| == |tree.syms|
      ensures forall x: nat :: x < |dep| ==> dep[x] == if x in xs then old(dep)[x] + {s} else old(dep)[x]
    {
      ghost var before := dep;
      var work := xs;
      while work != {}
        invariant work <= xs && |dep| == |before|
        invariant forall x: nat :: x < |dep| && x !in xs ==> dep[x] == before[x]
        invariant forall x: nat :: x < |dep| && x in xs ==> dep[x] == if x in work then before[x] else before[x] + {s}
        decreases |work|
      {
        var x :| x in work;
        work := work - {x};
        dep := dep[x := dep[x] + {s}];
      }
    }

    /** _build_dep */
    method BuildDep()
      requires WellFormed(tree) && |dep| == |tree.syms| && forall x: nat :: x < |dep| ==> dep[x] == {}
      modifies `dep
      ensures |dep| == |tree.syms| && forall x: nat :: x < |dep| ==> dep[x] == Dep(tree, x)
    {
      hide RanksOk, ModulesOk, TypesOk, Reads;
      var s := 0;
      while s < |tree.syms|
        invariant 0 <= s <= |tree.syms| == |dep|
        invariant forall x: nat :: x < |dep| ==> dep[x] == set r: nat | 0 <= r < s && x in Reads(tree, r)
      {
        forall x | x in Reads(tree, s) ensures x < |tree.syms| { ReadsRanked(tree, s, x); }
        AddDeps(Reads(tree, s), s);
        s := s + 1;
      }
    }

    /** The union of the dependents of xs. */
    method GetDependents(xs: set<nat>, ghost s: nat) returns (r: set<nat>)
      requires Valid() && s < |tree.syms|
      requires forall x <- xs :: x < |tree.syms| && tree.rank[s] < tree.rank[x]
      modifies `cachedDeps
      ensures Valid() && r == ReachAll(tree, xs)
      decreases tree.bound - tree.rank[s], 0
    {
      hide RanksOk, ModulesOk, TypesOk, ChoicesOk, Fits, Reads, Dep;
      r := {};
      var work := xs;
      while work != {}
        invariant Valid() && work <= xs && r == ReachAll(tree, xs - work)
        decreases |work|
      {
        var x :| x in work;
        var deps := GetDependent(x);
        assert xs - (work - {x}) == (xs - work) + {x};
        work := work - {x};
        r := r + deps;
      }
      assert xs - work == xs;
    }

    /** _get_dependent: everything to invalidate when s changes. */
    method GetDependent(s: nat) returns (r: set<nat>)
      requires Valid() && s < |tree.syms|
      modifies `cachedDeps
      ensures Valid() && r == Reach(tree, s)
      decreases tree.bound - tree.rank[s], 2
    {
      hide RanksOk, ModulesOk, TypesOk, ChoicesOk, Fits, Reads, Dep, ReachVia, Reach, NodeDep;
      hide ReachAll, Siblings;
      if cachedDeps[s].Some? {
        return cachedDeps[s].value;
      }
      Neighbours(tree, s);
      var deeper := GetDependents(dep[s], s);
      r := dep[s] + deeper;
      ReachViaNone(tree, s);
      if tree.syms[s].choice.Some? {
        var actual := tree.choices[tree.syms[s].choice.value].actual;
        r := AddSiblings(s, actual, r);
      }
      ReachViaSiblings(tree, s);
      cachedDeps := cachedDeps[s := Some(r)];
    }

    /** The sibling loop of _get_dependent. */
    method AddSiblings(s: nat, actual: seq<nat>, r0: set<nat>) returns (r: set<nat>)
      requires Valid() && s < |tree.syms| && r0 == ReachVia(tree, s, {})
      requires forall x <- actual :: x != s ==> x < |tree.syms| && Dep(tree, x) <= NodeDep(tree, s)
      requires forall x <- NodeDep(tree, s) :: x < |tree.syms| && tree.rank[s] < tree.rank[x]
      modifies `cachedDeps
      ensures Valid() && r == ReachVia(tree, s, Visited(actual, |actual|, s))
      decreases tree.bound - tree.rank[s], 1
    {
      hide RanksOk, ModulesOk, TypesOk, ChoicesOk, Fits, Reads, Dep, ReachVia, Reach, NodeDep;
      hide ReachAll, Siblings;
      r := r0;
      var i := 0;
      while i < |actual|
        invariant 0 <= i <= |actual| && Valid() && r == ReachVia(tree, s, Visited(actual, i, s))
      {
        var sibling := actual[i];
        assert sibling in actual;
        if sibling != s {
          assert Visited(actual, i + 1, s) == Visited(actual, i, s) + {sibling};
          var deeper := GetDependents(dep[sibling], s);
          ReachViaAdd(tree, s, Visited(actual, i, s), sibling);
          r := r + {sibling} + dep[sibling] + deeper;
        } else {
          assert Visited(actual, i + 1, s) == Visited(actual, i, s);
        }
        i := i + 1;
      }
    }

    // ---- Invalidation ----

    method InvalidateChoice(c: nat)
      requires Valid() && c < |tree.choices|
      modifies `cachedSelection, `choiceCachedVis
      ensures Valid()
      ensures cachedSelection == old(cachedSelection)[c := None]
      ensures choiceCachedVis == old(choiceCachedVis)[c := None]
    {
      cachedSelection := cachedSelection[c := None];
      choiceCachedVis := choiceCachedVis[c := None];
    }

    /** Symbol._invalidate: constants are left alone. */
    method InvalidateSym(s: nat)
      requires Valid() && s < |tree.syms|
      modifies `cachedVal, `cachedVis, `cachedSelection, `choiceCachedVis
      ensures Valid() && Snapshot() == Drop(tree, old(Snapshot()), s)
    {
      if tree.syms[s].special.Some? {
        return;
      }
      if tree.syms[s].choice.Some? {
        InvalidateChoice(tree.syms[s].choice.value);
      }
      cachedVal := cachedVal[s := None];
      cachedVis := cachedVis[s := None];
    }

    method InvalidateSet(xs: set<nat>, ghost k0: Caches, ghost done: set<nat>)
      requires Valid() && CachesSized(tree, k0) && (forall x <- xs :: x < |tree.syms|)
      requires Snapshot() == DropSet(tree, k0, done)
      modifies `cachedVal, `cachedVis, `cachedSelection, `choiceCachedVis
      ensures Valid() && Snapshot() == DropSet(tree, k0, done + xs)
    {
      hide RanksOk, ModulesOk, TypesOk, ChoicesOk, Fits, DropSet, Drop;
      var work := xs;
      assert done + (xs - work) == done;
      while work != {}
        invariant Valid() && work <= xs && Snapshot() == DropSet(tree, k0, done + (xs - work))
        decreases |work|
      {
        var x :| x in work;
        InvalidateSym(x);
        DropMore(tree, k0, done + (xs - work), x);
        assert done + (xs - work) + {x} == done + (xs - (work - {x}));
        work := work - {x};
      }
      assert done + (xs - work) == done + xs;
    }

    /** Config._invalidate_all */
    method InvalidateAll()
      requires Valid()
      modifies `cachedVal, `cachedVis, `cachedSelection, `choiceCachedVis
      ensures Valid() && Snapshot() == DropSet(tree, old(Snapshot()), UpTo(|tree.syms|))
    {
      hide RanksOk, ModulesOk, TypesOk, ChoicesOk, Fits, DropSet, Drop;
      ghost var k0 := Snapshot();
      DropNothing(tree, k0);
      var s := 0;
      while s < |tree.syms|
        invariant 0 <= s <= |tree.syms| && Valid() && Snapshot() == DropSet(tree, k0, UpTo(s))
      {
        InvalidateSym(s);
        DropMore(tree, k0, UpTo(s), s);
        s := s + 1;
      }
    }

    // ---- Writing ----

    method SetUserValueNoInvalidate(s: nat, v: string)
      requires WellFormed(tree) && Fits(tree, User()) && s < |tree.syms|
      modifies `userVal, `choiceUser, `choiceMode
      ensures User() == Assign(tree, old(User()), s, v)
      ensures |userVal| == |tree.syms| && |choiceUser| == |choiceMode| == |tree.choices|
    {
      hide RanksOk, ModulesOk, TypesOk;
      var y := tree.syms[s];
      if y.special.Some? || !y.defined {
        return;
      }
      if !ValidFor(tree, s, v) {
        return;
      }
      userVal := userVal[s := Some(v)];
      if y.choice.Some? && IsTri(y.typ) {
        var c := y.choice.value;
        if v == "y" {
          choiceUser := choiceUser[c := Some(s)];
          choiceMode := choiceMode[c := Some(Y)];
        } else if v == "m" {
          choiceUser := choiceUser[c := None];
          choiceMode := choiceMode[c := Some(M)];
        }
      }
    }

    /** Assigns a value and forgets what may have changed; MODULES clears everything. */
    method SetUserValue(s: nat, v: string)
      requires Coherent() && s < |tree.syms|
      modifies this
      ensures Coherent() && User() == Assign(tree, old(User()), s, v) && Frozen() == old(Frozen())
    {
      hide RanksOk, ModulesOk, TypesOk, ChoicesOk, Fits, CachesOk, DropSet, Assign, Solve, Reach, FrostOf;
      ghost var u, k := User(), Snapshot();
      SetUserValueNoInvalidate(s, v);
      AssignFrame(tree, u, s, v);
      if tree.modules == Some(s) {
        InvalidateAll();
        FrostOutlastsDrops(tree, k, UpTo(|tree.syms|));
        AllDroppedBare(tree, u, k);
        BareOk(tree, User(), Snapshot());
        return;
      }
      InvalidateSym(s);
      DropOne(tree, k, s);
      var dependent := GetDependent(s);
      ReachInRange(tree, s);
      InvalidateSet(dependent, k, {s});
      FrostOutlastsDrops(tree, k, Affected(tree, s));
      StaysCoherent(tree, u, User(), s, k);
    }

    /** Symbol._unset_user_value_no_recursive_invalidate */
    method UnsetUserValueNoRecursiveInvalidate(s: nat)
      requires Valid() && s < |tree.syms|
      modifies `cachedVal, `cachedVis, `cachedSelection, `choiceCachedVis, `userVal, `choiceUser, `choiceMode
      ensures Valid() && User() == Unassign(tree, old(User()), s)
      ensures Snapshot() == Drop(tree, old(Snapshot()), s)
    {
      hide RanksOk, ModulesOk, TypesOk;
      InvalidateSym(s);
      userVal := userVal[s := None];
      if tree.syms[s].choice.Some? {
        var c := tree.syms[s].choice.value;
        choiceUser := choiceUser[c := None];
        choiceMode := choiceMode[c := None];
        InvalidateChoice(c);
      }
    }

    /** Takes back an assignment and drops exactly what it reaches. Unlike SetUserValue it does not
        treat MODULES specially, which is right as long as modules stay on or off. */
    method UnsetUserValue(s: nat)
      requires Coherent() && s < |tree.syms|
      modifies this
      ensures Valid() && User() == Unassign(tree, old(User()), s) && Frozen() == old(Frozen())
      ensures Snapshot() == DropSet(tree, old(Snapshot()), Affected(tree, s))
      ensures OpSafe(tree, old(User()), UnsetOp(s)) ==> Coherent()
    {
      hide RanksOk, ModulesOk, TypesOk, Fits, CachesOk, DropSet, Unassign, Solve, Reach, FrostOf, ModulesOn;
      ghost var u, k := User(), Snapshot();
      UnsetUserValueNoRecursiveInvalidate(s);
      UnassignFrame(tree, u, s);
      DropOne(tree, k, s);
      var dependent := GetDependent(s);
      ReachInRange(tree, s);
      InvalidateSet(dependent, k, {s});
      FrostOutlastsDrops(tree, k, Affected(tree, s));
      if OpSafe(tree, u, UnsetOp(s)) {
        StaysCoherent(tree, u, User(), s, k);
      }
    }

    /** unset_user_values */
    method UnsetUserValues()
      requires Valid()
      modifies `cachedVal, `cachedVis, `cachedSelection, `choiceCachedVis, `userVal, `choiceUser, `choiceMode
      ensures Valid() && User() == UnassignUpTo(tree, old(User()), |tree.syms|)
      ensures Snapshot() == DropSet(tree, old(Snapshot()), UpTo(|tree.syms|))
    {
      hide RanksOk, ModulesOk, TypesOk, Fits, DropSet, Drop;
      ghost var k0 := Snapshot();
      DropNothing(tree, k0);
      var s := 0;
      while s < |tree.syms|
        invariant 0 <= s <= |tree.syms| && Valid() && User() == UnassignUpTo(tree, old(User()), s)
        invariant Snapshot() == DropSet(tree, k0, UpTo(s))
      {
        UnsetUserValueNoRecursiveInvalidate(s);
        DropMore(tree, k0, UpTo(s), s);
        s := s + 1;
      }
    }

    /** load_config, from the point where the lines have been read. */
    method LoadConfig(lines: seq<(nat, string)>, replace: bool)
      requires Coherent() && AssignmentsOk(tree, lines)
      modifies this
      ensures Coherent() && User() == Next(tree, old(User()), LoadOp(lines, replace))
      ensures Frozen() == old(Frozen())
    {
      hide RanksOk, ModulesOk, TypesOk, ChoicesOk, Fits, CachesOk, DropSet, Solve, Bare, FrostOf;
      ghost var u, k := User(), Snapshot();
      if replace {
        UnsetUserValues();
      } else {
        InvalidateAll();
      }
      FrostOutlastsDrops(tree, k, UpTo(|tree.syms|));
      AllDroppedBare(tree, u, k);
      ghost var start := User();
      var i := 0;
      while i < |lines|
        invariant 0 <= i <= |lines| && Valid() && Bare(tree, Snapshot()) && Frozen() == old(Frozen())
        invariant User() == AssignAll(tree, start, lines[..i])
      {
        assert lines[..i + 1][..i] == lines[..i];
        SetUserValueNoInvalidate(lines[i].0, lines[i].1);
        i := i + 1;
      }
      assert lines[..i] == lines;
      BareOk(tree, User(), Snapshot());
    }

    /** A configuration as parsed: nothing assigned, only constants cached. */
    constructor (tree: Tree)
      requires WellFormed(tree)
      ensures this.tree == tree && Coherent()
      ensures User() == Unset(tree) && Frozen() == Frost(map[], map[])
    {
      this.tree := tree;
      userVal := seq(|tree.syms|, i => None);
      choiceUser := seq(|tree.choices|, i => None);
      choiceMode := seq(|tree.choices|, i => None);
      dep := seq(|tree.syms|, i => {});
      cachedVal := seq(|tree.syms|, i requires 0 <= i < |tree.syms| => tree.syms[i].special);
      writeToConf := seq(|tree.syms|, i => false);
      cachedVis := seq(|tree.syms|, i => None);
      cachedDeps := seq(|tree.syms|, i => None);
      cachedSelection := seq(|tree.choices|, i => None);
      choiceCachedVis := seq(|tree.choices|, i => None);
      new;
      hide RanksOk, ModulesOk, TypesOk, ChoicesOk, Solve, SymOk, ChoiceOk, CachesOk;
      BuildDep();
      BareOk(tree, User(), Snapshot());
      assert Frozen().syms == map[] && Frozen().choices == map[];
    }

    /** Any program of assignments, loads and reads answers exactly what evaluating everything
        afresh would answer at every point, but for the frozen visibilities. */
    method Run(ops: seq<Op>) returns (answers: seq<Answer>)
      requires Coherent() && OpsOk(tree, ops) && OpsSafe(tree, User(), ops)
      modifies this
      ensures Coherent() && User() == UsersAfter(tree, old(User()), ops)
      ensures Frozen() == FrostAfter(tree, old(User()), old(Frozen()), ops)
      ensures answers == Answers(tree, old(User()), old(Frozen()), ops)
    {
      hide RanksOk, ModulesOk, TypesOk, ChoicesOk, Fits, Coherent, Frozen, Solve, Next, Respond, Refrost;
      hide OpSafe;
      answers := [];
      var i := 0;
      while i < |ops|
        invariant 0 <= i <= |ops| && Coherent()
        invariant User() == UsersAfter(tree, old(User()), ops[..i])
        invariant Frozen() == FrostAfter(tree, old(User()), old(Frozen()), ops[..i])
        invariant answers == Answers(tree, old(User()), old(Frozen()), ops[..i])
      {
        assert ops[..i + 1][..i] == ops[..i];
        SafePrefix(tree, old(User()), ops, i + 1);
        var answer := Perform(ops[i]);
        answers := answers + [answer];
        i := i + 1;
      }
      assert ops[..i] == ops;
    }

    method Perform(op: Op) returns (answer: Answer)
      requires Coherent() && OpOk(tree, op) && OpSafe(tree, User(), op)
      modifies this
      ensures Coherent() && User() == Next(tree, old(User()), op)
      ensures answer == Respond(tree, old(User()), old(Frozen()), op)
      ensures Frozen() == Refrost(tree, old(User()), old(Frozen()), op)
    {
      hide RanksOk, ModulesOk, TypesOk, ChoicesOk, Fits, Coherent, Frozen, Solve, SymbolOut, SymVis;
      hide Selection, ChoiceVis, ShownMode, ModulesOn;
      answer := Done;
      match op
      case SetOp(s, v) => SetUserValue(s, v);
      case UnsetOp(s) => UnsetUserValue(s);
      case LoadOp(lines, replace) => LoadConfig(lines, replace);
      case ValueOp(s) =>
        var v := GetValue(s);
        answer := ValueIs(v, writeToConf[s]);
      case VisibilityOp(s) =>
        var vis := GetVisibility(s);
        answer := VisibilityIs(vis);
      case SelectionOp(c) =>
        var selection := GetSelection(c);
        answer := SelectionIs(selection);
      case ModeOp(c) =>
        var mode := GetMode(c);
        answer := ModeIs(mode);
      case ChoiceVisibilityOp(c) =>
        var vis := GetChoiceVisibility(c);
        answer := VisibilityIs(vis);
    }
  }
}
