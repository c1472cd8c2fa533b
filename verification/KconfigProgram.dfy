/** Assignments and programs over a configuration, evaluated without caches
    (docs/bk7258/kconfiglib.py). */
module KconfigProgram {
  import opened Options
  import opened Tristate
  import opened KconfigExpr
  import opened KconfigModel
  import opened KconfigTheory

  // ---- Assignments ----

  function ValidFor(t: Tree, s: nat, v: string): bool
    requires s < |t.syms|
  {
    match t.syms[s].typ
    case BoolType => v == "y" || v == "n"
    case TristateType => v == "y" || v == "m" || v == "n"
    case StringType => true
    case IntType => t.num.isNum(v, 10)
    case HexType => t.num.isNum(v, 16)
    case UnknownType => false
  }

  /** The user's assignment after s was given v: ignored for constant, undefined or
      wrongly typed symbols; a choice remembers its last y and its mode. */
  function Assign(t: Tree, u: Users, s: nat, v: string): (r: Users)
    requires ChoicesOk(t) && Fits(t, u) && s < |t.syms|
    ensures Fits(t, r)
  {
    var y := t.syms[s];
    if y.special.Some? || !y.defined || !ValidFor(t, s, v) then u
    else
      var r := u.(vals := u.vals[s := Some(v)]);
      if y.choice.Some? && IsTri(y.typ) && v == "y" then
        r.(selection := r.selection[y.choice.value := Some(s)], mode := r.mode[y.choice.value := Some(Y)])
      else if y.choice.Some? && IsTri(y.typ) && v == "m" then
        r.(selection := r.selection[y.choice.value := None], mode := r.mode[y.choice.value := Some(M)])
      else r
  }

  function Unassign(t: Tree, u: Users, s: nat): (r: Users)
    requires ChoicesOk(t) && Fits(t, u) && s < |t.syms|
    ensures Fits(t, r)
  {
    var r := u.(vals := u.vals[s := None]);
    var c := t.syms[s].choice;
    if c.None? then r
    else r.(selection := r.selection[c.value := None], mode := r.mode[c.value := None])
  }

  /** The first n symbols lose their assignments. */
  function UnassignUpTo(t: Tree, u: Users, n: nat): (r: Users)
    requires ChoicesOk(t) && Fits(t, u) && n <= |t.syms|
    ensures Fits(t, r)
  {
    if n == 0 then u else Unassign(t, UnassignUpTo(t, u, n - 1), n - 1)
  }

  /** The first n symbols and their choices bear no user setting. */
  predicate Forgotten(t: Tree, r: Users, n: nat)
    requires ChoicesOk(t) && Fits(t, r) && n <= |t.syms|
  {
    forall s: nat :: s < n ==>
      && r.vals[s] == None
      && (t.syms[s].choice.Some? ==>
            r.selection[t.syms[s].choice.value] == None && r.mode[t.syms[s].choice.value] == None)
  }

  /** Unassigning everything leaves no trace: no values, and no choice selections or modes. */
  lemma {:induction false} UnassignForgets(t: Tree, u: Users, n: nat)
    requires ChoicesOk(t) && Fits(t, u) && n <= |t.syms|
    ensures Forgotten(t, UnassignUpTo(t, u, n), n)
  {
    if n > 0 {
      hide Forgotten, Unassign, Fits, ChoicesOk;
      UnassignForgets(t, u, n - 1);
      ForgottenMore(t, UnassignUpTo(t, u, n - 1), n - 1);
    }
  }

  lemma ForgottenMore(t: Tree, u: Users, n: nat)
    requires ChoicesOk(t) && Fits(t, u) && n < |t.syms| && Forgotten(t, u, n)
    ensures Forgotten(t, Unassign(t, u, n), n + 1)
  {
    UnassignStep(t, u, n);
    var r := Unassign(t, u, n);
    forall s: nat | s < n + 1
      ensures r.vals[s] == None
      ensures t.syms[s].choice.Some? ==>
        r.selection[t.syms[s].choice.value] == None && r.mode[t.syms[s].choice.value] == None
    {
      if s < n {
        assert u.vals[s] == None;
        if t.syms[s].choice.Some? {
          var c := t.syms[s].choice.value;
          assert u.selection[c] == None && u.mode[c] == None;
        }
      }
    }
    hide Unassign;
  }

  lemma UnassignStep(t: Tree, u: Users, s: nat)
    requires ChoicesOk(t) && Fits(t, u) && s < |t.syms|
    ensures var r := Unassign(t, u, s);
      && r.vals == u.vals[s := None]
      && (forall c: nat :: c < |t.choices| ==>
            && (r.selection[c] == u.selection[c] || r.selection[c] == None)
            && (r.mode[c] == u.mode[c] || r.mode[c] == None))
      && (t.syms[s].choice.Some? ==>
            r.selection[t.syms[s].choice.value] == None && r.mode[t.syms[s].choice.value] == None)
  {
  }

  predicate AssignmentsOk(t: Tree, xs: seq<(nat, string)>) {
    forall i :: 0 <= i < |xs| ==> xs[i].0 < |t.syms|
  }

  /** The lines of a .config file, assigned in order. */
  function AssignAll(t: Tree, u: Users, xs: seq<(nat, string)>): (r: Users)
    requires ChoicesOk(t) && Fits(t, u) && AssignmentsOk(t, xs)
    ensures Fits(t, r)
  {
    if xs == [] then u
    else Assign(t, AssignAll(t, u, xs[..|xs| - 1]), xs[|xs| - 1].0, xs[|xs| - 1].1)
  }

  // ---- Programs over a configuration ----

  datatype Op =
    | SetOp(s: nat, v: string)
    | UnsetOp(s: nat)
    | LoadOp(lines: seq<(nat, string)>, replace: bool)
    | ValueOp(s: nat)
    | VisibilityOp(s: nat)
    | SelectionOp(c: nat)
    | ModeOp(c: nat)
    | ChoiceVisibilityOp(c: nat)

  datatype Answer =
    | Done
    | ValueIs(val: string, write: bool)
    | VisibilityIs(vis: Tri)
    | SelectionIs(selection: Option<nat>)
    | ModeIs(mode: Tri)

  predicate OpOk(t: Tree, op: Op) {
    match op
    case SetOp(s, _) => s < |t.syms|
    case UnsetOp(s) => s < |t.syms|
    case LoadOp(lines, _) => AssignmentsOk(t, lines)
    case ValueOp(s) => s < |t.syms|
    case VisibilityOp(s) => s < |t.syms|
    case SelectionOp(c) => c < |t.choices|
    case ModeOp(c) => c < |t.choices|
    case ChoiceVisibilityOp(c) => c < |t.choices|
  }

  function Next(t: Tree, u: Users, op: Op): (r: Users)
    requires ChoicesOk(t) && Fits(t, u) && OpOk(t, op)
    ensures Fits(t, r)
  {
    match op
    case SetOp(s, v) => Assign(t, u, s, v)
    case UnsetOp(s) => Unassign(t, u, s)
    case LoadOp(lines, replace) => AssignAll(t, if replace then UnassignUpTo(t, u, |t.syms|) else u, lines)
    case _ => u
  }

  predicate OpsOk(t: Tree, ops: seq<Op>) {
    forall i :: 0 <= i < |ops| ==> OpOk(t, ops[i])
  }

  function UsersAfter(t: Tree, u: Users, ops: seq<Op>): (r: Users)
    requires ChoicesOk(t) && Fits(t, u) && OpsOk(t, ops)
    ensures Fits(t, r)
  {
    if ops == [] then u else Next(t, UsersAfter(t, u, ops[..|ops| - 1]), ops[|ops| - 1])
  }

  /** Nothing is assigned. */
  function Unset(t: Tree): (u: Users)
    ensures Fits(t, u)
  {
    Users(seq(|t.syms|, i => None), seq(|t.choices|, i => None), seq(|t.choices|, i => None))
  }

  function MeaningOf(t: Tree, u: Users): Scope
    requires WellFormed(t) && Fits(t, u)
  {
    ScopeOf(t, Solve(t, u))
  }

  /** Unsetting MODULES by itself is safe when modules are on, or off, before and after:
      see UnsetModulesIsStale for the other case. */
  predicate OpSafe(t: Tree, u: Users, op: Op)
    requires WellFormed(t) && Fits(t, u) && OpOk(t, op)
  {
    op.UnsetOp? && t.modules == Some(op.s) ==>
      ModulesOn(t, Solve(t, u)) == ModulesOn(t, Solve(t, Unassign(t, u, op.s)))
  }

  predicate OpsSafe(t: Tree, u: Users, ops: seq<Op>)
    requires WellFormed(t) && Fits(t, u) && OpsOk(t, ops)
  {
    ops == [] ||
    (OpsSafe(t, u, ops[..|ops| - 1]) && OpSafe(t, UsersAfter(t, u, ops[..|ops| - 1]), ops[|ops| - 1]))
  }

  lemma {:induction false} SafePrefix(t: Tree, u: Users, ops: seq<Op>, n: nat)
    requires WellFormed(t) && Fits(t, u) && OpsOk(t, ops) && OpsSafe(t, u, ops) && n <= |ops|
    ensures OpsSafe(t, u, ops[..n])
    decreases |ops|
  {
    hide WellFormed, Fits, OpSafe, UsersAfter;
    if n < |ops| {
      SafePrefix(t, u, ops[..|ops| - 1], n);
      assert ops[..|ops| - 1][..n] == ops[..n];
    } else {
      assert ops[..n] == ops;
    }
  }

  /** What an operation answers when everything is evaluated afresh. */
  function Reply(t: Tree, u: Users, op: Op): Answer
    requires WellFormed(t) && Fits(t, u) && OpOk(t, op)
  {
    var sc := MeaningOf(t, u);
    match op
    case ValueOp(s) => ValueIs(ValueOf(sc.vals, Symb(s)), SymbolOut(t, u, sc, s).write)
    case VisibilityOp(s) => VisibilityIs(SymVis(t, sc, s))
    case SelectionOp(c) => SelectionIs(Selection(t, u, sc, c))
    case ModeOp(c) => ModeIs(ChoiceMode(t, u, sc, c))
    case ChoiceVisibilityOp(c) => VisibilityIs(ChoiceVis(t, sc, c))
    case _ => Done
  }

  /** The answers of a whole program, each evaluated afresh. */
  function Replies(t: Tree, u: Users, ops: seq<Op>): (r: seq<Answer>)
    requires WellFormed(t) && Fits(t, u) && OpsOk(t, ops)
    ensures |r| == |ops|
  {
    if ops == [] then []
    else
      var before := ops[..|ops| - 1];
      Replies(t, u, before) + [Reply(t, UsersAfter(t, u, before), ops[|ops| - 1])]
  }

  // ---- Visibilities that stay as first read ----

  /** The visibilities read so far of constants and of choices without choice symbols. */
  datatype Frost = Frost(syms: map<nat, Tri>, choices: map<nat, Tri>)

  function FreezeSym(t: Tree, f: Frost, s: nat, v: Tri): Frost
    requires s < |t.syms|
  {
    if t.syms[s].special.Some? then f.(syms := f.syms[s := v]) else f
  }

  function FreezeChoice(t: Tree, f: Frost, c: nat, v: Tri): Frost
    requires c < |t.choices|
  {
    if t.choices[c].actual == [] then f.(choices := f.choices[c := v]) else f
  }

  /** What a read of the visibility answers: for a constant, what it was when first read. */
  function ShownVis(t: Tree, sc: Scope, f: Frost, s: nat): Tri
    requires s < |t.syms| && Placed(t, s)
  {
    if t.syms[s].special.Some? && s in f.syms then f.syms[s] else SymVis(t, sc, s)
  }

  function ShownChoiceVis(t: Tree, sc: Scope, f: Frost, c: nat): Tri
    requires c < |t.choices|
  {
    if t.choices[c].actual == [] && c in f.choices then f.choices[c] else ChoiceVis(t, sc, c)
  }

  /** The mode a read answers, from the visibility it is shown. */
  function ShownMode(t: Tree, u: Users, sc: Scope, f: Frost, c: nat): Tri
    requires c < |t.choices| == |u.mode|
  {
    var wanted := if u.mode[c].Some? then u.mode[c].value else if t.choices[c].optional then N else M;
    var mode := Min(Promote(sc.modules, wanted), Promote(sc.modules, ShownChoiceVis(t, sc, f, c)));
    if mode == M && t.choices[c].typ == BoolType then Y else mode
  }

  /** What an operation answers, given the frozen visibilities. */
  function Respond(t: Tree, u: Users, f: Frost, op: Op): Answer
    requires WellFormed(t) && Fits(t, u) && OpOk(t, op)
  {
    var sc := MeaningOf(t, u);
    match op
    case VisibilityOp(s) => VisibilityIs(ShownVis(t, sc, f, s))
    case ModeOp(c) => ModeIs(ShownMode(t, u, sc, f, c))
    case ChoiceVisibilityOp(c) => VisibilityIs(ShownChoiceVis(t, sc, f, c))
    case _ => Reply(t, u, op)
  }

  /** A first read freezes. */
  function Refrost(t: Tree, u: Users, f: Frost, op: Op): Frost
    requires WellFormed(t) && Fits(t, u) && OpOk(t, op)
  {
    var sc := MeaningOf(t, u);
    match op
    case VisibilityOp(s) => FreezeSym(t, f, s, ShownVis(t, sc, f, s))
    case SelectionOp(c) => FreezeChoice(t, f, c, ShownChoiceVis(t, sc, f, c))
    case ModeOp(c) => FreezeChoice(t, f, c, ShownChoiceVis(t, sc, f, c))
    case ChoiceVisibilityOp(c) => FreezeChoice(t, f, c, ShownChoiceVis(t, sc, f, c))
    case _ => f
  }

  function FrostAfter(t: Tree, u: Users, f: Frost, ops: seq<Op>): Frost
    requires WellFormed(t) && Fits(t, u) && OpsOk(t, ops)
  {
    if ops == [] then f
    else
      var before := ops[..|ops| - 1];
      Refrost(t, UsersAfter(t, u, before), FrostAfter(t, u, f, before), ops[|ops| - 1])
  }

  /** The answers of a whole program as the evaluator gives them. */
  function Answers(t: Tree, u: Users, f: Frost, ops: seq<Op>): (r: seq<Answer>)
    requires WellFormed(t) && Fits(t, u) && OpsOk(t, ops)
    ensures |r| == |ops|
  {
    if ops == [] then []
    else
      var before := ops[..|ops| - 1];
      Answers(t, u, f, before) +
      [Respond(t, UsersAfter(t, u, before), FrostAfter(t, u, f, before), ops[|ops| - 1])]
  }
}
