/** Kconfig expressions, their meaning, and the two builders that propagate
    "depends on" conditions (docs/bk7258/kconfiglib.py). */
module KconfigExpr {
  import opened Tristate

  /** Operands of a comparison: symbols by number, constant symbols by text.
      The parser is lax about what follows "=", hence Junk. */
  datatype Operand = Symb(id: nat) | Text(text: string) | Junk(code: int)

  datatype Expr =
    | Leaf(op: Operand)
    | And(args: seq<Expr>)
    | Or(args: seq<Expr>)
    | Not(arg: Expr)
    | Equal(lhs: Operand, rhs: Operand)
    | Unequal(lhs: Operand, rhs: Operand)

  /** An absent condition; Python's None. */
  datatype Cond = Always | If(expr: Expr)

  /** What an expression is evaluated in: which symbols are bool or tristate,
      the value of every symbol, and whether MODULES is y. */
  datatype Scope = Scope(tri: set<nat>, vals: map<nat, string>, modules: bool)

  function ValueOf(vals: map<nat, string>, op: Operand): string {
    match op
    case Symb(id) => if id in vals then vals[id] else ""
    case Text(t) => t
    case Junk(_) => ""
  }

  function EvalOperand(sc: Scope, op: Operand): Tri {
    match op
    case Symb(id) => if id in sc.tri then Read(ValueOf(sc.vals, op)) else N
    case Text(t) => Read(t)
    case Junk(_) => N
  }

  /** The meaning of an expression: && is minimum, || is maximum, ! reverses. */
  function Eval(sc: Scope, e: Expr): Tri
    decreases e, 1
  {
    match e
    case Leaf(op) => EvalOperand(sc, op)
    case And(args) => EvalMinAll(sc, args)
    case Or(args) => EvalMaxAll(sc, args)
    case Not(a) => (match Eval(sc, a) case Y => N case M => M case N => Y)
    case Equal(l, r) => if ValueOf(sc.vals, l) == ValueOf(sc.vals, r) then Y else N
    case Unequal(l, r) => if ValueOf(sc.vals, l) != ValueOf(sc.vals, r) then Y else N
  }

  function EvalMinAll(sc: Scope, es: seq<Expr>): Tri
    decreases es, 0
  {
    if es == [] then Y else Min(Eval(sc, es[0]), EvalMinAll(sc, es[1..]))
  }

  function EvalMaxAll(sc: Scope, es: seq<Expr>): Tri
    decreases es, 0
  {
    if es == [] then N else Max(Eval(sc, es[0]), EvalMaxAll(sc, es[1..]))
  }

  /** A condition's value: an absent one is y, and m is y without modules. */
  function EvalCond(sc: Scope, c: Cond): Tri {
    match c
    case Always => Y
    case If(e) => Promote(sc.modules, Eval(sc, e))
  }

  /** The same before promotion. */
  function RawCond(sc: Scope, c: Cond): Tri {
    match c
    case Always => Y
    case If(e) => Eval(sc, e)
  }

  /** The symbols an expression mentions. */
  function Syms(e: Expr): set<nat>
    decreases e, 1
  {
    match e
    case Leaf(op) => OperandSyms(op)
    case And(args) => SymsAll(args)
    case Or(args) => SymsAll(args)
    case Not(a) => Syms(a)
    case Equal(l, r) => OperandSyms(l) + OperandSyms(r)
    case Unequal(l, r) => OperandSyms(l) + OperandSyms(r)
  }

  function SymsAll(es: seq<Expr>): set<nat>
    decreases es, 0
  {
    if es == [] then {} else Syms(es[0]) + SymsAll(es[1..])
  }

  function OperandSyms(op: Operand): set<nat> {
    if op.Symb? then {op.id} else {}
  }

  function CondSyms(c: Cond): set<nat> {
    if c.Always? then {} else Syms(c.expr)
  }

  /** An expression only looks at the symbols it mentions. */
  lemma {:induction false} EvalAgrees(sc1: Scope, sc2: Scope, e: Expr)
    requires sc1.tri == sc2.tri
    requires forall x <- Syms(e) :: ValueOf(sc1.vals, Symb(x)) == ValueOf(sc2.vals, Symb(x))
    ensures Eval(sc1, e) == Eval(sc2, e)
    decreases e, 1
  {
    match e
    case Leaf(op) => OperandAgrees(sc1, sc2, op);
    case And(args) => EvalAllAgree(sc1, sc2, args);
    case Or(args) => EvalAllAgree(sc1, sc2, args);
    case Not(a) => EvalAgrees(sc1, sc2, a);
    case Equal(l, r) => OperandAgrees(sc1, sc2, l); OperandAgrees(sc1, sc2, r);
    case Unequal(l, r) => OperandAgrees(sc1, sc2, l); OperandAgrees(sc1, sc2, r);
  }

  lemma OperandAgrees(sc1: Scope, sc2: Scope, op: Operand)
    requires sc1.tri == sc2.tri
    requires forall x <- OperandSyms(op) :: ValueOf(sc1.vals, Symb(x)) == ValueOf(sc2.vals, Symb(x))
    ensures ValueOf(sc1.vals, op) == ValueOf(sc2.vals, op)
    ensures EvalOperand(sc1, op) == EvalOperand(sc2, op)
  {
    if op.Symb? {
      assert op.id in OperandSyms(op);
      assert op == Symb(op.id);
    }
  }

  lemma {:induction false} EvalAllAgree(sc1: Scope, sc2: Scope, es: seq<Expr>)
    requires sc1.tri == sc2.tri
    requires forall x <- SymsAll(es) :: ValueOf(sc1.vals, Symb(x)) == ValueOf(sc2.vals, Symb(x))
    ensures EvalMinAll(sc1, es) == EvalMinAll(sc2, es)
    ensures EvalMaxAll(sc1, es) == EvalMaxAll(sc2, es)
    decreases es, 0
  {
    if es != [] {
      EvalAgrees(sc1, sc2, es[0]);
      EvalAllAgree(sc1, sc2, es[1..]);
    }
  }

  lemma CondAgrees(sc1: Scope, sc2: Scope, c: Cond)
    requires sc1.tri == sc2.tri && sc1.modules == sc2.modules
    requires forall x <- CondSyms(c) :: ValueOf(sc1.vals, Symb(x)) == ValueOf(sc2.vals, Symb(x))
    ensures EvalCond(sc1, c) == EvalCond(sc2, c)
  {
    if c.If? {
      EvalAgrees(sc1, sc2, c.expr);
    }
  }

  // ---- The condition builders ----

  const YES := Leaf(Text("y"))
  const NO := Leaf(Text("n"))

  /** Builds e1 && e2, merging argument lists; an AND on the right alone is put first. */
  function MakeAnd(e1: Cond, e2: Cond): Cond {
    if e1.Always? || e1.expr == YES then e2
    else if e2.Always? || e2.expr == YES then e1
    else if e1.expr.And? then
      If(And(e1.expr.args + (if e2.expr.And? then e2.expr.args else [e2.expr])))
    else if e2.expr.And? then If(And(e2.expr.args + [e1.expr]))
    else If(And([e1.expr, e2.expr]))
  }

  /** Builds e1 || e2. An absent operand is y, so the whole is y. */
  function MakeOr(e1: Cond, e2: Cond): Cond {
    if e1.Always? || e2.Always? || e1.expr == YES || e2.expr == YES then If(YES)
    else if e1.expr == NO then e2
    else if e1.expr.Or? then
      If(Or(e1.expr.args + (if e2.expr.Or? then e2.expr.args else [e2.expr])))
    else if e2.expr.Or? then If(Or(e2.expr.args + [e1.expr]))
    else If(Or([e1.expr, e2.expr]))
  }

  lemma {:induction false} MinAllAppend(sc: Scope, a: seq<Expr>, b: seq<Expr>)
    ensures EvalMinAll(sc, a + b) == Min(EvalMinAll(sc, a), EvalMinAll(sc, b))
  {
    if a == [] {
      assert a + b == b;
    } else {
      assert (a + b)[1..] == a[1..] + b;
      MinAllAppend(sc, a[1..], b);
    }
  }

  lemma {:induction false} MaxAllAppend(sc: Scope, a: seq<Expr>, b: seq<Expr>)
    ensures EvalMaxAll(sc, a + b) == Max(EvalMaxAll(sc, a), EvalMaxAll(sc, b))
  {
    if a == [] {
      assert a + b == b;
    } else {
      assert (a + b)[1..] == a[1..] + b;
      MaxAllAppend(sc, a[1..], b);
    }
  }

  lemma PairMeaning(sc: Scope, x: Expr, y: Expr)
    ensures EvalMinAll(sc, [x]) == Eval(sc, x) == EvalMaxAll(sc, [x])
    ensures EvalMinAll(sc, [x, y]) == Min(Eval(sc, x), Eval(sc, y))
    ensures EvalMaxAll(sc, [x, y]) == Max(Eval(sc, x), Eval(sc, y))
  {
    assert [x, y][1..] == [y] && [y][1..] == [] && [x][1..] == [];
  }

  /** Merging and reordering keep the meaning: the result is the minimum of the
      parts, with absent read as y, before and after promotion. */
  lemma MakeAndIsMin(sc: Scope, e1: Cond, e2: Cond)
    ensures RawCond(sc, MakeAnd(e1, e2)) == Min(RawCond(sc, e1), RawCond(sc, e2))
    ensures EvalCond(sc, MakeAnd(e1, e2)) == Min(EvalCond(sc, e1), EvalCond(sc, e2))
  {
    if e1.If? && e2.If? {
      var x, y := e1.expr, e2.expr;
      PairMeaning(sc, x, y);
      PairMeaning(sc, y, x);
      if x.And? {
        MinAllAppend(sc, x.args, if y.And? then y.args else [y]);
      } else if y.And? {
        MinAllAppend(sc, y.args, [x]);
      }
    }
  }

  lemma MakeOrIsMax(sc: Scope, e1: Cond, e2: Cond)
    ensures RawCond(sc, MakeOr(e1, e2)) == Max(RawCond(sc, e1), RawCond(sc, e2))
    ensures EvalCond(sc, MakeOr(e1, e2)) == Max(EvalCond(sc, e1), EvalCond(sc, e2))
  {
    if e1.If? && e2.If? {
      var x, y := e1.expr, e2.expr;
      PairMeaning(sc, x, y);
      PairMeaning(sc, y, x);
      if x.Or? {
        MaxAllAppend(sc, x.args, if y.Or? then y.args else [y]);
      } else if y.Or? {
        MaxAllAppend(sc, y.args, [x]);
      }
    }
  }

  /** Promotion without modules commutes with && and ||, so it does not matter
      whether it is applied to the parts or to the whole. */
  lemma {:induction false} PromoteCommutes(sc: Scope, es: seq<Expr>)
    ensures EvalCond(sc, If(And(es))) == MinConds(sc, es)
    ensures EvalCond(sc, If(Or(es))) == MaxConds(sc, es)
  {
    assert Eval(sc, And(es)) == EvalMinAll(sc, es);
    assert Eval(sc, Or(es)) == EvalMaxAll(sc, es);
    if es != [] {
      var head, rest := es[0], es[1..];
      PromoteCommutes(sc, rest);
      PromoteMinMax(sc.modules, Eval(sc, head), EvalMinAll(sc, rest));
      PromoteMinMax(sc.modules, Eval(sc, head), EvalMaxAll(sc, rest));
      assert Eval(sc, And(rest)) == EvalMinAll(sc, rest);
      assert Eval(sc, Or(rest)) == EvalMaxAll(sc, rest);
    }
  }

  /** Minimum of the promoted parts. */
  function MinConds(sc: Scope, es: seq<Expr>): Tri {
    if es == [] then Y else Min(EvalCond(sc, If(es[0])), MinConds(sc, es[1..]))
  }

  function MaxConds(sc: Scope, es: seq<Expr>): Tri {
    if es == [] then N else Max(EvalCond(sc, If(es[0])), MaxConds(sc, es[1..]))
  }
}
