/** What m means in conditions: the parser reads it as m && MODULES (docs/bk7258/kconfiglib.py). */
module KconfigModules {
  import opened Tristate
  import opened KconfigExpr
  import opened KconfigParser

  predicate LoneM(m: nat, op: Operand) {
    op == Symb(m) || op == Text("m")
  }

  /** The meaning of a condition as written: a lone m is worth no more than MODULES, operands of
      comparisons stand for themselves. */
  function Meaning(sc: Scope, m: nat, modules: nat, e: Expr): Tri
    decreases e, 1
  {
    match e
    case Leaf(op) => if LoneM(m, op) then Min(M, Eval(sc, Leaf(Symb(modules)))) else Eval(sc, e)
    case And(args) => LeastMeaning(sc, m, modules, args)
    case Or(args) => GreatestMeaning(sc, m, modules, args)
    case Not(a) => (match Meaning(sc, m, modules, a) case Y => N case M => M case N => Y)
    case Equal(_, _) => Eval(sc, e)
    case Unequal(_, _) => Eval(sc, e)
  }

  function LeastMeaning(sc: Scope, m: nat, modules: nat, es: seq<Expr>): Tri
    decreases es, 0
  {
    if es == [] then Y else Min(Meaning(sc, m, modules, es[0]), LeastMeaning(sc, m, modules, es[1..]))
  }

  function GreatestMeaning(sc: Scope, m: nat, modules: nat, es: seq<Expr>): Tri
    decreases es, 0
  {
    if es == [] then N else Max(Meaning(sc, m, modules, es[0]), GreatestMeaning(sc, m, modules, es[1..]))
  }

  // ---- The rewriting parser builds just that ----

  /** The two parses of the same tokens succeed together, leave the same rest, and b means what a
      means as written. */
  ghost predicate Twins(m: nat, modules: nat, a: Parsed<Expr>, b: Parsed<Expr>) {
    && (a.Ok? <==> b.Ok?)
    && (a.Ok? ==> b.rest == a.rest && forall sc :: Eval(sc, b.value) == Meaning(sc, m, modules, a.value))
  }

  ghost predicate TwinLists(m: nat, modules: nat, a: Parsed<seq<Expr>>, b: Parsed<seq<Expr>>) {
    && (a.Ok? <==> b.Ok?)
    && (a.Ok? ==>
          && b.rest == a.rest
          && (forall sc :: EvalMinAll(sc, b.value) == LeastMeaning(sc, m, modules, a.value))
          && (forall sc :: EvalMaxAll(sc, b.value) == GreatestMeaning(sc, m, modules, a.value)))
  }

  lemma OperandTwins(m: nat, modules: nat, op: Operand, ts: seq<Token>)
    ensures Twins(m, modules, AfterOperand(KeepM, op, ts), AfterOperand(RewriteM(m, modules), op, ts))
  {
    if !Starts(ts, TEqual) && !Starts(ts, TUnequal) && LoneM(m, op) {
      var pair := [Leaf(Text("m")), Leaf(Symb(modules))];
      forall sc ensures Eval(sc, And(pair)) == Min(M, Eval(sc, Leaf(Symb(modules)))) {
        PairMeaning(sc, pair[0], pair[1]);
        MReads(sc);
      }
      if op == Symb(m) {
        assert AfterOperand(KeepM, op, ts) == Ok(Leaf(op), ts);
      }
    }
  }

  lemma MReads(sc: Scope)
    ensures Eval(sc, Leaf(Text("m"))) == M
  {
    assert "m"[0] != "y"[0];
  }

  /** One more argument in front. */
  lemma ConsMeans(sc: Scope, m: nat, modules: nat, x: Expr, y: Expr, xs: seq<Expr>, ys: seq<Expr>)
    requires Eval(sc, y) == Meaning(sc, m, modules, x)
    requires EvalMinAll(sc, ys) == LeastMeaning(sc, m, modules, xs)
    requires EvalMaxAll(sc, ys) == GreatestMeaning(sc, m, modules, xs)
    ensures EvalMinAll(sc, [y] + ys) == LeastMeaning(sc, m, modules, [x] + xs)
    ensures EvalMaxAll(sc, [y] + ys) == GreatestMeaning(sc, m, modules, [x] + xs)
    ensures Eval(sc, And([y] + ys)) == Meaning(sc, m, modules, And([x] + xs))
    ensures Eval(sc, Or([y] + ys)) == Meaning(sc, m, modules, Or([x] + xs))
  {
    assert ([x] + xs)[1..] == xs && ([y] + ys)[1..] == ys;
  }

  lemma ConsTwins(m: nat, modules: nat, a: Parsed<Expr>, b: Parsed<Expr>, xs: seq<Expr>, ys: seq<Expr>,
                  rest: seq<Token>)
    requires Twins(m, modules, a, b) && a.Ok?
    requires TwinLists(m, modules, Ok(xs, rest), Ok(ys, rest))
    ensures TwinLists(m, modules, Ok([a.value] + xs, rest), Ok([b.value] + ys, rest))
    ensures Twins(m, modules, Ok(And([a.value] + xs), rest), Ok(And([b.value] + ys), rest))
    ensures Twins(m, modules, Ok(Or([a.value] + xs), rest), Ok(Or([b.value] + ys), rest))
  {
    forall sc
      ensures EvalMinAll(sc, [b.value] + ys) == LeastMeaning(sc, m, modules, [a.value] + xs)
      ensures EvalMaxAll(sc, [b.value] + ys) == GreatestMeaning(sc, m, modules, [a.value] + xs)
      ensures Eval(sc, And([b.value] + ys)) == Meaning(sc, m, modules, And([a.value] + xs))
      ensures Eval(sc, Or([b.value] + ys)) == Meaning(sc, m, modules, Or([a.value] + xs))
    {
      ConsMeans(sc, m, modules, a.value, b.value, xs, ys);
    }
    hide Eval, EvalMinAll, EvalMaxAll, Meaning, LeastMeaning, GreatestMeaning;
  }

  lemma NotTwins(m: nat, modules: nat, a: Parsed<Expr>, b: Parsed<Expr>)
    requires Twins(m, modules, a, b) && a.Ok?
    ensures Twins(m, modules, Ok(Not(a.value), a.rest), Ok(Not(b.value), b.rest))
  {
    forall sc ensures Eval(sc, Not(b.value)) == Meaning(sc, m, modules, Not(a.value)) {
      assert Eval(sc, b.value) == Meaning(sc, m, modules, a.value);
    }
  }

  lemma NoMore(m: nat, modules: nat, ts: seq<Token>)
    ensures TwinLists(m, modules, Ok([], ts), Ok([], ts))
  {
  }

  lemma {:induction false} FactorTwins(m: nat, modules: nat, ts: seq<Token>)
    ensures Twins(m, modules, ParseFactor(KeepM, ts), ParseFactor(RewriteM(m, modules), ts))
    decreases |ts|, 0
  {
    hide AfterOperand, ParseExpr, Eval, Meaning;
    if ts != [] {
      match ts[0]
      case TSymbol(id) => OperandTwins(m, modules, Symb(id), ts[1..]);
      case TString(text) => OperandTwins(m, modules, Text(text), ts[1..]);
      case TNot =>
        FactorTwins(m, modules, ts[1..]);
        var a := ParseFactor(KeepM, ts[1..]);
        if a.Ok? {
          NotTwins(m, modules, a, ParseFactor(RewriteM(m, modules), ts[1..]));
        }
      case TOpen => ExprTwins(m, modules, ts[1..]);
      case _ =>
    }
  }

  lemma {:induction false} AndTailTwins(m: nat, modules: nat, ts: seq<Token>)
    ensures TwinLists(m, modules, ParseAndTail(KeepM, ts), ParseAndTail(RewriteM(m, modules), ts))
    decreases |ts|, 0
  {
    hide ParseFactor, TwinLists, Eval, Meaning;
    if !Starts(ts, TAnd) {
      NoMore(m, modules, ts);
    } else {
      FactorTwins(m, modules, ts[1..]);
      var a, b := ParseFactor(KeepM, ts[1..]), ParseFactor(RewriteM(m, modules), ts[1..]);
      if a.Ok? {
        AndTailTwins(m, modules, a.rest);
        JoinTails(m, modules, a, b, ParseAndTail(KeepM, a.rest), ParseAndTail(RewriteM(m, modules), b.rest));
      } else {
        BothFail(m, modules);
      }
    }
  }

  lemma BothFail(m: nat, modules: nat)
    ensures TwinLists(m, modules, SyntaxError, SyntaxError) && Twins(m, modules, SyntaxError, SyntaxError)
  {
  }

  function Joined(a: Parsed<Expr>, tail: Parsed<seq<Expr>>): Parsed<seq<Expr>>
    requires a.Ok?
  {
    match tail
    case Ok(es, rest) => Ok([a.value] + es, rest)
    case SyntaxError => SyntaxError
  }

  lemma JoinTails(m: nat, modules: nat, a: Parsed<Expr>, b: Parsed<Expr>,
                  xs: Parsed<seq<Expr>>, ys: Parsed<seq<Expr>>)
    requires Twins(m, modules, a, b) && a.Ok? && TwinLists(m, modules, xs, ys)
    ensures b.Ok? && TwinLists(m, modules, Joined(a, xs), Joined(b, ys))
    ensures xs.Ok? <==> ys.Ok?
    ensures xs.Ok? ==> ys.rest == xs.rest
    ensures xs.Ok? ==>
      Twins(m, modules, Ok(And([a.value] + xs.value), xs.rest), Ok(And([b.value] + ys.value), xs.rest))
    ensures xs.Ok? ==>
      Twins(m, modules, Ok(Or([a.value] + xs.value), xs.rest), Ok(Or([b.value] + ys.value), xs.rest))
  {
    hide Eval, EvalMinAll, EvalMaxAll, Meaning, LeastMeaning, GreatestMeaning;
    if xs.Ok? {
      ConsTwins(m, modules, a, b, xs.value, ys.value, xs.rest);
    }
  }

  lemma {:induction false} AndTermTwins(m: nat, modules: nat, ts: seq<Token>)
    ensures Twins(m, modules, ParseAndTerm(KeepM, ts), ParseAndTerm(RewriteM(m, modules), ts))
    decreases |ts|, 1
  {
    hide ParseFactor, ParseAndTail, Eval, Meaning, TwinLists;
    FactorTwins(m, modules, ts);
    var a, b := ParseFactor(KeepM, ts), ParseFactor(RewriteM(m, modules), ts);
    if a.Ok? && Starts(a.rest, TAnd) {
      AndTailTwins(m, modules, a.rest);
      JoinTails(m, modules, a, b, ParseAndTail(KeepM, a.rest), ParseAndTail(RewriteM(m, modules), b.rest));
    }
  }

  lemma {:induction false} OrTailTwins(m: nat, modules: nat, ts: seq<Token>)
    ensures TwinLists(m, modules, ParseOrTail(KeepM, ts), ParseOrTail(RewriteM(m, modules), ts))
    decreases |ts|, 1
  {
    hide ParseAndTerm, TwinLists, Eval, Meaning;
    if !Starts(ts, TOr) {
      NoMore(m, modules, ts);
    } else {
      AndTermTwins(m, modules, ts[1..]);
      var a, b := ParseAndTerm(KeepM, ts[1..]), ParseAndTerm(RewriteM(m, modules), ts[1..]);
      if a.Ok? {
        OrTailTwins(m, modules, a.rest);
        JoinTails(m, modules, a, b, ParseOrTail(KeepM, a.rest), ParseOrTail(RewriteM(m, modules), b.rest));
      } else {
        BothFail(m, modules);
      }
    }
  }

  lemma {:induction false} ExprTwins(m: nat, modules: nat, ts: seq<Token>)
    ensures Twins(m, modules, ParseExpr(KeepM, ts), ParseExpr(RewriteM(m, modules), ts))
    decreases |ts|, 2
  {
    hide ParseAndTerm, ParseOrTail, Eval, Meaning, TwinLists;
    AndTermTwins(m, modules, ts);
    var a, b := ParseAndTerm(KeepM, ts), ParseAndTerm(RewriteM(m, modules), ts);
    if a.Ok? && Starts(a.rest, TOr) {
      OrTailTwins(m, modules, a.rest);
      JoinTails(m, modules, a, b, ParseOrTail(KeepM, a.rest), ParseOrTail(RewriteM(m, modules), b.rest));
    }
  }

  /** Conditions parse exactly when values do, with the same tokens left over, and are worth in every
      configuration what is written, each lone m counting as no more than MODULES. */
  lemma ConditionsMeanWithModules(m: nat, modules: nat, ts: seq<Token>)
    ensures var plain, rewritten := ParseExpr(KeepM, ts), ParseExpr(RewriteM(m, modules), ts);
      && (plain.Ok? <==> rewritten.Ok?)
      && (plain.Ok? ==>
            && rewritten.rest == plain.rest
            && forall sc :: Eval(sc, rewritten.value) == Meaning(sc, m, modules, plain.value))
  {
    ExprTwins(m, modules, ts);
    hide ParseExpr, Eval, Meaning;
  }

  /** A printed condition comes back meaning what it says. */
  lemma PrintedConditionMeans(sc: Scope, m: nat, modules: nat, e: Expr)
    requires Proper(e)
    ensures var back := ParseExpr(RewriteM(m, modules), Print(e));
      back.Ok? && back.rest == [] && Eval(sc, back.value) == Meaning(sc, m, modules, Flat(e))
  {
    PrintThenParse(e);
    ConditionsMeanWithModules(m, modules, Print(e));
    hide ParseExpr, Eval, Meaning, Print, Flat;
  }
}
