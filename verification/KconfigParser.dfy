/** The recursive-descent expression parser and the printer, on tokens
    (docs/bk7258/kconfiglib.py). */
module KconfigParser {
  import opened Tristate
  import opened KconfigExpr

  datatype Token =
    | TSymbol(id: nat) | TString(text: string)
    | TAnd | TOr | TNot | TOpen | TClose | TEqual | TUnequal
    | TKeyword(code: int)

  /** In conditions, m stands for m && MODULES; in values it stands for itself. */
  datatype MRewrite = KeepM | RewriteM(m: nat, modules: nat)

  datatype Parsed<+T> = Ok(value: T, rest: seq<Token>) | SyntaxError

  predicate Starts(ts: seq<Token>, tok: Token) {
    ts != [] && ts[0] == tok
  }

  /** What may follow "=": anything, the parser does not look. */
  function LaxOperand(ts: seq<Token>): Operand {
    if ts == [] then Junk(-1)
    else match ts[0]
      case TSymbol(id) => Symb(id)
      case TString(text) => Text(text)
      case TKeyword(code) => Junk(code)
      case _ => Junk(-2)
  }

  // ---- The grammar the parser accepts, as functions on the remaining tokens ----

  function ParseFactor(mr: MRewrite, ts: seq<Token>): (r: Parsed<Expr>)
    ensures r.Ok? ==> |r.rest| < |ts|
    decreases |ts|, 0
  {
    if ts == [] then SyntaxError
    else match ts[0]
      case TSymbol(id) => AfterOperand(mr, Symb(id), ts[1..])
      case TString(text) => AfterOperand(mr, Text(text), ts[1..])
      case TNot =>
        (match ParseFactor(mr, ts[1..])
         case Ok(e, rest) => Ok(Not(e), rest)
         case SyntaxError => SyntaxError)
      case TOpen =>
        (match ParseExpr(mr, ts[1..])
         case Ok(e, rest) => if Starts(rest, TClose) then Ok(e, rest[1..]) else SyntaxError
         case SyntaxError => SyntaxError)
      case _ => SyntaxError
  }

  function AfterOperand(mr: MRewrite, op: Operand, ts: seq<Token>): (r: Parsed<Expr>)
    ensures r.Ok? ==> |r.rest| <= |ts|
  {
    if Starts(ts, TEqual) || Starts(ts, TUnequal) then
      var rhs := LaxOperand(ts[1..]);
      Ok(if ts[0] == TEqual then Equal(op, rhs) else Unequal(op, rhs), if |ts| > 1 then ts[2..] else [])
    else if mr.RewriteM? && (op == Symb(mr.m) || op == Text("m")) then
      Ok(And([Leaf(Text("m")), Leaf(Symb(mr.modules))]), ts)
    else Ok(Leaf(op), ts)
  }

  /** and-term: factor (&& factor)* */
  function ParseAndTerm(mr: MRewrite, ts: seq<Token>): (r: Parsed<Expr>)
    ensures r.Ok? ==> |r.rest| < |ts|
    decreases |ts|, 1
  {
    match ParseFactor(mr, ts)
    case SyntaxError => SyntaxError
    case Ok(e, rest) =>
      if !Starts(rest, TAnd) then Ok(e, rest)
      else match ParseAndTail(mr, rest)
        case SyntaxError => SyntaxError
        case Ok(es, rest2) => Ok(And([e] + es), rest2)
  }

  function ParseAndTail(mr: MRewrite, ts: seq<Token>): (r: Parsed<seq<Expr>>)
    ensures r.Ok? ==> |r.rest| <= |ts|
    decreases |ts|, 0
  {
    if !Starts(ts, TAnd) then Ok([], ts)
    else match ParseFactor(mr, ts[1..])
      case SyntaxError => SyntaxError
      case Ok(e, rest) =>
        match ParseAndTail(mr, rest)
        case SyntaxError => SyntaxError
        case Ok(es, rest2) => Ok([e] + es, rest2)
  }

  /** expr: and-term (|| and-term)* */
  function ParseExpr(mr: MRewrite, ts: seq<Token>): (r: Parsed<Expr>)
    ensures r.Ok? ==> |r.rest| < |ts|
    decreases |ts|, 2
  {
    match ParseAndTerm(mr, ts)
    case SyntaxError => SyntaxError
    case Ok(e, rest) =>
      if !Starts(rest, TOr) then Ok(e, rest)
      else match ParseOrTail(mr, rest)
        case SyntaxError => SyntaxError
        case Ok(es, rest2) => Ok(Or([e] + es), rest2)
  }

  function ParseOrTail(mr: MRewrite, ts: seq<Token>): (r: Parsed<seq<Expr>>)
    ensures r.Ok? ==> |r.rest| <= |ts|
    decreases |ts|, 1
  {
    if !Starts(ts, TOr) then Ok([], ts)
    else match ParseAndTerm(mr, ts[1..])
      case SyntaxError => SyntaxError
      case Ok(e, rest) =>
        match ParseOrTail(mr, rest)
        case SyntaxError => SyntaxError
        case Ok(es, rest2) => Ok([e] + es, rest2)
  }

  // ---- The parser itself ----

  datatype Outcome<+T> = Success(value: T) | Failure

  /** A method's outcome matches the grammar, and the feed stands at the rest. */
  ghost predicate Matches<T>(p: Parsed<T>, r: Outcome<T>, remaining: seq<Token>) {
    match p
    case Ok(v, rest) => r == Success(v) && remaining == rest
    case SyntaxError => r == Failure
  }

  class Feed {
    const items: seq<Token>
    var i: nat

    constructor (items: seq<Token>)
      ensures this.items == items && i == 0 && Remaining() == items
    {
      this.items := items;
      i := 0;
    }

    function Remaining(): seq<Token>
      reads this
    {
      if i <= |items| then items[i..] else []
    }

    method GetNext() returns (tok: Token, some: bool)
      requires i <= |items|
      modifies this
      ensures i <= |items|
      ensures some == (old(Remaining()) != [])
      ensures some ==> tok == old(Remaining())[0] && Remaining() == old(Remaining())[1..]
      ensures !some ==> Remaining() == old(Remaining()) == []
    {
      if i >= |items| {
        return TKeyword(-1), false;
      }
      tok, some := items[i], true;
      i := i + 1;
    }

    method Check(tok: Token) returns (found: bool)
      requires i <= |items|
      modifies this
      ensures i <= |items| && found == old(Starts(Remaining(), tok))
      ensures Remaining() == if found then old(Remaining())[1..] else old(Remaining())
    {
      if i < |items| && items[i] == tok {
        i := i + 1;
        return true;
      }
      return false;
    }

    method ParseFactorRec(mr: MRewrite) returns (r: Outcome<Expr>)
      requires i <= |items|
      modifies this
      ensures i <= |items| && (r.Success? ==> i > old(i))
      ensures Matches(ParseFactor(mr, old(Remaining())), r, Remaining())
      decreases |items| - i, 0
    {
      var tok, some := GetNext();
      if !some {
        return Failure;
      }
      match tok
      case TSymbol(id) => r := ParseAfterOperand(mr, Symb(id));
      case TString(text) => r := ParseAfterOperand(mr, Text(text));
      case TNot =>
        r := ParseFactorRec(mr);
        if r.Success? {
          r := Success(Not(r.value));
        }
      case TOpen =>
        r := ParseExprRec(mr);
        if r.Success? {
          var closed := Check(TClose);
          if !closed {
            return Failure;
          }
        }
      case _ => return Failure;
    }

    method ParseAfterOperand(mr: MRewrite, op: Operand) returns (r: Outcome<Expr>)
      requires i <= |items|
      modifies this
      ensures i <= |items| && i >= old(i) && Matches(AfterOperand(mr, op, old(Remaining())), r, Remaining())
    {
      if i < |items| && (items[i] == TEqual || items[i] == TUnequal) {
        var relation, _ := GetNext();
        var rhs := LaxOperand(Remaining());
        var _, _ := GetNext();
        return Success(if relation == TEqual then Equal(op, rhs) else Unequal(op, rhs));
      }
      if mr.RewriteM? && (op == Symb(mr.m) || op == Text("m")) {
        return Success(And([Leaf(Text("m")), Leaf(Symb(mr.modules))]));
      }
      return Success(Leaf(op));
    }

    method ParseAndTermRec(mr: MRewrite) returns (r: Outcome<Expr>)
      requires i <= |items|
      modifies this
      ensures i <= |items| && (r.Success? ==> i > old(i))
      ensures Matches(ParseAndTerm(mr, old(Remaining())), r, Remaining())
      decreases |items| - i, 1
    {
      hide ParseFactor, ParseAndTail;
      r := ParseFactorRec(mr);
      if r.Failure? {
        return;
      }
      ghost var left := Remaining();
      var more := Check(TAnd);
      if !more {
        return;
      }
      var terms := AndTerms(mr, r.value, left);
      if terms.Failure? {
        return Failure;
      }
      return Success(And(terms.value));
    }

    /** The loop after the first operator: one more operand for every operator. */
    method AndTerms(mr: MRewrite, first: Expr, ghost start: seq<Token>) returns (r: Outcome<seq<Expr>>)
      requires i <= |items| && start == [TAnd] + Remaining()
      modifies this
      ensures i <= |items| && (r.Success? ==> i > old(i))
      ensures match ParseAndTail(mr, start)
        case Ok(es, rest) => r == Success([first] + es) && Remaining() == rest
        case SyntaxError => r == Failure
      decreases |items| - i, 1
    {
      hide ParseFactor, ParseAndTail, Resumes;
      var terms, more := [first], true;
      ghost var left := start;
      ResumesStart(ParseAndTail(mr, start));
      assert terms == [first] + [];
      while more
        invariant i <= |items| && i >= old(i) && (i == old(i) ==> more)
        invariant |terms| >= 1 && terms == [first] + terms[1..]
        invariant more == Starts(left, TAnd) && Remaining() == if more then left[1..] else left
        invariant Resumes(ParseAndTail(mr, start), terms[1..], ParseAndTail(mr, left))
        decreases |items| - i, more
      {
        ghost var got := terms[1..];
        AndResumes(mr, ParseAndTail(mr, start), got, left);
        var term := ParseFactorRec(mr);
        if term.Failure? {
          return Failure;
        }
        terms := terms + [term.value];
        assert terms[1..] == got + [term.value];
        left := Remaining();
        more := Check(TAnd);
      }
      AndEnds(mr, ParseAndTail(mr, start), terms[1..], left);
      return Success(terms);
    }

    method ParseExprRec(mr: MRewrite) returns (r: Outcome<Expr>)
      requires i <= |items|
      modifies this
      ensures i <= |items| && (r.Success? ==> i > old(i))
      ensures Matches(ParseExpr(mr, old(Remaining())), r, Remaining())
      decreases |items| - i, 2
    {
      hide ParseAndTerm, ParseOrTail;
      r := ParseAndTermRec(mr);
      if r.Failure? {
        return;
      }
      ghost var left := Remaining();
      var more := Check(TOr);
      if !more {
        return;
      }
      var terms := OrTerms(mr, r.value, left);
      if terms.Failure? {
        return Failure;
      }
      return Success(Or(terms.value));
    }

    /** The loop after the first operator: one more operand for every operator. */
    method OrTerms(mr: MRewrite, first: Expr, ghost start: seq<Token>) returns (r: Outcome<seq<Expr>>)
      requires i <= |items| && start == [TOr] + Remaining()
      modifies this
      ensures i <= |items| && (r.Success? ==> i > old(i))
      ensures match ParseOrTail(mr, start)
        case Ok(es, rest) => r == Success([first] + es) && Remaining() == rest
        case SyntaxError => r == Failure
      decreases |items| - i, 2
    {
      hide ParseAndTerm, ParseOrTail, Resumes;
      var terms, more := [first], true;
      ghost var left := start;
      ResumesStart(ParseOrTail(mr, start));
      assert terms == [first] + [];
      while more
        invariant i <= |items| && i >= old(i) && (i == old(i) ==> more)
        invariant |terms| >= 1 && terms == [first] + terms[1..]
        invariant more == Starts(left, TOr) && Remaining() == if more then left[1..] else left
        invariant Resumes(ParseOrTail(mr, start), terms[1..], ParseOrTail(mr, left))
        decreases |items| - i, more
      {
        ghost var got := terms[1..];
        OrResumes(mr, ParseOrTail(mr, start), got, left);
        var term := ParseAndTermRec(mr);
        if term.Failure? {
          return Failure;
        }
        terms := terms + [term.value];
        assert terms[1..] == got + [term.value];
        left := Remaining();
        more := Check(TOr);
      }
      OrEnds(mr, ParseOrTail(mr, start), terms[1..], left);
      return Success(terms);
    }
  }

  /** Parsing the whole tail is parsing what is left, after what has been collected. */
  ghost predicate Resumes(whole: Parsed<seq<Expr>>, got: seq<Expr>, left: Parsed<seq<Expr>>) {
    match left
    case Ok(es, rest) => whole == Ok(got + es, rest)
    case SyntaxError => whole == SyntaxError
  }

  lemma ResumesStart(p: Parsed<seq<Expr>>)
    ensures Resumes(p, [], p)
  {
    if p.Ok? {
      assert [] + p.value == p.value;
    }
  }

  lemma ResumesMore(whole: Parsed<seq<Expr>>, got: seq<Expr>, e: Expr, next: Parsed<seq<Expr>>)
    requires Resumes(whole, got, if next.Ok? then Ok([e] + next.value, next.rest) else SyntaxError)
    ensures Resumes(whole, got + [e], next)
  {
    if next.Ok? {
      assert got + ([e] + next.value) == got + [e] + next.value;
    }
  }

  lemma AndResumes(mr: MRewrite, whole: Parsed<seq<Expr>>, got: seq<Expr>, left: seq<Token>)
    requires Starts(left, TAnd) && Resumes(whole, got, ParseAndTail(mr, left))
    ensures var next := ParseFactor(mr, left[1..]);
      if next.Ok? then Resumes(whole, got + [next.value], ParseAndTail(mr, next.rest)) else whole == SyntaxError
  {
    var next := ParseFactor(mr, left[1..]);
    if next.Ok? {
      ResumesMore(whole, got, next.value, ParseAndTail(mr, next.rest));
    }
  }

  lemma OrResumes(mr: MRewrite, whole: Parsed<seq<Expr>>, got: seq<Expr>, left: seq<Token>)
    requires Starts(left, TOr) && Resumes(whole, got, ParseOrTail(mr, left))
    ensures var next := ParseAndTerm(mr, left[1..]);
      if next.Ok? then Resumes(whole, got + [next.value], ParseOrTail(mr, next.rest)) else whole == SyntaxError
  {
    var next := ParseAndTerm(mr, left[1..]);
    if next.Ok? {
      ResumesMore(whole, got, next.value, ParseOrTail(mr, next.rest));
    }
  }

  lemma AndEnds(mr: MRewrite, whole: Parsed<seq<Expr>>, got: seq<Expr>, left: seq<Token>)
    requires !Starts(left, TAnd) && Resumes(whole, got, ParseAndTail(mr, left))
    ensures whole == Ok(got, left)
  {
    assert got + [] == got;
  }

  lemma OrEnds(mr: MRewrite, whole: Parsed<seq<Expr>>, got: seq<Expr>, left: seq<Token>)
    requires !Starts(left, TOr) && Resumes(whole, got, ParseOrTail(mr, left))
    ensures whole == Ok(got, left)
  {
    assert got + [] == got;
  }

  // ---- The printer ----

  function OperandToken(op: Operand): Token {
    match op
    case Symb(id) => TSymbol(id)
    case Text(text) => TString(text)
    case Junk(code) => TKeyword(code)
  }

  function Joiner(conj: bool): Token {
    if conj then TAnd else TOr
  }

  /** Inside &&, only || needs parentheses; inside ||, nothing does. */
  predicate NeedsParens(conj: bool, e: Expr) {
    conj && e.Or?
  }

  function Print(e: Expr): seq<Token>
    decreases e, 2
  {
    match e
    case Leaf(op) => [OperandToken(op)]
    case And(args) => if args == [] then [] else PrintSub(true, args[0]) + PrintRest(true, args[1..])
    case Or(args) => if args == [] then [] else PrintSub(false, args[0]) + PrintRest(false, args[1..])
    case Not(a) => [TNot] + (if a.Leaf? then Print(a) else [TOpen] + Print(a) + [TClose])
    case Equal(l, r) => [OperandToken(l), TEqual, OperandToken(r)]
    case Unequal(l, r) => [OperandToken(l), TUnequal, OperandToken(r)]
  }

  function PrintSub(conj: bool, e: Expr): seq<Token>
    decreases e, 3
  {
    if NeedsParens(conj, e) then [TOpen] + Print(e) + [TClose] else Print(e)
  }

  function PrintRest(conj: bool, es: seq<Expr>): seq<Token>
    decreases es, 0
  {
    if es == [] then [] else [Joiner(conj)] + PrintSub(conj, es[0]) + PrintRest(conj, es[1..])
  }

  // ---- Flattening ----

  predicate IsList(conj: bool, e: Expr) {
    if conj then e.And? else e.Or?
  }

  /** The arguments with nested lists of the same operator spliced in. */
  function Items(conj: bool, es: seq<Expr>): seq<Expr>
    decreases es, 1
  {
    if es == [] then []
    else (if IsList(conj, es[0]) then Items(conj, es[0].args) else [es[0]]) + Items(conj, es[1..])
  }

  function Size(e: Expr): nat
    decreases e, 1
  {
    match e
    case Leaf(_) => 1
    case And(args) => 1 + SizeAll(args)
    case Or(args) => 1 + SizeAll(args)
    case Not(a) => 1 + Size(a)
    case Equal(_, _) => 1
    case Unequal(_, _) => 1
  }

  function SizeAll(es: seq<Expr>): nat
    decreases es, 0
  {
    if es == [] then 0 else Size(es[0]) + SizeAll(es[1..])
  }

  lemma {:induction false} ItemsSize(conj: bool, es: seq<Expr>)
    ensures SizeAll(Items(conj, es)) <= SizeAll(es)
    ensures forall x <- Items(conj, es) :: !IsList(conj, x)
    decreases es, 1
  {
    if es != [] {
      ItemsSize(conj, es[1..]);
      var head := if IsList(conj, es[0]) then Items(conj, es[0].args) else [es[0]];
      if IsList(conj, es[0]) {
        ItemsSize(conj, es[0].args);
      } else {
        assert [es[0]][1..] == [];
      }
      SizeAllAppend(head, Items(conj, es[1..]));
    }
  }

  lemma {:induction false} SizeAllAppend(a: seq<Expr>, b: seq<Expr>)
    ensures SizeAll(a + b) == SizeAll(a) + SizeAll(b)
  {
    if a == [] {
      assert a + b == b;
    } else {
      assert (a + b)[1..] == a[1..] + b;
      SizeAllAppend(a[1..], b);
    }
  }

  /** Every list flattened, throughout. */
  function Flat(e: Expr): Expr
    decreases Size(e), 1
  {
    match e
    case Leaf(_) => e
    case And(args) => ItemsSize(true, args); And(FlatAll(Items(true, args)))
    case Or(args) => ItemsSize(false, args); Or(FlatAll(Items(false, args)))
    case Not(a) => Not(Flat(a))
    case Equal(_, _) => e
    case Unequal(_, _) => e
  }

  function FlatAll(es: seq<Expr>): (r: seq<Expr>)
    ensures |r| == |es|
    decreases SizeAll(es), 2
  {
    if es == [] then [] else [Flat(es[0])] + FlatAll(es[1..])
  }

  // ---- Printing and parsing back ----

  /** Expressions as the parser and the builders make them: lists have two or more
      arguments, comparisons compare operands. */
  predicate Proper(e: Expr)
    decreases e
  {
    match e
    case Leaf(op) => !op.Junk?
    case And(args) => |args| >= 2 && forall i :: 0 <= i < |args| ==> Proper(args[i])
    case Or(args) => |args| >= 2 && forall i :: 0 <= i < |args| ==> Proper(args[i])
    case Not(a) => Proper(a)
    case Equal(l, r) => !l.Junk? && !r.Junk?
    case Unequal(l, r) => !l.Junk? && !r.Junk?
  }

  predicate ProperAll(es: seq<Expr>) {
    forall i :: 0 <= i < |es| ==> Proper(es[i])
  }

  predicate ItemsOnly(conj: bool, es: seq<Expr>) {
    forall i :: 0 <= i < |es| ==> !IsList(conj, es[i])
  }

  lemma {:induction false} ItemsProper(conj: bool, es: seq<Expr>)
    requires ProperAll(es)
    ensures ProperAll(Items(conj, es)) && ItemsOnly(conj, Items(conj, es)) && |Items(conj, es)| >= |es|
    decreases es
  {
    if es != [] {
      ItemsProper(conj, es[1..]);
      if IsList(conj, es[0]) {
        ItemsProper(conj, es[0].args);
      }
    }
  }

  lemma {:induction false} PrintRestAppend(conj: bool, a: seq<Expr>, b: seq<Expr>)
    ensures PrintRest(conj, a + b) == PrintRest(conj, a) + PrintRest(conj, b)
  {
    if a == [] {
      assert a + b == b;
    } else {
      assert (a + b)[1..] == a[1..] + b;
      PrintRestAppend(conj, a[1..], b);
    }
  }

  lemma PrintRestOne(conj: bool, e: Expr)
    ensures PrintRest(conj, [e]) == [Joiner(conj)] + PrintSub(conj, e)
  {
    assert [e][1..] == [];
    assert PrintRest(conj, [e]) == [Joiner(conj)] + PrintSub(conj, e) + PrintRest(conj, []);
  }

  /** An operator and a list of that operator print as the list's arguments, each after the operator. */
  lemma JoinedList(conj: bool, e: Expr)
    requires IsList(conj, e) && e.args != []
    ensures PrintRest(conj, e.args) == [Joiner(conj)] + Print(e) == [Joiner(conj)] + PrintSub(conj, e)
  {
    var args := e.args;
    assert Print(e) == PrintSub(conj, args[0]) + PrintRest(conj, args[1..]);
    hide Print, PrintSub, PrintRest;
    assert PrintRest(conj, args) == [Joiner(conj)] + PrintSub(conj, args[0]) + PrintRest(conj, args[1..]) by {
      RestUnfold(conj, args);
    }
    assert [Joiner(conj)] + PrintSub(conj, args[0]) + PrintRest(conj, args[1..])
      == [Joiner(conj)] + (PrintSub(conj, args[0]) + PrintRest(conj, args[1..]));
    SubOfList(conj, e);
  }

  lemma SubOfList(conj: bool, e: Expr)
    requires IsList(conj, e)
    ensures PrintSub(conj, e) == Print(e)
  {
  }

  lemma RestUnfold(conj: bool, es: seq<Expr>)
    requires es != []
    ensures PrintRest(conj, es) == [Joiner(conj)] + PrintSub(conj, es[0]) + PrintRest(conj, es[1..])
  {
  }

  /** A nested list of the same operator prints as its arguments do. */
  lemma {:induction false} PrintRestItems(conj: bool, es: seq<Expr>)
    requires ProperAll(es)
    ensures PrintRest(conj, es) == PrintRest(conj, Items(conj, es))
    decreases es
  {
    hide Print, PrintSub, PrintRest;
    if es != [] {
      PrintRestItems(conj, es[1..]);
      RestUnfold(conj, es);
      var head := if IsList(conj, es[0]) then Items(conj, es[0].args) else [es[0]];
      PrintRestAppend(conj, head, Items(conj, es[1..]));
      if IsList(conj, es[0]) {
        PrintRestItems(conj, es[0].args);
        JoinedList(conj, es[0]);
      } else {
        PrintRestOne(conj, es[0]);
      }
    }
  }

  /** A printed list is its first item followed by the rest of its items. */
  lemma PrintList(conj: bool, e: Expr)
    requires Proper(e) && IsList(conj, e)
    ensures var items := Items(conj, e.args);
      |items| >= 2 && Print(e) == PrintSub(conj, items[0]) + PrintRest(conj, items[1..])
  {
    var items := Items(conj, e.args);
    ItemsProper(conj, e.args);
    PrintRestItems(conj, e.args);
    JoinedList(conj, e);
    RestUnfold(conj, items);
    hide Print, PrintSub, PrintRest, Items;
    var j := [Joiner(conj)];
    var tail := PrintSub(conj, items[0]) + PrintRest(conj, items[1..]);
    assert j + PrintSub(conj, items[0]) + PrintRest(conj, items[1..]) == j + tail;
    assert (j + Print(e))[1..] == Print(e) && (j + tail)[1..] == tail;
  }

  /** What follows does not continue a comparison. */
  predicate Ends(rest: seq<Token>) {
    !Starts(rest, TEqual) && !Starts(rest, TUnequal)
  }

  lemma ConsAssoc<T>(j: T, a: seq<T>, b: seq<T>, c: seq<T>)
    ensures var p := [j] + a + b + c; p != [] && p[0] == j && p[1..] == a + (b + c)
    ensures [j] + a + b + c == [j] + (a + (b + c))
  {
  }

  lemma NotStep(inner: seq<Token>, rest: seq<Token>, x: Expr)
    requires ParseFactor(KeepM, inner + rest) == Ok(x, rest)
    ensures ParseFactor(KeepM, [TNot] + inner + rest) == Ok(Not(x), rest)
  {
    var ts := [TNot] + inner + rest;
    assert ts[1..] == inner + rest;
    hide ParseExpr;
  }

  lemma ParenStep(inner: seq<Token>, rest: seq<Token>, x: Expr)
    requires ParseExpr(KeepM, inner + ([TClose] + rest)) == Ok(x, [TClose] + rest)
    ensures ParseFactor(KeepM, [TOpen] + inner + [TClose] + rest) == Ok(x, rest)
  {
    hide ParseExpr;
    ConsAssoc(TOpen, inner, [TClose], rest);
    assert ([TClose] + rest)[1..] == rest;
  }

  lemma CompareStep(l: Operand, r: Operand, rest: seq<Token>)
    requires !l.Junk? && !r.Junk?
    ensures ParseFactor(KeepM, [OperandToken(l), TEqual, OperandToken(r)] + rest) == Ok(Equal(l, r), rest)
    ensures ParseFactor(KeepM, [OperandToken(l), TUnequal, OperandToken(r)] + rest) == Ok(Unequal(l, r), rest)
  {
    forall rel | rel == TEqual || rel == TUnequal
      ensures var ts := [OperandToken(l), rel, OperandToken(r)] + rest;
        ts[1..] == [rel, OperandToken(r)] + rest && ts[1..][1..] == [OperandToken(r)] + rest && ts[1..][2..] == rest
    {
      var ts := [OperandToken(l), rel, OperandToken(r)] + rest;
      assert ts[1..] == [rel, OperandToken(r)] + rest;
      assert ts[1..][1..] == [OperandToken(r)] + rest;
    }
  }

  lemma LeafStep(op: Operand, rest: seq<Token>)
    requires !op.Junk? && Ends(rest)
    ensures ParseFactor(KeepM, [OperandToken(op)] + rest) == Ok(Leaf(op), rest)
  {
    assert ([OperandToken(op)] + rest)[1..] == rest;
  }

  lemma {:induction false} FactorBack(e: Expr, rest: seq<Token>)
    requires Proper(e) && !e.And? && !e.Or? && Ends(rest)
    ensures ParseFactor(KeepM, Print(e) + rest) == Ok(Flat(e), rest)
    decreases Size(e), 0
  {
    hide ParseFactor;
    match e
    case Leaf(op) => LeafStep(op, rest);
    case Not(a) =>
      if a.Leaf? {
        FactorBack(a, rest);
        NotStep(Print(a), rest, Flat(a));
      } else {
        ParenBack(a, rest);
        NotStep([TOpen] + Print(a) + [TClose], rest, Flat(a));
      }
    case Equal(l, r) => CompareStep(l, r, rest);
    case Unequal(l, r) => CompareStep(l, r, rest);
  }

  lemma {:induction false} ParenBack(e: Expr, rest: seq<Token>)
    requires Proper(e)
    ensures ParseFactor(KeepM, [TOpen] + Print(e) + [TClose] + rest) == Ok(Flat(e), rest)
    decreases Size(e), 6
  {
    hide ParseFactor, ParseExpr, Print, Flat;
    ExprBack(e, [TClose] + rest);
    ParenStep(Print(e), rest, Flat(e));
  }

  /** An operand of &&, in parentheses if it is an ||. */
  lemma {:induction false} OperandBack(e: Expr, rest: seq<Token>)
    requires Proper(e) && !e.And? && Ends(rest)
    ensures ParseFactor(KeepM, PrintSub(true, e) + rest) == Ok(Flat(e), rest)
    decreases Size(e), 7
  {
    hide ParseFactor, Print, Flat;
    if e.Or? {
      ParenBack(e, rest);
    } else {
      FactorBack(e, rest);
    }
  }

  predicate TermEnds(rest: seq<Token>) {
    Ends(rest) && !Starts(rest, TAnd)
  }

  /** The printed rest of a list, followed by anything: empty, or the operator and an operand. */
  lemma PrintRestStart(conj: bool, es: seq<Expr>, rest: seq<Token>)
    ensures es == [] ==> PrintRest(conj, es) + rest == rest
    ensures es != [] ==>
      && Starts(PrintRest(conj, es) + rest, Joiner(conj))
      && (PrintRest(conj, es) + rest)[1..] == PrintSub(conj, es[0]) + (PrintRest(conj, es[1..]) + rest)
  {
    if es != [] {
      RestUnfold(conj, es);
      hide PrintRest, PrintSub;
      ConsAssoc(Joiner(conj), PrintSub(conj, es[0]), PrintRest(conj, es[1..]), rest);
    }
  }

  lemma PrintRestEnds(conj: bool, es: seq<Expr>, rest: seq<Token>)
    requires Ends(rest)
    ensures Ends(PrintRest(conj, es) + rest)
    ensures !conj && !Starts(rest, TAnd) ==> TermEnds(PrintRest(conj, es) + rest)
  {
    PrintRestStart(conj, es, rest);
    hide PrintRest, PrintSub;
  }

  lemma {:induction false} AndRestBack(es: seq<Expr>, rest: seq<Token>)
    requires ProperAll(es) && ItemsOnly(true, es) && TermEnds(rest)
    ensures ParseAndTail(KeepM, PrintRest(true, es) + rest) == Ok(FlatAll(es), rest)
    decreases SizeAll(es), 8
  {
    hide Print, PrintSub, PrintRest, Flat, ParseFactor;
    PrintRestStart(true, es, rest);
    if es != [] {
      PrintRestEnds(true, es[1..], rest);
      OperandBack(es[0], PrintRest(true, es[1..]) + rest);
      SizePositive(es[0]);
      AndRestBack(es[1..], rest);
    }
  }

  lemma SizePositive(e: Expr)
    ensures Size(e) >= 1
  {
  }

  lemma SizeSplit(es: seq<Expr>)
    requires es != []
    ensures SizeAll(es) == Size(es[0]) + SizeAll(es[1..])
  {
  }

  lemma TailProper(conj: bool, es: seq<Expr>)
    requires es != [] && ProperAll(es) && ItemsOnly(conj, es)
    ensures Proper(es[0]) && !IsList(conj, es[0]) && ProperAll(es[1..]) && ItemsOnly(conj, es[1..])
  {
  }

  lemma ArgsProper(conj: bool, e: Expr)
    requires Proper(e) && IsList(conj, e)
    ensures ProperAll(e.args)
  {
  }

  /** What a printed list is made of. */
  lemma ListItems(conj: bool, e: Expr)
    requires Proper(e) && IsList(conj, e)
    ensures var items := Items(conj, e.args);
      && |items| >= 2 && ProperAll(items[1..]) && ItemsOnly(conj, items[1..])
      && Proper(items[0]) && !IsList(conj, items[0])
      && Size(items[0]) < Size(e) && SizeAll(items[1..]) < Size(e)
      && Print(e) == PrintSub(conj, items[0]) + PrintRest(conj, items[1..])
      && Flat(e) == (if conj then And([Flat(items[0])] + FlatAll(items[1..]))
                     else Or([Flat(items[0])] + FlatAll(items[1..])))
  {
    hide Print, PrintSub, PrintRest, Items, Proper;
    ArgsProper(conj, e);
    PrintList(conj, e);
    ItemsProper(conj, e.args);
    TailProper(conj, Items(conj, e.args));
    ItemsSize(conj, e.args);
    SizeSplit(Items(conj, e.args));
  }

  lemma AndStep(ts: seq<Token>, left: seq<Token>, rest: seq<Token>, x: Expr, xs: seq<Expr>)
    requires ParseFactor(KeepM, ts) == Ok(x, left) && Starts(left, TAnd) && ParseAndTail(KeepM, left) == Ok(xs, rest)
    ensures ParseAndTerm(KeepM, ts) == Ok(And([x] + xs), rest)
  {
    hide ParseFactor, ParseAndTail;
  }

  lemma OrStep(ts: seq<Token>, left: seq<Token>, rest: seq<Token>, x: Expr, xs: seq<Expr>)
    requires ParseAndTerm(KeepM, ts) == Ok(x, left) && Starts(left, TOr) && ParseOrTail(KeepM, left) == Ok(xs, rest)
    ensures ParseExpr(KeepM, ts) == Ok(Or([x] + xs), rest)
  {
    hide ParseAndTerm, ParseOrTail;
  }

  lemma {:induction false} AndTermBack(e: Expr, rest: seq<Token>)
    requires Proper(e) && !e.Or? && TermEnds(rest)
    ensures ParseAndTerm(KeepM, Print(e) + rest) == Ok(Flat(e), rest)
    decreases Size(e), 3
  {
    hide Print, PrintSub, PrintRest, Items, Flat, FlatAll, ParseFactor, ParseAndTail, Size, SizeAll;
    if e.And? {
      ListItems(true, e);
      hide Proper, ProperAll, ItemsOnly, ParseAndTerm;
      var items := Items(true, e.args);
      var left := PrintRest(true, items[1..]) + rest;
      PrintRestStart(true, items[1..], rest);
      PrintRestEnds(true, items[1..], rest);
      OperandBack(items[0], left);
      AndRestBack(items[1..], rest);
      assert Print(e) + rest == PrintSub(true, items[0]) + left;
      AndStep(Print(e) + rest, left, rest, Flat(items[0]), FlatAll(items[1..]));
    } else {
      FactorBack(e, rest);
    }
  }

  lemma {:induction false} OrRestBack(es: seq<Expr>, rest: seq<Token>)
    requires ProperAll(es) && ItemsOnly(false, es) && TermEnds(rest) && !Starts(rest, TOr)
    ensures ParseOrTail(KeepM, PrintRest(false, es) + rest) == Ok(FlatAll(es), rest)
    decreases SizeAll(es), 4
  {
    hide Print, PrintRest, Flat, ParseAndTerm;
    PrintRestStart(false, es, rest);
    if es != [] {
      PrintRestEnds(false, es[1..], rest);
      AndTermBack(es[0], PrintRest(false, es[1..]) + rest);
      SizePositive(es[0]);
      OrRestBack(es[1..], rest);
    }
  }

  lemma {:induction false} ExprBack(e: Expr, rest: seq<Token>)
    requires Proper(e) && TermEnds(rest) && !Starts(rest, TOr)
    ensures ParseExpr(KeepM, Print(e) + rest) == Ok(Flat(e), rest)
    decreases Size(e), 5
  {
    hide Print, PrintRest, Items, Flat, FlatAll, ParseAndTerm, ParseOrTail, Size, SizeAll;
    if e.Or? {
      ListItems(false, e);
      hide Proper, ProperAll, ItemsOnly, ParseExpr;
      var items := Items(false, e.args);
      var left := PrintRest(false, items[1..]) + rest;
      PrintRestStart(false, items[1..], rest);
      PrintRestEnds(false, items[1..], rest);
      AndTermBack(items[0], left);
      OrRestBack(items[1..], rest);
      assert Print(e) + rest == Print(items[0]) + left;
      OrStep(Print(e) + rest, left, rest, Flat(items[0]), FlatAll(items[1..]));
    } else {
      AndTermBack(e, rest);
    }
  }

  /** Parsing what was printed gives the expression back, flattened. */
  lemma PrintThenParse(e: Expr)
    requires Proper(e)
    ensures ParseExpr(KeepM, Print(e)) == Ok(Flat(e), [])
  {
    ExprBack(e, []);
    assert Print(e) + [] == Print(e);
  }

  // ---- Flattening keeps the meaning ----

  lemma {:induction false} FlatMeans(sc: Scope, e: Expr)
    ensures Eval(sc, Flat(e)) == Eval(sc, e)
    decreases Size(e), 1
  {
    match e
    case Leaf(_) =>
    case And(args) =>
      ItemsSize(true, args);
      ItemsMean(sc, true, args);
      FlatAllMeans(sc, Items(true, args));
    case Or(args) =>
      ItemsSize(false, args);
      ItemsMean(sc, false, args);
      FlatAllMeans(sc, Items(false, args));
    case Not(a) => FlatMeans(sc, a);
    case Equal(_, _) =>
    case Unequal(_, _) =>
  }

  lemma {:induction false} FlatAllMeans(sc: Scope, es: seq<Expr>)
    ensures EvalMinAll(sc, FlatAll(es)) == EvalMinAll(sc, es)
    ensures EvalMaxAll(sc, FlatAll(es)) == EvalMaxAll(sc, es)
    decreases SizeAll(es), 2
  {
    if es != [] {
      SizePositive(es[0]);
      FlatMeans(sc, es[0]);
      FlatAllMeans(sc, es[1..]);
      assert FlatAll(es)[1..] == FlatAll(es[1..]);
    }
  }

  lemma {:induction false} ItemsMean(sc: Scope, conj: bool, es: seq<Expr>)
    ensures conj ==> EvalMinAll(sc, Items(conj, es)) == EvalMinAll(sc, es)
    ensures !conj ==> EvalMaxAll(sc, Items(conj, es)) == EvalMaxAll(sc, es)
    decreases es
  {
    if es != [] {
      ItemsMean(sc, conj, es[1..]);
      var head := if IsList(conj, es[0]) then Items(conj, es[0].args) else [es[0]];
      MinAllAppend(sc, head, Items(conj, es[1..]));
      MaxAllAppend(sc, head, Items(conj, es[1..]));
      if IsList(conj, es[0]) {
        ItemsMean(sc, conj, es[0].args);
      } else {
        PairMeaning(sc, es[0], es[0]);
      }
    }
  }

  /** Hence the expression that is parsed back evaluates the same everywhere. */
  lemma PrintThenParseMeans(sc: Scope, e: Expr)
    requires Proper(e)
    ensures var back := ParseExpr(KeepM, Print(e));
      back.Ok? && back.rest == [] && Eval(sc, back.value) == Eval(sc, e)
  {
    PrintThenParse(e);
    FlatMeans(sc, e);
  }
}
