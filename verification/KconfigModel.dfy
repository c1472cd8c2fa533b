/** A parsed Kconfig tree, the user's assignment to it, and what the symbols are
    worth: the one solution of the value equations that get_value, _get_visibility
    and Choice.get_selection express (docs/bk7258/kconfiglib.py). No caches here. */
module KconfigModel {
  import opened Options
  import opened Tristate
  import opened KconfigExpr

  datatype Type = UnknownType | BoolType | TristateType | StringType | HexType | IntType

  /** Python's int(s, base) and its two renderings, left uninterpreted. */
  datatype Numerals = Numerals(
    isNum: (string, nat) -> bool, toInt: (string, nat) -> int, render: (int, nat) -> string)

  datatype Default = Default(value: Expr, cond: Cond)
  datatype Range = Range(low: Operand, high: Operand, cond: Cond)

  /** special: a constant (n, m, y, UNAME_RELEASE) or environment symbol and its value. */
  datatype Symbol = Symbol(
    name: string, typ: Type, prompts: seq<Cond>, defaults: seq<Default>, ranges: seq<Range>,
    revDep: Expr, choice: Option<nat>, special: Option<string>, defined: bool)

  datatype ChoiceDefault = ChoiceDefault(symbol: nat, cond: Cond)

  datatype Choice = Choice(
    typ: Type, prompts: seq<Cond>, defaults: seq<ChoiceDefault>, optional: bool, actual: seq<nat>)

  /** rank orders the dependency graph; members of one choice share a rank. */
  datatype Tree = Tree(
    syms: seq<Symbol>, choices: seq<Choice>, modules: Option<nat>, num: Numerals,
    rank: seq<nat>, bound: nat)

  datatype Users = Users(
    vals: seq<Option<string>>, selection: seq<Option<nat>>, mode: seq<Option<Tri>>)

  // ---- What a symbol reads ----

  function CondsSyms(cs: seq<Cond>): set<nat> {
    if cs == [] then {} else CondSyms(cs[0]) + CondsSyms(cs[1..])
  }

  function DefaultsSyms(ds: seq<Default>): set<nat> {
    if ds == [] then {} else Syms(ds[0].value) + CondSyms(ds[0].cond) + DefaultsSyms(ds[1..])
  }

  function RangesSyms(rs: seq<Range>): set<nat> {
    if rs == [] then {}
    else OperandSyms(rs[0].low) + OperandSyms(rs[0].high) + CondSyms(rs[0].cond) + RangesSyms(rs[1..])
  }

  function ChoiceDefaultsSyms(ds: seq<ChoiceDefault>): set<nat> {
    if ds == [] then {} else CondSyms(ds[0].cond) + ChoiceDefaultsSyms(ds[1..])
  }

  function ChoiceReads(c: Choice): set<nat> {
    CondsSyms(c.prompts) + ChoiceDefaultsSyms(c.defaults)
  }

  function OwnReads(y: Symbol): set<nat> {
    CondsSyms(y.prompts) + DefaultsSyms(y.defaults) + Syms(y.revDep) + RangesSyms(y.ranges)
  }

  /** Symbols whose change may change s; a choice member also reads what its choice reads. */
  function Reads(t: Tree, s: nat): set<nat>
    requires s < |t.syms| && Placed(t, s)
  {
    var y := t.syms[s];
    OwnReads(y) + (if y.choice.Some? then ChoiceReads(t.choices[y.choice.value]) else {})
  }

  // ---- Well-formed trees ----

  predicate Placed(t: Tree, s: nat)
    requires s < |t.syms|
  {
    t.syms[s].choice.Some? ==> t.syms[s].choice.value < |t.choices|
  }

  predicate IsTri(typ: Type) {
    typ == BoolType || typ == TristateType
  }

  /** A symbol whose value and visibility nothing can change. */
  predicate Constant(y: Symbol) {
    y.special.Some? && y.prompts == []
  }

  predicate ChoicesOk(t: Tree) {
    && (forall s :: 0 <= s < |t.syms| ==> Placed(t, s))
    && (forall c, i :: 0 <= c < |t.choices| && 0 <= i < |t.choices[c].actual| ==>
          t.choices[c].actual[i] < |t.syms| && t.syms[t.choices[c].actual[i]].choice == Some(c))
    && (forall s :: 0 <= s < |t.syms| && t.syms[s].choice.Some? ==>
          && t.syms[s].choice.value < |t.choices|
          && s in t.choices[t.syms[s].choice.value].actual
          && t.syms[s].special.None?)
    && (forall c, i :: 0 <= c < |t.choices| && 0 <= i < |t.choices[c].defaults| ==>
          t.choices[c].defaults[i].symbol in t.choices[c].actual)
  }

  predicate Sized(t: Tree) {
    |t.rank| == |t.syms| && forall s :: 0 <= s < |t.syms| ==> t.rank[s] < t.bound
  }

  /** Dependencies are acyclic, a choice counting as one node. */
  predicate RanksOk(t: Tree)
    requires ChoicesOk(t) && Sized(t)
  {
    && (forall s, x :: 0 <= s < |t.syms| && x in Reads(t, s) ==> x < |t.syms| && t.rank[x] < t.rank[s])
    && (forall c, i, j :: 0 <= c < |t.choices| && 0 <= i < |t.choices[c].actual| && 0 <= j < |t.choices[c].actual| ==>
          t.rank[t.choices[c].actual[i]] == t.rank[t.choices[c].actual[j]])
    && (forall c, x :: 0 <= c < |t.choices| && x in ChoiceReads(t.choices[c]) ==> x < |t.syms|)
  }

  predicate MFreeOperand(t: Tree, op: Operand) {
    match op
    case Text(x) => x != "m"
    case Symb(x) => x < |t.syms| && t.syms[x].special.Some? && t.syms[x].special.value != "m"
    case Junk(_) => true
  }

  /** An expression that can never be worth m, mentioning constants only. */
  predicate MFree(t: Tree, e: Expr)
    decreases e
  {
    match e
    case Leaf(op) => MFreeOperand(t, op)
    case And(args) => forall i :: 0 <= i < |args| ==> MFree(t, args[i])
    case Or(args) => forall i :: 0 <= i < |args| ==> MFree(t, args[i])
    case Not(a) => MFree(t, a)
    case Equal(l, r) => true
    case Unequal(l, r) => true
  }

  predicate MFreeCond(t: Tree, c: Cond) {
    c.If? ==> MFree(t, c.expr)
  }

  /** MODULES depends on constants only, is no choice member, and is never m itself. */
  predicate ModulesOk(t: Tree)
    requires Sized(t)
  {
    t.modules.Some? ==>
      && t.modules.value < |t.syms|
      && var y := t.syms[t.modules.value];
      && y.choice.None? && y.typ != TristateType
      && (forall x <- OwnReads(y) :: x < |t.syms| && t.syms[x].special.Some?)
      && (forall i :: 0 <= i < |y.prompts| ==> MFreeCond(t, y.prompts[i]))
      && (forall i :: 0 <= i < |y.defaults| ==> MFree(t, y.defaults[i].value) && MFreeCond(t, y.defaults[i].cond))
      && (forall i :: 0 <= i < |y.ranges| ==> MFreeCond(t, y.ranges[i].cond))
      && MFree(t, y.revDep)
      && (forall s :: 0 <= s < |t.syms| && s != t.modules.value ==>
            Constant(t.syms[s]) || t.rank[t.modules.value] < t.rank[s])
  }

  /** Numbers and strings take operands as defaults; constants of tristate type hold tristates. */
  predicate TypesOk(t: Tree) {
    && (forall s, i :: 0 <= s < |t.syms| && 0 <= i < |t.syms[s].defaults| && !IsTri(t.syms[s].typ) ==>
          t.syms[s].defaults[i].value.Leaf?)
    && (forall s :: 0 <= s < |t.syms| && t.syms[s].special.Some? && IsTri(t.syms[s].typ) ==>
          Show(Read(t.syms[s].special.value)) == t.syms[s].special.value)
  }

  predicate WellFormed(t: Tree) {
    ChoicesOk(t) && Sized(t) && RanksOk(t) && ModulesOk(t) && TypesOk(t)
  }

  predicate Fits(t: Tree, u: Users) {
    && |u.vals| == |t.syms| && |u.selection| == |u.mode| == |t.choices|
    && (forall c :: 0 <= c < |t.choices| && u.selection[c].Some? ==> u.selection[c].value in t.choices[c].actual)
    && (forall s :: 0 <= s < |t.syms| && t.syms[s].typ == BoolType && u.vals[s].Some? ==> u.vals[s].value != "m")
  }

  // ---- Values ----

  function TriSyms(t: Tree): set<nat> {
    set s: nat | 0 <= s < |t.syms| && IsTri(t.syms[s].typ)
  }

  function ModulesOn(t: Tree, vals: map<nat, string>): bool {
    t.modules.Some? && ValueOf(vals, Symb(t.modules.value)) == "y"
  }

  function ScopeOf(t: Tree, vals: map<nat, string>): Scope {
    Scope(TriSyms(t), vals, ModulesOn(t, vals))
  }

  function PromptMax(sc: Scope, prompts: seq<Cond>): Tri {
    if prompts == [] then N else Max(EvalCond(sc, prompts[0]), PromptMax(sc, prompts[1..]))
  }

  function Sharpen(typ: Type, v: Tri): Tri {
    if v == M && typ != TristateType then Y else v
  }

  function ChoiceVis(t: Tree, sc: Scope, c: nat): Tri
    requires c < |t.choices|
  {
    Sharpen(t.choices[c].typ, PromptMax(sc, t.choices[c].prompts))
  }

  function SymVis(t: Tree, sc: Scope, s: nat): Tri
    requires s < |t.syms| && Placed(t, s)
  {
    var y := t.syms[s];
    var own := PromptMax(sc, y.prompts);
    Sharpen(y.typ, if y.choice.Some? then Min(own, ChoiceVis(t, sc, y.choice.value)) else own)
  }

  function ChoiceMode(t: Tree, u: Users, sc: Scope, c: nat): Tri
    requires c < |t.choices| == |u.mode|
  {
    var wanted := if u.mode[c].Some? then u.mode[c].value else if t.choices[c].optional then N else M;
    var mode := Min(Promote(sc.modules, wanted), ChoiceVis(t, sc, c));
    if mode == M && t.choices[c].typ == BoolType then Y else mode
  }

  function FirstActive(sc: Scope, ds: seq<ChoiceDefault>): Option<nat> {
    if ds == [] then None
    else if EvalCond(sc, ds[0].cond) != N then Some(ds[0].symbol)
    else FirstActive(sc, ds[1..])
  }

  function FirstVisible(t: Tree, sc: Scope, xs: seq<nat>): Option<nat>
    requires ChoicesOk(t) && forall i :: 0 <= i < |xs| ==> xs[i] < |t.syms|
  {
    if xs == [] then None
    else if SymVis(t, sc, xs[0]) != N then Some(xs[0])
    else FirstVisible(t, sc, xs[1..])
  }

  function DefaultSelection(t: Tree, sc: Scope, c: nat): Option<nat>
    requires ChoicesOk(t) && c < |t.choices|
  {
    var ch := t.choices[c];
    if ch.actual == [] then None
    else
      var active := FirstActive(sc, ch.defaults);
      var chosen := if active.Some? then active.value else ch.actual[0];
      if chosen < |t.syms| && SymVis(t, sc, chosen) != N then Some(chosen)
      else FirstVisible(t, sc, ch.actual)
  }

  function Selection(t: Tree, u: Users, sc: Scope, c: nat): Option<nat>
    requires ChoicesOk(t) && Fits(t, u) && c < |t.choices|
  {
    if ChoiceMode(t, u, sc, c) != Y then None
    else if u.selection[c].Some? && SymVis(t, sc, u.selection[c].value) == Y then u.selection[c]
    else if t.choices[c].optional then None
    else DefaultSelection(t, sc, c)
  }

  function FirstDefault(sc: Scope, ds: seq<Default>): Option<Default> {
    if ds == [] then None
    else if EvalCond(sc, ds[0].cond) != N then Some(ds[0])
    else FirstDefault(sc, ds[1..])
  }

  function FirstRange(sc: Scope, rs: seq<Range>): Option<Range> {
    if rs == [] then None
    else if EvalCond(sc, rs[0].cond) != N then Some(rs[0])
    else FirstRange(sc, rs[1..])
  }

  /** A value and whether the symbol gets a line in the .config file. */
  datatype Out = Out(val: string, write: bool)

  function ChoiceMemberOut(t: Tree, u: Users, sc: Scope, s: nat): Out
    requires ChoicesOk(t) && Fits(t, u) && s < |t.syms| && t.syms[s].choice.Some?
  {
    assert Placed(t, s);
    var c := t.syms[s].choice.value;
    var mode := ChoiceMode(t, u, sc, c);
    if SymVis(t, sc, s) == N then Out("n", false)
    else
      var v := match mode
        case Y => if Selection(t, u, sc, c) == Some(s) then Y else N
        case M => if u.vals[s] == Some("m") || u.vals[s] == Some("y") then M else N
        case N => N;
      Out(Show(if t.syms[s].typ == BoolType && v == M then Y else v), mode != N)
  }

  /** What the user or the defaults make of a bool or tristate, before selects. */
  function TriOwn(t: Tree, u: Users, sc: Scope, s: nat): Tri
    requires ChoicesOk(t) && Fits(t, u) && s < |t.syms|
  {
    var vis := SymVis(t, sc, s);
    var dflt := FirstDefault(sc, t.syms[s].defaults);
    if vis != N && u.vals[s].Some? then Min(Promote(sc.modules, Read(u.vals[s].value)), vis)
    else if dflt.Some? then Min(EvalCond(sc, If(dflt.value.value)), EvalCond(sc, dflt.value.cond))
    else N
  }

  function TriOut(t: Tree, u: Users, sc: Scope, s: nat): Out
    requires ChoicesOk(t) && Fits(t, u) && s < |t.syms|
  {
    var y := t.syms[s];
    var selected := EvalCond(sc, If(y.revDep));
    var v := Max(TriOwn(t, u, sc, s), selected);
    Out(Show(if y.typ == BoolType && v == M then Y else v),
        SymVis(t, sc, s) != N || FirstDefault(sc, y.defaults).Some? || selected != N)
  }

  function Base(typ: Type): nat {
    if typ == HexType then 16 else 10
  }

  function NumberOr0(t: Tree, v: string, base: nat): int {
    if t.num.isNum(v, base) then t.num.toInt(v, base) else 0
  }

  function NumOut(t: Tree, u: Users, sc: Scope, s: nat): Out
    requires ChoicesOk(t) && Fits(t, u) && s < |t.syms|
  {
    var y := t.syms[s];
    var base := Base(y.typ);
    var vis := SymVis(t, sc, s);
    var range := FirstRange(sc, y.ranges);
    var low := if range.Some? then NumberOr0(t, ValueOf(sc.vals, range.value.low), base) else 0;
    var high := if range.Some? then NumberOr0(t, ValueOf(sc.vals, range.value.high), base) else 0;
    var dflt := FirstDefault(sc, y.defaults);
    if vis != N && u.vals[s].Some? && t.num.isNum(u.vals[s].value, base)
       && (range.Some? ==> low <= t.num.toInt(u.vals[s].value, base) <= high) then
      Out(u.vals[s].value, true)
    else if dflt.Some? then
      Out(Clamp(t, DefaultText(sc, dflt.value), base, range.Some?, low, high), true)
    else
      Out(if range.Some? && low > 0 then t.num.render(low, base) else "", vis != N)
  }

  function DefaultText(sc: Scope, d: Default): string {
    if d.value.Leaf? then ValueOf(sc.vals, d.value.op) else ""
  }

  function Clamp(t: Tree, v: string, base: nat, ranged: bool, low: int, high: int): string {
    if !t.num.isNum(v, base) || !ranged then v
    else if t.num.toInt(v, base) < low then t.num.render(low, base)
    else if t.num.toInt(v, base) > high then t.num.render(high, base)
    else v
  }

  function StringOut(t: Tree, u: Users, sc: Scope, s: nat): Out
    requires ChoicesOk(t) && Fits(t, u) && s < |t.syms|
  {
    var y := t.syms[s];
    var vis := SymVis(t, sc, s);
    var dflt := FirstDefault(sc, y.defaults);
    if vis != N && u.vals[s].Some? then Out(u.vals[s].value, true)
    else if dflt.Some? then Out(DefaultText(sc, dflt.value), true)
    else Out("", vis != N)
  }

  function SymbolOut(t: Tree, u: Users, sc: Scope, s: nat): Out
    requires ChoicesOk(t) && Fits(t, u) && s < |t.syms|
  {
    var y := t.syms[s];
    if y.special.Some? then Out(y.special.value, false)
    else match y.typ
      case UnknownType => Out(y.name, false)
      case BoolType => if y.choice.Some? then ChoiceMemberOut(t, u, sc, s) else TriOut(t, u, sc, s)
      case TristateType => if y.choice.Some? then ChoiceMemberOut(t, u, sc, s) else TriOut(t, u, sc, s)
      case StringType => StringOut(t, u, sc, s)
      case HexType => NumOut(t, u, sc, s)
      case IntType => NumOut(t, u, sc, s)
  }

  /** vals is what cache-free evaluation yields: every symbol is worth what the
      rules make of the other symbols' worths. */
  ghost predicate Solution(t: Tree, u: Users, vals: map<nat, string>)
    requires WellFormed(t) && Fits(t, u)
  {
    && (forall s: nat :: s in vals <==> s < |t.syms|)
    && (forall s: nat :: s < |t.syms| ==> vals[s] == SymbolOut(t, u, ScopeOf(t, vals), s).val)
  }
}
