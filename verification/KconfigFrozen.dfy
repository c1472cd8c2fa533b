/** The two kinds of visibility that no assignment drops from the caches, and when that is harmless
    (docs/bk7258/kconfiglib.py). */
module KconfigFrozen {
  import opened Options
  import opened Tristate
  import opened KconfigExpr
  import opened KconfigModel
  import opened KconfigTheory
  import opened KconfigOrder
  import opened KconfigProgram

  const NoFrost := Frost(map[], map[])

  /** Programs on a fresh configuration that keep every other cached entry right. */
  predicate Fine(t: Tree, ops: seq<Op>)
    requires WellFormed(t)
  {
    OpsOk(t, ops) && OpsSafe(t, Unset(t), ops)
  }

  lemma FinePrefix(t: Tree, ops: seq<Op>, n: nat)
    requires WellFormed(t) && Fine(t, ops) && n <= |ops|
    ensures Fine(t, ops[..n])
  {
    SafePrefix(t, Unset(t), ops, n);
    hide WellFormed, OpsSafe;
  }

  function After(t: Tree, ops: seq<Op>): (u: Users)
    requires WellFormed(t) && Fine(t, ops)
    ensures Fits(t, u)
  {
    UsersAfter(t, Unset(t), ops)
  }

  function FrostThen(t: Tree, ops: seq<Op>): Frost
    requires WellFormed(t) && Fine(t, ops)
  {
    FrostAfter(t, Unset(t), NoFrost, ops)
  }

  // ---- Reads of a frozen visibility ----

  predicate Exempt(t: Tree, read: Op) {
    match read
    case VisibilityOp(s) => s < |t.syms| && t.syms[s].special.Some?
    case ChoiceVisibilityOp(c) => c < |t.choices| && t.choices[c].actual == []
    case _ => false
  }

  function FreshVis(t: Tree, u: Users, read: Op): Tri
    requires WellFormed(t) && Fits(t, u) && Exempt(t, read)
  {
    if read.VisibilityOp? then SymVis(t, MeaningOf(t, u), read.s) else ChoiceVis(t, MeaningOf(t, u), read.c)
  }

  function FrozenVis(f: Frost, read: Op): Option<Tri> {
    match read
    case VisibilityOp(s) => if s in f.syms then Some(f.syms[s]) else None
    case ChoiceVisibilityOp(c) => if c in f.choices then Some(f.choices[c]) else None
    case _ => None
  }

  lemma ExemptResponse(t: Tree, u: Users, f: Frost, read: Op)
    requires WellFormed(t) && Fits(t, u) && Exempt(t, read)
    ensures Reply(t, u, read) == VisibilityIs(FreshVis(t, u, read))
    ensures Respond(t, u, f, read) ==
      VisibilityIs(if FrozenVis(f, read).Some? then FrozenVis(f, read).value else FreshVis(t, u, read))
    ensures FrozenVis(Refrost(t, u, f, read), read) ==
      Some(if FrozenVis(f, read).Some? then FrozenVis(f, read).value else FreshVis(t, u, read))
  {
    hide WellFormed, Fits, Solve, SymVis, ChoiceVis;
  }

  /** Once frozen, a visibility stays; it can only have been what it was at some moment. */
  lemma FreezesOnce(t: Tree, u: Users, f: Frost, op: Op, read: Op)
    requires WellFormed(t) && Fits(t, u) && OpOk(t, op) && Exempt(t, read)
    ensures FrozenVis(f, read).Some? ==> FrozenVis(Refrost(t, u, f, op), read) == FrozenVis(f, read)
    ensures FrozenVis(f, read).None? && FrozenVis(Refrost(t, u, f, op), read).Some? ==>
      FrozenVis(Refrost(t, u, f, op), read).value == FreshVis(t, u, read)
  {
    hide WellFormed, Fits, Solve, SymVis, ChoiceVis;
  }

  function VisAfter(t: Tree, ops: seq<Op>, read: Op): Tri
    requires WellFormed(t) && Fine(t, ops) && Exempt(t, read)
  {
    FreshVis(t, After(t, ops), read)
  }

  /** The visibility is the same whatever is assigned. */
  ghost predicate Steady(t: Tree, read: Op)
    requires WellFormed(t) && Exempt(t, read)
  {
    forall ops :: Fine(t, ops) ==> VisAfter(t, ops, read) == VisAfter(t, [], read)
  }

  /** No program ever reads it wrong. */
  ghost predicate NeverStale(t: Tree, read: Op)
    requires WellFormed(t) && Exempt(t, read)
  {
    forall ops, i :: Fine(t, ops) && 0 <= i < |ops| && ops[i] == read ==>
      Answers(t, Unset(t), NoFrost, ops)[i] == Replies(t, Unset(t), ops)[i]
  }

  lemma {:induction false} AnswerAt(t: Tree, ops: seq<Op>, i: nat)
    requires WellFormed(t) && Fine(t, ops) && i < |ops|
    ensures Fine(t, ops[..i])
    ensures Answers(t, Unset(t), NoFrost, ops)[i] ==
      Respond(t, After(t, ops[..i]), FrostThen(t, ops[..i]), ops[i])
    ensures Replies(t, Unset(t), ops)[i] == Reply(t, After(t, ops[..i]), ops[i])
    decreases |ops|
  {
    hide WellFormed, Respond, Reply, OpsSafe, FrostAfter, UsersAfter, Next;
    FinePrefix(t, ops, i);
    var front := ops[..|ops| - 1];
    if i < |front| {
      FinePrefix(t, ops, |front|);
      AnswerAt(t, front, i);
      assert front[..i] == ops[..i];
    } else {
      assert front == ops[..i];
    }
  }

  lemma OneMore(t: Tree, ops: seq<Op>)
    requires WellFormed(t) && Fine(t, ops) && ops != []
    ensures var front, op := ops[..|ops| - 1], ops[|ops| - 1];
      && Fine(t, front) && OpOk(t, op) && OpSafe(t, After(t, front), op)
      && After(t, ops) == Next(t, After(t, front), op)
      && FrostThen(t, ops) == Refrost(t, After(t, front), FrostThen(t, front), op)
  {
    FinePrefix(t, ops, |ops| - 1);
    hide WellFormed, Refrost, Next, OpsSafe;
  }

  lemma FineMore(t: Tree, ops: seq<Op>, op: Op)
    requires WellFormed(t) && Fine(t, ops) && OpOk(t, op) && OpSafe(t, After(t, ops), op)
    ensures Fine(t, ops + [op]) && After(t, ops + [op]) == Next(t, After(t, ops), op)
  {
    assert (ops + [op])[..|ops|] == ops;
    hide WellFormed, OpSafe, Next;
  }

  lemma FineNothing(t: Tree)
    requires WellFormed(t)
    ensures Fine(t, [])
  {
  }

  /** Under steadiness, what is frozen is what it always is. */
  predicate FrozenRight(t: Tree, ops: seq<Op>, read: Op)
    requires WellFormed(t) && Fine(t, ops) && Fine(t, []) && Exempt(t, read)
  {
    var v := FrozenVis(FrostThen(t, ops), read);
    v.Some? ==> v.value == VisAfter(t, [], read)
  }

  lemma {:induction false} FrozenIsSteady(t: Tree, ops: seq<Op>, read: Op)
    requires WellFormed(t) && Fine(t, ops) && Fine(t, []) && Exempt(t, read) && Steady(t, read)
    ensures FrozenRight(t, ops, read)
    decreases |ops|
  {
    hide WellFormed, Fine, Exempt, VisAfter, Steady;
    if ops != [] {
      hide FrostThen, FrozenRight;
      OneMore(t, ops);
      FrozenIsSteady(t, ops[..|ops| - 1], read);
      FrozenStaysRight(t, ops, read);
    }
  }

  lemma FrozenStaysRight(t: Tree, ops: seq<Op>, read: Op)
    requires WellFormed(t) && Fine(t, ops) && Fine(t, []) && Exempt(t, read) && Steady(t, read)
    requires ops != [] && Fine(t, ops[..|ops| - 1]) && FrozenRight(t, ops[..|ops| - 1], read)
    ensures FrozenRight(t, ops, read)
  {
    hide WellFormed, Fine, After, FrostThen, Refrost, FreshVis, FrozenVis, Exempt, OpOk, Next;
    var front := ops[..|ops| - 1];
    OneMore(t, ops);
    FreezesOnce(t, After(t, front), FrostThen(t, front), ops[|front|], read);
    assert VisAfter(t, front, read) == VisAfter(t, [], read);
  }

  lemma SteadyReadsRight(t: Tree, ops: seq<Op>, i: nat, read: Op)
    requires WellFormed(t) && Exempt(t, read) && Steady(t, read)
    requires Fine(t, ops) && i < |ops| && ops[i] == read
    ensures Answers(t, Unset(t), NoFrost, ops)[i] == Replies(t, Unset(t), ops)[i]
  {
    FineNothing(t);
    hide WellFormed, OpsSafe, After, FrostThen, FreshVis, Respond, Reply, FrozenVis, Answers, Replies;
    hide Exempt, OpOk;
    AnswerAt(t, ops, i);
    FrozenIsSteady(t, ops[..i], read);
    ExemptResponse(t, After(t, ops[..i]), FrostThen(t, ops[..i]), read);
    assert VisAfter(t, ops[..i], read) == VisAfter(t, [], read);
  }

  lemma SteadyNeverStale(t: Tree, read: Op)
    requires WellFormed(t) && Exempt(t, read) && Steady(t, read)
    ensures NeverStale(t, read)
  {
    forall ops, i | Fine(t, ops) && 0 <= i < |ops| && ops[i] == read
      ensures Answers(t, Unset(t), NoFrost, ops)[i] == Replies(t, Unset(t), ops)[i]
    {
      SteadyReadsRight(t, ops, i, read);
      hide WellFormed, Answers, Replies, OpsSafe;
    }
  }

  /** Reading first changes no assignment. */
  lemma {:induction false} ReadFirst(t: Tree, ops: seq<Op>, read: Op)
    requires WellFormed(t) && Fine(t, ops) && Exempt(t, read)
    ensures Fine(t, [read] + ops) && After(t, [read] + ops) == After(t, ops)
    decreases |ops|
  {
    if ops == [] {
      hide WellFormed, Fine, After, Assign, Unassign, AssignAll, UnassignUpTo, ModulesOn, Solve;
      FineNothing(t);
      FineMore(t, [], read);
      assert [read] + ops == [] + [read];
    } else {
      hide WellFormed, Fine, After, Next, OpSafe, OpOk;
      var front, op := ops[..|ops| - 1], ops[|ops| - 1];
      OneMore(t, ops);
      ReadFirst(t, front, read);
      FineMore(t, [read] + front, op);
      assert [read] + ops == [read] + front + [op];
    }
  }

  /** But it freezes what is read. */
  lemma {:induction false} ReadFreezes(t: Tree, ops: seq<Op>, read: Op)
    requires WellFormed(t) && Fine(t, ops) && Exempt(t, read) && Fine(t, [read] + ops)
    ensures FrozenVis(FrostThen(t, [read] + ops), read) == Some(VisAfter(t, [], read))
    decreases |ops|
  {
    var all := [read] + ops;
    OneMore(t, all);
    if ops == [] {
      assert all == [read] && all[..0] == [];
      ExemptResponse(t, Unset(t), NoFrost, read);
    } else {
      var front := ops[..|ops| - 1];
      OneMore(t, ops);
      assert all[..|all| - 1] == [read] + front && all[|all| - 1] == ops[|front|];
      ReadFreezes(t, front, read);
      FreezesOnce(t, After(t, [read] + front), FrostThen(t, [read] + front), ops[|front|], read);
      hide WellFormed, Fine, After, FrostThen, Refrost, FreshVis, FrozenVis;
    }
  }

  lemma NeverStaleSteady(t: Tree, read: Op)
    requires WellFormed(t) && Exempt(t, read) && NeverStale(t, read)
    ensures Steady(t, read)
  {
    FineNothing(t);
    hide WellFormed, Fine, VisAfter, NeverStale, Exempt;
    forall ops | Fine(t, ops) ensures VisAfter(t, ops, read) == VisAfter(t, [], read) {
      ReadTwice(t, ops, read);
    }
  }

  lemma ReadTwice(t: Tree, ops: seq<Op>, read: Op)
    requires WellFormed(t) && Exempt(t, read) && NeverStale(t, read) && Fine(t, ops) && Fine(t, [])
    ensures VisAfter(t, ops, read) == VisAfter(t, [], read)
  {
    hide WellFormed, OpsSafe, VisAfter, Answers, Replies, Exempt, OpOk;
    ReadAround(t, ops, read);
    var all := [read] + ops + [read];
    assert all[|ops| + 1] == read;
    assert Answers(t, Unset(t), NoFrost, all)[|ops| + 1] == Replies(t, Unset(t), all)[|ops| + 1];
  }

  /** Reading before and after a program answers twice what was there before it. */
  lemma ReadAround(t: Tree, ops: seq<Op>, read: Op)
    requires WellFormed(t) && Fine(t, ops) && Fine(t, []) && Exempt(t, read)
    ensures var all := [read] + ops + [read];
      && Fine(t, all)
      && Answers(t, Unset(t), NoFrost, all)[|ops| + 1] == VisibilityIs(VisAfter(t, [], read))
      && Replies(t, Unset(t), all)[|ops| + 1] == VisibilityIs(VisAfter(t, ops, read))
  {
    hide WellFormed, OpsSafe, After, FrostThen, FreshVis, Respond, Reply, FrozenVis, Answers, Replies;
    hide Exempt, OpOk;
    ReadFirst(t, ops, read);
    ReadFreezes(t, ops, read);
    var before := [read] + ops;
    var all := before + [read];
    assert all[..|before|] == before && all[|before|] == read;
    ReadLast(t, before, read);
    AnswerAt(t, all, |before|);
    ExemptResponse(t, After(t, before), FrostThen(t, before), read);
  }

  lemma ReadLast(t: Tree, ops: seq<Op>, read: Op)
    requires WellFormed(t) && Fine(t, ops) && Exempt(t, read)
    ensures Fine(t, ops + [read])
  {
    assert (ops + [read])[..|ops|] == ops;
    hide WellFormed;
  }

  /** A visibility that is never dropped is never read wrong exactly when it is the same whatever
      is assigned. */
  lemma FrozenIsHarmlessExactly(t: Tree, read: Op)
    requires WellFormed(t) && Exempt(t, read)
    ensures Steady(t, read) <==> NeverStale(t, read)
  {
    if Steady(t, read) {
      SteadyNeverStale(t, read);
    }
    if NeverStale(t, read) {
      NeverStaleSteady(t, read);
    }
    hide Steady, NeverStale;
  }

  // ---- Prompts that mention constants only ----

  /** The prompts name only constants, and cannot be worth m where modules can change. */
  predicate ConstantPrompts(t: Tree, prompts: seq<Cond>) {
    && (forall x <- CondsSyms(prompts) :: x < |t.syms| && t.syms[x].special.Some?)
    && (t.modules.Some? ==> forall i :: 0 <= i < |prompts| ==> MFreeCond(t, prompts[i]))
  }

  lemma ConstantPromptsAgree(t: Tree, u1: Users, u2: Users, prompts: seq<Cond>)
    requires WellFormed(t) && Fits(t, u1) && Fits(t, u2) && ConstantPrompts(t, prompts)
    ensures PromptMax(MeaningOf(t, u1), prompts) == PromptMax(MeaningOf(t, u2), prompts)
  {
    SolveIsSolution(t, u1);
    SolveIsSolution(t, u2);
    var sc1, sc2 := MeaningOf(t, u1), MeaningOf(t, u2);
    forall x | x in CondsSyms(prompts)
      ensures ValueOf(sc1.vals, Symb(x)) == ValueOf(sc2.vals, Symb(x)) == t.syms[x].special.value
    {
      SpecialOut(t, u1, sc1, x);
      SpecialOut(t, u2, sc2, x);
    }
    hide RanksOk, TypesOk, ModulesOk, Solve, SymbolOut, MFreeCond;
    if t.modules.Some? {
      PromptMaxStable(t, sc1, sc2.modules, prompts);
      PromptMaxAgrees(sc1.(modules := sc2.modules), sc2, prompts);
    } else {
      PromptMaxAgrees(sc1, sc2, prompts);
    }
  }

  function PromptsOf(t: Tree, read: Op): seq<Cond>
    requires Exempt(t, read)
  {
    if read.VisibilityOp? then t.syms[read.s].prompts else t.choices[read.c].prompts
  }

  lemma ConstantPromptsSteady(t: Tree, read: Op)
    requires WellFormed(t) && Exempt(t, read) && ConstantPrompts(t, PromptsOf(t, read))
    ensures Steady(t, read) && NeverStale(t, read)
  {
    forall ops | Fine(t, ops) ensures VisAfter(t, ops, read) == VisAfter(t, [], read) {
      ConstantPromptsAgree(t, After(t, ops), After(t, []), PromptsOf(t, read));
      hide RanksOk, TypesOk, ModulesOk, Solve, PromptMax, Fine, After, ConstantPrompts;
    }
    hide WellFormed, VisAfter, Fine;
    SteadyNeverStale(t, read);
  }

  // ---- Whole programs ----

  /** Nothing that is never dropped can change. */
  ghost predicate AllSteady(t: Tree)
    requires WellFormed(t)
  {
    forall read :: Exempt(t, read) ==> Steady(t, read)
  }

  /** A program answers as if everything were evaluated afresh, when nothing frozen can change. */
  lemma AnswersAreFresh(t: Tree, ops: seq<Op>)
    requires WellFormed(t) && Fine(t, ops) && AllSteady(t)
    ensures Answers(t, Unset(t), NoFrost, ops) == Replies(t, Unset(t), ops)
  {
    forall i | 0 <= i < |ops|
      ensures Answers(t, Unset(t), NoFrost, ops)[i] == Replies(t, Unset(t), ops)[i]
    {
      AnswerAt(t, ops, i);
      ResponseIsFresh(t, ops[..i], ops[i]);
      hide WellFormed, Fine, After, FrostThen, Respond, Reply, Answers, Replies;
    }
  }

  lemma ResponseIsFresh(t: Tree, before: seq<Op>, op: Op)
    requires WellFormed(t) && Fine(t, before) && AllSteady(t) && OpOk(t, op)
    ensures Respond(t, After(t, before), FrostThen(t, before), op) == Reply(t, After(t, before), op)
  {
    var u, f := After(t, before), FrostThen(t, before);
    match op
    case VisibilityOp(s) =>
      if Exempt(t, op) {
        ShownIsFresh(t, before, op);
      }
    case ModeOp(c) =>
      if t.choices[c].actual == [] {
        ShownIsFresh(t, before, ChoiceVisibilityOp(c));
      }
      PromptMaxPromoted(MeaningOf(t, u), t.choices[c].prompts);
    case ChoiceVisibilityOp(c) =>
      if Exempt(t, op) {
        ShownIsFresh(t, before, op);
      }
    case _ =>
    hide WellFormed, Solve, Fine, After, FrostThen, SymVis;
  }

  lemma ShownIsFresh(t: Tree, before: seq<Op>, read: Op)
    requires WellFormed(t) && Fine(t, before) && AllSteady(t) && Exempt(t, read)
    ensures FrozenVis(FrostThen(t, before), read).Some? ==>
      FrozenVis(FrostThen(t, before), read).value == FreshVis(t, After(t, before), read)
  {
    FineNothing(t);
    FrozenIsSteady(t, before, read);
    assert VisAfter(t, before, read) == VisAfter(t, [], read);
    hide WellFormed, Fine, After, FrostThen, FreshVis, FrozenVis;
  }

  /** In particular on any configuration whose constants have prompts on constants only, if any,
      and whose choices have choice symbols. */
  lemma OrdinaryConfigurations(t: Tree, ops: seq<Op>)
    requires WellFormed(t) && Fine(t, ops)
    requires forall s :: 0 <= s < |t.syms| && t.syms[s].special.Some? ==> ConstantPrompts(t, t.syms[s].prompts)
    requires forall c :: 0 <= c < |t.choices| ==> t.choices[c].actual != []
    ensures Answers(t, Unset(t), NoFrost, ops) == Replies(t, Unset(t), ops)
  {
    forall read | Exempt(t, read) ensures Steady(t, read) {
      ConstantPromptsSteady(t, read);
    }
    hide WellFormed, Fine, Steady, ConstantPrompts;
    AnswersAreFresh(t, ops);
  }
}
