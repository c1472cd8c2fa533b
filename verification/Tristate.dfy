/** Kconfig's three-valued logic: n < m < y. */
module Tristate {
  datatype Tri = N | M | Y

  function Rank(t: Tri): nat {
    match t case N => 0 case M => 1 case Y => 2
  }

  predicate Less(a: Tri, b: Tri) {
    Rank(a) < Rank(b)
  }

  function Min(a: Tri, b: Tri): Tri {
    if Less(a, b) then a else b
  }

  function Max(a: Tri, b: Tri): Tri {
    if Less(b, a) then a else b
  }

  /** The tristate reading of a symbol value: anything but "y" and "m" counts as n. */
  function Read(s: string): Tri {
    if s == "y" then Y else if s == "m" then M else N
  }

  function Show(t: Tri): string {
    match t case N => "n" case M => "m" case Y => "y"
  }

  /** "m" means "y" in a configuration that runs without modules. */
  function Promote(modules: bool, t: Tri): Tri {
    if t == M && !modules then Y else t
  }

  /** A value rendered and read back is itself; the engine stores tristates as strings. */
  lemma ReadShow(t: Tri)
    ensures Read(Show(t)) == t
  {
    match t
    case N => assert "n" != "y" && "n" != "m";
    case M => assert "m"[0] != "y"[0];
    case Y =>
  }

  /** Promotion is monotone, so it commutes with minimum and maximum. */
  lemma PromoteMinMax(modules: bool, a: Tri, b: Tri)
    ensures Promote(modules, Min(a, b)) == Min(Promote(modules, a), Promote(modules, b))
    ensures Promote(modules, Max(a, b)) == Max(Promote(modules, a), Promote(modules, b))
  {
    assert Less(a, b) || Less(b, a) || a == b;
  }
}
