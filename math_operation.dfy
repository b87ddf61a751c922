/**
 * The behavioural classifier of the 1.16.1 adapter's `getMathOperation`: a host operator
 * exposes only `apply(left, right)`, which rewrites two score cells, and is identified by
 * what it does to cells seeded with known values.
 */
module NmsMathOperation {
  import opened Wrappers

  /** The operations of `/scoreboard players operation`, as returned to plugin authors. */
  datatype MathOperation = Add | Subtract | Multiply | Divide | Mod | Assign | Min | Max | Swap

  /** An operator's effect: the new (left, right) scores computed from the old ones. */
  type Effect = (int, int) -> (int, int)

  /** A host `ScoreboardScore`: a mutable integer cell. */
  class Score {
    var score: int

    /** A fresh score starts at 0. */
    constructor ()
      ensures score == 0
    {
      score := 0;
    }

    method SetScore(value: int)
      modifies this
      ensures score == value
    {
      score := value;
    }

    function GetScore(): int
      reads this
    {
      score
    }
  }

  /**
   * The host operator object: its `apply` rewrites the two cells it is handed, as `effect` says.
   * `calls` counts the calls to `apply`.
   */
  class Operator {
    const effect: Effect
    ghost var calls: nat

    constructor (effect: Effect)
      ensures this.effect == effect && calls == 0
    {
      this.effect := effect;
      calls := 0;
    }

    method Apply(left: Score, right: Score)
      requires left != right
      modifies this, left, right
      ensures (left.score, right.score) == effect(old(left.score), old(right.score))
      ensures calls == old(calls) + 1
    {
      var after := effect(left.score, right.score);
      left.score, right.score := after.0, after.1;
      calls := calls + 1;
    }
  }

  /**
   * The decision table of the classifier, read as a function of the operator's effect:
   * probe (6, 2) and decode the left cell; on 2, a right cell of 6 means a swap, and
   * otherwise a second probe (2, 6) tells min (left stays 2) from assign.
   */
  function Classify(effect: Effect): (r: Option<MathOperation>)
    ensures r.None? <==> effect(6, 2).0 !in {0, 2, 3, 4, 6, 8, 12}
  {
    var first := effect(6, 2);
    match first.0
    case 8 => Some(Add)
    case 4 => Some(Subtract)
    case 12 => Some(Multiply)
    case 3 => Some(Divide)
    case 0 => Some(Mod)
    case 6 => Some(Max)
    case 2 =>
      if first.1 == 6 then Some(Swap)
      else if effect(2, 6).0 == 2 then Some(Min)
      else Some(Assign)
    case _ => None
  }

  /** Whether the classifier needs its second probe: the first left outcome is 2 and nothing was swapped. */
  predicate NeedsSecondProbe(effect: Effect) {
    effect(6, 2).0 == 2 && effect(6, 2).1 != 6
  }

  /**
   * `getMathOperation`: seeds two fresh cells, applies the operator once or twice and decodes
   * the left cell. `None` stands for the `null` the adapter returns on an unknown outcome.
   */
  method GetMathOperation(op: Operator) returns (result: Option<MathOperation>)
    modifies op
    ensures result == Classify(op.effect)
    ensures op.calls == old(op.calls) + if NeedsSecondProbe(op.effect) then 2 else 1
  {
    var left := new Score();
    var right := new Score();
    left.SetScore(6);
    right.SetScore(2);
    op.Apply(left, right);
    match left.GetScore()
    case 8 => result := Some(Add);
    case 4 => result := Some(Subtract);
    case 12 => result := Some(Multiply);
    case 3 => result := Some(Divide);
    case 0 => result := Some(Mod);
    case 6 => result := Some(Max);
    case 2 =>
      if right.GetScore() == 6 {
        result := Some(Swap);
      } else {
        left.SetScore(2);
        right.SetScore(6);
        op.Apply(left, right);
        if left.GetScore() == 2 {
          result := Some(Min);
        } else {
          result := Some(Assign);
        }
      }
    case _ => result := None;
  }

  /** Floor division, as the host's `/=` computes it for a non-zero divisor. */
  function FloorDiv(l: int, r: int): int
    requires r != 0
  {
    if r > 0 then l / r else (-l) / (-r)
  }

  /** Floor modulus, as the host's `%=` computes it for a non-zero divisor. */
  function FloorMod(l: int, r: int): int
    requires r != 0
  {
    l - r * FloorDiv(l, r)
  }

  /**
   * The true effect of each operation on (left, right). Division and modulus by zero are
   * errors in the host; here they leave the cells unchanged.
   */
  function Semantics(op: MathOperation): Effect {
    match op
    case Add => (l, r) => (l + r, r)
    case Subtract => (l, r) => (l - r, r)
    case Multiply => (l, r) => (l * r, r)
    case Divide => (l, r) => if r == 0 then (l, r) else (FloorDiv(l, r), r)
    case Mod => (l, r) => if r == 0 then (l, r) else (FloorMod(l, r), r)
    case Assign => (l, r) => (r, r)
    case Min => (l, r) => (if l <= r then l else r, r)
    case Max => (l, r) => (if l >= r then l else r, r)
    case Swap => (l, r) => (r, l)
  }

  /** Correctness: an operator behaving as one of the nine operations is classified as exactly that one. */
  lemma ClassifyCorrect(op: MathOperation)
    ensures Classify(Semantics(op)) == Some(op)
  {
    match op
    case Add =>
    case Subtract =>
    case Multiply =>
    case Divide => assert FloorDiv(6, 2) == 3;
    case Mod => assert FloorMod(6, 2) == 0;
    case Assign =>
    case Min =>
    case Max =>
    case Swap =>
  }

  /** Of the nine operations, exactly min and assign make the classifier apply the operator twice. */
  lemma ProbeCountOfOperations(op: MathOperation)
    ensures NeedsSecondProbe(Semantics(op)) <==> op == Min || op == Assign
  {
    match op
    case Divide => assert FloorDiv(6, 2) == 3;
    case Mod => assert FloorMod(6, 2) == 0;
    case _ =>
  }

  /** The classification is a function of the probes alone: operators that agree on them agree. */
  lemma ClassifyDependsOnlyOnProbes(e1: Effect, e2: Effect)
    requires e1(6, 2) == e2(6, 2)
    requires e1(2, 6).0 == e2(2, 6).0
    ensures Classify(e1) == Classify(e2)
  {
  }

  /**
   * Soundness: whatever operation is reported agrees with the operator on the first probe's
   * left cell, and the operator is indistinguishable from it on every probe the classifier ran,
   * except that assign is reported for any second-probe outcome other than min's.
   */
  lemma ClassifySound(effect: Effect, op: MathOperation)
    requires Classify(effect) == Some(op)
    ensures effect(6, 2).0 == Semantics(op)(6, 2).0
    ensures op == Swap ==> effect(6, 2) == Semantics(Swap)(6, 2)
    ensures op == Min ==> effect(2, 6).0 == Semantics(Min)(2, 6).0
    ensures op == Assign ==> effect(2, 6).0 != Semantics(Min)(2, 6).0
  {
    match op
    case Divide => assert FloorDiv(6, 2) == 3;
    case Mod => assert FloorMod(6, 2) == 0;
    case _ =>
  }
}
