/** The stage pipeline shared by both pipe builders: a list of stages
    `(original, current) -> next`, folded left to right from the base value,
    each stage receiving the same unchanged base value and the running result.

    A stage may fail in the original (it throws, for instance when it reads a
    field that was never set); a stage is therefore a partial function here,
    and `Runs` states that every stage's precondition holds along the fold.

    The original invokes each stage as `stage.call(this, [source, current])`,
    which passes ONE array argument: at run time a stage would receive the
    array as `original` and `undefined` as `current`. The stage type
    `(original, current) => T` and the sample stages show that two arguments
    were intended; this model passes the two arguments. */
module Stages {

  /** Every stage's precondition holds when it is reached by the fold started
      at `current`. */
  ghost predicate Runs<T>(stages: seq<(T, T) --> T>, original: T, current: T)
    decreases |stages|
  {
    stages == [] ||
    (stages[0].requires(original, current) && Runs(stages[1..], original, stages[0](original, current)))
  }

  /** The `reduce` over the stage list: the first stage first, each receiving
      `original` and the previous result. */
  function Fold<T>(stages: seq<(T, T) --> T>, original: T, current: T): T
    requires Runs(stages, original, current)
    decreases |stages|
  {
    if stages == [] then current else Fold(stages[1..], original, stages[0](original, current))
  }

  /** Reference definition of the fold: `accs` lists the intermediate results,
      acc_0 first, with acc_(i+1) == stages[i](original, acc_i). */
  ghost predicate IsTrace<T>(stages: seq<(T, T) --> T>, original: T, accs: seq<T>)
  {
    |accs| == |stages| + 1 &&
    forall i :: 0 <= i < |stages| ==>
      stages[i].requires(original, accs[i]) && accs[i + 1] == stages[i](original, accs[i])
  }

  /** Any trace decides the fold: the stages all run and the fold ends at the
      trace's last value. */
  lemma {:induction false} TraceDeterminesFold<T>(stages: seq<(T, T) --> T>, original: T, accs: seq<T>)
    requires IsTrace(stages, original, accs)
    ensures Runs(stages, original, accs[0])
    ensures Fold(stages, original, accs[0]) == accs[|stages|]
    decreases |stages|
  {
    if stages != [] {
      assert IsTrace(stages[1..], original, accs[1..]) by {
        forall i | 0 <= i < |stages| - 1
          ensures stages[1..][i].requires(original, accs[1..][i])
          ensures accs[1..][i + 1] == stages[1..][i](original, accs[1..][i])
        {
          assert stages[1..][i] == stages[i + 1];
        }
      }
      TraceDeterminesFold(stages[1..], original, accs[1..]);
    }
  }

  /** Conversely every fold that runs has a trace: the sequence of its
      intermediate results. */
  ghost function TraceOf<T>(stages: seq<(T, T) --> T>, original: T, current: T): (accs: seq<T>)
    requires Runs(stages, original, current)
    ensures IsTrace(stages, original, accs)
    ensures accs[0] == current && accs[|stages|] == Fold(stages, original, current)
    decreases |stages|
  {
    if stages == [] then [current]
    else
      var next := stages[0](original, current);
      var rest := TraceOf(stages[1..], original, next);
      assert forall i :: 0 < i < |stages| ==> stages[i] == stages[1..][i - 1];
      [current] + rest
  }

  /** Folding a concatenation is folding the second part over the result of
      the first: this is why repeated `pipe` calls accumulate. */
  lemma {:induction false} FoldAppend<T>(a: seq<(T, T) --> T>, b: seq<(T, T) --> T>, original: T, current: T)
    ensures Runs(a + b, original, current) <==>
      (Runs(a, original, current) && Runs(b, original, Fold(a, original, current)))
    ensures Runs(a + b, original, current) ==>
      Fold(a + b, original, current) == Fold(b, original, Fold(a, original, current))
    decreases |a|
  {
    if a == [] {
      assert a + b == b;
    } else {
      assert (a + b)[0] == a[0] && (a + b)[1..] == a[1..] + b;
      if a[0].requires(original, current) {
        FoldAppend(a[1..], b, original, a[0](original, current));
      }
    }
  }

  /** A class holding the stage list, as the abstract pipe builder does:
      `pipe` appends stages, `executePipe` folds them over a source value. */
  class AbstractBasePipeBuilder<T> {
    var stageFactories: seq<(T, T) --> T>

    constructor()
      ensures stageFactories == []
    {
      stageFactories := [];
    }

    /** Appends the given stages after the registered ones, in argument order,
        and returns the same builder. */
    method Pipe(fs: seq<(T, T) --> T>) returns (b: AbstractBasePipeBuilder<T>)
      modifies this
      ensures b == this
      ensures stageFactories == old(stageFactories) + fs
    {
      stageFactories := stageFactories + fs;
      b := this;
    }

    /** With no stages, the source itself; otherwise the fold from the source,
        which is the last value of the fold's trace. */
    function ExecutePipe(source: T): (r: T)
      reads this
      requires Runs(stageFactories, source, source)
      ensures stageFactories == [] ==> r == source
      ensures r == TraceOf(stageFactories, source, source)[|stageFactories|]
    {
      if |stageFactories| == 0 then source else Fold(stageFactories, source, source)
    }
  }
}
