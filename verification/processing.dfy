/**
 * The processing modal: four steps shown one after another while the
 * try-on is generated, then the "almost there" state until the result
 * arrives. The timer waits become the list of delays the loop asks for.
 */
module Processing {

  /** The icon drawn next to a step. */
  datatype Icon = UserIcon | ShirtIcon | ZapIcon | SparklesIcon

  datatype Step = Step(icon: Icon, caption: string, completed: bool, active: bool)

  /** Milliseconds each step stays active. */
  const StepDelayMs: nat := 1200

  /** `initialSteps`: nothing completed, nothing active. */
  const InitialSteps: seq<Step> := [
    Step(UserIcon, "Analisando anatomia do cliente...", false, false),
    Step(ShirtIcon, "Segmentando peça de roupa...", false, false),
    Step(ZapIcon, "Aplicando caimento e compressão...", false, false),
    Step(SparklesIcon, "Finalizando iluminação realista...", false, false)
  ]

  const AlmostThereTitle := "Quase lá..."
  const TransformingTitle := "Transformando..."

  /** Two step lists with the same icons and captions, position by position. */
  predicate SameShape(a: seq<Step>, b: seq<Step>) {
    |a| == |b| && forall k :: 0 <= k < |a| ==> a[k].icon == b[k].icon && a[k].caption == b[k].caption
  }

  /** The list at iteration `i`: step `i` active, the steps before it completed. */
  function Frame(prev: seq<Step>, i: int): (next: seq<Step>)
    ensures SameShape(next, prev)
    ensures forall k :: 0 <= k < |next| ==> (next[k].active <==> k == i) && (next[k].completed <==> k < i)
  {
    seq(|prev|, k requires 0 <= k < |prev| => prev[k].(active := k == i, completed := k < i))
  }

  /** The list after the loop: every step completed, none active. */
  function Finished(prev: seq<Step>): (next: seq<Step>)
    ensures SameShape(next, prev)
    ensures forall k :: 0 <= k < |next| ==> next[k].completed && !next[k].active
  {
    seq(|prev|, k requires 0 <= k < |prev| => prev[k].(active := false, completed := true))
  }

  /** A frame depends only on the icons and captions of the list it rewrites. */
  lemma FrameOfSameShape(a: seq<Step>, b: seq<Step>, i: int)
    requires SameShape(a, b)
    ensures Frame(a, i) == Frame(b, i)
  {
    assert forall k :: 0 <= k < |a| ==> Frame(a, i)[k] == Frame(b, i)[k];
  }

  /** In every frame of the loop exactly one step is active, and it is preceded only by completed steps. */
  lemma OneActiveStepPerFrame(i: int)
    requires 0 <= i < |InitialSteps|
    ensures var f := Frame(InitialSteps, i);
      f[i].active && !f[i].completed
      && forall k :: 0 <= k < |f| && k != i ==> !f[k].active && (f[k].completed <==> k < i)
  {
  }

  /** The modal's state. `completions` counts the calls of `onStepsComplete`. */
  class ProcessingModal {
    var steps: seq<Step>
    var stepsFinished: bool
    var completions: nat

    /** Only the two flags of a step ever change. */
    ghost predicate Valid()
      reads this
    {
      SameShape(steps, InitialSteps)
    }

    constructor ()
      ensures Valid() && steps == InitialSteps && !stepsFinished && completions == 0
    {
      steps := InitialSteps;
      stepsFinished := false;
      completions := 0;
    }

    /** The effect when the modal is closed: back to the initial list, not finished. */
    method Close()
      requires Valid()
      modifies this
      ensures Valid() && steps == InitialSteps && !stepsFinished && completions == old(completions)
    {
      steps := InitialSteps;
      stepsFinished := false;
    }

    /**
     * `processSteps`: for each step in turn, rewrite the list so that step
     * is active and the earlier ones completed, then wait; afterwards mark
     * every step completed, set `stepsFinished` and call `onStepsComplete`.
     * `frames` are the successive lists shown and `waits` the delays.
     */
    method ProcessSteps() returns (frames: seq<seq<Step>>, waits: seq<nat>)
      requires Valid()
      modifies this
      ensures Valid()
      ensures |frames| == |InitialSteps| && forall i :: 0 <= i < |frames| ==> frames[i] == Frame(InitialSteps, i)
      ensures |waits| == |InitialSteps| && forall i :: 0 <= i < |waits| ==> waits[i] == StepDelayMs
      ensures steps == Finished(InitialSteps) && stepsFinished
      ensures completions == old(completions) + 1
    {
      frames, waits := [], [];
      var i := 0;
      while i < |InitialSteps|
        invariant 0 <= i <= |InitialSteps|
        invariant Valid() && completions == old(completions)
        invariant |frames| == i && forall k :: 0 <= k < i ==> frames[k] == Frame(InitialSteps, k)
        invariant |waits| == i && forall k :: 0 <= k < i ==> waits[k] == StepDelayMs
      {
        FrameOfSameShape(steps, InitialSteps, i);
        steps := Frame(steps, i);
        frames := frames + [steps];
        waits := waits + [StepDelayMs];
        i := i + 1;
      }
      assert Finished(steps) == Finished(InitialSteps) by {
        assert forall k :: 0 <= k < |steps| ==> Finished(steps)[k] == Finished(InitialSteps)[k];
      }
      steps := Finished(steps);
      stepsFinished := true;
      completions := completions + 1;
    }
  }

  /** The heading: "Quase lá..." exactly when the steps are done and the result is still awaited. */
  function Title(stepsFinished: bool, isWaitingResult: bool): (title: string)
    ensures title == AlmostThereTitle <==> stepsFinished && isWaitingResult
    ensures title == TransformingTitle <==> !(stepsFinished && isWaitingResult)
  {
    if stepsFinished && isWaitingResult then AlmostThereTitle else TransformingTitle
  }
}
