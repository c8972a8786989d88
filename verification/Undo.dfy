/** What commands do to the undo stack of a tool. */
module Undo {
  import Lineage

  datatype Step = Pushed(v: Lineage.Version) | Popped(depth: nat) | Reset(v: Lineage.Version) | Stayed

  /** What a step makes of the stack. */
  function Moved(stack: seq<Lineage.Version>, step: Step): seq<Lineage.Version>
  {
    match step
    case Pushed(v) => [v] + stack
    case Popped(k) => if k <= |stack| then stack[k..] else stack
    case Reset(v) => [v]
    case Stayed => stack
  }

  /** What these steps make of the stack. */
  function Replay(stack: seq<Lineage.Version>, steps: seq<Step>): seq<Lineage.Version>
  {
    if steps == [] then stack else Moved(Replay(stack, steps[..|steps| - 1]), steps[|steps| - 1])
  }

  lemma OneMore(stack: seq<Lineage.Version>, steps: seq<Step>, step: Step)
    ensures Replay(stack, steps + [step]) == Moved(Replay(stack, steps), step)
  {
    assert (steps + [step])[..|steps|] == steps;
  }
}
