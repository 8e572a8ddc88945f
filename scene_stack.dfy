/**
 * The stack-based scene machine (`StateMachine`): `peek` and `pop` answer
 * `None` on an empty stack instead of failing, `push` returns what it pushed.
 */
module SceneStack {
  import opened Wrappers
  import opened Const

  /** What `peek` sees: the last element, or None when the stack is empty. */
  function Top(stack: seq<Scene>): Option<Scene> {
    if stack == [] then None else Some(stack[|stack| - 1])
  }

  /** The stack that `pop` leaves behind (an empty stack stays empty). */
  function Popped(stack: seq<Scene>): seq<Scene> {
    if stack == [] then [] else stack[..|stack| - 1]
  }

  /** `peek` and `pop` on an empty stack give None, and popping it leaves it empty. */
  lemma EmptyStack()
    ensures Top([]) == None && Popped([]) == []
  {
  }

  /** After `push(s)`, `peek` gives `s`, and a following `pop` gives `s` back and restores the earlier stack. */
  lemma PushThenPop(stack: seq<Scene>, s: Scene)
    ensures Top(stack + [s]) == Some(s)
    ensures Popped(stack + [s]) == stack
  {
  }

  /** Conversely, pushing back what `pop` returned rebuilds the stack it was popped from. */
  lemma PopThenPush(stack: seq<Scene>)
    requires stack != []
    ensures Top(stack).Some?
    ensures Popped(stack) + [Top(stack).value] == stack
  {
  }

  class StateMachine {
    var stack: seq<Scene>

    constructor ()
      ensures stack == []
    {
      stack := [];
    }

    /** The current scene, without altering the stack. */
    method Peek() returns (r: Option<Scene>)
      ensures r.None? <==> stack == []
      ensures r.Some? ==> r.value == stack[|stack| - 1]
    {
      if stack == [] {
        r := None;
      } else {
        r := Some(stack[|stack| - 1]);
      }
    }

    /** Removes and returns the current scene; None, and no change, when the stack is empty. */
    method Pop() returns (r: Option<Scene>)
      modifies this
      ensures r == Top(old(stack))
      ensures stack == Popped(old(stack))
    {
      if stack == [] {
        r := None;
      } else {
        r := Some(stack[|stack| - 1]);
        stack := stack[..|stack| - 1];
      }
    }

    /** Pushes a scene and returns it. */
    method Push(s: Scene) returns (r: Scene)
      modifies this
      ensures r == s
      ensures stack == old(stack) + [s]
    {
      stack := stack + [s];
      r := s;
    }

    method Clear()
      modifies this
      ensures stack == []
    {
      stack := [];
    }
  }
}
