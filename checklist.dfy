/**
 * The study plan both dashboard pages receive and the check boxes kept next
 * to its tasks.
 */
module Checklist {

  /** The parsed answer: minutes on the timer and the list of tasks. */
  datatype Plan = Plan(timer: int, checklist: seq<string>)

  /** The countdown a plan starts: its minutes in seconds. */
  function Seconds(p: Plan): (s: int)
    ensures p.timer >= 0 ==> s >= 0 && s / 60 == p.timer && s % 60 == 0
  {
    p.timer * 60
  }

  /** `new Array(n).fill(false)`. */
  function Unchecked(n: nat): (s: seq<bool>)
    ensures |s| == n && forall i :: 0 <= i < n ==> !s[i]
  {
    seq(n, _ => false)
  }

  /** `prev.map((checked, i) => i === index ? !checked : checked)`. */
  function Toggle(s: seq<bool>, index: int): (r: seq<bool>)
    ensures |r| == |s|
    ensures 0 <= index < |s| ==> r[index] == !s[index]
    ensures forall i :: 0 <= i < |s| && i != index ==> r[i] == s[i]
  {
    seq(|s|, i requires 0 <= i < |s| => if i == index then !s[i] else s[i])
  }

  /** Toggling the same entry twice restores the list; an index outside it changes nothing. */
  lemma ToggleTwice(s: seq<bool>, index: int)
    ensures Toggle(Toggle(s, index), index) == s
    ensures !(0 <= index < |s|) ==> Toggle(s, index) == s
  {
    assert forall i :: 0 <= i < |s| ==> Toggle(Toggle(s, index), index)[i] == s[i];
  }

  /** `checkedTasks.filter(Boolean).length`. */
  function Completed(s: seq<bool>): (n: nat)
    ensures n <= |s|
  {
    if s == [] then 0 else Completed(s[..|s| - 1]) + if s[|s| - 1] then 1 else 0
  }

  /** A fresh checklist has nothing completed. */
  lemma {:induction false} CompletedUnchecked(n: nat)
    ensures Completed(Unchecked(n)) == 0
  {
    if n > 0 {
      assert Unchecked(n)[..n - 1] == Unchecked(n - 1);
      CompletedUnchecked(n - 1);
    }
  }

  /** Ticking a box adds one completed task; unticking removes one. */
  lemma {:induction false} ToggleCompleted(s: seq<bool>, index: int)
    requires 0 <= index < |s|
    ensures Completed(Toggle(s, index)) == if s[index] then Completed(s) - 1 else Completed(s) + 1
    decreases |s|
  {
    var t := Toggle(s, index);
    var n := |s| - 1;
    if index < n {
      assert t[..n] == Toggle(s[..n], index);
      ToggleCompleted(s[..n], index);
    } else {
      assert t[..n] == s[..n];
    }
  }
}
