/** The action plan's two id lists, the expanded cards and the completed actions,
    each flipped by a membership toggle, and the completion progress. */
module ActionPlan {
  import Seqs

  /** The ids of the four hard-coded actions. */
  const ActionIds: seq<int> := [1, 2, 3, 4]

  datatype PlanState = PlanState(expanded: seq<int>, completed: seq<int>)

  /** The first card starts expanded and nothing starts completed. */
  const InitialPlan: PlanState := PlanState([1], [])

  /** `prev.includes(id) ? prev.filter((item) => item !== id) : [...prev, id]`. */
  function Toggle(prev: seq<int>, id: int): (r: seq<int>)
    ensures id in r <==> id !in prev
    ensures forall i :: 0 <= i < |prev| && prev[i] != id ==> prev[i] in r
    ensures forall i :: 0 <= i < |r| && r[i] != id ==> r[i] in prev
    ensures id !in prev ==> r == prev + [id]
    ensures id in prev ==> |r| < |prev|
  {
    if id in prev then Seqs.RemoveAll(prev, id) else prev + [id]
  }

  /** `toggleExpand` flips one card's expansion and leaves completion alone. */
  function ToggleExpand(s: PlanState, id: int): (r: PlanState)
    ensures r.completed == s.completed
    ensures id in r.expanded <==> id !in s.expanded
  {
    s.(expanded := Toggle(s.expanded, id))
  }

  /** `toggleComplete` flips one action's completion and leaves expansion alone. */
  function ToggleComplete(s: PlanState, id: int): (r: PlanState)
    ensures r.expanded == s.expanded
    ensures id in r.completed <==> id !in s.completed
  {
    s.(completed := Toggle(s.completed, id))
  }

  /** A toggle changes the membership of its own id only. */
  lemma ToggleOnlyAffectsId(prev: seq<int>, id: int, other: int)
    requires other != id
    ensures other in Toggle(prev, id) <==> other in prev
  {
    if other in prev {
      var k :| 0 <= k < |prev| && prev[k] == other;
    }
    if other in Toggle(prev, id) {
      var r := Toggle(prev, id);
      var k :| 0 <= k < |r| && r[k] == other;
    }
  }

  /** Toggling twice restores the id's membership; when the id was absent it
      restores the exact list. */
  lemma ToggleTwice(prev: seq<int>, id: int)
    ensures id in Toggle(Toggle(prev, id), id) <==> id in prev
    ensures id !in prev ==> Toggle(Toggle(prev, id), id) == prev
  {
    if id !in prev {
      Seqs.RemoveSingle(prev, id, []);
      assert prev + [id] + [] == prev + [id];
      assert prev + [] == prev;
    }
  }

  /** A toggle keeps a duplicate-free list duplicate-free. */
  lemma ToggleNoDup(prev: seq<int>, id: int)
    requires Seqs.NoDup(prev)
    ensures Seqs.NoDup(Toggle(prev, id))
  {
    if id in prev {
      Seqs.RemoveAllNoDup(prev, id);
    }
  }

  /** A click on a card (expand) or on its check box (complete). */
  datatype Click = Expand(id: int) | Complete(id: int)

  function Apply(s: PlanState, c: Click): PlanState {
    match c
    case Expand(id) => ToggleExpand(s, id)
    case Complete(id) => ToggleComplete(s, id)
  }

  function ApplyAll(s: PlanState, clicks: seq<Click>): PlanState
    decreases |clicks|
  {
    if clicks == [] then s else ApplyAll(Apply(s, clicks[0]), clicks[1..])
  }

  /** What the view keeps true: both lists duplicate-free and only action ids marked
      completed. */
  predicate Consistent(s: PlanState) {
    Seqs.NoDup(s.expanded) && Seqs.NoDup(s.completed) &&
    forall i :: 0 <= i < |s.completed| ==> s.completed[i] in ActionIds
  }

  /** The clicks the view can deliver: each names the id of a rendered action. */
  predicate FromActions(clicks: seq<Click>) {
    forall i :: 0 <= i < |clicks| ==> clicks[i].id in ActionIds
  }

  lemma {:induction false} ApplyAllConsistent(s: PlanState, clicks: seq<Click>)
    requires Consistent(s) && FromActions(clicks)
    ensures Consistent(ApplyAll(s, clicks))
    decreases |clicks|
  {
    if clicks != [] {
      var c := clicks[0];
      var t := Apply(s, c);
      match c {
        case Expand(id) => ToggleNoDup(s.expanded, id);
        case Complete(id) =>
          ToggleNoDup(s.completed, id);
          forall i | 0 <= i < |t.completed| ensures t.completed[i] in ActionIds {
            if t.completed[i] != id {
              assert t.completed[i] in s.completed;
            }
          }
      }
      assert FromActions(clicks[1..]) by {
        forall i | 0 <= i < |clicks[1..]| ensures clicks[1..][i].id in ActionIds {
          assert clicks[1..][i] == clicks[i + 1];
        }
      }
      ApplyAllConsistent(t, clicks[1..]);
    }
  }

  /** `(completedItems.length / actions.length) * 100`; with four actions the
      division and product are exact in floating point. */
  function Progress(completed: seq<int>): (r: real)
    ensures r == 25.0 * |completed| as real
    ensures 0.0 <= r && (|completed| <= |ActionIds| ==> r <= 100.0)
  {
    (|completed| as real / |ActionIds| as real) * 100.0
  }

  /** From the initial lists, whatever the clicks on rendered actions, the lists
      stay duplicate-free, at most four actions are completed and the progress stays
      within 0..100. */
  lemma ProgressInRange(clicks: seq<Click>)
    requires FromActions(clicks)
    ensures Consistent(ApplyAll(InitialPlan, clicks))
    ensures |ApplyAll(InitialPlan, clicks).completed| <= |ActionIds|
    ensures 0.0 <= Progress(ApplyAll(InitialPlan, clicks).completed) <= 100.0
  {
    ApplyAllConsistent(InitialPlan, clicks);
    var done := ApplyAll(InitialPlan, clicks).completed;
    var ids := set x | x in ActionIds;
    assert ids == {1, 2, 3, 4};
    Seqs.NoDupSubsetBound(done, ids);
  }
}
