/** The progress panel of a stepwise run: which history entry each position
    of the class flow shows, which position is current, and the badge of a
    step. A flow position shows the entry of the same class id whose rank
    among that class's entries equals the position's rank among that class's
    positions. */
module ProgressPanel {
  import opened Wrappers
  import Stepwise

  type StepResult = Stepwise.StepResult

  /** The class ids of the history, in order. */
  function ClassIds(history: seq<StepResult>): (ids: seq<int>)
    ensures |ids| == |history|
    ensures forall k :: 0 <= k < |history| ==> ids[k] == history[k].classId
  {
    seq(|history|, k requires 0 <= k < |history| => history[k].classId)
  }

  /** How many of the first `hi` elements of `s` equal `c`. */
  function Count(s: seq<int>, c: int, hi: nat): (n: nat)
    requires hi <= |s|
    ensures n <= hi
  {
    if hi == 0 then 0 else Count(s, c, hi - 1) + (if s[hi - 1] == c then 1 else 0)
  }

  lemma {:induction false} CountMonotone(s: seq<int>, c: int, lo: nat, hi: nat)
    requires lo <= hi <= |s|
    ensures Count(s, c, lo) <= Count(s, c, hi)
    decreases hi - lo
  {
    if lo < hi {
      CountMonotone(s, c, lo, hi - 1);
    }
  }

  /** The index of the element equal to `c` that has `n` such elements
      before it, searching from `from` with `n` counted from there. */
  function NthIndexFrom(s: seq<int>, c: int, n: nat, from: nat): (r: Option<nat>)
    requires from <= |s|
    ensures r.Some? ==> from <= r.value < |s| && s[r.value] == c
    ensures r.Some? ==> Count(s, c, r.value) == Count(s, c, from) + n
    ensures r.None? <==> Count(s, c, |s|) <= Count(s, c, from) + n
    decreases |s| - from
  {
    if from == |s| then None
    else if s[from] == c then
      if n == 0 then
        CountMonotone(s, c, from + 1, |s|);
        Some(from)
      else NthIndexFrom(s, c, n - 1, from + 1)
    else NthIndexFrom(s, c, n, from + 1)
  }

  function NthIndex(s: seq<int>, c: int, n: nat): (r: Option<nat>)
    ensures r.Some? ==> r.value < |s| && s[r.value] == c && Count(s, c, r.value) == n
    ensures r.None? <==> Count(s, c, |s|) <= n
  {
    NthIndexFrom(s, c, n, 0)
  }

  /** The history index flow position `i` shows, if any. */
  function MatchedIndex(flow: seq<int>, history: seq<StepResult>, i: nat): (r: Option<nat>)
    requires i < |flow|
    ensures r.Some? ==> r.value < |history| && history[r.value].classId == flow[i]
    ensures r.Some? ==> Count(ClassIds(history), flow[i], r.value) == Count(flow, flow[i], i)
    ensures r.None? <==> Count(ClassIds(history), flow[i], |history|) <= Count(flow, flow[i], i)
  {
    NthIndex(ClassIds(history), flow[i], Count(flow, flow[i], i))
  }

  function EntryAt(history: seq<StepResult>, k: Option<nat>): Option<StepResult>
    requires k.Some? ==> k.value < |history|
  {
    if k.Some? then Some(history[k.value]) else None
  }

  /** Positions sharing a class id show distinct entries, in history
      order. */
  lemma MatchedInOrder(flow: seq<int>, history: seq<StepResult>, i: nat, j: nat)
    requires i < j < |flow| && flow[i] == flow[j]
    requires MatchedIndex(flow, history, i).Some? && MatchedIndex(flow, history, j).Some?
    ensures MatchedIndex(flow, history, i).value < MatchedIndex(flow, history, j).value
  {
    var c := flow[i];
    var ki := MatchedIndex(flow, history, i).value;
    var kj := MatchedIndex(flow, history, j).value;
    CountMonotone(flow, c, i + 1, j);
    if kj <= ki {
      CountMonotone(ClassIds(history), c, kj + 1, ki + 1);
      assert false;
    }
  }

  /** `stepHistory`: for each flow position, the history entry it shows. */
  method StepHistory(flow: seq<int>, history: seq<StepResult>) returns (found: seq<Option<StepResult>>)
    ensures |found| == |flow|
    ensures forall i :: 0 <= i < |flow| ==> found[i] == EntryAt(history, MatchedIndex(flow, history, i))
  {
    found := [];
    for idx := 0 to |flow|
      invariant |found| == idx
      invariant forall i :: 0 <= i < idx ==> found[i] == EntryAt(history, MatchedIndex(flow, history, i))
    {
      var step := ShownEntry(flow, history, idx);
      found := found + [step];
    }
  }

  /** The callback `stepHistory` maps over the flow: counts the earlier
      positions of the same class, then scans the history for the entry of
      that rank. */
  method ShownEntry(flow: seq<int>, history: seq<StepResult>, idx: nat) returns (step: Option<StepResult>)
    requires idx < |flow|
    ensures step == EntryAt(history, MatchedIndex(flow, history, idx))
  {
    var classId := flow[idx];
    var occurrence := 0;
    for i := 0 to idx
      invariant occurrence == Count(flow, classId, i)
    {
      if flow[i] == classId {
        occurrence := occurrence + 1;
      }
    }
    step := None;
    var count := 0;
    var k := 0;
    ghost var ids := ClassIds(history);
    while k < |history|
      invariant 0 <= k <= |history|
      invariant count == Count(ids, classId, k) <= occurrence
      invariant NthIndexFrom(ids, classId, occurrence - count, k) == NthIndex(ids, classId, occurrence)
      decreases |history| - k
    {
      if history[k].classId == classId {
        if count == occurrence {
          step := Some(history[k]);
          return;
        }
        count := count + 1;
      }
      k := k + 1;
    }
  }

  /** The flow position of the current class: the occurrence whose rank is
      the number of history entries of that class minus one; -1 when there
      is none. */
  function CurrentStep(flow: seq<int>, history: seq<StepResult>, current: Option<int>): (r: int)
    ensures -1 <= r < |flow|
    ensures r >= 0 <==> current.Some? && 0 < Count(ClassIds(history), current.value, |history|) <= Count(flow, current.value, |flow|)
    ensures r >= 0 ==> current.Some? && flow[r] == current.value
    ensures r >= 0 ==> Count(flow, current.value, r) + 1 == Count(ClassIds(history), current.value, |history|)
  {
    if current.None? then -1
    else
      var c := Count(ClassIds(history), current.value, |history|);
      if c == 0 then -1
      else match NthIndex(flow, current.value, c - 1)
        case None => -1
        case Some(k) => k
  }

  /** The current position shows the latest history entry of the current
      class. */
  lemma CurrentShowsLatest(flow: seq<int>, history: seq<StepResult>, current: Option<int>)
    requires CurrentStep(flow, history, current) >= 0
    ensures var r := CurrentStep(flow, history, current);
      && MatchedIndex(flow, history, r).Some?
      && var k := MatchedIndex(flow, history, r).value;
      && history[k].classId == current.value
      && forall j :: k < j < |history| ==> history[j].classId != current.value
  {
    var r := CurrentStep(flow, history, current);
    var ids := ClassIds(history);
    var c := current.value;
    var k := MatchedIndex(flow, history, r).value;
    forall j | k < j < |history|
      ensures history[j].classId != c
    {
      if history[j].classId == c {
        CountMonotone(ids, c, k + 1, j);
        CountMonotone(ids, c, j + 1, |history|);
        assert false;
      }
    }
  }

  /** `currentStepIdx`, with its loops. */
  method CurrentStepIdx(flow: seq<int>, history: seq<StepResult>, current: Option<int>) returns (idx: int)
    ensures idx == CurrentStep(flow, history, current)
  {
    idx := -1;
    var occurrence := 0;
    ghost var ids := ClassIds(history);
    ghost var total := if current.Some? then Count(ids, current.value, |history|) else 0;
    var i := 0;
    while i < |flow|
      invariant 0 <= i <= |flow|
      invariant idx == -1
      invariant current.Some? && total > 0 ==>
        occurrence <= total - 1
        && NthIndexFrom(flow, current.value, total - 1 - occurrence, i) == NthIndex(flow, current.value, total - 1)
      decreases |flow| - i
    {
      if current.Some? && flow[i] == current.value {
        var count := 0;
        for k := 0 to |history|
          invariant count == Count(ids, current.value, k)
        {
          if history[k].classId == current.value {
            count := count + 1;
          }
        }
        if occurrence == count - 1 {
          idx := i;
          return;
        }
        occurrence := occurrence + 1;
      }
      i := i + 1;
    }
  }

  datatype Badge = Passed | InProgress | Failed | Pending

  /** `statusBadge`. */
  function StatusBadge(step: StepResult, isCurrent: bool): (b: Badge)
    ensures b != Pending
    ensures b == Passed <==> step.passed
    ensures b == InProgress <==> !step.passed && isCurrent
    ensures b == Failed <==> !step.passed && !isCurrent
  {
    if step.passed then Passed
    else if !step.passed && isCurrent then InProgress
    else if !step.passed then Failed
    else Pending
  }

  /** A position is current when it is the current step index and the run
      has no final result with a non-empty status. */
  function IsCurrent(idx: int, currentIdx: int, finalResult: Option<Stepwise.FinalResult>): (b: bool)
    ensures finalResult.Some? && finalResult.value.status != [] ==> !b
    ensures b ==> idx == currentIdx
    ensures idx == currentIdx && (finalResult.None? || finalResult.value.status == []) ==> b
  {
    idx == currentIdx && !(finalResult.Some? && finalResult.value.status != [])
  }

  /** After a run completes, with the server's final result having a status
      or none at all, the panel marks no step current. */
  lemma NothingCurrentAfterCompletion(outcome: Stepwise.Outcome, idx: int, currentIdx: int)
    requires outcome.Completed? && (outcome.finalResult.None? || outcome.finalResult.value.status != [])
    ensures !IsCurrent(idx, currentIdx, Stepwise.FinalOf(outcome))
  {
  }
}
