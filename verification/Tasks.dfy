/** The scheduler's task records and the list they are kept in. */
module Tasks {
  import opened Options
  import opened Sequences

  datatype RunState = Ready | Running | Sleeping

  type Period = p: nat | p > 0 witness 1

  /** One registered task. `timer` is the expiry of the pending wake-up timer, if any. */
  datatype Task = Task(pid: nat, period: Period, processingTime: nat, state: RunState,
                       deadlineJiff: nat, deadlineSet: bool, timer: Option<nat>)

  predicate Distinct(ts: seq<Task>) {
    forall i, j :: 0 <= i < j < |ts| ==> ts[i].pid != ts[j].pid
  }

  /** The first position holding `pid`, or |ts| when there is none. */
  function Find(ts: seq<Task>, pid: nat): (k: nat)
    ensures k <= |ts|
    ensures k < |ts| ==> ts[k].pid == pid
    ensures forall i :: 0 <= i < k ==> ts[i].pid != pid
  {
    if ts == [] || ts[0].pid == pid then 0 else 1 + Find(ts[1..], pid)
  }

  predicate Registered(ts: seq<Task>, pid: nat) {
    Find(ts, pid) < |ts|
  }

  /** The list without any task called `pid`. */
  function Remove(ts: seq<Task>, pid: nat): seq<Task> {
    if ts == [] then []
    else if ts[0].pid == pid then Remove(ts[1..], pid)
    else [ts[0]] + Remove(ts[1..], pid)
  }

  /** What is left are the other tasks, in the same order. */
  lemma RemoveKeepsOthers(ts: seq<Task>, pid: nat)
    ensures forall t :: t in Remove(ts, pid) <==> t in ts && t.pid != pid
    ensures Distinct(ts) ==> Distinct(Remove(ts, pid))
  {
    if ts != [] {
      RemoveKeepsOthers(ts[1..], pid);
      assert forall t :: t in ts <==> t == ts[0] || t in ts[1..];
      var r := Remove(ts[1..], pid);
      if Distinct(ts) && ts[0].pid != pid {
        forall j | 0 <= j < |r| ensures r[j].pid != ts[0].pid {
          assert r[j] in ts[1..];
        }
      }
    }
  }

  lemma {:induction false} NothingToRemove(ts: seq<Task>, pid: nat)
    requires forall i :: 0 <= i < |ts| ==> ts[i].pid != pid
    ensures Remove(ts, pid) == ts
  {
    if ts != [] {
      NothingToRemove(ts[1..], pid);
    }
  }

  lemma {:induction false} RemoveIsUnlink(ts: seq<Task>, k: nat, pid: nat)
    requires k < |ts| && forall i :: 0 <= i < |ts| ==> (ts[i].pid == pid <==> i == k)
    ensures Remove(ts, pid) == Unlink(ts, k)
  {
    if k == 0 {
      NothingToRemove(ts[1..], pid);
    } else {
      RemoveIsUnlink(ts[1..], k - 1, pid);
      assert ts[..k] == [ts[0]] + ts[1..][..k - 1] && ts[k + 1..] == ts[1..][k..];
    }
  }

  /** A task of smaller or equal period is more prioritized. */
  predicate MorePrioritized(first: Task, second: Task) {
    first.period <= second.period
  }

  /** What a left-to-right scan for the most prioritized READY task ends with. */
  function BestReady(ts: seq<Task>): (best: Option<nat>)
    ensures best == None <==> forall i :: 0 <= i < |ts| ==> ts[i].state != Ready
    ensures best.Some? ==>
      && best.value < |ts| && ts[best.value].state == Ready
      && (forall i :: 0 <= i < |ts| && ts[i].state == Ready ==> ts[best.value].period <= ts[i].period)
      && (forall i :: best.value < i < |ts| && ts[i].state == Ready ==> ts[best.value].period < ts[i].period)
  {
    if ts == [] then None
    else
      var last := |ts| - 1;
      var best := BestReady(ts[..last]);
      if ts[last].state != Ready then best
      else if best == None || MorePrioritized(ts[last], ts[best.value]) then Some(last)
      else best
  }
}
