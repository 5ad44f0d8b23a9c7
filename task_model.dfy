/** Values and pure array computations of the task board's Home component
    (src/app/page.js): the task record, the `reduce` that finds the largest
    saved id, the spread-append of a new task and the positional `filter`
    used for deletion, with the facts the state machine in HomePage needs. */
module TaskModel {

  /** A task record `{ id, title, description }`. */
  datatype Task = Task(id: int, title: string, description: string)

  /** An optional value: `None` is an absent storage key. */
  datatype Option<T> = None | Some(value: T)

  /** `Math.max` on integer ids. */
  function Max(a: int, b: int): int
  {
    if a >= b then a else b
  }

  /** Every id in `ts` is below `bound`. */
  predicate IdsBelow(ts: seq<Task>, bound: int)
  {
    forall i :: 0 <= i < |ts| ==> ts[i].id < bound
  }

  /** No two tasks of `ts` share an id. */
  predicate DistinctIds(ts: seq<Task>)
  {
    forall i, j :: 0 <= i < |ts| && 0 <= j < |ts| && i != j ==> ts[i].id != ts[j].id
  }

  /** Ids grow strictly along the sequence (insertion order). */
  predicate IncreasingIds(ts: seq<Task>)
  {
    forall i, j :: 0 <= i < j < |ts| ==> ts[i].id < ts[j].id
  }

  /** `ts.reduce((max, task) => Math.max(max, task.id), acc)`: a left fold
      whose result is the largest of `acc` and the ids of `ts`. */
  function MaxIdFrom(acc: int, ts: seq<Task>): (m: int)
    ensures acc <= m
    ensures forall i :: 0 <= i < |ts| ==> ts[i].id <= m
    ensures m == acc || exists i :: 0 <= i < |ts| && ts[i].id == m
    decreases |ts|
  {
    if ts == [] then acc
    else
      var m := MaxIdFrom(Max(acc, ts[0].id), ts[1..]);
      assert forall i :: 1 <= i < |ts| ==> ts[i] == ts[1..][i - 1];
      m
  }

  /** The fold of the mount effect, seeded with 0: the largest of 0 and every
      saved id, so 0 for an empty or absent store. */
  function MaxId(ts: seq<Task>): (m: int)
    ensures 0 <= m
    ensures IdsBelow(ts, m + 1)
    ensures m == 0 || exists i :: 0 <= i < |ts| && ts[i].id == m
    ensures ts == [] ==> m == 0
  {
    MaxIdFrom(0, ts)
  }

  /** `[...tasks, newTaskObj]`: every earlier task kept in place, the new one last. */
  function Append(ts: seq<Task>, t: Task): (r: seq<Task>)
    ensures |r| == |ts| + 1
    ensures r[|ts|] == t
    ensures forall i :: 0 <= i < |ts| ==> r[i] == ts[i]
  {
    ts + [t]
  }

  /** `ts.filter((_, i) => i !== index)` where `pos` is the array position of
      `ts[0]`: keeps every task whose position differs from `index`. */
  function FilterPos(ts: seq<Task>, index: int, pos: int): (r: seq<Task>)
    ensures |r| <= |ts|
    decreases |ts|
  {
    if ts == [] then []
    else (if pos != index then [ts[0]] else []) + FilterPos(ts[1..], index, pos + 1)
  }

  /** The positional filter equals cutting out the element at `index - pos`,
      or is the identity when no position matches. */
  lemma {:induction false} FilterPosSlices(ts: seq<Task>, index: int, pos: int)
    ensures pos <= index < pos + |ts| ==>
              FilterPos(ts, index, pos) == ts[..index - pos] + ts[index - pos + 1..]
    ensures !(pos <= index < pos + |ts|) ==> FilterPos(ts, index, pos) == ts
    decreases |ts|
  {
    if ts != [] {
      FilterPosSlices(ts[1..], index, pos + 1);
      if pos == index {
        assert ts[..0] + ts[1..] == ts[1..];
      } else if pos < index < pos + |ts| {
        assert ts[..index - pos] == [ts[0]] + ts[1..][..index - pos - 1];
        assert ts[index - pos + 1..] == ts[1..][index - pos..];
      } else {
        assert [ts[0]] + ts[1..] == ts;
      }
    }
  }

  /** The deletion of `handleDelete(index)`: the task at zero-based position
      `index` is removed and the rest keep their order; an index outside the
      sequence removes nothing. */
  function RemoveAt(ts: seq<Task>, index: int): (r: seq<Task>)
    ensures 0 <= index < |ts| ==> r == ts[..index] + ts[index + 1..] && |r| == |ts| - 1
    ensures !(0 <= index < |ts|) ==> r == ts
  {
    FilterPosSlices(ts, index, 0);
    FilterPos(ts, index, 0)
  }

  /** Every element of `RemoveAt(ts, index)` comes from `ts`, at the same
      position before `index` and one further on after it. */
  lemma RemoveAtFrom(ts: seq<Task>, index: int, k: int)
    requires 0 <= index < |ts|
    requires 0 <= k < |ts| - 1
    ensures RemoveAt(ts, index)[k] == if k < index then ts[k] else ts[k + 1]
  {
  }

  /** Appending a task whose id is the counter keeps every id below the
      bumped counter, and keeps ids distinct and increasing when they were. */
  lemma AppendKeepsIds(ts: seq<Task>, t: Task)
    requires IdsBelow(ts, t.id)
    ensures IdsBelow(Append(ts, t), t.id + 1)
    ensures DistinctIds(ts) ==> DistinctIds(Append(ts, t))
    ensures IncreasingIds(ts) ==> IncreasingIds(Append(ts, t))
  {
  }

  /** Removing a task keeps every bound on the ids, and keeps ids distinct
      and increasing when they were. */
  lemma RemoveAtKeepsIds(ts: seq<Task>, index: int, bound: int)
    ensures IdsBelow(ts, bound) ==> IdsBelow(RemoveAt(ts, index), bound)
    ensures DistinctIds(ts) ==> DistinctIds(RemoveAt(ts, index))
    ensures IncreasingIds(ts) ==> IncreasingIds(RemoveAt(ts, index))
  {
  }

  /** The counter a reload computes never exceeds a live counter that bounds
      every id, and equals it exactly when the task with the highest possible
      id is still present. */
  lemma ReloadCounter(ts: seq<Task>, nextId: int)
    requires 1 <= nextId
    requires IdsBelow(ts, nextId)
    ensures MaxId(ts) + 1 <= nextId
    ensures MaxId(ts) + 1 == nextId <==>
              nextId == 1 || exists i :: 0 <= i < |ts| && ts[i].id == nextId - 1
  {
  }

  /** Ids are reissued: with tasks 1, 2, 3 and the counter at 4, deleting the
      last task and reloading sets the counter back to 3. */
  lemma ReloadReusesDeletedId()
    ensures var ts := [Task(1, "a", ""), Task(2, "b", ""), Task(3, "c", "")];
            IdsBelow(ts, 4) && MaxId(RemoveAt(ts, 2)) + 1 == 3
  {
  }
}
