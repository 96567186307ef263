/** The compacting FIFO deque of the indexed scheduler
    (internal/control/scheduler.go:543-598). */
module TaskDeques {
  import opened Basics

  class TaskDeque {
    var items: seq<string>
    var head: nat

    /** Popped slots are cleared, and compaction keeps them to 64 or half of the slice. */
    predicate Valid()
      reads this
    {
      && head <= |items|
      && (forall k :: 0 <= k < head ==> items[k] == "")
      && (head <= 64 || head * 2 < |items|)
    }

    function Contents(): (r: seq<string>)
      reads this
      requires Valid()
    {
      items[head..]
    }

    lemma Footprint()
      requires Valid()
      ensures |items| <= Max(|Contents()| + 64, 2 * |Contents()|)
    {}

    constructor ()
      ensures Valid() && Contents() == []
    {
      items, head := [], 0;
    }

    function Len(): (n: nat)
      reads this
      requires Valid()
      ensures n == |Contents()|
    {
      |items| - head
    }

    method PushBack(taskID: string)
      requires Valid()
      modifies this
      ensures Valid() && Contents() == old(Contents()) + [taskID]
    {
      items := items + [taskID];
    }

    method PushFront(taskID: string)
      requires Valid()
      modifies this
      ensures Valid() && Contents() == [taskID] + old(Contents())
    {
      if head > 0 {
        head := head - 1;
        items := items[head := taskID];
        return;
      }
      items := [taskID] + items;
    }

    function Front(): (r: Option<string>)
      reads this
      requires Valid()
      ensures r == (if Contents() == [] then None else Some(Contents()[0]))
    {
      if Len() == 0 then None else Some(items[head])
    }

    method PopFront() returns (r: Option<string>)
      requires Valid()
      modifies this
      ensures Valid()
      ensures old(Contents()) == [] ==> r == None && Contents() == []
      ensures old(Contents()) != [] ==> r == Some(old(Contents())[0]) && Contents() == old(Contents())[1..]
    {
      if Len() == 0 {
        return None;
      }
      var taskID := items[head];
      items := items[head := ""];
      head := head + 1;
      if head > 64 && head * 2 >= |items| {
        items := items[head..];
        head := 0;
      }
      return Some(taskID);
    }
  }
}
