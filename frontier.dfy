/**
 * The crawl frontier: the asyncio.Queue both crawlers share between their
 * workers, holding (url, depth) entries, together with the queue's count of
 * unfinished tasks that `put` raises, `task_done` lowers and `join` waits on.
 */
module Frontier {
  import opened Maybe

  /** A frontier entry: a url and its distance in links from the seed. */
  datatype Entry = Entry(url: string, depth: nat)

  class TaskQueue {
    var items: seq<Entry>
    var unfinished: nat

    /** `asyncio.Queue()`: empty, with nothing unfinished. */
    constructor ()
      ensures items == [] && unfinished == 0
    {
      items := [];
      unfinished := 0;
    }

    /** `await queue.put(e)`: appends and counts one more unfinished task. */
    method Put(e: Entry)
      modifies this
      ensures items == old(items) + [e]
      ensures unfinished == old(unfinished) + 1
    {
      items := items + [e];
      unfinished := unfinished + 1;
    }

    /**
     * `await queue.get()`: removes the oldest entry. On an empty queue the
     * coroutine would suspend; here that is `None` and nothing changes.
     */
    method Get() returns (r: Option<Entry>)
      modifies this
      ensures old(items) == [] ==> r == None && items == old(items)
      ensures old(items) != [] ==> r == Some(old(items)[0]) && items == old(items)[1..]
      ensures unfinished == old(unfinished)
    {
      if items == [] {
        r := None;
      } else {
        r := Some(items[0]);
        items := items[1..];
      }
    }

    /**
     * `queue.task_done()`: one fewer unfinished task. Called with none
     * unfinished it raises ValueError; here `ok` is false and nothing changes.
     */
    method TaskDone() returns (ok: bool)
      modifies this
      ensures ok <==> old(unfinished) > 0
      ensures unfinished == if ok then old(unfinished) - 1 else old(unfinished)
      ensures items == old(items)
    {
      ok := unfinished > 0;
      if ok {
        unfinished := unfinished - 1;
      }
    }

    /** `await queue.join()` returns once every task put has been marked done. */
    predicate Drained()
      reads this
    {
      unfinished == 0
    }
  }
}
