/** The numbered log of common/async_log.h: items arrive in any order and are
    read back one by one in the order of their positions. */
module AsyncLogs {
  import opened Prelude

  /** The value of an AsyncLog: items not read yet and the next position to read. */
  datatype Log<T> = Log(items: map<nat, T>, next: nat)
  {
    predicate HasNext() {
      next in items
    }

    /** Positions already read are dropped silently; a position still buffered cannot be taken twice. */
    function Insert(position: nat, item: T): (r: Option<Log<T>>)
      ensures r.None? <==> next <= position && position in items
      ensures r.Some? ==> r.value.next == next
      ensures r.Some? && position < next ==> r.value.items == items
      ensures r.Some? && next <= position ==> r.value.items == items[position := item]
    {
      if position < next then Some(this)
      else if position in items then None
      else Some(Log(items[position := item], next))
    }

    function Advance(): (r: Log<T>)
      requires HasNext()
      ensures r.next == next + 1
      ensures r.items.Keys == items.Keys - {next}
      ensures forall k :: k in r.items ==> r.items[k] == items[k]
      ensures |r.items| < |items|
    {
      assert (items - {next}).Keys == items.Keys - {next};
      assert |items.Keys - {next}| == |items.Keys| - 1;
      Log(items - {next}, next + 1)
    }
  }

  /** The mutable log. `ok == false` stands for the exception of the original. */
  class AsyncLog<T> {
    var items: map<nat, T>
    var next: nat

    ghost function View(): Log<T>
      reads this
    {
      Log(items, next)
    }

    constructor (startFrom: nat := 0)
      ensures View() == Log(map[], startFrom)
    {
      items := map[];
      next := startFrom;
    }

    method Insert(position: nat, item: T) returns (ok: bool)
      modifies this
      ensures ok == old(View()).Insert(position, item).Some?
      ensures View() == if ok then old(View()).Insert(position, item).value else old(View())
    {
      if position < next {
        return true;
      }
      if position in items {
        return false;
      }
      items := items[position := item];
      ok := true;
    }

    method HasNext() returns (b: bool)
      ensures b == View().HasNext()
    {
      b := next in items;
    }

    method Peek() returns (item: T)
      requires View().HasNext()
      ensures item == View().items[View().next]
    {
      item := items[next];
    }

    method Next() returns (position: nat, item: T)
      requires View().HasNext()
      modifies this
      ensures position == old(next) && item == old(items[next])
      ensures View() == old(View()).Advance()
    {
      position := next;
      next := next + 1;
      item := items[position];
      items := items - {position};
    }
  }
}
