/**
 * A list of messages with ids and a read flag, as the admin alerts panel
 * and the notifications page both keep it: mark one or all as read,
 * remove by id, and count the unread ones. Each view puts its own fields
 * in `content`.
 */
module Inbox {
  import opened Seqs

  datatype Item<T> = Item(id: int, read: bool, content: T)

  predicate IsUnread<T>(x: Item<T>) { !x.read }

  /** `items.filter(x => !x.read).length` */
  function UnreadCount<T(==)>(items: seq<Item<T>>): (n: nat)
    ensures n <= |items|
  {
    |Filter(items, IsUnread)|
  }

  /** Nothing is unread exactly when every item is read. */
  lemma {:induction false} NoUnread<T>(items: seq<Item<T>>)
    ensures UnreadCount(items) == 0 <==> forall i :: 0 <= i < |items| ==> items[i].read
  {
    if items != [] {
      NoUnread(items[1..]);
      if forall i :: 0 <= i < |items[1..]| ==> items[1..][i].read {
        if items[0].read {
          forall i | 0 <= i < |items| ensures items[i].read {
            if i > 0 { assert items[i] == items[1..][i - 1]; }
          }
        }
      }
      if forall i :: 0 <= i < |items| ==> items[i].read {
        assert forall i :: 0 <= i < |items[1..]| ==> items[1..][i].read by {
          forall i | 0 <= i < |items[1..]| ensures items[1..][i].read {
            assert items[1..][i] == items[i + 1];
          }
        }
      }
    }
  }

  function MarkOne<T>(x: Item<T>, id: int): Item<T> {
    if x.id == id then x.(read := true) else x
  }

  /** `items.map(x => x.id === id ? { ...x, read: true } : x)` */
  function MarkAsRead<T>(items: seq<Item<T>>, id: int): (r: seq<Item<T>>)
    ensures |r| == |items|
    ensures forall i :: 0 <= i < |r| ==> r[i].id == items[i].id && r[i].content == items[i].content
    ensures forall i :: 0 <= i < |r| ==> (r[i].read <==> items[i].read || items[i].id == id)
  {
    if items == [] then [] else [MarkOne(items[0], id)] + MarkAsRead(items[1..], id)
  }

  /** Marking twice is marking once. */
  lemma MarkAsReadIdempotent<T>(items: seq<Item<T>>, id: int)
    ensures MarkAsRead(MarkAsRead(items, id), id) == MarkAsRead(items, id)
  {
    var r := MarkAsRead(items, id);
    var rr := MarkAsRead(r, id);
    assert forall i :: 0 <= i < |r| ==> rr[i] == r[i];
  }

  /** Marking never raises the unread count, and lowers it when an unread item has the id. */
  lemma {:induction false} MarkAsReadCount<T>(items: seq<Item<T>>, id: int)
    ensures UnreadCount(MarkAsRead(items, id)) <= UnreadCount(items)
    ensures (exists i :: 0 <= i < |items| && items[i].id == id && !items[i].read) ==>
      UnreadCount(MarkAsRead(items, id)) < UnreadCount(items)
  {
    if items != [] {
      MarkAsReadCount(items[1..], id);
      var r := MarkAsRead(items, id);
      assert r[0] == MarkOne(items[0], id);
      assert r[1..] == MarkAsRead(items[1..], id);
      if exists i :: 0 <= i < |items| && items[i].id == id && !items[i].read {
        var i :| 0 <= i < |items| && items[i].id == id && !items[i].read;
        if i > 0 {
          assert items[1..][i - 1] == items[i];
        }
      }
    }
  }

  /** `items.map(x => ({ ...x, read: true }))` */
  function MarkAllAsRead<T>(items: seq<Item<T>>): (r: seq<Item<T>>)
    ensures |r| == |items|
    ensures forall i :: 0 <= i < |r| ==> r[i] == items[i].(read := true)
  {
    if items == [] then [] else [items[0].(read := true)] + MarkAllAsRead(items[1..])
  }

  /** After marking all, nothing is unread. */
  lemma MarkAllClearsUnread<T>(items: seq<Item<T>>)
    ensures UnreadCount(MarkAllAsRead(items)) == 0
  {
    NoUnread(MarkAllAsRead(items));
  }

  /** `items.filter(x => x.id !== id)` */
  function Remove<T(==)>(items: seq<Item<T>>, id: int): (r: seq<Item<T>>)
    ensures forall i :: 0 <= i < |r| ==> r[i] in items && r[i].id != id
    ensures forall i :: 0 <= i < |items| && items[i].id != id ==> items[i] in r
    ensures multiset(r) <= multiset(items)
    ensures forall i :: 0 <= i < |items| ==>
      multiset(r)[items[i]] == if items[i].id != id then multiset(items)[items[i]] else 0
    ensures IsSubseq(r, items)
  {
    var p := (x: Item<T>) => x.id != id;
    var r := Filter(items, p);
    FilterCounts(items, p);
    forall i | 0 <= i < |r| ensures r[i] in items {
      FilterMembers(items, p, r[i]);
    }
    forall i | 0 <= i < |items| && items[i].id != id ensures items[i] in r {
      FilterMembers(items, p, items[i]);
    }
    FilterSubseq(items, p);
    r
  }

  /** Removing never raises the unread count, and keeps it when no unread item has the id. */
  lemma {:induction false} RemoveCount<T>(items: seq<Item<T>>, id: int)
    ensures UnreadCount(Remove(items, id)) <= UnreadCount(items)
    ensures (forall i :: 0 <= i < |items| && !items[i].read ==> items[i].id != id) ==>
      UnreadCount(Remove(items, id)) == UnreadCount(items)
  {
    if items != [] {
      var x, rest := items[0], items[1..];
      RemoveCount(rest, id);
      var r := Remove(rest, id);
      if x.id != id {
        assert Remove(items, id) == [x] + r;
        assert ([x] + r)[0] == x && ([x] + r)[1..] == r;
      } else {
        assert Remove(items, id) == r;
      }
      if forall i :: 0 <= i < |items| && !items[i].read ==> items[i].id != id {
        assert forall i :: 0 <= i < |rest| && !rest[i].read ==> rest[i].id != id by {
          forall i | 0 <= i < |rest| && !rest[i].read ensures rest[i].id != id {
            assert rest[i] == items[i + 1];
          }
        }
      }
    }
  }

  /** Removing an id no item has changes nothing. */
  lemma RemoveAbsent<T>(items: seq<Item<T>>, id: int)
    requires forall i :: 0 <= i < |items| ==> items[i].id != id
    ensures Remove(items, id) == items
  {
    FilterAll(items, (x: Item<T>) => x.id != id);
  }
}
