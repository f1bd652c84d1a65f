/** The bounded set of message ids that the stream manager has already delivered. */
module SeenIds {

  /** Recording `id` in the ids remembered so far, oldest first: when there are more than `maxlen`, the oldest half goes. */
  function Remember<T(==)>(maxlen: int, order: seq<T>, id: T): seq<T> {
    if id in order then order
    else if |order| + 1 > maxlen then (order + [id])[(|order| + 1) / 2..]
    else order + [id]
  }

  /** How many of the newest ids are remembered at least. */
  function Window(maxlen: int): nat {
    if maxlen < 0 then 1 else (maxlen + 2) / 2
  }

  function Newest<T>(s: seq<T>, n: nat): seq<T> {
    if |s| <= n then s else s[|s| - n..]
  }

  ghost predicate NoRepeats<T(!new)>(s: seq<T>) {
    forall i, j :: 0 <= i < j < |s| ==> s[i] != s[j]
  }

  ghost predicate IsTail<T>(tail: seq<T>, s: seq<T>) {
    |tail| <= |s| && forall i :: 0 <= i < |tail| ==> tail[i] == s[|s| - |tail| + i]
  }

  lemma TailAppend<T>(tail: seq<T>, s: seq<T>, x: T)
    requires IsTail(tail, s)
    ensures IsTail(tail + [x], s + [x])
  {
  }

  lemma TailDrop<T>(tail: seq<T>, s: seq<T>, n: nat)
    requires IsTail(tail, s) && n <= |tail|
    ensures IsTail(tail[n..], s)
  {
  }

  function AtLeast(maxlen: int, recorded: nat): nat {
    if recorded <= Window(maxlen) then recorded else Window(maxlen)
  }

  function AtMost(maxlen: int): nat {
    if maxlen >= 1 then maxlen else 1
  }

  /** `order` holds the newest recorded ids, and at least a window of them. */
  ghost predicate Remembers<T(!new)>(maxlen: int, order: seq<T>, recorded: seq<T>) {
    NoRepeats(order) && IsTail(order, recorded) && AtLeast(maxlen, |recorded|) <= |order| <= AtMost(maxlen)
  }

  lemma RememberLength<T>(maxlen: int, order: seq<T>, id: T, recorded: nat)
    requires id !in order && AtLeast(maxlen, recorded) <= |order| <= AtMost(maxlen)
    ensures AtLeast(maxlen, recorded + 1) <= |Remember(maxlen, order, id)| <= AtMost(maxlen)
  {
  }

  lemma RememberTail<T(!new)>(maxlen: int, order: seq<T>, recorded: seq<T>, id: T)
    requires IsTail(order, recorded) && id !in order
    ensures IsTail(Remember(maxlen, order, id), recorded + [id])
    ensures id in Remember(maxlen, order, id)
  {
    TailAppend(order, recorded, id);
    var half := (|order| + 1) / 2;
    TailDrop(order + [id], recorded + [id], half);
    assert (order + [id])[half..][|order| - half] == id;
    assert (order + [id])[|order|] == id;
  }

  lemma RememberDistinct<T(!new)>(maxlen: int, order: seq<T>, id: T)
    requires NoRepeats(order)
    ensures NoRepeats(Remember(maxlen, order, id))
  {
  }

  lemma RememberKeeps<T(!new)>(maxlen: int, order: seq<T>, recorded: seq<T>, id: T)
    requires Remembers(maxlen, order, recorded) && id !in order
    ensures Remembers(maxlen, Remember(maxlen, order, id), recorded + [id])
  {
    RememberTail(maxlen, order, recorded, id);
    RememberDistinct(maxlen, order, id);
    RememberLength(maxlen, order, id, |recorded|);
  }

  /** Everything among the newest `Window` recorded ids is still remembered. */
  lemma WindowIsRemembered<T(!new)>(maxlen: int, order: seq<T>, recorded: seq<T>, id: T)
    requires Remembers(maxlen, order, recorded)
    ensures id in Newest(recorded, Window(maxlen)) ==> id in order
    ensures id in order ==> id in recorded
  {
    var newest := Newest(recorded, Window(maxlen));
    if id in newest {
      var i :| 0 <= i < |newest| && newest[i] == id;
      var at := |recorded| - |newest| + i;
      assert recorded[at] == id && order[at - (|recorded| - |order|)] == id;
    }
  }

  // ---- the set ----

  /** The ids after recording a whole list. */
  function RememberAll<T(==)>(maxlen: int, ids: seq<T>): seq<T>
    decreases |ids|
  {
    if ids == [] then [] else Remember(maxlen, RememberAll(maxlen, ids[..|ids| - 1]), ids[|ids| - 1])
  }

  /** The set never holds more than `maxlen` ids, for all inputs, exactly if `maxlen` is positive. */
  lemma BoundedExactlyIfPositive(maxlen: int)
    ensures (forall ids: seq<int> :: |RememberAll(maxlen, ids)| <= maxlen) <==> maxlen >= 1
  {
    if maxlen >= 1 {
      forall ids: seq<int>
        ensures |RememberAll(maxlen, ids)| <= maxlen
      {
        var _ := RememberAllRemembers(maxlen, ids);
      }
    } else {
      var one := [7];
      assert one[..0] == [];
      assert RememberAll(maxlen, one) == Remember(maxlen, [], 7) == [7];
      assert |RememberAll(maxlen, one)| > maxlen;
    }
  }

  lemma {:induction false} RememberAllRemembers<T(!new)>(maxlen: int, ids: seq<T>) returns (recorded: seq<T>)
    ensures Remembers(maxlen, RememberAll(maxlen, ids), recorded)
    ensures forall id :: id in recorded <==> id in ids
    decreases |ids|
  {
    if ids == [] {
      recorded := [];
    } else {
      var id := ids[|ids| - 1];
      var earlier := RememberAllRemembers(maxlen, ids[..|ids| - 1]);
      var order := RememberAll(maxlen, ids[..|ids| - 1]);
      if id !in order { RememberKeeps(maxlen, order, earlier, id); }
      WindowIsRemembered(maxlen, order, earlier, id);
      recorded := if id in order then earlier else earlier + [id];
      assert ids == ids[..|ids| - 1] + [id];
    }
  }

  class SeenSet<T(!new, ==)> {
    const maxlen: int
    var order: seq<T>
    var ids: set<T>
    /** Every id that was new when it was added, oldest first. */
    ghost var recorded: seq<T>

    ghost predicate Valid()
      reads this
    {
      Remembers(maxlen, order, recorded) && forall id :: id in ids <==> id in order
    }

    constructor (maxlen: int)
      ensures Valid() && this.maxlen == maxlen && order == [] && recorded == []
    {
      this.maxlen := maxlen;
      order, ids, recorded := [], {}, [];
    }

    predicate Contains(id: T)
      reads this
    {
      id in ids
    }

    /** Records `id` and answers whether it was new. */
    method Add(id: T) returns (isNew: bool)
      requires Valid()
      modifies this
      ensures Valid()
      ensures isNew <==> id !in old(order)
      ensures order == Remember(maxlen, old(order), id)
      ensures recorded == if isNew then old(recorded) + [id] else old(recorded)
    {
      if id in ids { return false; }
      RememberKeeps(maxlen, order, recorded, id);
      ids := ids + {id};
      order := order + [id];
      recorded := recorded + [id];
      if |order| > maxlen {
        DropOldest(|order| / 2);
      }
      return true;
    }

    method DropOldest(n: nat)
      requires n <= |order| && NoRepeats(order) && forall x :: x in ids <==> x in order
      modifies `order, `ids
      ensures order == old(order)[n..] && forall x :: x in ids <==> x in order
    {
      ghost var longer := order;
      for i := 0 to n
        invariant order == longer[i..]
        invariant forall x :: x in ids <==> x in order
      {
        Uncons(order);
        ids := ids - {order[0]};
        order := order[1..];
      }
    }
  }

  lemma Uncons<T(!new)>(s: seq<T>)
    requires s != [] && NoRepeats(s)
    ensures forall x :: x in s[1..] <==> x in s && x != s[0]
  {
    forall x | x in s && x != s[0]
      ensures x in s[1..]
    {
      var i :| 0 <= i < |s| && s[i] == x;
      assert s[1..][i - 1] == x;
    }
  }
}
