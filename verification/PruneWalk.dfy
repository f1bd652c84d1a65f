/** The ancestor walk of `prune_checkpoints`, and why a pruned thread reads the same. */
module PruneWalk {
  import opened Wrappers
  import opened Tables
  import opened CheckpointPruning

  // ---- reconstruction ----

  /** The checkpoints that the reconstruction of one delta channel reads, starting at `at`: its ancestors up to the
      first one that holds the channel's full value. */
  function Visits(rows: map<CheckpointKey, Checkpoint>, blobs: set<Blob>, at: CheckpointKey, channel: string,
                  visited: set<CheckpointKey>): seq<CheckpointKey>
    decreases rows.Keys - visited
  {
    if at !in rows || at in visited then []
    else if Resolves(blobs, at.ns, rows[at], channel) || rows[at].parent.None? then [at]
    else [at] + Visits(rows, blobs, CheckpointKey(at.ns, rows[at].parent.value), channel, visited + {at})
  }

  ghost predicate ReadBySome(rows: map<CheckpointKey, Checkpoint>, blobs: set<Blob>, at: CheckpointKey, channels: set<string>,
                             visited: set<CheckpointKey>, k: CheckpointKey) {
    exists ch :: ch in channels && k in Visits(rows, blobs, at, ch, visited)
  }

  /** The shared walk keeps its start and what the reconstruction of some channel reads, and nothing else. */
  lemma {:induction false} WalkIsExact(rows: map<CheckpointKey, Checkpoint>, blobs: set<Blob>, at: CheckpointKey,
                                       channels: set<string>, visited: set<CheckpointKey>, k: CheckpointKey)
    ensures k in WalkKeys(rows, blobs, at, channels, visited) <==>
            (k == at && at in rows && at !in visited) || ReadBySome(rows, blobs, at, channels, visited, k)
    decreases rows.Keys - visited
  {
    if at in rows && at !in visited {
      var left := Unresolved(blobs, at.ns, rows[at], channels);
      if left != {} && rows[at].parent.Some? {
        var next := CheckpointKey(at.ns, rows[at].parent.value);
        WalkIsExact(rows, blobs, next, left, visited + {at}, k);
        OneStepFurther(rows, blobs, at, channels, visited, k);
        if k == next && next in rows && next !in visited + {at} {
          var ch :| ch in left;
          assert k in Visits(rows, blobs, next, ch, visited + {at});
        }
      }
    }
  }

  /** Reconstruction continues at the parent exactly for the unresolved channels. */
  lemma OneStepFurther(rows: map<CheckpointKey, Checkpoint>, blobs: set<Blob>, at: CheckpointKey,
                       channels: set<string>, visited: set<CheckpointKey>, k: CheckpointKey)
    requires at in rows && at !in visited && rows[at].parent.Some?
    requires Unresolved(blobs, at.ns, rows[at], channels) != {}
    ensures var next := CheckpointKey(at.ns, rows[at].parent.value);
            var left := Unresolved(blobs, at.ns, rows[at], channels);
            ReadBySome(rows, blobs, at, channels, visited, k) <==>
            k == at || ReadBySome(rows, blobs, next, left, visited + {at}, k)
  {
    var next := CheckpointKey(at.ns, rows[at].parent.value);
    var left := Unresolved(blobs, at.ns, rows[at], channels);
    forall ch | ch in channels
      ensures k in Visits(rows, blobs, at, ch, visited) <==>
              k == at || (ch in left && k in Visits(rows, blobs, next, ch, visited + {at}))
    {
    }
    var some :| some in left;
    assert at in Visits(rows, blobs, at, some, visited);
  }

  /** A smaller table that still has every row that is read gives the same reconstruction. */
  lemma {:induction false} VisitsSurvive(rows: map<CheckpointKey, Checkpoint>, small: map<CheckpointKey, Checkpoint>,
                                         blobs: set<Blob>, at: CheckpointKey, channel: string, visited: set<CheckpointKey>)
    requires forall k :: k in small ==> k in rows && small[k] == rows[k]
    requires forall k :: k in Visits(rows, blobs, at, channel, visited) ==> k in small
    ensures Visits(small, blobs, at, channel, visited) == Visits(rows, blobs, at, channel, visited)
    decreases rows.Keys - visited
  {
    if at in rows && at !in visited {
      assert at in Visits(rows, blobs, at, channel, visited);
      if !Resolves(blobs, at.ns, rows[at], channel) && rows[at].parent.Some? {
        VisitsSurvive(rows, small, blobs, CheckpointKey(at.ns, rows[at].parent.value), channel, visited + {at});
      }
    }
  }

  // ---- what is kept ----

  /** A checkpoint survives exactly if it is the head of its namespace or a head's delta channel is reconstructed from it. */
  lemma KeptIsExact(rows: map<CheckpointKey, Checkpoint>, blobs: set<Blob>, k: CheckpointKey)
    ensures k in KeptKeys(rows, blobs) <==>
            exists head :: head in rows && IsHead(rows, head)
                           && (k == head || ReadBySome(rows, blobs, head, rows[head].deltaChannels, {}, k))
  {
    forall head | head in rows && IsHead(rows, head)
      ensures k in WalkKeys(rows, blobs, head, rows[head].deltaChannels, {}) <==>
              k == head || ReadBySome(rows, blobs, head, rows[head].deltaChannels, {}, k)
    {
      WalkIsExact(rows, blobs, head, rows[head].deltaChannels, {}, k);
    }
  }

  lemma HeadIsKept(rows: map<CheckpointKey, Checkpoint>, blobs: set<Blob>, head: CheckpointKey)
    requires IsHead(rows, head)
    ensures head in KeptKeys(rows, blobs)
  {
    assert head in WalkKeys(rows, blobs, head, rows[head].deltaChannels, {});
  }

  /** Every namespace keeps its newest checkpoint as its newest. */
  lemma HeadsStay(h: History, blobs: set<Blob>, head: CheckpointKey)
    requires IsHead(h.checkpoints, head)
    ensures IsHead(Pruned(h, blobs).checkpoints, head)
  {
    HeadIsKept(h.checkpoints, blobs, head);
  }

  /** For every parent graph, with missing parents or cycles, each delta channel of a head is reconstructed from the same
      checkpoints, with the same contents and pending writes, before and after pruning. */
  lemma PruningPreservesReconstruction(h: History, blobs: set<Blob>, head: CheckpointKey, channel: string)
    requires IsHead(h.checkpoints, head) && channel in h.checkpoints[head].deltaChannels
    ensures var p := Pruned(h, blobs);
            && Visits(p.checkpoints, blobs, head, channel, {}) == Visits(h.checkpoints, blobs, head, channel, {})
            && (forall k :: k in Visits(h.checkpoints, blobs, head, channel, {}) ==>
                  k in h.checkpoints && k in p.checkpoints && p.checkpoints[k] == h.checkpoints[k])
            && (forall w :: w in h.writes && w.at in Visits(h.checkpoints, blobs, head, channel, {}) ==>
                  w in p.writes && p.writes[w] == h.writes[w])
  {
    var rows := h.checkpoints;
    forall k | k in Visits(rows, blobs, head, channel, {})
      ensures k in rows && k in KeptKeys(rows, blobs)
    {
      VisitsAreRows(rows, blobs, head, channel, {});
      assert ReadBySome(rows, blobs, head, rows[head].deltaChannels, {}, k);
      KeptIsExact(rows, blobs, k);
    }
    VisitsSurvive(rows, Pruned(h, blobs).checkpoints, blobs, head, channel, {});
  }

  lemma {:induction false} VisitsAreRows(rows: map<CheckpointKey, Checkpoint>, blobs: set<Blob>, at: CheckpointKey,
                                         channel: string, visited: set<CheckpointKey>)
    ensures forall k :: k in Visits(rows, blobs, at, channel, visited) ==> k in rows && k.ns == at.ns && k !in visited
    decreases rows.Keys - visited
  {
    if at in rows && at !in visited && !Resolves(blobs, at.ns, rows[at], channel) && rows[at].parent.Some? {
      VisitsAreRows(rows, blobs, CheckpointKey(at.ns, rows[at].parent.value), channel, visited + {at});
    }
  }

  lemma {:induction false} WalkStaysInNamespace(rows: map<CheckpointKey, Checkpoint>, blobs: set<Blob>, at: CheckpointKey,
                                                channels: set<string>, visited: set<CheckpointKey>)
    ensures forall k :: k in WalkKeys(rows, blobs, at, channels, visited) ==> k in rows && k.ns == at.ns && k !in visited
    decreases rows.Keys - visited
  {
    if at in rows && at !in visited {
      var left := Unresolved(blobs, at.ns, rows[at], channels);
      if left != {} && rows[at].parent.Some? {
        WalkStaysInNamespace(rows, blobs, CheckpointKey(at.ns, rows[at].parent.value), left, visited + {at});
      }
    }
  }

  lemma KeepAll(h: History, kept: set<CheckpointKey>)
    requires h.checkpoints.Keys <= kept
    ensures KeepOnly(h, kept) == h
  {
  }

  lemma SurvivorIsKept(h: History, blobs: set<Blob>, k: CheckpointKey)
    requires k in KeptKeys(h.checkpoints, blobs)
    ensures k in KeptKeys(Pruned(h, blobs).checkpoints, blobs)
  {
    KeptIsExact(h.checkpoints, blobs, k);
    var head :| head in h.checkpoints && IsHead(h.checkpoints, head)
                && (k == head || ReadBySome(h.checkpoints, blobs, head, h.checkpoints[head].deltaChannels, {}, k));
    StillRead(h, blobs, head, k);
  }

  /** Pruning a second time deletes nothing more. */
  lemma PruningIsIdempotent(h: History, blobs: set<Blob>)
    ensures Pruned(Pruned(h, blobs), blobs) == Pruned(h, blobs)
  {
    var p := Pruned(h, blobs);
    forall k | k in p.checkpoints
      ensures k in KeptKeys(p.checkpoints, blobs)
    {
      SurvivorIsKept(h, blobs, k);
    }
    KeepAll(p, KeptKeys(p.checkpoints, blobs));
  }

  lemma StillRead(h: History, blobs: set<Blob>, head: CheckpointKey, k: CheckpointKey)
    requires IsHead(h.checkpoints, head)
    requires k == head || ReadBySome(h.checkpoints, blobs, head, h.checkpoints[head].deltaChannels, {}, k)
    ensures k in KeptKeys(Pruned(h, blobs).checkpoints, blobs)
  {
    HeadsStay(h, blobs, head);
    if k != head {
      var ch :| ch in h.checkpoints[head].deltaChannels && k in Visits(h.checkpoints, blobs, head, ch, {});
      PruningPreservesReconstruction(h, blobs, head, ch);
      assert ReadBySome(Pruned(h, blobs).checkpoints, blobs, head, h.checkpoints[head].deltaChannels, {}, k);
    }
    KeptIsExact(Pruned(h, blobs).checkpoints, blobs, k);
  }

  // ---- the loop ----

  /** The query's order: every row once, newest identifier first. */
  ghost predicate NewestFirst(rows: map<CheckpointKey, Checkpoint>, order: seq<CheckpointKey>) {
    && (forall k :: k in rows <==> k in order)
    && (forall i, j :: 0 <= i < j < |order| ==> order[i] != order[j] && order[i].id >= order[j].id)
  }

  /** What the heads among the first `n` rows keep. */
  ghost function KeptSoFar(rows: map<CheckpointKey, Checkpoint>, blobs: set<Blob>, order: seq<CheckpointKey>, n: nat): set<CheckpointKey>
    requires n <= |order|
  {
    set head, k | head in order[..n] && head in rows && IsHead(rows, head)
                  && k in WalkKeys(rows, blobs, head, rows[head].deltaChannels, {}) :: k
  }

  /** The first row of a namespace is its head, and later ones are not. */
  lemma FirstIsHead(rows: map<CheckpointKey, Checkpoint>, order: seq<CheckpointKey>, i: nat)
    requires NewestFirst(rows, order) && i < |order|
    ensures order[i] in rows
    ensures IsHead(rows, order[i]) <==> forall j :: 0 <= j < i ==> order[j].ns != order[i].ns
  {
    if j :| 0 <= j < i && order[j].ns == order[i].ns {
      assert order[j] in rows;
      assert order[j].id != order[i].id;
    } else {
      forall k | k in rows && k.ns == order[i].ns
        ensures k.id <= order[i].id
      {
        var m :| 0 <= m < |order| && order[m] == k;
      }
    }
  }

  lemma KeptGrows(rows: map<CheckpointKey, Checkpoint>, blobs: set<Blob>, order: seq<CheckpointKey>, i: nat)
    requires i < |order| && order[i] in rows
    ensures KeptSoFar(rows, blobs, order, i + 1) == KeptSoFar(rows, blobs, order, i)
              + (if IsHead(rows, order[i]) then WalkKeys(rows, blobs, order[i], rows[order[i]].deltaChannels, {}) else {})
  {
    assert order[..i + 1] == order[..i] + [order[i]];
  }

  lemma KeptNamespaces(rows: map<CheckpointKey, Checkpoint>, blobs: set<Blob>, order: seq<CheckpointKey>, n: nat, ns: string)
    requires n <= |order| && forall j :: 0 <= j < n ==> order[j].ns != ns
    ensures forall k :: k in KeptSoFar(rows, blobs, order, n) ==> k.ns != ns
  {
    forall head, k | head in order[..n] && head in rows && k in WalkKeys(rows, blobs, head, rows[head].deltaChannels, {})
      ensures k.ns != ns
    {
      WalkStaysInNamespace(rows, blobs, head, rows[head].deltaChannels, {});
    }
  }

  /** One namespace: from its head towards the root. */
  method WalkFromHead(rows: map<CheckpointKey, Checkpoint>, blobs: set<Blob>, head: CheckpointKey, before: set<CheckpointKey>)
      returns (kept: set<CheckpointKey>)
    requires head in rows && forall k :: k in before ==> k.ns != head.ns
    ensures kept == before + WalkKeys(rows, blobs, head, rows[head].deltaChannels, {})
  {
    kept := before;
    var unresolved := rows[head].deltaChannels;
    var row := Some(head);
    ghost var visited: set<CheckpointKey> := {};
    while row.Some?
      invariant kept == before + visited
      invariant row.Some? ==> row.value in rows && row.value.ns == head.ns
      invariant kept + (if row.Some? then WalkKeys(rows, blobs, row.value, unresolved, visited) else {})
                == before + WalkKeys(rows, blobs, head, rows[head].deltaChannels, {})
      decreases rows.Keys - visited, row.Some?
    {
      var key := row.value;
      if key in kept { break; }
      kept := kept + {key};
      visited := visited + {key};
      unresolved := set ch | ch in unresolved && !Resolves(blobs, key.ns, rows[key], ch);
      if unresolved == {} { break; }
      row := if rows[key].parent.Some? && CheckpointKey(key.ns, rows[key].parent.value) in rows
             then Some(CheckpointKey(key.ns, rows[key].parent.value)) else None;
    }
  }

  /** The whole pass over the rows of a thread. */
  method FindKept(rows: map<CheckpointKey, Checkpoint>, order: seq<CheckpointKey>, blobs: set<Blob>)
      returns (kept: set<CheckpointKey>)
    requires NewestFirst(rows, order)
    ensures kept == KeptKeys(rows, blobs)
  {
    kept := {};
    var namespaces: set<string> := {};
    for i := 0 to |order|
      invariant forall ns :: ns in namespaces <==> exists j :: 0 <= j < i && order[j].ns == ns
      invariant kept == KeptSoFar(rows, blobs, order, i)
    {
      var ns := order[i].ns;
      FirstIsHead(rows, order, i);
      KeptGrows(rows, blobs, order, i);
      if ns !in namespaces {
        namespaces := namespaces + {ns};
        KeptNamespaces(rows, blobs, order, i, ns);
        kept := WalkFromHead(rows, blobs, order[i], kept);
      }
    }
    assert order[..|order|] == order;
  }
}
