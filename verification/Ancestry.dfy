/** Which checkpoints survive pruning, in terms of ancestors and of the places where a channel's value is stored. */
module Ancestry {
  import opened Wrappers
  import opened Tables
  import opened CheckpointPruning
  import opened PruneWalk

  type Rows = map<CheckpointKey, Checkpoint>

  /** A line of checkpoints of one namespace, each followed by its parent. */
  ghost predicate Line(rows: Rows, path: seq<CheckpointKey>) {
    && path != []
    && (forall i :: 0 <= i < |path| ==> path[i] in rows)
    && (forall i :: 0 < i < |path| ==> rows[path[i - 1]].parent == Some(path[i].id) && path[i].ns == path[i - 1].ns)
  }

  /** The checkpoint has the channel's full value: in its own row, or as a blob under the channel's version. */
  ghost predicate HasValue(rows: Rows, blobs: set<Blob>, k: CheckpointKey, channel: string) {
    && k in rows
    && var cp := rows[k];
       || channel in cp.channelValues
       || (channel in cp.channelVersions && Blob(k.ns, channel, cp.channelVersions[channel]) in blobs)
       || (channel !in cp.channelVersions && Blob(k.ns, channel, "None") in blobs)
  }

  /** No checkpoint before the last one of the line has the channel's value. */
  ghost predicate Unvalued(rows: Rows, blobs: set<Blob>, path: seq<CheckpointKey>, channel: string) {
    forall i :: 0 <= i < |path| - 1 ==> !HasValue(rows, blobs, path[i], channel)
  }

  predicate DistinctKeys(path: seq<CheckpointKey>) {
    forall i, j :: 0 <= i < j < |path| ==> path[i] != path[j]
  }

  lemma LineTail(rows: Rows, path: seq<CheckpointKey>)
    requires Line(rows, path) && |path| > 1
    ensures Line(rows, path[1..]) && rows[path[0]].parent == Some(path[1].id) && path[1].ns == path[0].ns
  {
    assert rows[path[0]].parent == Some(path[1].id);
    forall i | 0 < i < |path[1..]|
      ensures rows[path[1..][i - 1]].parent == Some(path[1..][i].id) && path[1..][i].ns == path[1..][i - 1].ns
    {
      assert rows[path[i + 1 - 1]].parent == Some(path[i + 1].id);
    }
  }

  // ---- everything that is read is kept ----

  /** The reconstruction of a channel reads every line of distinct checkpoints on which it has no value before the last one. */
  lemma {:induction false} LineIsRead(rows: Rows, blobs: set<Blob>, path: seq<CheckpointKey>, channel: string, visited: set<CheckpointKey>)
    requires Line(rows, path) && DistinctKeys(path) && Unvalued(rows, blobs, path, channel)
    requires forall i :: 0 <= i < |path| ==> path[i] !in visited
    ensures path[|path| - 1] in Visits(rows, blobs, path[0], channel, visited)
    decreases |path|
  {
    if |path| > 1 {
      LineTail(rows, path);
      assert path[1] == CheckpointKey(path[0].ns, path[1].id);
      assert !HasValue(rows, blobs, path[0], channel);
      assert forall i :: 0 <= i < |path[1..]| ==> path[1..][i] == path[i + 1];
      LineIsRead(rows, blobs, path[1..], channel, visited + {path[0]});
    }
  }

  /** On a line that meets a checkpoint again, everything after it was there before. */
  lemma {:induction false} LineRepeats(rows: Rows, path: seq<CheckpointKey>, i: nat, j: nat, n: nat)
    requires Line(rows, path) && i < j <= n < |path| && path[i] == path[j]
    ensures path[n] == path[n - (j - i)]
    decreases n - j
  {
    if n > j {
      LineRepeats(rows, path, i, j, n - 1);
      assert rows[path[n - 1]].parent == Some(path[n].id);
      assert rows[path[n - (j - i) - 1]].parent == Some(path[n - (j - i)].id);
    }
  }

  /** With cycles or without: the reconstruction reads the last checkpoint of every such line. */
  lemma {:induction false} LastIsRead(rows: Rows, blobs: set<Blob>, path: seq<CheckpointKey>, channel: string)
    requires Line(rows, path) && Unvalued(rows, blobs, path, channel)
    ensures path[|path| - 1] in Visits(rows, blobs, path[0], channel, {})
    decreases |path|
  {
    if DistinctKeys(path) {
      LineIsRead(rows, blobs, path, channel, {});
    } else {
      var i, j :| 0 <= i < j < |path| && path[i] == path[j];
      var n := |path| - 1 - (j - i);
      LineRepeats(rows, path, i, j, |path| - 1);
      LastIsRead(rows, blobs, path[..n + 1], channel);
    }
  }

  // ---- nothing else is kept ----

  /** What the reconstruction reads lies on such a line. */
  lemma {:induction false} ReadLiesOnLine(rows: Rows, blobs: set<Blob>, at: CheckpointKey, channel: string, visited: set<CheckpointKey>,
                                          k: CheckpointKey) returns (path: seq<CheckpointKey>)
    requires k in Visits(rows, blobs, at, channel, visited)
    ensures Line(rows, path) && path[0] == at && path[|path| - 1] == k && Unvalued(rows, blobs, path, channel)
    decreases rows.Keys - visited
  {
    if k == at {
      path := [at];
    } else {
      var next := CheckpointKey(at.ns, rows[at].parent.value);
      var rest := ReadLiesOnLine(rows, blobs, next, channel, visited + {at}, k);
      path := [at] + rest;
      assert !HasValue(rows, blobs, at, channel);
      forall i | 0 <= i < |path| - 1
        ensures !HasValue(rows, blobs, path[i], channel)
      {
        if i > 0 { assert path[i] == rest[i - 1]; }
      }
    }
  }

  /** From a head, along parents, to `k`: directly, or with no value of some delta channel of the head on the way. */
  ghost predicate NeededBy(rows: Rows, blobs: set<Blob>, path: seq<CheckpointKey>, k: CheckpointKey) {
    && Line(rows, path) && IsHead(rows, path[0]) && path[|path| - 1] == k
    && (|path| == 1 || exists ch :: ch in rows[path[0]].deltaChannels && Unvalued(rows, blobs, path, ch))
  }

  lemma NeededIsKept(rows: Rows, blobs: set<Blob>, path: seq<CheckpointKey>, k: CheckpointKey)
    requires NeededBy(rows, blobs, path, k)
    ensures k in KeptKeys(rows, blobs)
  {
    var head := path[0];
    if |path| > 1 {
      var ch :| ch in rows[head].deltaChannels && Unvalued(rows, blobs, path, ch);
      LastIsRead(rows, blobs, path, ch);
      assert ReadBySome(rows, blobs, head, rows[head].deltaChannels, {}, k);
    }
    KeptIsExact(rows, blobs, k);
  }

  lemma KeptIsNeeded(rows: Rows, blobs: set<Blob>, k: CheckpointKey) returns (path: seq<CheckpointKey>)
    requires k in KeptKeys(rows, blobs)
    ensures NeededBy(rows, blobs, path, k)
  {
    KeptIsExact(rows, blobs, k);
    var head :| head in rows && IsHead(rows, head)
                && (k == head || ReadBySome(rows, blobs, head, rows[head].deltaChannels, {}, k));
    if k == head {
      path := [head];
    } else {
      var ch :| ch in rows[head].deltaChannels && k in Visits(rows, blobs, head, ch, {});
      path := ReadLiesOnLine(rows, blobs, head, ch, {}, k);
    }
  }

  /** A checkpoint survives pruning if and only if it is a head, or an ancestor of a head such that none of the checkpoints
      before it, from the head on, has the value of some delta channel of that head. Its pending writes survive with it. */
  lemma SurvivesExactly(h: History, blobs: set<Blob>, k: CheckpointKey)
    ensures k in Pruned(h, blobs).checkpoints <==> exists path :: NeededBy(h.checkpoints, blobs, path, k)
    ensures k in Pruned(h, blobs).checkpoints ==> Pruned(h, blobs).checkpoints[k] == h.checkpoints[k]
    ensures forall w :: w in h.writes && w.at == k && k in h.checkpoints ==>
              (w in Pruned(h, blobs).writes <==> k in Pruned(h, blobs).checkpoints)
  {
    if k in Pruned(h, blobs).checkpoints {
      var path := KeptIsNeeded(h.checkpoints, blobs, k);
    }
    if path :| NeededBy(h.checkpoints, blobs, path, k) {
      NeededIsKept(h.checkpoints, blobs, path, k);
    }
  }

  // ---- what that means for the reader of a channel ----

  lemma {:induction false} FirstValued(rows: Rows, blobs: set<Blob>, path: seq<CheckpointKey>, channel: string, n: nat) returns (first: nat)
    requires n < |path| && HasValue(rows, blobs, path[n], channel)
    ensures first <= n && HasValue(rows, blobs, path[first], channel)
    ensures forall i :: 0 <= i < first ==> !HasValue(rows, blobs, path[i], channel)
    decreases n
  {
    if i :| 0 <= i < n && HasValue(rows, blobs, path[i], channel) {
      first := FirstValued(rows, blobs, path, channel, i);
    } else {
      first := n;
    }
  }

  lemma LinePrefix(rows: Rows, path: seq<CheckpointKey>, n: nat)
    requires Line(rows, path) && n < |path|
    ensures Line(rows, path[..n + 1])
  {
  }

  lemma PrefixSurvives(h: History, blobs: set<Blob>, path: seq<CheckpointKey>, channel: string, first: nat, i: nat)
    requires Line(h.checkpoints, path) && IsHead(h.checkpoints, path[0]) && channel in h.checkpoints[path[0]].deltaChannels
    requires i <= first < |path| && forall j :: 0 <= j < first ==> !HasValue(h.checkpoints, blobs, path[j], channel)
    ensures path[i] in Pruned(h, blobs).checkpoints && Pruned(h, blobs).checkpoints[path[i]] == h.checkpoints[path[i]]
  {
    LinePrefix(h.checkpoints, path, i);
    assert NeededBy(h.checkpoints, blobs, path[..i + 1], path[i]);
    NeededIsKept(h.checkpoints, blobs, path[..i + 1], path[i]);
  }

  /** If some ancestor of a head has the value of one of its delta channels, then after pruning the line from the head up to
      the first such ancestor is complete and unchanged, and no checkpoint on it before has the value. */
  lemma ValueStaysReachable(h: History, blobs: set<Blob>, path: seq<CheckpointKey>, channel: string)
    requires Line(h.checkpoints, path) && IsHead(h.checkpoints, path[0]) && channel in h.checkpoints[path[0]].deltaChannels
    requires HasValue(h.checkpoints, blobs, path[|path| - 1], channel)
    ensures exists n: nat :: n < |path| && Line(Pruned(h, blobs).checkpoints, path[..n + 1])
              && HasValue(Pruned(h, blobs).checkpoints, blobs, path[n], channel)
              && (forall i :: 0 <= i <= n ==> Pruned(h, blobs).checkpoints[path[i]] == h.checkpoints[path[i]])
              && (forall i :: 0 <= i < n ==> !HasValue(Pruned(h, blobs).checkpoints, blobs, path[i], channel))
  {
    var n := FirstValued(h.checkpoints, blobs, path, channel, |path| - 1);
    forall i | 0 <= i <= n
      ensures path[i] in Pruned(h, blobs).checkpoints && Pruned(h, blobs).checkpoints[path[i]] == h.checkpoints[path[i]]
    {
      PrefixSurvives(h, blobs, path, channel, n, i);
    }
    LinePrefix(h.checkpoints, path, n);
    SameLine(h.checkpoints, Pruned(h, blobs).checkpoints, path[..n + 1]);
  }

  lemma SameLine(rows: Rows, small: Rows, path: seq<CheckpointKey>)
    requires Line(rows, path) && forall i :: 0 <= i < |path| ==> path[i] in small && small[path[i]] == rows[path[i]]
    ensures Line(small, path)
  {
  }

  /** Lines from the same start follow the same parents. */
  lemma {:induction false} LinesAgree(rows: Rows, a: seq<CheckpointKey>, b: seq<CheckpointKey>, i: nat)
    requires Line(rows, a) && Line(rows, b) && a[0] == b[0] && i < |a| && i < |b|
    ensures a[i] == b[i]
    decreases i
  {
    if i > 0 {
      LinesAgree(rows, a, b, i - 1);
      assert rows[a[i - 1]].parent == Some(a[i].id) && rows[b[i - 1]].parent == Some(b[i].id);
    }
  }

  /** Nothing is kept of a head's line beyond the checkpoints where all its delta channels have found their values. */
  lemma NothingOlderIsKept(h: History, blobs: set<Blob>, path: seq<CheckpointKey>)
    requires Line(h.checkpoints, path) && IsHead(h.checkpoints, path[0]) && |path| > 1
    requires path[|path| - 1] !in path[..|path| - 1]
    requires forall ch :: ch in h.checkpoints[path[0]].deltaChannels ==>
               exists i :: 0 <= i < |path| - 1 && HasValue(h.checkpoints, blobs, path[i], ch)
    ensures path[|path| - 1] !in Pruned(h, blobs).checkpoints
  {
    var k := path[|path| - 1];
    if k in Pruned(h, blobs).checkpoints {
      var other := KeptIsNeeded(h.checkpoints, blobs, k);
      OneNamespace(h.checkpoints, path, |path| - 1);
      OneNamespace(h.checkpoints, other, |other| - 1);
      assert other[0] == path[0];
      OtherIsAsLong(h.checkpoints, path, other);
      var ch :| ch in h.checkpoints[path[0]].deltaChannels && Unvalued(h.checkpoints, blobs, other, ch);
      var i :| 0 <= i < |path| - 1 && HasValue(h.checkpoints, blobs, path[i], ch);
      LinesAgree(h.checkpoints, path, other, i);
    }
  }

  lemma {:induction false} OneNamespace(rows: Rows, path: seq<CheckpointKey>, i: nat)
    requires Line(rows, path) && i < |path|
    ensures path[i].ns == path[0].ns
    decreases i
  {
    if i > 0 {
      OneNamespace(rows, path, i - 1);
      assert path[i].ns == path[i - 1].ns;
    }
  }

  lemma OtherIsAsLong(rows: Rows, path: seq<CheckpointKey>, other: seq<CheckpointKey>)
    requires Line(rows, path) && Line(rows, other) && other[0] == path[0] && other[|other| - 1] == path[|path| - 1]
    requires path[|path| - 1] !in path[..|path| - 1]
    ensures |other| >= |path|
  {
    if |other| < |path| {
      assert path[..|path| - 1][|other| - 1] == path[|other| - 1];
      LinesAgree(rows, path, other, |other| - 1);
    }
  }
}
