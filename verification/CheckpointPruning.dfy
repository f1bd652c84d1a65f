/** Which checkpoints `prune_checkpoints` keeps. */
module CheckpointPruning {
  import opened Tables

  /** The version text under which a checkpoint's channel would have been stored. */
  function VersionText(cp: Checkpoint, channel: string): string {
    if channel in cp.channelVersions then cp.channelVersions[channel] else "None"
  }

  /** The checkpoint itself, or a stored blob, holds the channel's full value. */
  predicate Resolves(blobs: set<Blob>, ns: string, cp: Checkpoint, channel: string) {
    channel in cp.channelValues || Blob(ns, channel, VersionText(cp, channel)) in blobs
  }

  function Unresolved(blobs: set<Blob>, ns: string, cp: Checkpoint, channels: set<string>): set<string> {
    set ch | ch in channels && !Resolves(blobs, ns, cp, ch)
  }

  /** The newest checkpoint of its namespace. */
  predicate IsHead(rows: map<CheckpointKey, Checkpoint>, head: CheckpointKey) {
    head in rows && forall k :: k in rows && k.ns == head.ns ==> k.id <= head.id
  }

  /** The keys kept while walking from `at` towards the root until every channel is resolved,
      the parent is missing, or the walk meets a checkpoint it has already kept. */
  function WalkKeys(rows: map<CheckpointKey, Checkpoint>, blobs: set<Blob>, at: CheckpointKey,
                    channels: set<string>, visited: set<CheckpointKey>): set<CheckpointKey>
    decreases rows.Keys - visited
  {
    if at !in rows || at in visited then {}
    else
      var cp := rows[at];
      var left := Unresolved(blobs, at.ns, cp, channels);
      if left == {} || cp.parent.None? then {at}
      else {at} + WalkKeys(rows, blobs, CheckpointKey(at.ns, cp.parent.value), left, visited + {at})
  }

  ghost function KeptKeys(rows: map<CheckpointKey, Checkpoint>, blobs: set<Blob>): set<CheckpointKey> {
    set head, k | head in rows && IsHead(rows, head) && k in WalkKeys(rows, blobs, head, rows[head].deltaChannels, {}) :: k
  }

  /** Deletes the checkpoints outside `kept` together with the writes attached to them. */
  function KeepOnly(h: History, kept: set<CheckpointKey>): History {
    History(map k | k in h.checkpoints && k in kept :: h.checkpoints[k],
            map w | w in h.writes && (w.at in kept || w.at !in h.checkpoints) :: h.writes[w])
  }

  ghost function Pruned(h: History, blobs: set<Blob>): History {
    KeepOnly(h, KeptKeys(h.checkpoints, blobs))
  }
}
