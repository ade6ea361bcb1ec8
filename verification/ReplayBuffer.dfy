/** The bounded replay buffer of `ServerState::append_replay`. */
module ReplayBuffer {
  import opened Wrappers

  /** The last `cap` bytes, or all of them when there are fewer. */
  function Tail(s: Bytes, cap: nat): (r: Bytes)
    ensures |r| == if |s| <= cap then |s| else cap
  {
    if |s| <= cap then s else s[|s| - cap..]
  }

  /** The tail ends where the whole ends. */
  lemma TailAt(s: Bytes, cap: nat, k: nat)
    requires k < |s| && k < cap
    ensures var r := Tail(s, cap); k < |r| && r[|r| - 1 - k] == s[|s| - 1 - k]
  {
  }

  /** `append_replay`: append, then drain the overflow from the front. */
  function Append(replay: Bytes, chunk: Bytes, cap: nat): Bytes {
    var longer := replay + chunk;
    if |longer| > cap then longer[|longer| - cap..] else longer
  }

  function AppendAll(replay: Bytes, chunks: seq<Bytes>, cap: nat): Bytes
    decreases |chunks|
  {
    if chunks == [] then replay else AppendAll(Append(replay, chunks[0], cap), chunks[1..], cap)
  }

  /** Appending to the tail of a history gives the tail of the longer history. */
  lemma AppendKeepsTail(history: Bytes, chunk: Bytes, cap: nat)
    ensures Append(Tail(history, cap), chunk, cap) == Tail(history + chunk, cap)
  {
  }

  /** Any appends, in the order of the lock, leave the last bytes of everything ever appended. */
  lemma {:induction false} AppendsKeepTail(history: Bytes, chunks: seq<Bytes>, cap: nat)
    ensures AppendAll(Tail(history, cap), chunks, cap) == Tail(history + Concat(chunks), cap)
    decreases |chunks|
  {
    if chunks == [] {
      assert history + Concat(chunks) == history;
    } else {
      AppendKeepsTail(history, chunks[0], cap);
      AppendsKeepTail(history + chunks[0], chunks[1..], cap);
      Regroup(history, chunks[0], Concat(chunks[1..]));
    }
  }
}
