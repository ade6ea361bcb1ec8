/**
 The write loop of `bridge_terminal`: blocks read from standard input, scanned one by one, the passed
 bytes sent on. A read that completes the hotkey ends the loop and none of it is sent.
 */
module BridgeLoop {
  import opened Wrappers
  import opened DetachScanner

  datatype Bridged = Bridged(sent: Bytes, detached: bool)
  {
    function After(before: Bytes): Bridged {
      this.(sent := before + sent)
    }
  }

  lemma SentAfter(b: Bridged, x: Bytes, y: Bytes)
    ensures b.After(y).After(x) == b.After(x + y)
  {
    assert x + (y + b.sent) == (x + y) + b.sent;
  }

  /** What the loop sends, read by read; an empty read, or one that fails, is the end of the input. */
  function Bridge(blocks: seq<Bytes>, pending: bool): Bridged {
    if blocks == [] || blocks[0] == [] then Bridged(Held(pending), false)
    else
      var r := ScanChunk(blocks[0], pending);
      if r.detach then Bridged([], true)
      else Bridge(blocks[1..], r.pending).After(r.out)
  }

  /** Whether a stream that breaks after `limit` bytes, if ever, takes these. */
  predicate Fits(s: Bytes, limit: Option<nat>) {
    limit.Some? ==> |s| <= limit.value
  }

  /** What gets through of these bytes before the stream breaks. */
  function Through(s: Bytes, limit: Option<nat>): Bytes {
    if Fits(s, limit) then s else s[..limit.value]
  }

  /** `write_all` to a stream that has taken `sent`; what is written after it broke is lost. */
  method WriteAll(sent: Bytes, more: Bytes, limit: Option<nat>) returns (now: Bytes, ok: bool)
    ensures now == Through(sent + more, limit) && ok == Fits(sent + more, limit)
  {
    now, ok := Through(sent + more, limit), Fits(sent + more, limit);
  }

  /** A longer message to a stream that is already broken. */
  lemma BrokenStays(s: Bytes, more: Bytes, limit: Option<nat>)
    requires !Fits(s, limit)
    ensures !Fits(s + more, limit) && Through(s + more, limit) == Through(s, limit)
  {
  }

  /** A read that completes no hotkey. */
  lemma OneRead(blocks: seq<Bytes>, i: nat, pending: bool, sent: Bytes)
    requires i < |blocks| && blocks[i] != [] && !ScanChunk(blocks[i], pending).detach
    ensures var r := ScanChunk(blocks[i], pending);
            Bridge(blocks[i..], pending).After(sent) == Bridge(blocks[i + 1..], r.pending).After(sent + r.out)
  {
    var r := ScanChunk(blocks[i], pending);
    assert blocks[i..][0] == blocks[i] && blocks[i..][1..] == blocks[i + 1..];
    SentAfter(Bridge(blocks[i + 1..], r.pending), sent, r.out);
  }

  /** The loop, on a stream that may break: what it sends is cut off there, and no later hotkey is seen. */
  method BridgeTerminal(blocks: seq<Bytes>, limit: Option<nat>) returns (sent: Bytes, detached: bool)
    ensures var whole := Bridge(blocks, false);
            && sent == (if limit.None? || |whole.sent| <= limit.value then whole.sent else whole.sent[..limit.value])
            && (detached <==> whole.detached && (limit.None? || |whole.sent| <= limit.value))
  {
    sent := [];
    detached := false;
    var pendingCtrlA, ok := false, true;
    var i := 0;
    assert blocks[0..] == blocks;
    while i < |blocks|
      invariant 0 <= i <= |blocks|
      invariant Bridge(blocks, false) == Bridge(blocks[i..], pendingCtrlA).After(sent)
      invariant !detached && Fits(sent, limit)
    {
      var chunk := blocks[i];
      assert blocks[i..][0] == chunk;
      if chunk == [] {
        break;
      }
      var detach, outbound, nextPending := ProcessStdinChunkForDetach(chunk, pendingCtrlA);
      if !detach {
        OneRead(blocks, i, pendingCtrlA, sent);
      }
      pendingCtrlA := nextPending;
      if detach {
        assert sent + [] == sent;
        return sent, true;
      }
      assert outbound == [] ==> sent + outbound == sent;
      if outbound != [] {
        ghost var all := sent + outbound;
        sent, ok := WriteAll(sent, outbound, limit);
        if !ok {
          BrokenStays(all, Bridge(blocks[i + 1..], pendingCtrlA).sent, limit);
          break;
        }
      }
      i := i + 1;
    }
    if pendingCtrlA {
      sent, ok := WriteAll(sent, [CTRL_A], limit);
    }
  }

  /** The input up to its end. */
  function Input(blocks: seq<Bytes>): Bytes {
    if blocks == [] || blocks[0] == [] then [] else blocks[0] + Input(blocks[1..])
  }

  /** The offset in the input of the read that holds byte `j`. */
  function ReadStart(blocks: seq<Bytes>, j: nat): nat
    requires j < |Input(blocks)|
  {
    if j < |blocks[0]| then 0 else |blocks[0]| + ReadStart(blocks[1..], j - |blocks[0]|)
  }

  /** The bytes before a read, without a Ctrl-A right before it: that one is still held. */
  function Cut(whole: Bytes, start: nat): (c: nat)
    requires start <= |whole|
    ensures c <= start
  {
    if start > 0 && whole[start - 1] == CTRL_A then start - 1 else start
  }

  /** What is sent of `whole`, when the read that completes its first hotkey starts at `start`. */
  ghost predicate Sends(whole: Bytes, start: nat, b: Bridged) {
    match FirstHotkey(whole)
    case None => b == Bridged(NormalizeAll(whole), false)
    case Some(i) => start <= i + 1 && b == Bridged(NormalizeAll(whole[..Cut(whole, start)]), true)
  }

  /** Where the completing read starts, in the input with the held Ctrl-A in front. */
  function CompletingStart(blocks: seq<Bytes>, pending: bool): nat {
    match FirstHotkey(Held(pending) + Input(blocks))
    case None => 0
    case Some(i) => |Held(pending)| + ReadStart(blocks, i + 1 - |Held(pending)|)
  }

  /** A first hotkey beyond `a` is the first hotkey of what follows. */
  lemma HotkeyBeyond(a: Bytes, b: Bytes)
    requires forall k :: 0 <= k < |a| ==> !HotkeyAt(a + b, k)
    ensures FirstHotkey(a + b) == match FirstHotkey(b) case None => None case Some(i) => Some(|a| + i)
  {
    var whole := a + b;
    assert forall k :: |a| <= k ==> (HotkeyAt(whole, k) <==> HotkeyAt(b, k - |a|));
    match FirstHotkey(b)
    case None =>
    case Some(i) => assert HotkeyAt(whole, |a| + i);
  }

  lemma DetectedHere(here: Bytes, later: Bytes)
    requires FirstHotkey(here).Some?
    ensures FirstHotkey(here + later) == FirstHotkey(here)
  {
    var whole, i := here + later, FirstHotkey(here).value;
    assert HotkeyAt(whole, i);
    assert forall k :: 0 <= k <= i ==> (HotkeyAt(whole, k) <==> HotkeyAt(here, k));
  }

  /** `a` is what a scan without hotkey let through of `c`: all of it, short of a Ctrl-A still held. */
  ghost predicate LetsThrough(c: Bytes, pending: bool, a: Bytes) {
    var r := ScanChunk(c, pending);
    && !r.detach
    && Held(pending) + c == a + Held(r.pending) && NormalizeAll(a) == r.out
    && (!r.pending ==> a != [] && a[|a| - 1] != CTRL_A)
    && (forall k :: !HotkeyAt(a + Held(r.pending), k))
  }

  /** The normal form of all but the end of `whole`. */
  lemma NormalPrefix(a: Bytes, held: Bytes, out: Bytes)
    requires out + held == NormalizeAll(a + held) && |out| == |a|
    ensures NormalizeAll(a) == out
  {
    NormalizeSplit(a, held);
    assert (out + held)[..|a|] == out && (NormalizeAll(a) + NormalizeAll(held))[..|a|] == NormalizeAll(a);
  }

  lemma SomethingLetThrough(c: Bytes, pending: bool) returns (a: Bytes)
    requires !ScanChunk(c, pending).detach && c != []
    ensures LetsThrough(c, pending, a)
  {
    var r, here := ScanChunk(c, pending), Held(pending) + c;
    a := here[..|here| - |Held(r.pending)|];
    ScanCorrect(c, pending);
    EndOf(here, r, a);
  }

  lemma EndOf(here: Bytes, r: Scan, a: Bytes)
    requires here != [] && Correct(here, r) && !r.detach
    requires |Held(r.pending)| <= |here| && a == here[..|here| - |Held(r.pending)|]
    ensures here == a + Held(r.pending) && NormalizeAll(a) == r.out
    ensures !r.pending ==> a != [] && a[|a| - 1] != CTRL_A
    ensures forall k :: !HotkeyAt(a + Held(r.pending), k)
  {
    assert here == a + Held(r.pending);
    assert |r.out + Held(r.pending)| == |here|;
    NormalPrefix(a, Held(r.pending), r.out);
  }

  lemma HotkeyNotSplit(c: Bytes, pending: bool, a: Bytes, rest: Bytes)
    requires LetsThrough(c, pending, a)
    ensures var later := Held(ScanChunk(c, pending).pending) + rest;
            FirstHotkey(a + later) == match FirstHotkey(later) case None => None case Some(i) => Some(|a| + i)
  {
    var held := Held(ScanChunk(c, pending).pending);
    var whole := a + (held + rest);
    forall k | 0 <= k < |a|
      ensures !HotkeyAt(whole, k)
    {
      assert !HotkeyAt(a + held, k);
      assert whole[k] == (a + held)[k];
      if k + 1 < |a + held| {
        assert whole[k + 1] == (a + held)[k + 1];
      }
    }
    HotkeyBeyond(a, held + rest);
  }

  lemma CutLater(a: Bytes, later: Bytes, start: nat)
    requires start <= |later| && (start == 0 ==> a != [] && a[|a| - 1] != CTRL_A)
    ensures Cut(a + later, |a| + start) == |a| + Cut(later, start)
    ensures NormalizeAll((a + later)[..Cut(a + later, |a| + start)]) ==
            NormalizeAll(a) + NormalizeAll(later[..Cut(later, start)])
  {
    assert (a + later)[..|a| + Cut(later, start)] == a + later[..Cut(later, start)];
    NormalizeSplit(a, later[..Cut(later, start)]);
  }

  lemma RegroupAfter(x: Bytes, c: Bytes, a: Bytes, y: Bytes, t: Bytes)
    requires x + c == a + y
    ensures x + (c + t) == a + (y + t)
  {
    assert x + (c + t) == (x + c) + t == (a + y) + t;
  }

  lemma ReadStartLater(blocks: seq<Bytes>, j: nat)
    requires blocks != [] && |blocks[0]| <= j < |Input(blocks)|
    ensures j - |blocks[0]| < |Input(blocks[1..])|
    ensures ReadStart(blocks, j) == |blocks[0]| + ReadStart(blocks[1..], j - |blocks[0]|)
  {
  }

  /** Where a completing read starts, when the hotkey is known. */
  lemma StartAt(blocks: seq<Bytes>, pending: bool, i: nat)
    requires FirstHotkey(Held(pending) + Input(blocks)) == Some(i)
    ensures 0 <= i + 1 - |Held(pending)| < |Input(blocks)|
    ensures CompletingStart(blocks, pending) == |Held(pending)| + ReadStart(blocks, i + 1 - |Held(pending)|)
  {
    assert HotkeyAt(Held(pending) + Input(blocks), i);
  }

  /**
   A read without hotkey splits the input: `a` has been let through, and `later` is what is still
   held and what is still to come.
   */
  ghost predicate Seam(blocks: seq<Bytes>, pending: bool, p: bool, a: Bytes, later: Bytes)
    requires blocks != []
  {
    && blocks[0] != []
    && later == Held(p) + Input(blocks[1..])
    && Held(pending) + Input(blocks) == a + later
    && |Held(pending)| + |blocks[0]| == |a| + |Held(p)|
    && (!p ==> a != [] && a[|a| - 1] != CTRL_A)
    && FirstHotkey(a + later) == match FirstHotkey(later) case None => None case Some(i) => Some(|a| + i)
  }

  lemma SeamAfterRead(blocks: seq<Bytes>, pending: bool, a: Bytes)
    requires blocks != [] && blocks[0] != [] && LetsThrough(blocks[0], pending, a)
    ensures var p := ScanChunk(blocks[0], pending).pending;
            Seam(blocks, pending, p, a, Held(p) + Input(blocks[1..]))
  {
    var p := ScanChunk(blocks[0], pending).pending;
    assert |Held(pending) + blocks[0]| == |a + Held(p)|;
    RegroupAfter(Held(pending), blocks[0], a, Held(p), Input(blocks[1..]));
    HotkeyNotSplit(blocks[0], pending, a, Input(blocks[1..]));
  }

  lemma StartsLater(blocks: seq<Bytes>, pending: bool, p: bool, a: Bytes, later: Bytes)
    requires blocks != [] && Seam(blocks, pending, p, a, later) && FirstHotkey(later).Some?
    ensures CompletingStart(blocks, pending) == |a| + CompletingStart(blocks[1..], p)
    ensures CompletingStart(blocks[1..], p) == 0 ==> a != [] && a[|a| - 1] != CTRL_A
  {
    var i := FirstHotkey(later).value;
    StartAt(blocks, pending, |a| + i);
    StartAt(blocks[1..], p, i);
    ReadStartLater(blocks, |a| + i + 1 - |Held(pending)|);
  }

  /** `Sends`, moved back over bytes that were let through. */
  lemma SendsMore(a: Bytes, later: Bytes, start: nat, start': nat, rest: Bridged)
    requires Sends(later, start, rest)
    requires FirstHotkey(a + later) == match FirstHotkey(later) case None => None case Some(i) => Some(|a| + i)
    requires FirstHotkey(later).Some? ==> start' == |a| + start
    requires start == 0 ==> FirstHotkey(later).None? || (a != [] && a[|a| - 1] != CTRL_A)
    ensures Sends(a + later, start', rest.After(NormalizeAll(a)))
  {
    if FirstHotkey(later).None? {
      NormalizeSplit(a, later);
    } else {
      CutLater(a, later, start);
    }
  }

  /** The induction step: a read without hotkey, before reads that are sent as they should be. */
  lemma SendsBlock(blocks: seq<Bytes>, pending: bool, p: bool, a: Bytes, later: Bytes, rest: Bridged)
    requires blocks != [] && Seam(blocks, pending, p, a, later)
    requires Sends(later, CompletingStart(blocks[1..], p), rest)
    ensures Sends(a + later, CompletingStart(blocks, pending), rest.After(NormalizeAll(a)))
  {
    if FirstHotkey(later).Some? {
      StartsLater(blocks, pending, p, a, later);
    }
    SendsMore(a, later, CompletingStart(blocks[1..], p), CompletingStart(blocks, pending), rest);
  }

  lemma SendsDetected(blocks: seq<Bytes>, pending: bool)
    requires blocks != [] && blocks[0] != [] && ScanChunk(blocks[0], pending).detach
    ensures Sends(Held(pending) + Input(blocks), CompletingStart(blocks, pending), Bridge(blocks, pending))
  {
    var here, whole := Held(pending) + blocks[0], Held(pending) + Input(blocks);
    assert whole == here + Input(blocks[1..]);
    ScanMeans(blocks[0], pending);
    DetectedHere(here, Input(blocks[1..]));
    StartAt(blocks, pending, FirstHotkey(here).value);
    assert whole[..0] == [] && NormalizeAll([]) == [];
  }

  lemma {:induction false} BridgeSends(blocks: seq<Bytes>, pending: bool)
    ensures Sends(Held(pending) + Input(blocks), CompletingStart(blocks, pending), Bridge(blocks, pending))
  {
    if blocks == [] || blocks[0] == [] {
      assert Held(pending) + Input(blocks) == Held(pending) && NormalizeAll(Held(pending)) == Held(pending);
    } else if ScanChunk(blocks[0], pending).detach {
      SendsDetected(blocks, pending);
    } else {
      var p := ScanChunk(blocks[0], pending).pending;
      BridgeSends(blocks[1..], p);
      var a := SomethingLetThrough(blocks[0], pending);
      var later := Held(p) + Input(blocks[1..]);
      SeamAfterRead(blocks, pending, a);
      SendsBlock(blocks, pending, p, a, later, Bridge(blocks[1..], p));
    }
  }

  /** At the start of the loop nothing is held. */
  lemma NothingHeld(blocks: seq<Bytes>)
    ensures Held(false) + Input(blocks) == Input(blocks)
    ensures match FirstHotkey(Input(blocks))
            case None => true
            case Some(i) =>
              i + 1 < |Input(blocks)| && CompletingStart(blocks, false) == ReadStart(blocks, i + 1)
  {
    assert Held(false) + Input(blocks) == Input(blocks);
    if FirstHotkey(Input(blocks)).Some? {
      StartAt(blocks, false, FirstHotkey(Input(blocks)).value);
    }
  }

  lemma BridgeMeans(blocks: seq<Bytes>)
    ensures var whole, b := Input(blocks), Bridge(blocks, false);
            match FirstHotkey(whole)
            case None => b == Bridged(NormalizeAll(whole), false)
            case Some(i) =>
              && ReadStart(blocks, i + 1) <= i + 1
              && b == Bridged(NormalizeAll(whole[..Cut(whole, ReadStart(blocks, i + 1))]), true)
  {
    BridgeSends(blocks, false);
    NothingHeld(blocks);
  }

  /**
   What the server receives. Without a hotkey it is the whole input, Ctrl-H turned into DEL; with
   one, it is the input before the read that completes the hotkey, short of a held Ctrl-A.
   */
  lemma BridgeIsExact(blocks: seq<Bytes>)
    ensures var whole, b := Input(blocks), Bridge(blocks, false);
            && (forall k :: 0 <= k < |b.sent| ==>
                  k < |whole| && b.sent[k] == if whole[k] == 0x08 then 0x7f else whole[k])
            && match FirstHotkey(whole)
               case None =>
                 && (forall k :: 0 <= k < |whole| - 1 ==>
                       !(whole[k] == 0x01 && (whole[k + 1] == 100 || whole[k + 1] == 68)))
                 && !b.detached && |b.sent| == |whole|
               case Some(i) =>
                 && i + 1 < |whole| && whole[i] == 0x01 && (whole[i + 1] == 100 || whole[i + 1] == 68)
                 && b.detached
                 && var start := ReadStart(blocks, i + 1);
                    && start <= i + 1
                    && |b.sent| == if start > 0 && whole[start - 1] == 0x01 then start - 1 else start
  {
    BridgeMeans(blocks);
    var whole := Input(blocks);
    match FirstHotkey(whole)
    case None => NoKeyBefore(whole, |whole| - 1);
    case Some(i) => assert HotkeyAt(whole, i);
  }

  lemma PrefixesDiffer(whole: Bytes, c: nat, i: nat)
    requires c <= |whole| && i <= |whole|
    ensures NormalizeAll(whole[..c]) == NormalizeAll(whole[..i]) <==> c == i
  {
    assert |NormalizeAll(whole[..c])| == c && |NormalizeAll(whole[..i])| == i;
  }

  /**
   Bytes typed before the hotkey are lost unless the read that completes it starts at the hotkey
   (with no Ctrl-A before it) or between its two bytes.
   */
  lemma NothingLostIff(blocks: seq<Bytes>)
    requires FirstHotkey(Input(blocks)).Some?
    ensures var whole, i := Input(blocks), FirstHotkey(Input(blocks)).value;
            var start := ReadStart(blocks, i + 1);
            Bridge(blocks, false).sent == NormalizeAll(whole[..i]) <==>
              start == i + 1 || (start == i && (i == 0 || whole[i - 1] != CTRL_A))
  {
    BridgeMeans(blocks);
    var whole, i := Input(blocks), FirstHotkey(Input(blocks)).value;
    PrefixesDiffer(whole, Cut(whole, ReadStart(blocks, i + 1)), i);
  }

  /** A lost byte: `x`, Ctrl-A and `d` arriving in one read send nothing at all. */
  lemma OneReadLosesItsBytes()
    ensures Bridge([[120, CTRL_A, 100]], false) == Bridged([], true)
    ensures FirstHotkey(Input([[120, CTRL_A, 100]])) == Some(1)
  {
    var c: Bytes := [120, CTRL_A, 100];
    assert Input([c]) == c + Input([]) == c;
    assert HotkeyAt(c, 1) && !HotkeyAt(c, 0) && !HotkeyAt(c, 2);
    BridgeMeans([c]);
    assert c[..0] == [] && NormalizeAll([]) == [];
  }
}
