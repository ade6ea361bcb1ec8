/**
 The detach hotkey of the client: `process_stdin_chunk_for_detach` and the write loop around it
 in `src/bin/neosh.rs`. Ctrl-A followed by `d` or `D` detaches; any other byte goes through, with
 Ctrl-H turned into DEL.
 */
module DetachScanner {
  import opened Wrappers

  const CTRL_A: byte := 0x01

  function NormalizeStdinByte(b: byte): byte {
    if b == 0x08 then 0x7f else b
  }

  predicate IsD(b: byte) {
    b == 100 || b == 68
  }

  datatype Scan = Scan(detach: bool, out: Bytes, pending: bool)
  {
    function After(sent: Bytes): Scan {
      this.(out := sent + out)
    }
  }

  /** A Ctrl-A that is held back until the next byte shows what it was. */
  function Held(pending: bool): Bytes {
    if pending then [CTRL_A] else []
  }

  /** What a byte that completes no hotkey lets through; a Ctrl-A is held back in its turn. */
  function Passed(b: byte): Bytes {
    if b == CTRL_A then [] else [NormalizeStdinByte(b)]
  }

  /** The scanner, byte by byte. */
  function ScanChunk(chunk: Bytes, pending: bool): Scan
    decreases |chunk|
  {
    if chunk == [] then Scan(false, [], pending)
    else if pending && IsD(chunk[0]) then Scan(true, [], false)
    else ScanChunk(chunk[1..], chunk[0] == CTRL_A).After(Held(pending) + Passed(chunk[0]))
  }

  lemma AfterAfter(r: Scan, a: Bytes, b: Bytes)
    ensures r.After(b).After(a) == r.After(a + b)
  {
    assert a + (b + r.out) == (a + b) + r.out;
  }

  method ProcessStdinChunkForDetach(chunk: Bytes, pendingCtrlA: bool)
    returns (detach: bool, out: Bytes, pending: bool)
    ensures Scan(detach, out, pending) == ScanChunk(chunk, pendingCtrlA)
  {
    out := [];
    pending := pendingCtrlA;
    var i := 0;
    assert chunk[0..] == chunk;
    while i < |chunk|
      invariant 0 <= i <= |chunk|
      invariant ScanChunk(chunk, pendingCtrlA) == ScanChunk(chunk[i..], pending).After(out)
    {
      var b := chunk[i];
      ghost var before, held := out, Held(pending);
      assert chunk[i..][0] == b && chunk[i..][1..] == chunk[i + 1..];
      if pending {
        if b == 100 || b == 68 {
          assert before + [] == before;
          return true, out, false;
        }
        out := out + [CTRL_A];
        pending := false;
      }
      if b == CTRL_A {
        pending := true;
      } else {
        out := out + [NormalizeStdinByte(b)];
      }
      i := i + 1;
      assert out == before + (held + Passed(b));
      AfterAfter(ScanChunk(chunk[i..], pending), before, held + Passed(b));
    }
    assert chunk[i..] == [] && out + [] == out;
    detach := false;
  }

  // ---------------------------------------------------------------- what it computes

  function NormalizeAll(s: Bytes): (r: Bytes)
    ensures |r| == |s| && forall k :: 0 <= k < |s| ==> r[k] == if s[k] == 0x08 then 0x7f else s[k]
  {
    seq(|s|, k requires 0 <= k < |s| => if s[k] == 0x08 then 0x7f else s[k])
  }

  predicate HotkeyAt(s: Bytes, i: int) {
    0 <= i && i + 1 < |s| && s[i] == 0x01 && (s[i + 1] == 100 || s[i + 1] == 68)
  }

  function HotkeyFrom(s: Bytes, i: nat): (r: Option<nat>)
    ensures r.Some? ==> HotkeyAt(s, r.value) && forall k :: i <= k < r.value ==> !HotkeyAt(s, k)
    ensures r.None? ==> forall k :: i <= k ==> !HotkeyAt(s, k)
    decreases |s| - i
  {
    if |s| <= i then None else if HotkeyAt(s, i) then Some(i) else HotkeyFrom(s, i + 1)
  }

  /** The first place where Ctrl-A is immediately followed by `d` or `D`. */
  function FirstHotkey(s: Bytes): (r: Option<nat>)
    ensures r.Some? ==> HotkeyAt(s, r.value) && forall k :: 0 <= k < r.value ==> !HotkeyAt(s, k)
    ensures r.None? ==> forall k :: !HotkeyAt(s, k)
  {
    HotkeyFrom(s, 0)
  }

  ghost predicate IsFirst(s: Bytes, i: int) {
    HotkeyAt(s, i) && forall k :: 0 <= k < i ==> !HotkeyAt(s, k)
  }

  ghost predicate NoHotkey(s: Bytes) {
    forall k :: !HotkeyAt(s, k)
  }

  /** The meaning of a scan of `s`: everything up to the first hotkey, normalised. */
  ghost predicate Correct(s: Bytes, r: Scan) {
    if r.detach then
      !r.pending && IsFirst(s, |r.out|) && r.out == NormalizeAll(s[..|r.out|])
    else
      && NoHotkey(s)
      && (r.pending <==> s != [] && s[|s| - 1] == CTRL_A)
      && r.out + Held(r.pending) == NormalizeAll(s)
  }

  lemma NormalizeSplit(a: Bytes, b: Bytes)
    ensures NormalizeAll(a + b) == NormalizeAll(a) + NormalizeAll(b)
  {
  }

  lemma NormalizeOne(b: byte)
    ensures NormalizeAll([b]) == [NormalizeStdinByte(b)]
  {
  }

  lemma HotkeysAfter(b: byte, s: Bytes)
    ensures forall k :: 1 <= k ==> (HotkeyAt([b] + s, k) <==> HotkeyAt(s, k - 1))
  {
  }

  /** A byte that starts no hotkey goes, normalised, before the output of the rest. */
  lemma CorrectAfter(b: byte, s: Bytes, r: Scan)
    requires s != [] && !HotkeyAt([b] + s, 0) && Correct(s, r)
    ensures Correct([b] + s, r.After([NormalizeStdinByte(b)]))
  {
    HotkeysAfter(b, s);
    NormalizeOne(b);
    if r.detach {
      var i := |r.out|;
      assert ([b] + s)[..1 + i] == [b] + s[..i];
      NormalizeSplit([b], s[..i]);
      assert HotkeyAt([b] + s, 1 + i);
    } else {
      NormalizeSplit([b], s);
      Regroup([NormalizeStdinByte(b)], r.out, Held(r.pending));
      assert ([b] + s)[|[b] + s| - 1] == s[|s| - 1];
    }
  }

  lemma LastByteCorrect(b: byte, rest: Scan)
    requires b != CTRL_A && Correct([], rest)
    ensures Correct([b], rest.After([NormalizeStdinByte(b)]))
  {
    assert rest == Scan(false, [], false) by {
      assert |NormalizeAll([])| == 0;
    }
    NormalizeOne(b);
    assert [NormalizeStdinByte(b)] + [] == [NormalizeStdinByte(b)];
  }

  lemma Unprefixed(s: Bytes, r: Scan)
    ensures [] + s == s && r.After([]) == r
  {
    assert [] + r.out == r.out;
  }

  /** A byte that is not Ctrl-A, at the start of `s`. */
  lemma PlainCorrect(b: byte, t: Bytes, rest: Scan)
    requires b != CTRL_A && Correct(t, rest)
    ensures Correct([b] + t, rest.After([NormalizeStdinByte(b)]))
  {
    if t == [] {
      assert [b] + t == [b];
      LastByteCorrect(b, rest);
    } else {
      CorrectAfter(b, t, rest);
    }
  }

  lemma PassedCorrect(b: byte, t: Bytes, rest: Scan)
    requires Correct(Held(b == CTRL_A) + t, rest)
    ensures Correct([b] + t, rest.After(Passed(b)))
  {
    Unprefixed(t, rest);
    if b == CTRL_A {
      assert Held(true) == [b] && Passed(b) == [];
    } else {
      assert Held(false) == [] && Passed(b) == [NormalizeStdinByte(b)];
      PlainCorrect(b, t, rest);
    }
  }

  lemma HeldCorrect(s: Bytes, pending: bool, rest: Scan)
    requires s != [] && !(pending && IsD(s[0])) && Correct(s, rest)
    ensures Correct(Held(pending) + s, rest.After(Held(pending)))
  {
    if pending {
      assert !HotkeyAt([CTRL_A] + s, 0) by {
        assert ([CTRL_A] + s)[1] == s[0];
      }
      assert Held(pending) == [CTRL_A] == [NormalizeStdinByte(CTRL_A)];
      CorrectAfter(CTRL_A, s, rest);
    } else {
      assert Held(pending) == [];
      Unprefixed(s, rest);
    }
  }

  lemma NothingCorrect(pending: bool)
    ensures Correct(Held(pending), ScanChunk([], pending))
  {
    assert NormalizeAll(Held(pending)) == Held(pending);
  }

  lemma HotkeyCorrect(s: Bytes)
    requires s != [] && IsD(s[0])
    ensures Correct(Held(true) + s, ScanChunk(s, true))
  {
    var whole := Held(true) + s;
    assert HotkeyAt(whole, 0) && NormalizeAll(whole[..0]) == [];
  }

  lemma NextByteCorrect(s: Bytes, pending: bool)
    requires s != [] && !(pending && IsD(s[0]))
    requires Correct(Held(s[0] == CTRL_A) + s[1..], ScanChunk(s[1..], s[0] == CTRL_A))
    ensures Correct(Held(pending) + s, ScanChunk(s, pending))
  {
    var rest := ScanChunk(s[1..], s[0] == CTRL_A);
    PassedCorrect(s[0], s[1..], rest);
    assert [s[0]] + s[1..] == s;
    HeldCorrect(s, pending, rest.After(Passed(s[0])));
    AfterAfter(rest, Held(pending), Passed(s[0]));
  }

  lemma {:induction false} ScanCorrect(s: Bytes, pending: bool)
    ensures Correct(Held(pending) + s, ScanChunk(s, pending))
    decreases |s|
  {
    if s == [] {
      NothingCorrect(pending);
      assert Held(pending) + s == Held(pending);
    } else if pending && IsD(s[0]) {
      HotkeyCorrect(s);
    } else {
      ScanCorrect(s[1..], s[0] == CTRL_A);
      NextByteCorrect(s, pending);
    }
  }

  lemma ScanMeans(s: Bytes, pending: bool)
    ensures var whole, r := Held(pending) + s, ScanChunk(s, pending);
            match FirstHotkey(whole)
            case Some(i) => r == Scan(true, NormalizeAll(whole[..i]), false)
            case None =>
              && !r.detach
              && (r.pending <==> whole != [] && whole[|whole| - 1] == CTRL_A)
              && r.out + Held(r.pending) == NormalizeAll(whole)
  {
    ScanCorrect(s, pending);
    var whole, r := Held(pending) + s, ScanChunk(s, pending);
    if r.detach {
      assert HotkeyAt(whole, |r.out|);
      assert FirstHotkey(whole) == Some(|r.out|);
    }
  }

  lemma NoKeyBefore(s: Bytes, n: int)
    requires n < |s| && forall k :: 0 <= k < n ==> !HotkeyAt(s, k)
    ensures forall k :: 0 <= k < n ==> !(s[k] == 0x01 && (s[k + 1] == 100 || s[k + 1] == 68))
  {
    forall k | 0 <= k < n
      ensures !(s[k] == 0x01 && (s[k + 1] == 100 || s[k + 1] == 68))
    {
      assert !HotkeyAt(s, k);
    }
  }

  lemma SplitAt(a: Bytes, b: Bytes, whole: Bytes)
    requires a + b == whole
    ensures |a| + |b| == |whole| && forall k :: 0 <= k < |a| ==> a[k] == whole[k]
  {
    assert forall k :: 0 <= k < |a| ==> (a + b)[k] == a[k];
  }

  /**
   Scanner correctness, for a held Ctrl-A or none, runs of Ctrl-A included. Detach is reported if
   and only if a Ctrl-A is immediately followed by `d` or `D`; what is let through is then all
   before the first such place, normalised, and otherwise everything, short of a last Ctrl-A.
   */
  lemma ScanIsCorrect(s: Bytes, pending: bool)
    ensures var whole, r := (if pending then [0x01] else []) + s, ScanChunk(s, pending);
            match FirstHotkey(whole)
            case Some(i) =>
              && i + 1 < |whole| && whole[i] == 0x01 && (whole[i + 1] == 100 || whole[i + 1] == 68)
              && (forall k :: 0 <= k < i ==> !(whole[k] == 0x01 && (whole[k + 1] == 100 || whole[k + 1] == 68)))
              && r.detach && !r.pending && |r.out| == i
              && forall k :: 0 <= k < i ==> r.out[k] == if whole[k] == 0x08 then 0x7f else whole[k]
            case None =>
              && (forall k :: 0 <= k < |whole| - 1 ==>
                    !(whole[k] == 0x01 && (whole[k + 1] == 100 || whole[k + 1] == 68)))
              && !r.detach && (r.pending <==> whole != [] && whole[|whole| - 1] == 0x01)
              && |whole| == |r.out| + (if r.pending then 1 else 0)
              && forall k :: 0 <= k < |r.out| ==> r.out[k] == if whole[k] == 0x08 then 0x7f else whole[k]
  {
    ScanMeans(s, pending);
    var whole, r := Held(pending) + s, ScanChunk(s, pending);
    match FirstHotkey(whole)
    case Some(i) => NoKeyBefore(whole, i);
    case None =>
      NoKeyBefore(whole, |whole| - 1);
      SplitAt(r.out, Held(r.pending), NormalizeAll(whole));
  }

  // ---------------------------------------------------------------- chunks

  /** The scanner over a stream of chunks, stopped at the first hotkey. */
  function ScanAll(chunks: seq<Bytes>, pending: bool): Scan {
    if chunks == [] then Scan(false, [], pending)
    else
      var r := ScanChunk(chunks[0], pending);
      if r.detach then r else ScanAll(chunks[1..], r.pending).After(r.out)
  }

  lemma {:induction false} ScanAppend(a: Bytes, b: Bytes, pending: bool)
    ensures var r := ScanChunk(a, pending);
            ScanChunk(a + b, pending) == if r.detach then r else ScanChunk(b, r.pending).After(r.out)
    decreases |a|
  {
    if a == [] {
      assert a + b == b && [] + ScanChunk(b, pending).out == ScanChunk(b, pending).out;
    } else if !(pending && IsD(a[0])) {
      assert (a + b)[0] == a[0] && (a + b)[1..] == a[1..] + b;
      ScanAppend(a[1..], b, a[0] == CTRL_A);
      var r := ScanChunk(a[1..], a[0] == CTRL_A);
      AfterAfter(ScanChunk(b, r.pending), Held(pending) + Passed(a[0]), r.out);
    }
  }

  /** However a stream is cut into chunks, output, detach flag and held Ctrl-A come out the same. */
  lemma {:induction false} ChunkingIsInvisible(chunks: seq<Bytes>, pending: bool)
    ensures ScanAll(chunks, pending) == ScanChunk(Concat(chunks), pending)
  {
    if chunks != [] {
      var r := ScanChunk(chunks[0], pending);
      ScanAppend(chunks[0], Concat(chunks[1..]), pending);
      ChunkingIsInvisible(chunks[1..], r.pending);
    }
  }
}
