/** Cutting the server's output into lines: which lines come out depends on the
    bytes alone, not on the chunks they arrived in. */
module LineFraming {
  import opened Common

  type Bytes = seq<Byte>

  const NEWLINE: Byte := 10
  const CARRIAGE_RETURN: Byte := 13

  // The first newline, or the length when there is none.
  function NewlineAt(b: Bytes): (n: nat)
    ensures n <= |b|
    ensures n < |b| ==> b[n] == NEWLINE
    ensures NEWLINE !in b[..n]
  {
    if b == [] || b[0] == NEWLINE then 0
    else
      var n := NewlineAt(b[1..]);
      assert b[..n + 1] == [b[0]] + b[1..][..n];
      n + 1
  }

  // The terminated lines, without their newlines, and the unterminated rest.
  function RawLines(b: Bytes): (r: seq<Bytes>)
    decreases |b|
  {
    var n := NewlineAt(b);
    if n == |b| then [] else [b[..n]] + RawLines(b[n + 1..])
  }

  function Tail(b: Bytes): (r: Bytes)
    decreases |b|
  {
    var n := NewlineAt(b);
    if n == |b| then b else Tail(b[n + 1..])
  }

  function Chop(line: Bytes): (r: Bytes) {
    if line != [] && line[|line| - 1] == CARRIAGE_RETURN then line[..|line| - 1] else line
  }

  function ChopAll(lines: seq<Bytes>): (r: seq<Bytes>) {
    seq(|lines|, i requires 0 <= i < |lines| => Chop(lines[i]))
  }

  // The lines as they are handed on.
  function Lines(b: Bytes): (r: seq<Bytes>) {
    ChopAll(RawLines(b))
  }

  // Lines written back, each with its newline.
  function Joined(lines: seq<Bytes>): (r: Bytes) {
    if lines == [] then [] else lines[0] + [NEWLINE] + Joined(lines[1..])
  }

  predicate Unbroken(lines: seq<Bytes>) {
    forall line | line in lines :: NEWLINE !in line
  }

  lemma Uncut(b: Bytes)
    requires NEWLINE !in b
    ensures RawLines(b) == [] && Tail(b) == b
  {
    assert NewlineAt(b) == |b|;
  }

  lemma RawFront(b: Bytes)
    requires NewlineAt(b) < |b|
    ensures RawLines(b) == [b[..NewlineAt(b)]] + RawLines(b[NewlineAt(b) + 1..])
  {
    hide NewlineAt;
  }

  lemma TailFront(b: Bytes)
    requires NewlineAt(b) < |b|
    ensures Tail(b) == Tail(b[NewlineAt(b) + 1..])
  {
    hide NewlineAt;
  }

  lemma JoinedFront(line: Bytes, lines: seq<Bytes>)
    ensures Joined([line] + lines) == line + [NEWLINE] + Joined(lines)
  {
    assert ([line] + lines)[1..] == lines;
  }

  lemma JoinedNothing()
    ensures Joined([]) == []
  {
  }

  /** Cutting loses nothing: the lines and the rest make up the bytes again, and
      none of them contains a newline. */
  lemma {:induction false} CutIsExact(b: Bytes)
    ensures Joined(RawLines(b)) + Tail(b) == b
    ensures Unbroken(RawLines(b)) && NEWLINE !in Tail(b)
    decreases |b|
  {
    hide NewlineAt, RawLines, Tail, Joined;
    var n := NewlineAt(b);
    if n == |b| {
      assert b[..n] == b;
      Uncut(b);
      JoinedNothing();
    } else {
      var rest := b[n + 1..];
      CutIsExact(rest);
      RawFront(b);
      TailFront(b);
      JoinedFront(b[..n], RawLines(rest));
      Regroup(b[..n] + [NEWLINE], Joined(RawLines(rest)), Tail(rest));
      assert b == b[..n] + [NEWLINE] + rest;
    }
  }

  lemma {:induction false} FirstNewline(b: Bytes, k: nat)
    requires k < |b| && b[k] == NEWLINE && NEWLINE !in b[..k]
    ensures NewlineAt(b) == k
  {
    if k > 0 {
      assert b[0] in b[..k];
      assert b[1..][..k - 1] == b[..k][1..];
      FirstNewline(b[1..], k - 1);
    }
  }

  lemma CutOnce(line: Bytes, rest: Bytes)
    requires NEWLINE !in line
    ensures var b := line + [NEWLINE] + rest; RawLines(b) == [line] + RawLines(rest) && Tail(b) == Tail(rest)
  {
    var b := line + [NEWLINE] + rest;
    assert b[..|line|] == line && b[|line| + 1..] == rest;
    FirstNewline(b, |line|);
  }

  /** There is only one way to cut. */
  lemma {:induction false} CutIsUnique(lines: seq<Bytes>, rest: Bytes)
    requires Unbroken(lines) && NEWLINE !in rest
    ensures RawLines(Joined(lines) + rest) == lines
    ensures Tail(Joined(lines) + rest) == rest
  {
    hide NewlineAt, RawLines, Tail;
    var b := Joined(lines) + rest;
    if lines == [] {
      assert b == rest;
      Uncut(rest);
    } else {
      assert b == lines[0] + [NEWLINE] + (Joined(lines[1..]) + rest);
      assert lines[0] in lines;
      CutOnce(lines[0], Joined(lines[1..]) + rest);
      CutIsUnique(lines[1..], rest);
      assert lines == [lines[0]] + lines[1..];
    }
  }

  lemma {:induction false} JoinedAppends(a: seq<Bytes>, b: seq<Bytes>)
    ensures Joined(a + b) == Joined(a) + Joined(b)
  {
    if a == [] {
      assert a + b == b;
    } else {
      JoinedAppends(a[1..], b);
      assert (a + b)[1..] == a[1..] + b;
      Regroup(a[0] + [NEWLINE], Joined(a[1..]), Joined(b));
    }
  }

  /** Cutting in two goes: the second go starts from the rest of the first. */
  lemma CutAppends(a: Bytes, b: Bytes)
    ensures RawLines(a + b) == RawLines(a) + RawLines(Tail(a) + b)
    ensures Lines(a + b) == Lines(a) + Lines(Tail(a) + b)
    ensures Tail(a + b) == Tail(Tail(a) + b)
  {
    hide RawLines, Tail, Joined, NewlineAt, Chop;
    var first, second, rest := RawLines(a), RawLines(Tail(a) + b), Tail(Tail(a) + b);
    CutIsExact(a);
    CutIsExact(Tail(a) + b);
    JoinedAppends(first, second);
    Regroup(Joined(first), Joined(second), rest);
    Regroup(Joined(first), Tail(a), b);
    CutIsUnique(first + second, rest);
  }

  function Concat(chunks: seq<Bytes>): (r: Bytes) {
    if chunks == [] then [] else Concat(chunks[..|chunks| - 1]) + chunks[|chunks| - 1]
  }

  // The buffer and the lines handed on so far, chunk by chunk.
  function Fed(chunks: seq<Bytes>): (r: (seq<Bytes>, Bytes)) {
    if chunks == [] then ([], [])
    else
      var (lines, buffer) := Fed(chunks[..|chunks| - 1]);
      var b := buffer + chunks[|chunks| - 1];
      (lines + Lines(b), Tail(b))
  }

  /** However the bytes were chunked, the lines handed on are the lines of all of
      them, and the buffer is their unterminated rest. */
  lemma {:induction false} ChunksDoNotMatter(chunks: seq<Bytes>)
    ensures Fed(chunks) == (Lines(Concat(chunks)), Tail(Concat(chunks)))
  {
    if chunks != [] {
      var n := |chunks| - 1;
      ChunksDoNotMatter(chunks[..n]);
      CutAppends(Concat(chunks[..n]), chunks[n]);
    } else {
      Uncut([]);
      assert Concat(chunks) == [] && Fed(chunks) == ([], []);
      assert Lines([]) == [];
    }
  }
}
