/** Newline-delimited files: how `bufio.ScanLines` cuts them, and the offset just
    past the last complete line (`lastCompleteOffset`,
    internal/conversations/ingest_watermark.go:203-230). */
module Lines {
  newtype Byte = x: int | 0 <= x < 256
  type Bytes = seq<Byte>

  const NL: Byte := 10
  const CR: Byte := 13

  /** One scanner token and the offset the scanner has advanced to after it. */
  datatype Line = Line(token: Bytes, end: nat)

  /** How far the scanner advances for its next token: past the first newline, or
      to the end of the data. */
  function Advance(data: Bytes): (n: nat)
    ensures n <= |data| && (data != [] ==> n > 0)
  {
    if data == [] then 0 else if data[0] == NL then 1 else 1 + Advance(data[1..])
  }

  function Token(data: Bytes): Bytes {
    var n := Advance(data);
    DropCR(if n > 0 && data[n - 1] == NL then data[..n - 1] else data[..n])
  }

  function DropCR(data: Bytes): Bytes {
    if data != [] && data[|data| - 1] == CR then data[..|data| - 1] else data
  }

  /** Feeds the scanner's tokens for data found at offset base to f; an
      unterminated tail is a token too. */
  function FoldLines<S>(f: (S, Line) -> S, st: S, data: Bytes, base: nat): S
    decreases |data|
  {
    if data == [] then st
    else
      var n := Advance(data);
      FoldLines(f, f(st, Line(Token(data), base + n)), data[n..], base + n)
  }

  /** What every step keeps, the scan keeps. */
  lemma {:induction false} FoldKeeps<S(!new)>(f: (S, Line) -> S, inv: S -> bool, st: S, data: Bytes, base: nat)
    requires inv(st) && forall s: S, line: Line :: inv(s) ==> inv(f(s, line))
    ensures inv(FoldLines(f, st, data, base))
    decreases |data|
  {
    if data != [] {
      var n := Advance(data);
      FoldKeeps(f, inv, f(st, Line(Token(data), base + n)), data[n..], base + n);
    }
  }

  /** data ends at a line boundary. */
  predicate AtBoundary(data: Bytes) {
    data == [] || data[|data| - 1] == NL
  }

  lemma {:induction false} AdvanceWithin(a: Bytes, b: Bytes)
    requires a != [] && AtBoundary(a)
    ensures Advance(a + b) == Advance(a) && AtBoundary(a[Advance(a)..])
  {
    if a[0] == NL {
      assert (a + b)[0] == NL;
    } else {
      AdvanceWithin(a[1..], b);
      assert (a + b)[1..] == a[1..] + b;
      assert a[1..][Advance(a[1..])..] == a[Advance(a)..];
    }
  }

  lemma {:induction false} FirstToken(a: Bytes, b: Bytes)
    requires a != [] && AtBoundary(a)
    ensures Token(a + b) == Token(a) && Advance(a + b) == Advance(a)
    ensures (a + b)[Advance(a)..] == a[Advance(a)..] + b
  {
    AdvanceWithin(a, b);
    var n := Advance(a);
    assert (a + b)[..n] == a[..n] && (a + b)[..n - 1] == a[..n - 1];
  }

  lemma {:induction false} FoldOfNothing<S>(f: (S, Line) -> S, st: S, data: Bytes, base: nat)
    requires data == []
    ensures FoldLines(f, st, data, base) == st
  {
  }

  lemma {:induction false} FoldUnfolds<S>(
    f: (S, Line) -> S, st: S, data: Bytes, base: nat, n: nat, token: Bytes, rest: Bytes)
    requires data != [] && n == Advance(data) && token == Token(data) && rest == data[n..]
    ensures FoldLines(f, st, data, base) == FoldLines(f, f(st, Line(token, base + n)), rest, base + n)
  {
  }

  lemma {:induction false} FoldUnfoldsTo<S>(
    f: (S, Line) -> S, st: S, data: Bytes, base: nat, n: nat, token: Bytes, rest: Bytes, next: S, end: nat)
    requires data != [] && n == Advance(data) && token == Token(data) && rest == data[n..]
    requires end == base + n && next == f(st, Line(token, end))
    ensures FoldLines(f, st, data, base) == FoldLines(f, next, rest, end)
  {
  }

  /** Both scans take the same first token and stay aligned. */
  lemma {:induction false} SameFirstStep<S>(f: (S, Line) -> S, st: S, a: Bytes, b: Bytes, c: Bytes, base: nat)
    returns (n: nat, next: S, ra: Bytes, rc: Bytes)
    requires a != [] && AtBoundary(a) && c == a + b
    ensures n > 0 && n + |ra| == |a| && AtBoundary(ra) && rc == ra + b
    ensures FoldLines(f, st, a, base) == FoldLines(f, next, ra, base + n)
    ensures FoldLines(f, st, c, base) == FoldLines(f, next, rc, base + n)
  {
    FirstToken(a, b);
    AdvanceWithin(a, b);
    n := Advance(a);
    next := f(st, Line(Token(a), base + n));
    ra, rc := a[n..], c[n..];
    FoldUnfolds(f, st, a, base, n, Token(a), ra);
    FoldUnfolds(f, st, c, base, n, Token(a), rc);
  }

  lemma {:induction false} ResumesAtStart<S>(f: (S, Line) -> S, st: S, a: Bytes, b: Bytes, c: Bytes, base: nat, mid: nat)
    requires a == [] && c == a + b && mid == base
    ensures FoldLines(f, st, a, base) == st && FoldLines(f, st, c, base) == FoldLines(f, st, b, mid)
  {
    FoldOfNothing(f, st, a, base);
    assert c == b;
  }

  /** Scanning resumes at any line boundary. */
  lemma {:induction false} FoldResumes<S>(f: (S, Line) -> S, st: S, a: Bytes, b: Bytes, c: Bytes, base: nat, mid: nat)
    requires AtBoundary(a) && c == a + b && mid == base + |a|
    ensures FoldLines(f, st, c, base) == FoldLines(f, FoldLines(f, st, a, base), b, mid)
  {
    var middle, end := FoldsMeet(f, st, a, b, c, base, mid);
  }

  lemma {:induction false} FoldsMeet<S>(f: (S, Line) -> S, st: S, a: Bytes, b: Bytes, c: Bytes, base: nat, mid: nat)
    returns (middle: S, end: S)
    requires AtBoundary(a) && c == a + b && mid == base + |a|
    ensures middle == FoldLines(f, st, a, base)
    ensures end == FoldLines(f, middle, b, mid) && end == FoldLines(f, st, c, base)
    decreases |a|
  {
    if a == [] {
      ResumesAtStart(f, st, a, b, c, base, mid);
      middle, end := st, FoldLines(f, st, b, mid);
    } else {
      var n, next, ra, rc := SameFirstStep(f, st, a, b, c, base);
      middle, end := FoldsMeet(f, next, ra, b, rc, base + n, mid);
    }
  }

  // -------------------------------------------------- last complete line

  function LastComplete(data: Bytes): (off: nat)
    ensures off <= |data|
  {
    if data == [] then 0
    else if data[|data| - 1] == NL then |data|
    else LastComplete(data[..|data| - 1])
  }

  /** The greatest offset that is zero or just past a newline. */
  lemma {:induction false} LastCompleteIsGreatest(data: Bytes)
    ensures AtBoundary(data[..LastComplete(data)])
    ensures forall n :: LastComplete(data) < n <= |data| ==> !AtBoundary(data[..n])
  {
    if data != [] {
      if data[|data| - 1] == NL {
        assert data[..|data|] == data;
      } else {
        var front := data[..|data| - 1];
        LastCompleteIsGreatest(front);
        var off := LastComplete(data);
        assert data[..off] == front[..off];
        forall n | off < n <= |data| ensures !AtBoundary(data[..n]) {
          if n < |data| { assert data[..n] == front[..n]; }
        }
      }
    }
  }

  lemma {:induction false} LastCompleteIs(data: Bytes, off: nat)
    requires off <= |data| && AtBoundary(data[..off])
    requires forall n :: off <= n < |data| ==> data[n] != NL
    ensures LastComplete(data) == off
  {
    LastCompleteIsGreatest(data);
    var m := LastComplete(data);
    assert off <= m;
    assert m == 0 || data[..m][m - 1] == data[m - 1];
  }

  /** Reading on from a line boundary and cutting after the last newline read
      lands on the last complete offset of the whole file. */
  lemma {:induction false} CutLandsOnLastComplete(data: Bytes, mark: nat)
    requires mark <= |data| && AtBoundary(data[..mark])
    ensures mark + LastComplete(data[mark..]) == LastComplete(data)
  {
    var rest := data[mark..];
    var cut := LastComplete(rest);
    LastCompleteIsGreatest(rest);
    assert data[..mark + cut] == data[..mark] + rest[..cut];
    forall n | mark + cut <= n < |data| ensures data[n] != NL {
      var k := n - mark + 1;
      assert !AtBoundary(rest[..k]) && rest[..k][k - 1] == data[n];
    }
    LastCompleteIs(data, mark + cut);
  }

  /** Appending never moves the last complete offset back. */
  lemma {:induction false} LastCompleteGrows(data: Bytes, more: Bytes)
    ensures LastComplete(data) <= LastComplete(data + more)
  {
    var off := LastComplete(data);
    LastCompleteIsGreatest(data);
    LastCompleteIsGreatest(data + more);
    assert (data + more)[..off] == data[..off];
  }

  method LastIndexOfNewline(buf: Bytes) returns (i: int)
    ensures -1 <= i < |buf| && i + 1 == LastComplete(buf)
    ensures (i >= 0 ==> buf[i] == NL) && forall n :: i < n < |buf| ==> buf[n] != NL
  {
    i := |buf| - 1;
    while i >= 0 && buf[i] != NL
      invariant -1 <= i < |buf|
      invariant forall n :: i < n < |buf| ==> buf[n] != NL
    {
      i := i - 1;
    }
    if i >= 0 { assert buf[..i + 1][i] == buf[i]; }
    LastCompleteIs(buf, i + 1);
  }

  /** `lastCompleteOffset`: the backward scan in chunks over the first size bytes
      of a file. */
  method LastCompleteOffset(data: Bytes, size: nat, chunk: nat) returns (off: nat)
    requires size <= |data| && chunk > 0
    ensures off == LastComplete(data[..size])
  {
    if size == 0 { return 0; }
    var end := size;
    ghost var file := data[..size];
    while end > 0
      invariant 0 <= end <= size
      invariant forall n :: end <= n < size ==> file[n] != NL
    {
      var start := if end < chunk then 0 else end - chunk;
      var buf := data[start..end];
      var i := LastIndexOfNewline(buf);
      assert forall n :: start + i < n < end ==> file[n] == buf[n - start];
      if i >= 0 {
        assert file[..start + i + 1][start + i] == file[start + i] == buf[i];
        LastCompleteIs(file, start + i + 1);
        return start + i + 1;
      }
      end := start;
    }
    LastCompleteIs(file, 0);
    return 0;
  }
}
