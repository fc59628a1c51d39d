// Decoding of the scanner's packed tables (src/Lexer.java:74-122, 194-247).
// The generated scanner stores its action, row-map, transition and attribute
// tables as Java string literals and expands them into int arrays when the
// class is loaded. A Java String is modelled by its UTF-16 code units.
module LexerTables {

  /** A UTF-16 code unit, the value `String.charAt` returns. */
  type CodeUnit = x: int | 0 <= x < 0x1_0000

  /** `count` copies of `v`; a count below one still yields one copy (the do-while). */
  function Copies(v: int, count: int): (r: seq<int>)
    ensures |r| == if count > 1 then count else 1
    decreases count
  {
    if count <= 1 then [v] else [v] + Copies(v, count - 1)
  }

  /** Every entry of a run holds its value. */
  lemma {:induction false} CopiesAll(v: int, count: int)
    ensures forall k :: 0 <= k < |Copies(v, count)| ==> Copies(v, count)[k] == v
    decreases count
  {
    if count > 1 {
      CopiesAll(v, count - 1);
    }
  }

  /**
   * Run-length decoding of the pairs before index `i`: each pair
   * (count, value) stands for `count` copies of `value + delta`.
   */
  function RunsTo(packed: seq<CodeUnit>, i: nat, delta: int): seq<int>
    requires i <= |packed|
    decreases i
  {
    if i < 2 then [] else RunsTo(packed, i - 2, delta) + Copies(packed[i - 1] + delta, packed[i - 2])
  }

  /** The decoded table of a whole packed string. */
  function Runs(packed: seq<CodeUnit>, delta: int): seq<int>
    requires |packed| % 2 == 0
  {
    RunsTo(packed, |packed|, delta)
  }

  /** Decoding `m` more pairs never shortens the table. */
  lemma {:induction false} RunsToGrows(packed: seq<CodeUnit>, i: nat, k: nat, m: nat, delta: int)
    requires k == i + 2 * m <= |packed|
    ensures |RunsTo(packed, i, delta)| <= |RunsTo(packed, k, delta)|
    decreases m
  {
    if m > 0 {
      RunsToGrows(packed, i, k - 2, m - 1, delta);
    }
  }

  /** The decoding of a prefix ignores what follows it. */
  lemma {:induction false} RunsToPrefix(p: seq<CodeUnit>, q: seq<CodeUnit>, i: nat, delta: int)
    requires i <= |p|
    ensures RunsTo(p + q, i, delta) == RunsTo(p, i, delta)
    decreases i
  {
    if i >= 2 {
      var r := p + q;
      assert r[i - 1] == p[i - 1] && r[i - 2] == p[i - 2];
      var run := Copies(p[i - 1] + delta, p[i - 2]);
      RunsToPrefix(p, q, i - 2, delta);
      calc {
        RunsTo(r, i, delta);
        RunsTo(r, i - 2, delta) + run;
        RunsTo(p, i - 2, delta) + run;
        RunsTo(p, i, delta);
      }
    }
  }

  /** The encoding the generator could have used: every value as a pair (1, value - delta). */
  function Singles(s: seq<int>, delta: int): (packed: seq<CodeUnit>)
    requires forall k :: 0 <= k < |s| ==> 0 <= s[k] - delta < 0x1_0000
    ensures |packed| == 2 * |s|
    decreases |s|
  {
    if s == [] then [] else Singles(s[..|s| - 1], delta) + [1, s[|s| - 1] - delta]
  }

  /** Decoding inverts that encoding: no table loses an entry. */
  lemma {:induction false} RunsSingles(s: seq<int>, delta: int)
    requires forall k :: 0 <= k < |s| ==> 0 <= s[k] - delta < 0x1_0000
    ensures Runs(Singles(s, delta), delta) == s
    decreases |s|
  {
    if s != [] {
      var front := s[..|s| - 1];
      var q := Singles(front, delta);
      var p := Singles(s, delta);
      assert p == q + [1, s[|s| - 1] - delta];
      RunsToPrefix(q, [1, s[|s| - 1] - delta], |q|, delta);
      RunsSingles(front, delta);
      assert RunsTo(p, |p|, delta) == RunsTo(p, |q|, delta) + [s[|s| - 1]];
      assert s == front + [s[|s| - 1]];
    }
  }

  /**
   * The do-while of the unpackers: writes `value` at `j` and goes on while
   * the decremented `count` stays positive.
   */
  method FillRun(result: array<int>, offset: nat, j: nat, value: int, count: int) returns (end: nat)
    requires offset <= j && j + |Copies(value, count)| <= result.Length
    modifies result
    ensures end == j + |Copies(value, count)|
    ensures result[offset..end] == old(result[offset..j]) + Copies(value, count)
    ensures forall k :: 0 <= k < j || end <= k < result.Length ==> result[k] == old(result[k])
  {
    ghost var run := Copies(value, count);
    CopiesAll(value, count);
    var c := count;
    end := j;
    result[end] := value;
    end := end + 1;
    c := c - 1;
    while c > 0
      invariant j < end <= j + |run|
      invariant end - j == |run| - (if c > 0 then c else 0)
      invariant forall k :: j <= k < end ==> result[k] == value
      invariant forall k :: 0 <= k < j || end <= k < result.Length ==> result[k] == old(result[k])
      decreases c
    {
      result[end] := value;
      end := end + 1;
      c := c - 1;
    }
    assert result[offset..end] == result[offset..j] + result[j..end];
  }

  /**
   * zzUnpackAction, zzUnpackAttribute (delta 0) and zzUnpackTrans (delta -1):
   * expands `packed` into `result` from `offset` on and returns the index
   * after the last entry written.
   */
  method UnpackRuns(packed: seq<CodeUnit>, offset: nat, result: array<int>, delta: int) returns (j: nat)
    requires |packed| % 2 == 0
    requires offset + |Runs(packed, delta)| <= result.Length
    modifies result
    ensures j == offset + |Runs(packed, delta)|
    ensures result[offset..j] == Runs(packed, delta)
    ensures result[..offset] == old(result[..offset])
    ensures result[j..] == old(result[j..])
  {
    var i := 0;
    j := offset;
    ghost var pairs := |packed| / 2;
    ghost var p := 0;
    while i < |packed|
      invariant i == 2 * p <= |packed| == 2 * pairs
      invariant j == offset + |RunsTo(packed, i, delta)| <= offset + |Runs(packed, delta)|
      invariant result[offset..j] == RunsTo(packed, i, delta)
      invariant forall k :: 0 <= k < offset || j <= k < result.Length ==> result[k] == old(result[k])
      decreases |packed| - i
    {
      var count := packed[i];
      var value := packed[i + 1] + delta;
      RunsToGrows(packed, i + 2, |packed|, pairs - p - 1, delta);
      j := FillRun(result, offset, j, value, count);
      assert RunsTo(packed, i + 2, delta) == RunsTo(packed, i, delta) + Copies(value, count);
      i := i + 2;
      p := p + 1;
    }
  }

  /** Java's `int`: a value reduced to 32-bit two's complement. */
  function Int32(x: int): (r: int)
    ensures -0x8000_0000 <= r < 0x8000_0000
    ensures (r - x) % 0x1_0000_0000 == 0
  {
    var m := x % 0x1_0000_0000;
    if m < 0x8000_0000 then m else m - 0x1_0000_0000
  }

  /**
   * `(high << 16) | low` on Java ints: the low 16 bits of the shifted value
   * are zero, so the `|` adds `low`, and bits shifted past bit 31 are lost.
   */
  function Row(high: CodeUnit, low: CodeUnit): int
  {
    Int32(high * 0x1_0000 + low)
  }

  /** The row map: one entry per pair (high, low) of the packed string. */
  function Rows(packed: seq<CodeUnit>): (r: seq<int>)
    requires |packed| % 2 == 0
    ensures |r| == |packed| / 2
    decreases |packed|
  {
    if packed == [] then [] else [Row(packed[0], packed[1])] + Rows(packed[2..])
  }

  /** The two code units of a row entry can be read back from it. */
  lemma RowHalves(high: CodeUnit, low: CodeUnit)
    ensures (Row(high, low) % 0x1_0000_0000) / 0x1_0000 == high
    ensures Row(high, low) % 0x1_0000 == low
  {
    var x := high * 0x1_0000 + low;
    assert 0 <= x < 0x1_0000_0000;
    assert Row(high, low) % 0x1_0000_0000 == x;
  }

  /** Entry k of the row map comes from the pair at 2k and 2k + 1. */
  lemma {:induction false} RowsAt(packed: seq<CodeUnit>, k: nat)
    requires |packed| % 2 == 0 && k < |packed| / 2
    ensures Rows(packed)[k] == Row(packed[2 * k], packed[2 * k + 1])
    decreases k
  {
    if k > 0 {
      RowsAt(packed[2..], k - 1);
    }
  }

  /** zzUnpackRowMap: expands `packed` into `result` from `offset` on. */
  method UnpackRowMap(packed: seq<CodeUnit>, offset: nat, result: array<int>) returns (j: nat)
    requires |packed| % 2 == 0
    requires offset + |packed| / 2 <= result.Length
    modifies result
    ensures j == offset + |packed| / 2
    ensures result[offset..j] == Rows(packed)
    ensures result[..offset] == old(result[..offset])
    ensures result[j..] == old(result[j..])
  {
    var i := 0;
    j := offset;
    while i < |packed|
      invariant i <= |packed| && i % 2 == 0
      invariant j == offset + i / 2
      invariant result[offset..j] == Rows(packed[..i])
      invariant forall k :: 0 <= k < offset || j <= k < result.Length ==> result[k] == old(result[k])
      decreases |packed| - i
    {
      var high := packed[i];
      var low := packed[i + 1];
      RowsStep(packed, i);
      ghost var j0 := j;
      i := i + 2;
      result[j] := Row(high, low);
      j := j + 1;
      assert result[offset..j] == result[offset..j0] + [result[j0]];
    }
    assert packed[..i] == packed;
  }

  /** The pair at `i` appends one entry to the row map of the prefix. */
  lemma RowsStep(packed: seq<CodeUnit>, i: nat)
    requires |packed| % 2 == 0 && i % 2 == 0 && i + 2 <= |packed|
    ensures Rows(packed[..i + 2]) == Rows(packed[..i]) + [Row(packed[i], packed[i + 1])]
  {
    RowsAppend(packed[..i], packed[i..i + 2]);
    assert packed[..i + 2] == packed[..i] + packed[i..i + 2];
  }

  /** The row map distributes over concatenation of whole pairs. */
  lemma {:induction false} RowsAppend(p: seq<CodeUnit>, q: seq<CodeUnit>)
    requires |p| % 2 == 0 && |q| % 2 == 0
    ensures Rows(p + q) == Rows(p) + Rows(q)
    decreases |p|
  {
    if p == [] {
      assert p + q == q;
    } else {
      assert (p + q)[2..] == p[2..] + q;
      RowsAppend(p[2..], q);
    }
  }
}
