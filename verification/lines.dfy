/** put_substr_in_position: overwriting a window of a status line with a
    picture, with Python's clamping slice semantics written out. */
module Lines {

  /** The index a Python slice bound `i` stands for in a sequence of length
      `n`: negative bounds count from the end, and both ends are clamped. */
  function SliceBound(i: int, n: nat): (b: nat)
    ensures b <= n
    ensures 0 <= i <= n ==> b == i
    ensures i > n ==> b == n
    ensures i < 0 && n + i >= 0 ==> b == n + i
    ensures n + i < 0 ==> b == 0
  {
    if i < 0 then (if n + i < 0 then 0 else n + i)
    else if i > n then n
    else i
  }

  /** Python's s[:i]. */
  function Prefix(s: string, i: int): string {
    s[..SliceBound(i, |s|)]
  }

  /** Python's s[i:]. */
  function Suffix(s: string, i: int): string {
    s[SliceBound(i, |s|)..]
  }

  /** The position actually used: first raised to 0, then lowered to the
      last index of the line (which is -1 for an empty line). */
  function ClampPosition(pos: int, line: string): (p: int)
    ensures |line| > 0 ==> 0 <= p < |line|
    ensures |line| > 0 && 0 <= pos < |line| ==> p == pos
    ensures |line| == 0 ==> p == -1
  {
    var p := if pos < 0 then 0 else pos;
    if p > |line| - 1 then |line| - 1 else p
  }

  /** put_substr_in_position: the line up to the clamped position, then the
      picture, then the line after the picture's length. */
  function PutSubstrInPosition(substr: string, pos: int, line: string): (r: string)
    ensures |line| == 0 ==> r == substr
    ensures |line| > 0 ==> |r| >= |line|
    ensures |line| > 0 ==> r[..ClampPosition(pos, line)] == line[..ClampPosition(pos, line)]
  {
    var p := ClampPosition(pos, line);
    Prefix(line, p) + substr + Suffix(line, p + |substr|)
  }

  /** When the picture fits inside the line from a non-negative position,
      the line keeps its length, the picture occupies exactly its window and
      everything outside the window is unchanged. */
  lemma WindowReplaced(substr: string, pos: int, line: string)
    requires 0 <= pos && pos + |substr| <= |line|
    ensures PutSubstrInPosition(substr, pos, line) == line[..pos] + substr + line[pos + |substr|..]
    ensures |PutSubstrInPosition(substr, pos, line)| == |line|
  {
    var p := ClampPosition(pos, line);
    var r := PutSubstrInPosition(substr, pos, line);
    if |line| == 0 {
      assert substr == [] && r == [];
    } else if pos < |line| {
      assert p == pos;
      assert Prefix(line, p) == line[..pos];
      assert Suffix(line, p + |substr|) == line[pos + |substr|..];
    } else {
      assert substr == [] && p == |line| - 1;
      assert Prefix(line, p) == line[..p];
      assert Suffix(line, p) == line[p..];
      assert line[..p] + line[p..] == line;
    }
  }

  /** Outside the window the line is unchanged, position by position. */
  lemma OnlyWindowChanges(substr: string, pos: int, line: string, k: nat)
    requires 0 <= pos && pos + |substr| <= |line|
    requires k < |line| && !(pos <= k < pos + |substr|)
    ensures PutSubstrInPosition(substr, pos, line)[k] == line[k]
  {
    WindowReplaced(substr, pos, line);
    var r := line[..pos] + substr + line[pos + |substr|..];
    if k >= pos + |substr| {
      assert r[k] == line[pos + |substr|..][k - pos - |substr|];
    }
  }

  /** A picture that runs past the end is written whole and the line grows
      instead of being cut; a position past the end overwrites the last
      character unless the picture is empty; a negative position writes
      the picture at the start. */
  lemma OverflowExtends(substr: string, pos: int, line: string)
    ensures var p := ClampPosition(pos, line);
      |line| > 0 && p + |substr| >= |line| ==>
        PutSubstrInPosition(substr, pos, line) == line[..p] + substr
    ensures |line| > 0 && pos >= |line| && |substr| > 0 ==>
      PutSubstrInPosition(substr, pos, line) == line[..|line| - 1] + substr
    ensures |line| > 0 && pos < 0 && |substr| <= |line| ==>
      PutSubstrInPosition(substr, pos, line) == substr + line[|substr|..]
    ensures |line| > 0 && pos < 0 && |substr| > |line| ==>
      PutSubstrInPosition(substr, pos, line) == substr
  {
    var p := ClampPosition(pos, line);
    if |line| > 0 {
      assert Prefix(line, p) == line[..p];
      if p + |substr| >= |line| {
        assert Suffix(line, p + |substr|) == [];
      }
      if pos >= |line| {
        assert p == |line| - 1;
      }
      if pos < 0 {
        assert p == 0;
      }
    }
  }

  /** Two pictures on a four-character line: one placed past the end, one
      placed before the start. */
  lemma OverflowExample()
    ensures PutSubstrInPosition("ab", 9, "....") == "...ab"
    ensures PutSubstrInPosition("ab", -3, "....") == "ab.."
  {
    OverflowExtends("ab", 9, "....");
    OverflowExtends("ab", -3, "....");
  }
}
