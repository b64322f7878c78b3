/** The buffers behind percent coding (parser.c): each loop writes into a malloc'ed array that it
    may reallocate, and always keeps room for what it may write next. */
module PercentBuffers {
  import opened Percent

  /** `realloc`: a larger array with the same leading bytes. */
  method Realloc(a: array<byte>, used: nat, size: nat) returns (b: array<byte>)
    requires used <= a.Length && used <= size
    ensures fresh(b) && b.Length == size && b[..used] == a[..used]
  {
    b := new byte[size];
    for i := 0 to used
      invariant b[..i] == a[..i]
    {
      b[i] := a[i];
    }
  }

  /** `snprintf(a + at, …, "%%%02x", c)`, which also writes a terminator: it needs four free places. */
  method PrintHex(a: array<byte>, at: nat, c: byte) returns (end: nat)
    requires at + 4 <= a.Length
    modifies a
    ensures end == at + 3
    ensures a[..end] == old(a[..at]) + Hex(c)
  {
    var hex := Hex(c);
    a[at], a[at + 1], a[at + 2], a[at + 3] := hex[0], hex[1], hex[2], 0;
    end := at + 3;
    assert a[..at] == old(a[..at]);
  }

  method PutByte(a: array<byte>, at: nat, c: byte) returns (end: nat)
    requires at < a.Length
    modifies a
    ensures end == at + 1
    ensures a[..end] == old(a[..at]) + [c]
  {
    a[at] := c;
    end := at + 1;
    assert a[..at] == old(a[..at]);
  }

  /** The array holds `text` and a terminator right behind it. */
  ghost predicate Holds(a: array<byte>, length: nat, text: seq<byte>)
    reads a
  {
    length < a.Length && a[..length] == text && a[length] == 0
  }

  /** What remains to be written grows the finished part by the next unit. */
  lemma Advance(done: seq<byte>, piece: seq<byte>, todo: seq<byte>)
    ensures done + (piece + todo) == (done + piece) + todo
  {
  }

  /** `bctbx_escape`. The buffer grows by at least three bytes whenever fewer than three are free. */
  method Escape(buff: seq<byte>, noescapes: Rules) returns (output: array<byte>, length: nat)
    ensures Holds(output, length, Escaped(buff, noescapes))
  {
    var outbufSize, origSize := |buff|, |buff|;
    output := new byte[outbufSize + 1];
    length := 0;
    var i := 0;
    ghost var goal, todo := Escaped(buff, noescapes), buff;
    assert output[..length] + goal == goal;
    while i < |buff|
      invariant 0 <= i <= |buff| && todo == buff[i..]
      invariant fresh(output) && output.Length == outbufSize + 1 && length <= outbufSize
      invariant output[..length] + Escaped(todo, noescapes) == goal
    {
      var c := buff[i];
      assert todo[0] == c && todo[1..] == buff[i + 1..];
      EscapedFirst(todo, noescapes);
      Advance(output[..length], Written(Unit(c, noescapes[c] != 1)), Escaped(todo[1..], noescapes));
      if outbufSize < length + 3 {
        outbufSize := outbufSize + (if origSize / 2 > 3 then origSize / 2 else 3);
        output := Realloc(output, length, outbufSize + 1);
      }
      if noescapes[c] == 1 {
        length := PutByte(output, length, c);
      } else {
        length := PrintHex(output, length, c);
      }
      i := i + 1;
      todo := todo[1..];
    }
    assert output[..length] + [] == output[..length];
    ghost var written := output[..length];
    output[length] := 0;
    assert output[..length] == written;
  }

  /** `bctbx_unescaped_string`: the result is never longer than the input. */
  method UnescapeAll(buff: seq<byte>, misread: Misread) returns (output: array<byte>, length: nat)
    ensures Holds(output, length, Unescaped(buff, misread))
  {
    output := new byte[|buff| + 1];
    length := 0;
    var i := 0;
    ghost var goal, todo := Unescaped(buff, misread), buff;
    assert output[..length] + goal == goal;
    while i < |buff|
      invariant 0 <= i <= |buff| && todo == buff[i..]
      invariant fresh(output) && output.Length == |buff| + 1 && length <= i
      invariant output[..length] + Unescaped(todo, misread) == goal
    {
      var (c, n) := GetChar(buff[i..], misread);
      Advance(output[..length], [c], Unescaped(todo[n..], misread));
      length := PutByte(output, length, c);
      i := i + n;
      assert todo[n..] == buff[i..];
      todo := todo[n..];
    }
    assert output[..length] + [] == output[..length];
    ghost var written := output[..length];
    output[length] := 0;
    assert output[..length] == written;
  }

  /** `bctbx_unescaped_string_only_chars_in_rules`: every re-escaped character makes the buffer three
      bytes longer, so the written part, the unread input and a terminator always fit. */
  method UnescapeSelected(buff: seq<byte>, unescape: Rules, misread: Misread)
    returns (output: array<byte>, length: nat)
    ensures Holds(output, length, Selected(buff, unescape, misread))
  {
    var maxLen := |buff| + 1;
    output := new byte[maxLen];
    length := 0;
    var i := 0;
    ghost var goal, todo := Selected(buff, unescape, misread), buff;
    assert output[..length] + goal == goal;
    while i < |buff|
      invariant 0 <= i <= |buff| && todo == buff[i..]
      invariant fresh(output) && output.Length == maxLen && length + (|buff| - i) + 1 <= maxLen
      invariant output[..length] + Selected(todo, unescape, misread) == goal
    {
      var (c, n) := GetChar(buff[i..], misread);
      FirstUnit(todo, unescape, misread);
      var again := unescape[c] == 0 && IsEscaped(buff[i..][n..]);
      Advance(output[..length], Written(Unit(c, again)), Selected(todo[n..], unescape, misread));
      i := i + n;
      if again {
        maxLen := maxLen + 3;
        output := Realloc(output, length, maxLen);
        length := PrintHex(output, length, c);
      } else {
        length := PutByte(output, length, c);
      }
      assert todo[n..] == buff[i..];
      todo := todo[n..];
    }
    assert output[..length] + [] == output[..length];
    ghost var written := output[..length];
    output[length] := 0;
    assert output[..length] == written;
  }
}
