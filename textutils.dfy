/** TextUtils: reading a line or a whitespace-delimited token from a byte stream into a buffer that
    doubles when full, and closing a closeable. */
module TextUtils {
  import opened Wrappers
  import opened Numerics

  const NEWLINE: byte := 10
  const INITIAL_BUFFER: nat := 1024

  /** An InputStream over a fixed byte sequence; read() yields the next byte or -1 at the end. */
  class InputStream {
    const data: seq<byte>
    var position: nat

    predicate Valid()
      reads this
    {
      position <= |data|
    }

    constructor (data: seq<byte>)
      ensures Valid() && this.data == data && position == 0
    {
      this.data := data;
      position := 0;
    }

    method Read() returns (ch: int)
      requires Valid()
      modifies this
      ensures Valid()
      ensures old(position) < |data| ==> ch == data[old(position)] as int && position == old(position) + 1
      ensures old(position) == |data| ==> ch == -1 && position == old(position)
    {
      if position < |data| {
        ch := data[position] as int;
        position := position + 1;
      } else {
        ch := -1;
      }
    }
  }

  /** The index of the first newline at or after start, or the end of the data. */
  function LineEnd(data: seq<byte>, start: nat): (e: nat)
    requires start <= |data|
    ensures start <= e <= |data|
    ensures e < |data| ==> data[e] == NEWLINE
    ensures forall k :: start <= k < e ==> data[k] != NEWLINE
    decreases |data| - start
  {
    if start == |data| || data[start] == NEWLINE then start else LineEnd(data, start + 1)
  }

  /** Character.isWhitespace on the code points a byte can hold. */
  predicate IsWhitespace(ch: int)
  {
    (9 <= ch <= 13) || (28 <= ch <= 32)
  }

  /** The index of the first whitespace byte at or after start, or the end of the data. */
  function TokenEnd(data: seq<byte>, start: nat): (e: nat)
    requires start <= |data|
    ensures start <= e <= |data|
    ensures e < |data| ==> IsWhitespace(data[e] as int)
    ensures forall k :: start <= k < e ==> !IsWhitespace(data[k] as int)
    decreases |data| - start
  {
    if start == |data| || IsWhitespace(data[start] as int) then start else TokenEnd(data, start + 1)
  }

  /** A buffer that matches the data from start for p bytes, and whose next byte is the next data
      byte, matches it for p + 1 bytes. */
  lemma ExtendPrefix(b: seq<byte>, p: nat, data: seq<byte>, start: nat)
    requires p < |b| && start + p < |data|
    requires b[..p] == data[start..start + p] && b[p] == data[start + p]
    ensures b[..p + 1] == data[start..start + p + 1]
  {
    assert b[..p + 1] == b[..p] + [b[p]];
    assert data[start..start + p + 1] == data[start..start + p] + [data[start + p]];
  }

  /** Arrays.copyOf: a fresh array of the new length starting with the first n elements. */
  method CopyOf(buf: array<byte>, n: nat, newLength: nat) returns (copy: array<byte>)
    requires n <= buf.Length && n <= newLength
    ensures fresh(copy) && copy.Length == newLength && copy[..n] == buf[..n]
  {
    copy := new byte[newLength];
    var k := 0;
    while k < n
      invariant 0 <= k <= n
      invariant copy[..k] == buf[..k]
    {
      copy[k] := buf[k];
      k := k + 1;
    }
  }

  /** readLineFromStream: the bytes up to the next newline or the end, without the newline, which is
      consumed; null when no byte was collected, so a blank line also reads as null. The UTF-8 decoding
      of the bytes is not modelled. */
  method ReadLineFromStream(input: InputStream) returns (line: Option<seq<byte>>)
    requires input.Valid()
    modifies input
    ensures input.Valid()
    ensures var e := LineEnd(input.data, old(input.position));
            input.position == (if e < |input.data| then e + 1 else e) &&
            line == (if e == old(input.position) then None else Some(input.data[old(input.position)..e]))
  {
    ghost var start := input.position;
    var buf := new byte[INITIAL_BUFFER];
    var pos := 0;
    while true
      invariant input.Valid() && start <= input.position
      invariant fresh(buf)
      invariant pos == input.position - start && pos < buf.Length
      invariant buf[..pos] == input.data[start..input.position]
      invariant forall k :: start <= k < input.position ==> input.data[k] != NEWLINE
      decreases |input.data| - input.position
    {
      var ch := input.Read();
      if ch == NEWLINE as int || ch < 0 { break; }
      ghost var collected := buf[..pos];
      buf[pos] := ch as byte;
      assert buf[..pos] == collected;
      ExtendPrefix(buf[..], pos, input.data, start);
      pos := pos + 1;
      if pos == buf.Length {
        buf := CopyOf(buf, pos, pos * 2);
      }
    }
    LineEndIsFirstStop(input.data, start, start + pos);
    if pos == 0 { return None; }
    var copy := CopyOf(buf, pos, pos);
    assert copy[..] == copy[..pos];
    line := Some(copy[..]);
  }

  lemma LineEndIsFirstStop(data: seq<byte>, start: nat, e: nat)
    requires start <= e <= |data|
    requires e < |data| ==> data[e] == NEWLINE
    requires forall k :: start <= k < e ==> data[k] != NEWLINE
    ensures LineEnd(data, start) == e
  {
  }

  /** readNumberFromStream up to the parse: the bytes up to the next whitespace or the end, the
      whitespace byte consumed; null for an empty token. Float.parseFloat is not modelled. */
  method ReadNumberFromStream(input: InputStream) returns (token: Option<seq<byte>>)
    requires input.Valid()
    modifies input
    ensures input.Valid()
    ensures var e := TokenEnd(input.data, old(input.position));
            input.position == (if e < |input.data| then e + 1 else e) &&
            token == (if e == old(input.position) then None else Some(input.data[old(input.position)..e]))
  {
    ghost var start := input.position;
    var buf := new byte[INITIAL_BUFFER];
    var pos := 0;
    while true
      invariant fresh(buf)
      invariant input.Valid() && start <= input.position
      invariant pos == input.position - start && pos < buf.Length
      invariant buf[..pos] == input.data[start..input.position]
      invariant forall k :: start <= k < input.position ==> !IsWhitespace(input.data[k] as int)
      decreases |input.data| - input.position
    {
      var ch := input.Read();
      if IsWhitespace(ch) || ch == NEWLINE as int || ch < 0 { break; }
      ghost var collected := buf[..pos];
      buf[pos] := ch as byte;
      assert buf[..pos] == collected;
      ExtendPrefix(buf[..], pos, input.data, start);
      pos := pos + 1;
      if pos == buf.Length {
        buf := CopyOf(buf, pos, pos * 2);
      }
    }
    TokenEndIsFirstStop(input.data, start, start + pos);
    if pos == 0 { return None; }
    var copy := CopyOf(buf, pos, pos);
    assert copy[..] == copy[..pos];
    token := Some(copy[..]);
  }

  lemma TokenEndIsFirstStop(data: seq<byte>, start: nat, e: nat)
    requires start <= e <= |data|
    requires e < |data| ==> IsWhitespace(data[e] as int)
    requires forall k :: start <= k < e ==> !IsWhitespace(data[k] as int)
    ensures TokenEnd(data, start) == e
  {
  }

  /** A reader or writer; close may fail, which the source only logs. */
  class Closeable {
    var closed: bool

    constructor ()
      ensures !closed
    {
      closed := false;
    }
  }

  /** close: a null closeable is left alone, any other one is closed. */
  method Close(c: Closeable?)
    modifies if c == null then {} else {c}
    ensures c != null ==> c.closed
  {
    if c == null { return; }
    c.closed := true;
  }
}
