/** The byte buffers of src/buffer.c. A PHP string is an array; growing or truncating one
    yields a new array, and a partial read first shifts the remaining bytes in place. */
module Buffer {
  import opened Common

  /** How many bytes a read of at most `maxLen` takes from `len` buffered ones. */
  function ReadLen(maxLen: nat, len: nat): (n: nat)
    ensures n <= len && n <= maxLen && (n == len || n == maxLen)
  {
    if maxLen < len then maxLen else len
  }

  method EmptyString() returns (r: array<byte>)
    ensures fresh(r) && r[..] == []
  {
    r := new byte[0];
  }

  /** A PHP string with these bytes. */
  method Store(bytes: Bytes) returns (r: array<byte>)
    ensures fresh(r) && r[..] == bytes
  {
    var none := EmptyString();
    r := Append(none, bytes);
  }

  /** Copies `len` bytes of `src` from `start` into a new string. */
  method InitString(src: array<byte>, start: nat, len: nat) returns (r: array<byte>)
    requires start + len <= src.Length
    ensures fresh(r) && r[..] == src[start..start + len]
  {
    r := new byte[len];
    for i := 0 to len
      invariant r[..i] == src[start..start + i]
    {
      r[i] := src[start + i];
    }
    assert r[..] == r[..len];
  }

  /** php_quic_buffer_append: the old string's bytes followed by the data. */
  method Append(buffer: array<byte>, data: Bytes) returns (r: array<byte>)
    ensures r[..] == buffer[..] + data
    ensures data == [] ==> r == buffer
    ensures data != [] ==> fresh(r)
  {
    if |data| == 0 {
      return buffer;
    }
    var current := buffer.Length;
    r := new byte[current + |data|];
    for i := 0 to current
      invariant r[..i] == buffer[..i]
    {
      r[i] := buffer[i];
    }
    for i := 0 to |data|
      invariant r[..current + i] == buffer[..] + data[..i]
    {
      r[current + i] := data[i];
    }
    assert r[..] == r[..current + |data|];
  }

  /** Moves the bytes from `shift` on to the front, over the bytes they overlap. */
  method MoveDown(a: array<byte>, shift: nat)
    requires shift <= a.Length
    modifies a
    ensures a[..a.Length - shift] == old(a[shift..])
  {
    var n := a.Length - shift;
    for i := 0 to n
      invariant a[..i] == old(a[shift..shift + i])
      invariant forall k :: shift + i <= k < a.Length ==> a[k] == old(a[k])
    {
      a[i] := a[shift + i];
    }
    assert a[..n] == old(a[shift..shift + n]);
  }

  /** php_quic_buffer_read: the chunk and what is left are exactly the buffer, split at
      the number of bytes read. */
  method Read(buffer: array<byte>, maxLen: nat) returns (chunk: Bytes, r: array<byte>)
    modifies buffer
    ensures chunk == old(buffer[..])[..ReadLen(maxLen, buffer.Length)]
    ensures chunk + r[..] == old(buffer[..])
    ensures r == buffer || fresh(r)
  {
    if buffer.Length == 0 || maxLen == 0 {
      return [], buffer;
    }
    var bufferLen := buffer.Length;
    var readLen := if maxLen < bufferLen then maxLen else bufferLen;
    chunk := buffer[..readLen];
    if readLen == bufferLen {
      r := EmptyString();
      return;
    }
    MoveDown(buffer, readLen);
    r := InitString(buffer, 0, bufferLen - readLen);
  }
}
