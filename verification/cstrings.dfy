/**
 * NUL-terminated character buffers, as the sketch keeps its `activeMode`
 * label: `strcpy` writes into a fixed `char[]`, and the buffer is later read
 * back as a C string (everything before the first NUL).
 */
module CStrings {

  const NUL: char := '\0'

  /** The C string held by `buf`: its longest prefix that contains no NUL. */
  function CString(buf: seq<char>): (r: string)
    ensures |r| <= |buf| && r == buf[..|r|]
    ensures NUL !in r
    ensures |r| < |buf| ==> buf[|r|] == NUL
  {
    if buf == [] || buf[0] == NUL then [] else [buf[0]] + CString(buf[1..])
  }

  /** A buffer that holds `s` followed by a terminator reads back as `s`, whatever follows. */
  lemma CStringOfTerminated(buf: seq<char>, s: string)
    requires NUL !in s && |s| < |buf|
    requires buf[..|s|] == s && buf[|s|] == NUL
    ensures CString(buf) == s
  {
  }

  /**
   * `strcpy(dst, src)`: copies the characters of `src` and a terminating NUL
   * into `dst`; the bytes after the terminator keep their old contents.
   */
  method StrCpy(dst: array<char>, src: string)
    requires NUL !in src && |src| < dst.Length
    modifies dst
    ensures dst[..|src|] == src && dst[|src|] == NUL
    ensures dst[|src| + 1..] == old(dst[|src| + 1..])
    ensures CString(dst[..]) == src
  {
    var i := 0;
    while i < |src|
      invariant 0 <= i <= |src|
      invariant dst[..i] == src[..i]
      invariant forall k :: i <= k < dst.Length ==> dst[k] == old(dst[k])
    {
      dst[i] := src[i];
      i := i + 1;
    }
    dst[i] := NUL;
    assert dst[..][..|src|] == src;
    CStringOfTerminated(dst[..], src);
  }
}
