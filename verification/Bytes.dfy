/** Octet strings, and what the C string functions of the program make of them. */
module Bytes {

  datatype Option<+T> = None | Some(value: T)

  type Byte = b: int | 0 <= b < 256

  /** The content of one std::string or of one frame: any octets, NUL included. */
  type Frame = seq<Byte>

  /** strlen of a worker or client identity buffer. */
  const IDENTITY_MAXLEN: nat := 11

  /** What is left of `f` once it has passed through a `const char*`. */
  function CStr(f: Frame): (r: Frame)
    ensures |r| <= |f| && r == f[..|r|]
    ensures 0 !in r
    ensures |r| < |f| ==> f[|r|] == 0
  {
    if f == [] || f[0] == 0 then [] else [f[0]] + CStr(f[1..])
  }

  /** strncpy into a buffer of n + 1 octets followed by a terminator. */
  function Bounded(f: Frame, n: nat): (r: Frame)
    ensures |r| <= n && 0 !in r
    ensures |CStr(f)| <= n ==> r == CStr(f)
  {
    var c := CStr(f);
    if |c| <= n then c else c[..n]
  }

  /** A frame survives the C string functions exactly when it holds no NUL. */
  lemma {:induction false} CStrExact(f: Frame)
    ensures CStr(f) == f <==> 0 !in f
  {
    assert |CStr(f)| < |f| ==> f[|CStr(f)|] in f;
  }

  /** What fits of the text in front of the first NUL, from its beginning. */
  lemma {:induction false} BoundedPrefix(f: Frame, n: nat)
    ensures Bounded(f, n) <= f && |Bounded(f, n)| == if |CStr(f)| <= n then |CStr(f)| else n
  {
  }

  lemma BoundedExact(f: Frame, n: nat)
    ensures Bounded(f, n) == f <==> 0 !in f && |f| <= n
  {
    CStrExact(f);
  }

  /** std::string::find(needle) != npos. */
  predicate Contains(f: Frame, needle: Frame)
  {
    exists i :: 0 <= i <= |f| && OccursAt(f, needle, i)
  }

  predicate OccursAt(f: Frame, needle: Frame, i: nat)
  {
    i + |needle| <= |f| && f[i..i + |needle|] == needle
  }
}
