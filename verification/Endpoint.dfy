/** The in-place rewrite of an endpoint before a bind: a star takes the place of the host, the port stays. */
module Endpoint {
  import opened Bytes

  const SLASH: Byte := 47
  const COLON: Byte := 58
  const STAR: Byte := 42

  /** strrchr: the last position of an octet. */
  predicate IsLast(f: Frame, c: Byte, r: Option<nat>)
  {
    match r
    case Some(i) => i < |f| && f[i] == c && c !in f[i + 1..]
    case None => c !in f
  }

  /** No write of the rewrite leaves the buffer: there are both marks, and a host of one character at least. */
  predicate Rewritable(slash: Option<nat>, colon: Option<nat>)
  {
    slash.Some? && colon.Some? && colon.value >= slash.value + 2
  }

  /** The text the buffer holds afterwards. A host of one character leaves room for the star only: its
      terminator falls on the colon, and the port is lost. */
  function Rewritten(f: Frame, slash: nat, colon: nat): Frame
    requires slash < |f| && colon <= |f|
  {
    f[..slash + 1] + [STAR] + (if colon >= slash + 3 then f[colon..] else [])
  }

  predicate IsText(a: seq<Byte>, f: Frame)
  {
    |a| == |f| + 1 && a[..|f|] == f && a[|f|] == 0 && 0 !in f
  }

  method StrRChr(a: array<Byte>, c: Byte, ghost f: Frame) returns (r: Option<nat>)
    requires IsText(a[..], f) && c != 0
    ensures IsLast(f, c, r)
  {
    var i := a.Length - 1;
    while i > 0
      invariant 0 <= i < a.Length && c !in f[i..]
    {
      i := i - 1;
      assert a[i] == a[..][i] == a[..][..|f|][i] == f[i];
      if a[i] == c {
        return Some(i);
      }
      assert f[i..] == [f[i]] + f[i + 1..];
    }
    assert f[0..] == f;
    return None;
  }

  /** The copying loop of strcat, one octet at a time; it ends at the source's terminator or past the buffer. */
  method CopyDown(a: array<Byte>, dest: nat, src: nat) returns (inside: bool)
    requires dest < a.Length && a[dest] == 0 && a[a.Length - 1] == 0
    requires src < a.Length && forall i :: 0 <= i < a.Length - 1 && i != dest ==> a[i] != 0
    modifies a
    ensures inside <==> src >= dest
    ensures forall i :: 0 <= i < dest ==> a[i] == old(a[i])
    ensures inside && src > dest ==>
              forall i :: src <= i < a.Length ==> a[dest + i - src] == old(a[i])
    ensures src == dest ==> a[dest] == 0
  {
    var k := 0;
    while dest + k < a.Length
      invariant 0 <= k <= a.Length - dest && (src > dest ==> src + k < a.Length)
      invariant src == dest ==> k == 0
      invariant forall i :: 0 <= i < dest ==> a[i] == old(a[i])
      invariant forall i :: dest + k < i < a.Length ==> a[i] == old(a[i])
      invariant k == 0 ==> a[dest] == 0
      invariant src > dest ==> forall i :: src <= i < src + k ==> a[dest + i - src] == old(a[i])
      invariant src < dest ==> forall i :: 0 <= i < dest + k ==> a[i] != 0
    {
      var octet := a[src + k];
      a[dest + k] := octet;
      if octet == 0 {
        return true;
      }
      k := k + 1;
    }
    return false;
  }

  /** None stands for a null pointer or a write past the allocated octets. */
  method BindEndpoint(endpoint: Frame)
    returns (text: Option<array<Byte>>, ghost slash: Option<nat>, ghost colon: Option<nat>)
    requires 0 !in endpoint
    ensures IsLast(endpoint, SLASH, slash) && IsLast(endpoint, COLON, colon)
    ensures text.Some? <==> Rewritable(slash, colon)
    ensures text.Some? ==> text.value.Length == |endpoint| + 1
    ensures text.Some? ==> CStr(text.value[..]) == Rewritten(endpoint, slash.value, colon.value)
  {
    var n := |endpoint|;
    var endp := new Byte[n + 1](i requires 0 <= i <= n => if i < n then endpoint[i] else 0);
    assert endp[..n] == endpoint;
    assert endp[..][..n] == endpoint;
    var posSlash := StrRChr(endp, SLASH, endpoint);
    var posColon := StrRChr(endp, COLON, endpoint);
    slash, colon := posSlash, posColon;
    if posSlash.None? || posColon.None? || posSlash.value + 2 > n {
      return None, slash, colon;
    }
    var s, c := posSlash.value, posColon.value;
    endp[s + 1], endp[s + 2] := STAR, 0;
    assert forall i :: 0 <= i < n && i != s + 1 && i != s + 2 ==> endp[i] == endpoint[i];
    var inside := CopyDown(endp, s + 2, c);
    if !inside {
      return None, slash, colon;
    }
    Assembled(endp[..], endpoint, s, c);
    return Some(endp), slash, colon;
  }

  /** The text with its terminator. */
  function Terminated(f: Frame, i: nat): Byte
    requires i <= |f|
  {
    if i < |f| then f[i] else 0
  }

  /** Reading the buffer up to its first terminator. */
  lemma {:induction false} Assembled(a: seq<Byte>, f: Frame, s: nat, c: nat)
    requires |a| == |f| + 1 && s + 2 <= c < |f| && 0 !in f
    requires forall i :: 0 <= i <= s ==> a[i] == f[i]
    requires a[s + 1] == STAR
    requires c > s + 2 ==> forall j :: s + 2 <= j <= s + 2 + |f| - c ==> a[j] == Terminated(f, c + j - s - 2)
    requires c == s + 2 ==> a[s + 2] == 0
    ensures CStr(a) == Rewritten(f, s, c)
  {
    var r := Rewritten(f, s, c);
    assert a[..|r|] == r;
    assert a[|r|] == 0;
    TextUpTo(a, r);
  }

  lemma {:induction false} TextUpTo(a: seq<Byte>, r: Frame)
    requires |r| < |a| && a[..|r|] == r && a[|r|] == 0 && 0 !in r
    ensures CStr(a) == r
  {
    if r != [] {
      assert a[0] == r[0] && a[1..][..|r| - 1] == r[1..];
      TextUpTo(a[1..], r[1..]);
    }
  }

  /** What the rewrite is for, for every endpoint with a host of two characters or more: scheme and port stay,
      the host becomes a star, and the text gets no longer. */
  lemma PortSurvives(f: Frame, slash: nat, colon: nat)
    requires IsLast(f, SLASH, Some(slash)) && IsLast(f, COLON, Some(colon)) && Rewritable(Some(slash), Some(colon))
    ensures |Rewritten(f, slash, colon)| < |f|
    ensures Rewritten(f, slash, colon) == f[..slash + 1] + [STAR] + f[colon..] <==> colon >= slash + 3
  {
    assert f[colon..] != [];
    if colon < slash + 3 {
      assert |f[..slash + 1] + [STAR] + f[colon..]| > |Rewritten(f, slash, colon)|;
    }
  }
}
