/** Escaping of attribute values: repeated find, erase and insert, against the one-pass substitution of XML 1.0. */
module Escape {
  import opened Bytes

  const AMP: Byte := 38
  const LT: Byte := 60
  const GT: Byte := 62

  const AMP_ENTITY: Frame := [38, 97, 109, 112, 59] // "&amp;"
  const LT_ENTITY: Frame := [38, 108, 116, 59]      // "&lt;"
  const GT_ENTITY: Frame := [38, 103, 116, 59]      // "&gt;"

  /** Every occurrence of one octet replaced, in one pass. */
  function Substituted(s: Frame, c: Byte, entity: Frame): Frame
  {
    if s == [] then [] else (if s[0] == c then entity else [s[0]]) + Substituted(s[1..], c, entity)
  }

  /** Section 2.4 of XML 1.0: what character data looks like with its three marks escaped. */
  function Escaped(s: Frame): Frame
  {
    if s == [] then [] else Marked(s[0]) + Escaped(s[1..])
  }

  function Marked(c: Byte): Frame
  {
    if c == AMP then AMP_ENTITY else if c == LT then LT_ENTITY else if c == GT then GT_ENTITY else [c]
  }

  /** Section 4.6 of XML 1.0: the predefined entities of this alphabet, read back. */
  function Decoded(s: Frame): Frame
    decreases |s|
  {
    if s == [] then []
    else if AMP_ENTITY <= s then [AMP] + Decoded(s[5..])
    else if LT_ENTITY <= s then [LT] + Decoded(s[4..])
    else if GT_ENTITY <= s then [GT] + Decoded(s[4..])
    else [s[0]] + Decoded(s[1..])
  }

  // ---------------------------------------------------------------- the program

  predicate FirstAt(s: Frame, c: Byte, i: nat) { i < |s| && s[i] == c && c !in s[..i] }

  method Find(s: Frame, c: Byte) returns (found: Option<nat>)
    ensures match found
            case Some(i) => FirstAt(s, c, i)
            case None => c !in s
  {
    for i := 0 to |s|
      invariant c !in s[..i]
    {
      if s[i] == c {
        return Some(i);
      }
      assert s[..i + 1] == s[..i] + [s[i]];
    }
    assert s[..|s|] == s;
    return None;
  }

  function Spliced(s: Frame, i: nat, entity: Frame): Frame
    requires i < |s|
  {
    s[..i] + entity + s[i + 1..]
  }

  /** The loop for a mark its own entity does not contain: every round leaves one occurrence less. */
  method ReplaceAll(s: Frame, c: Byte, entity: Frame) returns (r: Frame)
    requires c !in entity
    ensures r == Substituted(s, c, entity)
  {
    r := s;
    var found := Find(r, c);
    while found.Some?
      invariant Substituted(r, c, entity) == Substituted(s, c, entity)
      invariant found.Some? ==> FirstAt(r, c, found.value)
      invariant found.None? ==> c !in r
      decreases multiset(r)[c], if found.Some? then 1 else 0
    {
      SpliceKeeps(r, c, entity, found.value);
      r := Spliced(r, found.value, entity);
      found := Find(r, c);
    }
    NothingToReplace(r, c, entity);
  }

  /** Whatever number of rounds the loop for '&' is given, it is done only if there was nothing to replace. */
  method ReplaceAmp(s: Frame, rounds: nat) returns (r: Frame, done: bool)
    ensures done <==> AMP !in s
    ensures done ==> r == s
    ensures !done ==> |r| == |s| + 4 * rounds && AMP in r
  {
    r := s;
    var found := Find(r, AMP);
    var n := 0;
    while found.Some? && n < rounds
      invariant n <= rounds && (AMP in s <==> AMP in r) && (AMP !in s ==> r == s)
      invariant AMP in s ==> |r| == |s| + 4 * n
      invariant found.Some? ==> FirstAt(r, AMP, found.value)
      invariant found.None? <==> AMP !in r
      invariant AMP !in s ==> found.None?
    {
      AmpComesBack(r, found.value);
      r := Spliced(r, found.value, AMP_ENTITY);
      found := Find(r, AMP);
      n := n + 1;
    }
    done := found.None?;
  }

  /** None: the loop for '&' did not end within the given number of rounds. */
  method Masquerade(s: Frame, rounds: nat) returns (r: Option<Frame>)
    ensures r.Some? <==> AMP !in s
    ensures r.Some? ==> r.value == Escaped(s)
  {
    var t, done := ReplaceAmp(s, rounds);
    if !done {
      return None;
    }
    var u := ReplaceAll(t, LT, LT_ENTITY);
    var v := ReplaceAll(u, GT, GT_ENTITY);
    TwoPassesAreOne(s);
    return Some(v);
  }

  // ---------------------------------------------------------------- why

  lemma {:induction false} SubstitutedConcat(s: Frame, t: Frame, c: Byte, entity: Frame)
    ensures Substituted(s + t, c, entity) == Substituted(s, c, entity) + Substituted(t, c, entity)
  {
    if s == [] {
      assert s + t == t;
    } else {
      assert (s + t)[1..] == s[1..] + t;
      SubstitutedConcat(s[1..], t, c, entity);
    }
  }

  lemma {:induction false} NothingToReplace(s: Frame, c: Byte, entity: Frame)
    requires c !in s
    ensures Substituted(s, c, entity) == s
  {
    if s != [] {
      NothingToReplace(s[1..], c, entity);
    }
  }

  lemma {:induction false} SpliceKeeps(s: Frame, c: Byte, entity: Frame, i: nat)
    requires FirstAt(s, c, i) && c !in entity
    ensures Substituted(Spliced(s, i, entity), c, entity) == Substituted(s, c, entity)
    ensures multiset(Spliced(s, i, entity))[c] == multiset(s)[c] - 1
  {
    var before, after := s[..i], s[i + 1..];
    assert s == before + ([c] + after);
    assert Spliced(s, i, entity) == before + (entity + after);
    assert ([c] + after)[1..] == after;
    SubstitutedConcat(before, [c] + after, c, entity);
    SubstitutedConcat(before, entity + after, c, entity);
    SubstitutedConcat(entity, after, c, entity);
    NothingToReplace(entity, c, entity);
    assert multiset(s) == multiset(before) + multiset{c} + multiset(after);
  }

  /** The replacement begins with the very octet that was replaced: the next round finds it in the same place. */
  lemma AmpComesBack(s: Frame, i: nat)
    requires FirstAt(s, AMP, i)
    ensures FirstAt(Spliced(s, i, AMP_ENTITY), AMP, i) && |Spliced(s, i, AMP_ENTITY)| == |s| + 4
  {
    assert Spliced(s, i, AMP_ENTITY)[..i] == s[..i];
  }

  lemma {:induction false} TwoPassesAreOne(s: Frame)
    requires AMP !in s
    ensures Substituted(Substituted(s, LT, LT_ENTITY), GT, GT_ENTITY) == Escaped(s)
  {
    if s != [] {
      var head := if s[0] == LT then LT_ENTITY else [s[0]];
      TwoPassesAreOne(s[1..]);
      SubstitutedConcat(head, Substituted(s[1..], LT, LT_ENTITY), GT, GT_ENTITY);
      if s[0] == LT {
        NothingToReplace(LT_ENTITY, GT, GT_ENTITY);
      } else {
        assert [s[0]][1..] == [];
        assert Substituted([s[0]], GT, GT_ENTITY) == if s[0] == GT then GT_ENTITY else [s[0]];
      }
    }
  }

  /** Decoding gives every value back that was escaped in one pass, marks of all three kinds included. */
  lemma {:induction false} DecodedEscaped(s: Frame)
    ensures Decoded(Escaped(s)) == s
  {
    if s != [] {
      var rest := Escaped(s[1..]);
      DecodedEscaped(s[1..]);
      if s[0] == AMP {
        assert (AMP_ENTITY + rest)[5..] == rest;
      } else if s[0] == LT {
        assert (LT_ENTITY + rest)[4..] == rest && (LT_ENTITY + rest)[1] == LT_ENTITY[1];
      } else if s[0] == GT {
        assert (GT_ENTITY + rest)[4..] == rest && (GT_ENTITY + rest)[1] == GT_ENTITY[1];
      } else {
        assert ([s[0]] + rest)[1..] == rest && ([s[0]] + rest)[0] == s[0];
      }
    }
  }

  /** Octet by octet: "&amp;", "&lt;" and "&gt;" for the three marks, and every other octet as it is. */
  lemma {:induction false} EscapedOctets(before: Frame, c: Byte, after: Frame)
    ensures Escaped(before + [c] + after) == Escaped(before) + Escaped([c]) + Escaped(after)
    ensures Escaped([c]) == if c == 38 then [38, 97, 109, 112, 59] else if c == 60 then [38, 108, 116, 59]
                            else if c == 62 then [38, 103, 116, 59] else [c]
  {
    assert [c][1..] == [];
    EscapedConcat(before + [c], after);
    EscapedConcat(before, [c]);
  }

  lemma {:induction false} EscapedConcat(s: Frame, t: Frame)
    ensures Escaped(s + t) == Escaped(s) + Escaped(t)
  {
    if s == [] {
      assert s + t == t;
    } else {
      EscapedConcat(s[1..], t);
      assert Escaped(s + t) == Marked(s[0]) + Escaped(s[1..] + t) by { assert (s + t)[1..] == s[1..] + t; }
      Associative(Marked(s[0]), Escaped(s[1..]), Escaped(t));
    }
  }

  lemma Associative(a: Frame, b: Frame, c: Frame)
    ensures a + b + c == a + (b + c)
  {
  }

  /** Escaped text holds no mark that could be taken for markup. */
  lemma {:induction false} EscapedIsText(s: Frame)
    ensures LT !in Escaped(s) && GT !in Escaped(s)
  {
    if s != [] {
      EscapedIsText(s[1..]);
    }
  }
}
