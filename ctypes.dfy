/** The C machine types the header uses, and C's NUL-terminated strings
    as `print` walks them with `strlen`. */
module CTypes {

  newtype int16 = x: int | -0x8000 <= x < 0x8000
  newtype int32 = x: int | -0x8000_0000 <= x < 0x8000_0000
  newtype uint8 = x: int | 0 <= x < 0x100
  newtype uint16 = x: int | 0 <= x < 0x1_0000

  /** Largest value of a 32-bit `int`. */
  const INT_MAX: int := 0x7FFF_FFFF

  /** The byte value of the character literal '\n'. */
  const NEWLINE: uint8 := 10

  /** `strlen(s)`: the index of the first NUL byte. The caller must pass a
      terminated buffer, so `0 in s` is the C caller's obligation. */
  function Strlen(s: seq<uint8>): (n: nat)
    requires 0 in s
    ensures n < |s| && s[n] == 0
    ensures forall i :: 0 <= i < n ==> s[i] != 0
  {
    if s[0] == 0 then 0 else 1 + Strlen(s[1..])
  }

  /** The characters of a C string: every byte before the terminator. */
  function CString(s: seq<uint8>): (t: seq<uint8>)
    requires 0 in s
    ensures 0 !in t
    ensures t + [0] <= s
  {
    s[..Strlen(s)]
  }

  /** A buffer holding `t`, a terminator and anything after it, reads back
      as exactly `t`. */
  lemma {:induction false} CStringOfTerminated(t: seq<uint8>, rest: seq<uint8>)
    requires 0 !in t
    ensures 0 in t + [0] + rest
    ensures CString(t + [0] + rest) == t
  {
    var s := t + [0] + rest;
    assert s[|t|] == 0;
    StrlenUnique(s, |t|);
    assert s[..|t|] == t;
  }

  /** `Strlen` is the only index with a terminator and no NUL before it. */
  lemma {:induction false} StrlenUnique(s: seq<uint8>, n: nat)
    requires n < |s| && s[n] == 0
    requires forall i :: 0 <= i < n ==> s[i] != 0
    ensures Strlen(s) == n
  {
  }

  /** Prefixing a buffer with NUL-free bytes prefixes its C string with them:
      the bytes `print` emits for `t + s` are `t` followed by those for `s`. */
  lemma {:induction false} CStringAppend(t: seq<uint8>, s: seq<uint8>)
    requires 0 !in t && 0 in s
    ensures 0 in t + s
    ensures CString(t + s) == t + CString(s)
  {
    if t == [] {
      assert t + s == s;
    } else {
      assert 0 !in t[1..];
      CStringAppend(t[1..], s);
      assert t + s == [t[0]] + (t[1..] + s);
      assert (t + s)[1..] == t[1..] + s;
      assert Strlen(t + s) == 1 + Strlen(t[1..] + s);
    }
  }
}
