/** The string operations of Go's standard library that the server relies on, over
    sequences of Unicode scalar values. */
module Text {

  datatype Option<+T> = None | Some(value: T)

  /** unicode.IsSpace */
  predicate IsSpace(c: char) {
    var n := c as int;
    || 9 <= n <= 13 || n == 32 || n == 0x85 || n == 0xA0
    || n == 0x1680 || 0x2000 <= n <= 0x200a || n == 0x2028 || n == 0x2029
    || n == 0x202f || n == 0x205f || n == 0x3000
  }

  /** unicode.IsControl */
  predicate IsControl(c: char) {
    var n := c as int;
    n < 32 || 0x7f <= n < 0xa0
  }

  /** The number of bytes of the UTF-8 encoding of a character. */
  function CharLen(c: char): nat {
    var n := c as int;
    if n < 0x80 then 1 else if n < 0x800 then 2 else if n < 0x10000 then 3 else 4
  }

  /** Go's len of a string. */
  function ByteLen(s: string): nat {
    if s == [] then 0 else ByteLen(s[..|s| - 1]) + CharLen(s[|s| - 1])
  }

  function TrimLeft(s: string): (r: string)
    ensures |r| <= |s|
    ensures r != [] ==> !IsSpace(r[0])
  {
    if s != [] && IsSpace(s[0]) then TrimLeft(s[1..]) else s
  }

  function TrimRight(s: string): (r: string)
    ensures |r| <= |s| && s[..|r|] == r
    ensures r != [] ==> !IsSpace(r[|r| - 1])
  {
    if s != [] && IsSpace(s[|s| - 1]) then TrimRight(s[..|s| - 1]) else s
  }

  /** strings.TrimSpace */
  function TrimSpace(s: string): (r: string)
    ensures Trimmed(r)
  {
    TrimRight(TrimLeft(s))
  }

  /** What is trimmed away is space on both sides. */
  lemma TrimSpaceMeaning(s: string) returns (left: string, right: string)
    ensures s == left + TrimSpace(s) + right
    ensures forall c :: c in left + right ==> IsSpace(c)
  {
    left := TrimmedLeft(s);
    right := TrimmedRight(TrimLeft(s));
  }

  lemma {:induction false} TrimmedLeft(s: string) returns (left: string)
    ensures s == left + TrimLeft(s)
    ensures forall c :: c in left ==> IsSpace(c)
  {
    left := [];
    if s != [] && IsSpace(s[0]) {
      var rest := TrimmedLeft(s[1..]);
      left := [s[0]] + rest;
    }
  }

  lemma {:induction false} TrimmedRight(s: string) returns (right: string)
    ensures s == TrimRight(s) + right
    ensures forall c :: c in right ==> IsSpace(c)
  {
    right := [];
    if s != [] && IsSpace(s[|s| - 1]) {
      var rest := TrimmedRight(s[..|s| - 1]);
      right := rest + [s[|s| - 1]];
    }
  }

  predicate Trimmed(s: string) {
    s != [] ==> !IsSpace(s[0]) && !IsSpace(s[|s| - 1])
  }

  /** The position of the first c in s, or |s| when there is none. */
  function IndexOf(s: string, c: char): (i: nat)
    ensures i <= |s|
    ensures i < |s| ==> s[i] == c
  {
    if s == [] || s[0] == c then 0 else 1 + IndexOf(s[1..], c)
  }

  lemma {:induction false} IndexOfFirst(s: string, c: char)
    ensures c !in s[..IndexOf(s, c)]
    decreases s
  {
    if s != [] && s[0] != c {
      var i := IndexOf(s[1..], c);
      IndexOfFirst(s[1..], c);
      assert s[..i + 1] == [s[0]] + s[1..][..i];
    }
  }

  /** strings.SplitN for a one-character separator and n >= 1. */
  function SplitN(s: string, sep: char, n: nat): (parts: seq<string>)
    requires n >= 1
    ensures 1 <= |parts| <= n
    decreases n
  {
    var i := IndexOf(s, sep);
    if n == 1 || i == |s| then [s] else [s[..i]] + SplitN(s[i + 1..], sep, n - 1)
  }

  lemma IndexOfSeparator(p: string, c: char, rest: string)
    requires c !in p
    ensures IndexOf(p + [c] + rest, c) == |p|
  {
    var s := p + [c] + rest;
    var i := IndexOf(s, c);
    IndexOfFirst(s, c);
    assert s[|p|] == c;
    assert i <= |p| by {
      assert forall j :: 0 <= j < i ==> s[j] == s[..i][j];
    }
    assert forall j :: 0 <= j < |p| ==> s[j] == p[j];
  }

  lemma SplitFirst(p: string, sep: char, rest: string, n: nat)
    requires n >= 2 && sep !in p
    ensures SplitN(p + [sep] + rest, sep, n) == [p] + SplitN(rest, sep, n - 1)
  {
    IndexOfSeparator(p, sep, rest);
    var s := p + [sep] + rest;
    assert s[..|p|] == p && s[|p| + 1..] == rest;
  }

  /** strings.Join */
  function Join(parts: seq<string>, sep: string): string {
    if parts == [] then ""
    else if |parts| == 1 then parts[0]
    else Join(parts[..|parts| - 1], sep) + sep + parts[|parts| - 1]
  }

  /** The leading run of characters that are not spaces. */
  function Word(s: string): (w: string)
    ensures |w| <= |s| && s[..|w|] == w
    ensures forall c :: c in w ==> !IsSpace(c)
    ensures |w| < |s| ==> IsSpace(s[|w|])
  {
    if s == [] || IsSpace(s[0]) then [] else [s[0]] + Word(s[1..])
  }

  /** strings.Fields */
  function Fields(s: string): seq<string>
    decreases |s|
  {
    var t := TrimLeft(s);
    if t == [] then [] else
      var w := Word(t);
      assert w != [];
      [w] + Fields(t[|w|..])
  }

  /** The characters that are not space. */
  function Solid(s: string): string {
    if s == "" then "" else (if IsSpace(s[0]) then "" else [s[0]]) + Solid(s[1..])
  }

  function Concat(parts: seq<string>): string {
    if parts == [] then "" else parts[0] + Concat(parts[1..])
  }

  lemma {:induction false} SolidAppend(a: string, b: string)
    ensures Solid(a + b) == Solid(a) + Solid(b)
    decreases a
  {
    if a == "" {
      assert a + b == b;
    } else {
      assert (a + b)[1..] == a[1..] + b;
      SolidAppend(a[1..], b);
    }
  }

  lemma {:induction false} SolidWord(w: string)
    requires forall c :: c in w ==> !IsSpace(c)
    ensures Solid(w) == w
    decreases w
  {
    if w != "" {
      assert w[0] in w;
      SolidWord(w[1..]);
    }
  }

  lemma {:induction false} SolidTrimmed(s: string)
    ensures Solid(TrimLeft(s)) == Solid(s)
    decreases s
  {
    if s != "" && IsSpace(s[0]) {
      SolidTrimmed(s[1..]);
    }
  }

  /** Fields are not empty, hold no space, and together are everything that is not space. */
  lemma {:induction false} FieldsMeaning(s: string)
    ensures Concat(Fields(s)) == Solid(s)
    ensures forall f :: f in Fields(s) ==> f != "" && forall c :: c in f ==> !IsSpace(c)
    decreases |s|
  {
    var t := TrimLeft(s);
    SolidTrimmed(s);
    if t != "" {
      var w := Word(t);
      var rest := t[|w|..];
      FieldsMeaning(rest);
      assert t == w + rest;
      SolidAppend(w, rest);
      SolidWord(w);
    }
  }

  /** The lengths of RFC 3629. */
  lemma ByteLens(s: string, t: string)
    ensures ByteLen(s + t) == ByteLen(s) + ByteLen(t)
    ensures (forall c :: c in s ==> c as int < 128) ==> ByteLen(s) == |s|
    ensures forall c :: ByteLen([c]) == if c as int < 128 then 1 else if c as int < 2048 then 2 else if c as int < 65536 then 3 else 4
  {
    ByteLenAppend(s, t);
    ByteLenAscii(s);
    forall c ensures ByteLen([c]) == CharLen(c) {
      assert [c][..0] == "";
    }
  }

  lemma {:induction false} ByteLenAppend(s: string, t: string)
    ensures ByteLen(s + t) == ByteLen(s) + ByteLen(t)
    decreases t
  {
    if t == "" {
      assert s + t == s;
    } else {
      var n := |t| - 1;
      assert (s + t)[..|s + t| - 1] == s + t[..n];
      ByteLenAppend(s, t[..n]);
    }
  }

  lemma {:induction false} ByteLenAscii(s: string)
    ensures (forall c :: c in s ==> c as int < 128) ==> ByteLen(s) == |s|
    decreases s
  {
    if s != "" {
      var n := |s| - 1;
      assert s[n] in s && forall c :: c in s[..n] ==> c in s;
      ByteLenAscii(s[..n]);
    }
  }

  lemma WordWhole(w: string)
    requires forall c :: c in w ==> !IsSpace(c)
    ensures Word(w) == w
  {
    assert forall i :: 0 <= i < |w| ==> !IsSpace(w[i]);
  }
}
