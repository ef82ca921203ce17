/** The string primitives the service normalises its inputs with. */
module Text {

  /** The Unicode White_Space characters, which `strings.TrimSpace` strips. */
  predicate IsSpace(c: char)
  {
    || '\t' <= c <= '\r' || c == ' ' || c == '\U{85}' || c == '\U{A0}' || c == '\U{1680}'
    || '\U{2000}' <= c <= '\U{200A}' || c == '\U{2028}' || c == '\U{2029}' || c == '\U{202F}'
    || c == '\U{205F}' || c == '\U{3000}'
  }

  function TrimLeft(s: string): (r: string)
    ensures r == [] || !IsSpace(r[0])
    ensures |r| <= |s| && r == s[|s| - |r|..]
  {
    if s != [] && IsSpace(s[0]) then TrimLeft(s[1..]) else s
  }

  function TrimRight(s: string): (r: string)
    ensures r == [] || !IsSpace(r[|r| - 1])
    ensures |r| <= |s| && r == s[..|r|]
  {
    if s != [] && IsSpace(s[|s| - 1]) then TrimRight(s[..|s| - 1]) else s
  }

  function Trim(s: string): string { TrimRight(TrimLeft(s)) }

  /** Trimming leaves nothing exactly of the strings without a visible character. */
  lemma {:induction false} TrimIsEmptyOnBlank(s: string)
    ensures Trim(s) == "" <==> forall i :: 0 <= i < |s| ==> IsSpace(s[i])
    decreases |s|
  {
    if s != [] {
      if IsSpace(s[0]) {
        TrimIsEmptyOnBlank(s[1..]);
        assert forall i :: 0 < i < |s| ==> s[i] == s[1..][i - 1];
      } else if IsSpace(s[|s| - 1]) {
        VisibleHeadStays(s);
      }
    }
  }

  lemma {:induction false} VisibleHeadStays(s: string)
    requires s != [] && !IsSpace(s[0])
    ensures TrimRight(s) != []
    decreases |s|
  {
    if IsSpace(s[|s| - 1]) {
      VisibleHeadStays(s[..|s| - 1]);
    }
  }

  lemma TrimmedIsFixed(s: string)
    requires s == [] || (!IsSpace(s[0]) && !IsSpace(s[|s| - 1]))
    ensures Trim(s) == s
  {
  }

  lemma TrimIsIdempotent(s: string)
    ensures Trim(Trim(s)) == Trim(s)
  {
    var left := TrimLeft(s);
    var both := TrimRight(left);
    if both != [] {
      assert both[0] == left[0];
    }
    TrimmedIsFixed(both);
  }

  function LowerChar(c: char): char
  {
    if 'A' <= c <= 'Z' then (c as int + 32) as char else c
  }

  function Lower(s: string): (r: string)
    ensures |r| == |s|
    ensures forall i :: 0 <= i < |s| ==> r[i] == LowerChar(s[i])
  {
    seq(|s|, i requires 0 <= i < |s| => LowerChar(s[i]))
  }

  /** Bytes in the UTF-8 form, which is what Go's `len` counts. */
  function ByteLength(s: string): nat
  {
    if s == [] then 0 else CharBytes(s[0]) + ByteLength(s[1..])
  }

  function CharBytes(c: char): nat
  {
    if c < '\U{80}' then 1 else if c < '\U{800}' then 2 else if c as int < 0x10000 then 3 else 4
  }

  lemma {:induction false} LowerKeepsByteLength(s: string)
    ensures ByteLength(Lower(s)) == ByteLength(s)
  {
    if s != [] {
      assert Lower(s)[1..] == Lower(s[1..]);
      LowerKeepsByteLength(s[1..]);
    }
  }

  // ---- the primitives, character by character ----

  /** Go's table of white space. */
  lemma SpacesAreTheTable(c: char)
    ensures IsSpace(c) <==> c in {
      '\t', '\n', '\U{0B}', '\U{0C}', '\r', ' ', '\U{85}', '\U{A0}', '\U{1680}', '\U{2000}', '\U{2001}', '\U{2002}',
      '\U{2003}', '\U{2004}', '\U{2005}', '\U{2006}', '\U{2007}', '\U{2008}', '\U{2009}', '\U{200A}', '\U{2028}',
      '\U{2029}', '\U{202F}', '\U{205F}', '\U{3000}' }
  {
  }

  lemma {:induction false} LeftCutIsSpace(s: string)
    ensures forall i :: 0 <= i < |s| - |TrimLeft(s)| ==> IsSpace(s[i])
  {
    hide IsSpace;
    if s != [] && IsSpace(s[0]) {
      LeftCutIsSpace(s[1..]);
      assert forall i :: 0 < i < |s| ==> s[i] == s[1..][i - 1];
    }
  }

  lemma {:induction false} RightCutIsSpace(s: string)
    ensures forall i :: |TrimRight(s)| <= i < |s| ==> IsSpace(s[i])
    decreases |s|
  {
    hide IsSpace;
    if s != [] && IsSpace(s[|s| - 1]) {
      RightCutIsSpace(s[..|s| - 1]);
      assert forall i :: 0 <= i < |s| - 1 ==> s[i] == s[..|s| - 1][i];
    }
  }

  /** Trimming cuts exactly the white space at both ends. */
  lemma TrimCutsOnlySpaces(s: string) returns (from: nat, to: nat)
    ensures from <= to <= |s| && Trim(s) == s[from..to]
    ensures forall i :: 0 <= i < |s| && !(from <= i < to) ==> IsSpace(s[i])
    ensures from < to ==> !IsSpace(s[from]) && !IsSpace(s[to - 1])
  {
    var left := TrimLeft(s);
    assert Trim(s) == TrimRight(left);
    hide IsSpace, TrimLeft, TrimRight, Trim;
    from, to := |s| - |left|, |s| - |left| + |TrimRight(left)|;
    LeftCutIsSpace(s);
    RightCutIsSpace(left);
    assert forall i :: 0 <= i < |left| ==> left[i] == s[from + i];
    forall i | to <= i < |s| ensures IsSpace(s[i]) {
      assert s[i] == left[i - from];
    }
  }

  /** Lower-casing moves the 26 capitals and nothing else. */
  lemma LowerMovesCapitals(c: char)
    ensures 'A' <= c <= 'Z' ==> LowerChar(c) as int - 'a' as int == c as int - 'A' as int
    ensures !('A' <= c <= 'Z') ==> LowerChar(c) == c
  {
  }

  /** The widths of UTF-8. */
  lemma Utf8Widths(c: char, s: string)
    ensures ByteLength("") == 0 && ByteLength([c] + s) == CharBytes(c) + ByteLength(s)
    ensures c as int <= 0x7F ==> CharBytes(c) == 1
    ensures 0x80 <= c as int <= 0x7FF ==> CharBytes(c) == 2
    ensures 0x800 <= c as int <= 0xFFFF ==> CharBytes(c) == 3
    ensures 0x10000 <= c as int ==> CharBytes(c) == 4
  {
    assert ([c] + s)[1..] == s;
  }
}
