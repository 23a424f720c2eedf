/** Go strings as the hook uses them: sequences of bytes.  `len` on a Go
    string counts bytes, so every string of the model is a `seq<byte>`, and
    the ASCII literals of the source are turned into bytes by `Lit`. */
module GoText {

  type byte = b: int | 0 <= b < 256

  datatype Option<T> = None | Some(value: T)

  /** The bytes of an ASCII literal. */
  function Lit(s: string): (r: seq<byte>)
    ensures |r| == |s|
  {
    seq(|s|, i requires 0 <= i < |s| => (s[i] as int) % 256)
  }

  /** `strings.Contains(s, sub)`: `sub` occurs in `s` at some offset. */
  predicate Contains(s: seq<byte>, sub: seq<byte>)
  {
    exists i :: 0 <= i <= |s| - |sub| && OccursAt(s, sub, i)
  }

  /** `sub` is the slice of `s` that starts at offset `i`. */
  predicate OccursAt(s: seq<byte>, sub: seq<byte>, i: int)
  {
    0 <= i <= |s| - |sub| && s[i..i + |sub|] == sub
  }

  /** The fence most fields use: three backticks, the text, a space and
      three backticks. */
  function Fence(s: seq<byte>): seq<byte>
  {
    Lit("```") + s + Lit(" ```")
  }

  /** The fence of the two JSON renderings and of the multipart error:
      no space before the closing backticks. */
  function TightFence(s: seq<byte>): seq<byte>
  {
    Lit("```") + s + Lit("```")
  }

  predicate IsLower(b: byte)
  {
    'a' as int <= b <= 'z' as int
  }

  /** `strings.ToUpper` restricted to ASCII: each lower-case letter is
      moved to upper case, every other byte is kept. */
  function AsciiUpper(s: seq<byte>): (r: seq<byte>)
    ensures |r| == |s|
    ensures forall i :: 0 <= i < |s| ==> !IsLower(r[i])
    ensures forall i :: 0 <= i < |s| && IsLower(s[i]) ==> r[i] == s[i] - 32
    ensures forall i :: 0 <= i < |s| && !IsLower(s[i]) ==> r[i] == s[i]
  {
    seq(|s|, i requires 0 <= i < |s| => if IsLower(s[i]) then s[i] - 32 else s[i])
  }

  /** A fenced text can be read back: the text is what lies between the
      opening fence and the closing one. */
  lemma FenceUnwraps(s: seq<byte>)
    ensures |Fence(s)| == |s| + 7
    ensures Fence(s)[3..|s| + 3] == s
    ensures Fence(s)[..3] == Lit("```") && Fence(s)[|s| + 3..] == Lit(" ```")
  {
  }

  /** A sequence contains each of its prefixes: a content type that starts
      with a marker contains it. */
  lemma ContainsPrefix(s: seq<byte>, sub: seq<byte>)
    requires |sub| <= |s| && s[..|sub|] == sub
    ensures Contains(s, sub)
  {
    assert OccursAt(s, sub, 0);
  }

  /** A sequence contains each of its suffixes: a marker at the end of a
      content type is found too. */
  lemma ContainsSuffix(s: seq<byte>, sub: seq<byte>)
    requires |sub| <= |s| && s[|s| - |sub|..] == sub
    ensures Contains(s, sub)
  {
    assert OccursAt(s, sub, |s| - |sub|);
  }
}
