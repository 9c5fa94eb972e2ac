/**
 The string helpers of src/utilities.rs with their `println!` stripped off.

 `print_function!` names the function it is expanded in: it declares an
 inner `fn f() {}`, asks for the type name of `f`, which is the path of the
 enclosing function followed by `::f`, and slices off the last three bytes.
 Rust slices a `&str` by byte offset, so the name is modelled as UTF-8
 bytes, and both ways the slice can panic are modelled.

 `hr1`, `hr2` and `hr3` print horizontal rules of a repeated character.
 */
module Utilities {

  newtype byte = x: int | 0 <= x < 256

  /** Why evaluating the slice panics. */
  datatype SlicePanic =
    | LengthUnderflow   // `name.len() - 3` with fewer than three bytes
    | NotCharBoundary   // the cut falls inside a multi-byte character

  /** Either a value or a panic. */
  datatype Outcome<+T> = Value(value: T) | Panic(reason: SlicePanic)

  /** `"::f"`, the type-name suffix of the inner function `f`. */
  const InnerFnSuffix: seq<byte> := [0x3A, 0x3A, 0x66]

  /** Number of bytes `print_function!` cuts off. */
  const SuffixLength: nat := 3

  /** A UTF-8 continuation byte, `0b10xx_xxxx`. */
  predicate IsContinuation(b: byte)
  {
    0x80 <= b < 0xC0
  }

  /** `str::is_char_boundary` on the bytes of a string. */
  predicate IsCharBoundary(s: seq<byte>, i: nat)
  {
    i == 0 || i == |s| || (i < |s| && !IsContinuation(s[i]))
  }

  /** `&name[0..name.len() - 3]`: the name without its last three bytes. */
  function TrimmedName(name: seq<byte>): (r: Outcome<seq<byte>>)
    ensures r.Value? <==> |name| >= SuffixLength && IsCharBoundary(name, |name| - SuffixLength)
    ensures r.Value? ==> |r.value| == |name| - SuffixLength
    ensures r.Value? ==> r.value <= name
    ensures |name| < SuffixLength ==> r == Panic(LengthUnderflow)
  {
    if |name| < SuffixLength then Panic(LengthUnderflow)
    else if !IsCharBoundary(name, |name| - SuffixLength) then Panic(NotCharBoundary)
    else Value(name[..|name| - SuffixLength])
  }

  /** The type name of the inner `f` is the enclosing path followed by
      `::f`; trimming it gives back exactly that path, whatever the path. */
  lemma TrimmedNameOfInnerFn(path: seq<byte>)
    ensures TrimmedName(path + InnerFnSuffix) == Value(path)
  {
  }

  /** Trimming loses only the last three bytes: the name is the result
      followed by what was cut. */
  lemma TrimmedNameSplitsName(name: seq<byte>)
    requires TrimmedName(name).Value?
    ensures name == TrimmedName(name).value + name[|name| - SuffixLength..]
    ensures TrimmedName(name).value + InnerFnSuffix == name <==> name[|name| - SuffixLength..] == InnerFnSuffix
  {
  }

  /** `c.repeat(n)` for a one-character string. */
  function Repeat(c: char, n: nat): (r: string)
    ensures |r| == n
    ensures forall i :: 0 <= i < n ==> r[i] == c
  {
    if n == 0 then "" else [c] + Repeat(c, n - 1)
  }

  /** The rule `hr1` prints: 80 `=`. */
  function Hr1(): (r: string)
    ensures |r| == 80 && forall i :: 0 <= i < |r| ==> r[i] == '='
  {
    Repeat('=', 80)
  }

  /** The rule `hr2` prints: 70 `*`. */
  function Hr2(): (r: string)
    ensures |r| == 70 && forall i :: 0 <= i < |r| ==> r[i] == '*'
  {
    Repeat('*', 70)
  }

  /** The rule `hr3` prints: 60 `-`. */
  function Hr3(): (r: string)
    ensures |r| == 60 && forall i :: 0 <= i < |r| ==> r[i] == '-'
  {
    Repeat('-', 60)
  }

  /** `Repeat` is the only string of its length made of its character, so
      a rule is determined by its character and length. */
  lemma RepeatIsUniform(c: char, n: nat, r: string)
    requires |r| == n && forall i :: 0 <= i < n ==> r[i] == c
    ensures Repeat(c, n) == r
  {
  }
}
