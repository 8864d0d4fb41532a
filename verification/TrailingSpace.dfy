/**
 skip_trailing_space of the vendored string header: a word-at-a-time scan from the
 end of a string that has to return the same position as the plain byte loop.
 */
module TrailingSpace {
  import opened Util

  const SPACE: Byte := 0x20

  /** The position after the last byte that is not a space. */
  predicate TrimsTo(s: seq<Byte>, end: nat) {
    && end <= |s| && (forall i :: end <= i < |s| ==> s[i] == SPACE)
    && (end > 0 ==> s[end - 1] != SPACE)
  }

  // The bytes of a word as a number, the lowest address first, and the same read the other way round.
  function Little(w: seq<Byte>): nat { if w == [] then 0 else w[0] + 256 * Little(w[1..]) }
  function Big(w: seq<Byte>): nat { if w == [] then 0 else Big(w[..|w| - 1]) * 256 + w[|w| - 1] }

  function Word(w: seq<Byte>, little: bool): nat { if little then Little(w) else Big(w) }

  // SPACE_INT for words of n bytes, 0x2020...
  function SpaceWord(n: nat): nat { if n == 0 then 0 else 0x20 + 256 * SpaceWord(n - 1) }

  lemma {:induction false} LittleIsSpaces(w: seq<Byte>)
    ensures Little(w) == SpaceWord(|w|) <==> forall i :: 0 <= i < |w| ==> w[i] == SPACE
  {
    if w != [] {
      LittleIsSpaces(w[1..]);
      assert forall i :: 0 <= i < |w[1..]| ==> w[1..][i] == w[i + 1];
      if w[0] == SPACE && forall i :: 0 <= i < |w[1..]| ==> w[1..][i] == SPACE {
        forall i | 0 <= i < |w| ensures w[i] == SPACE { if i > 0 { assert w[i] == w[1..][i - 1]; } }
      }
    }
  }

  lemma {:induction false} BigIsSpaces(w: seq<Byte>)
    ensures Big(w) == SpaceWord(|w|) <==> forall i :: 0 <= i < |w| ==> w[i] == SPACE
  {
    if w != [] {
      var n := |w| - 1;
      BigIsSpaces(w[..n]);
      assert forall i :: 0 <= i < n ==> w[..n][i] == w[i];
    }
  }

  /** A word equals SPACE_INT, in either byte order, iff all its bytes are spaces. */
  lemma WordIsSpaces(w: seq<Byte>, little: bool)
    ensures Word(w, little) == SpaceWord(|w|) <==> forall i :: 0 <= i < |w| ==> w[i] == SPACE
  {
    LittleIsSpaces(w);
    BigIsSpaces(w);
  }

  // Reading the word that ends at position `end`: aligned, and inside the string.
  function WordBefore(s: seq<Byte>, ptr: nat, end: nat, size: nat, little: bool): nat
    requires size > 0 && size <= end <= |s| && (ptr + end) % size == 0
  {
    Word(s[end - size..end], little)
  }

  lemma WordBeforeIsSpaces(s: seq<Byte>, ptr: nat, end: nat, size: nat, little: bool)
    requires size > 0 && size <= end <= |s| && (ptr + end) % size == 0
    ensures WordBefore(s, ptr, end, size, little) == SpaceWord(size) ==> forall i :: end - size <= i < end ==> s[i] == SPACE
  {
    var w := s[end - size..end];
    WordIsSpaces(w, little);
    if WordBefore(s, ptr, end, size, little) == SpaceWord(size) {
      forall i | end - size <= i < end ensures s[i] == SPACE { assert s[i] == w[i - (end - size)]; }
    }
  }

  lemma Multiple4(q: nat)
    ensures q * 4 % 4 == 0
  {
  }

  lemma Multiple8(q: nat)
    ensures q * 8 % 8 == 0
  {
  }

  // Rounding an address down and up to a multiple of the word size.
  lemma Rounded(a: nat, size: nat)
    requires size == 4 || size == 8
    ensures a / size * size <= a && a / size * size % size == 0
    ensures a <= (a + size - 1) / size * size && (a + size - 1) / size * size % size == 0
  {
    if size == 4 {
      Multiple4(a / 4);
      Multiple4((a + 3) / 4);
    } else {
      Multiple8(a / 8);
      Multiple8((a + 7) / 8);
    }
  }

  lemma OneWordBack(a: nat, b: nat, size: nat)
    requires (size == 4 || size == 8) && a % size == 0 && b % size == 0 && a < b
    ensures a + size <= b && (b - size) % size == 0
  {
    if size == 4 { assert (b - 4) % 4 == 0; } else { assert (b - 8) % 8 == 0; }
  }

  // The word loop: from an aligned end down to an aligned start.
  method SkipWords(s: seq<Byte>, ptr: nat, startWords: nat, from: nat, size: nat, little: bool) returns (end: nat)
    requires (size == 4 || size == 8) && from <= |s|
    requires ptr <= startWords <= ptr + from && startWords % size == 0 && (ptr + from) % size == 0
    ensures end <= from && forall i :: end <= i < from ==> s[i] == SPACE
  {
    end := from;
    if ptr + end > startWords { OneWordBack(startWords, ptr + end, size); }
    while ptr + end > startWords && WordBefore(s, ptr, end, size, little) == SpaceWord(size)
      invariant startWords <= ptr + end && end <= from && (ptr + end) % size == 0
      invariant ptr + end > startWords ==> size <= end
      invariant forall i :: end <= i < from ==> s[i] == SPACE
    {
      WordBeforeIsSpaces(s, ptr, end, size, little);
      OneWordBack(startWords, ptr + end, size);
      end := end - size;
      if ptr + end > startWords { OneWordBack(startWords, ptr + end, size); }
    }
  }

  /** The scan, for a string at address `ptr` and words of `size` bytes in either byte order: it trims
      exactly the trailing spaces, and every word it reads is aligned and lies inside the string. */
  method SkipTrailingSpace(s: seq<Byte>, ptr: nat, size: nat, little: bool) returns (end: nat)
    requires size == 4 || size == 8
    ensures TrimsTo(s, end)
  {
    end := |s|;
    if |s| > 20 {
      var endWords := (ptr + |s|) / size * size;
      var startWords := (ptr + size - 1) / size * size;
      Rounded(ptr + |s|, size);
      Rounded(ptr, size);
      if endWords > ptr {
        while ptr + end > endWords && s[end - 1] == SPACE
          invariant 0 < end <= |s| && endWords <= ptr + end
          invariant forall i :: end <= i < |s| ==> s[i] == SPACE
        {
          end := end - 1;
        }
        if s[end - 1] == SPACE && startWords < endWords {
          end := SkipWords(s, ptr, startWords, end, size, little);
        }
      }
    }
    while end > 0 && s[end - 1] == SPACE
      invariant end <= |s| && forall i :: end <= i < |s| ==> s[i] == SPACE
    {
      end := end - 1;
    }
  }
}
