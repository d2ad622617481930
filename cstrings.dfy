/**
 * NUL-terminated C strings, as the source handles them with `strlen` and `strrchr`.
 * A `const char *` is modelled by the characters from the pointer onwards; it is a
 * valid C string when a NUL occurs among them. Pointer arithmetic `p + k` is the
 * suffix `s[k..]`.
 */
module CStrings {
  import opened Wrappers

  const NUL: char := '\0'

  type CString = seq<char>

  predicate IsCString(s: seq<char>)
  {
    NUL in s
  }

  /** `strlen`: the number of characters before the first NUL. */
  function StrLen(s: CString): (n: nat)
    requires IsCString(s)
    ensures n < |s| && s[n] == NUL
    ensures forall i :: 0 <= i < n ==> s[i] != NUL
  {
    if s[0] == NUL then 0 else 1 + StrLen(s[1..])
  }

  /** The text a C string denotes: the characters before its terminator. */
  function Content(s: CString): (c: string)
    requires IsCString(s)
    ensures |c| < |s| && s[..|c| + 1] == c + [NUL]
    ensures NUL !in c
  {
    s[..StrLen(s)]
  }

  /** A literal `"text"` as the compiler lays it out: the text, then a NUL. */
  function Literal(text: string): (s: CString)
    ensures IsCString(s)
  {
    text + [NUL]
  }

  /** A literal without an embedded NUL denotes its own text. */
  lemma ContentOfLiteral(text: string)
    requires NUL !in text
    ensures Content(Literal(text)) == text
  {
    StrLenOfLiteral(text);
  }

  lemma {:induction false} StrLenOfLiteral(text: string)
    requires NUL !in text
    ensures StrLen(Literal(text)) == |text|
  {
    if text != [] {
      assert Literal(text)[1..] == Literal(text[1..]);
      StrLenOfLiteral(text[1..]);
    }
  }

  /** Advancing a pointer by k characters, k within the text, shortens the text by k. */
  lemma {:induction false} StrLenOfSuffix(s: CString, k: nat)
    requires IsCString(s) && k <= StrLen(s)
    ensures IsCString(s[k..]) && StrLen(s[k..]) == StrLen(s) - k
  {
    if k > 0 {
      assert s[k..] == s[1..][k - 1..];
      StrLenOfSuffix(s[1..], k - 1);
    }
  }

  /** ... and the text it then points at is the rest of the original text. */
  lemma ContentOfSuffix(s: CString, k: nat)
    requires IsCString(s) && k <= StrLen(s)
    ensures IsCString(s[k..]) && Content(s[k..]) == Content(s)[k..]
  {
    StrLenOfSuffix(s, k);
    assert Content(s[k..]) == s[k..][..StrLen(s) - k];
  }

  /** The last index below n at which s holds ch, if any. */
  function LastIndexOf(s: seq<char>, ch: char, n: nat): (r: Option<nat>)
    requires n <= |s|
    ensures r.Some? ==> r.value < n && s[r.value] == ch
    ensures r.Some? ==> forall j :: r.value < j < n ==> s[j] != ch
    ensures r.None? <==> forall j :: 0 <= j < n ==> s[j] != ch
    decreases n
  {
    if n == 0 then None
    else if s[n - 1] == ch then Some(n - 1)
    else LastIndexOf(s, ch, n - 1)
  }

  /**
   * `strrchr`: the index of the last occurrence of ch in the string, where the
   * terminator itself counts as part of the string; None stands for NULL.
   */
  function StrRChr(s: CString, ch: char): (r: Option<nat>)
    requires IsCString(s)
    ensures r.Some? ==> r.value <= StrLen(s) && s[r.value] == ch
    ensures r.Some? ==> forall j :: r.value < j < StrLen(s) ==> s[j] != ch
    ensures r.None? <==> ch !in Content(s) + [NUL]
  {
    if ch == NUL then Some(StrLen(s)) else LastIndexOf(s, ch, StrLen(s))
  }

  /** `strrchr` finds an occurrence of a non-NUL character that has no other occurrence after it in the text. */
  lemma StrRChrAt(s: CString, ch: char, k: nat)
    requires IsCString(s) && ch != NUL && k < StrLen(s) && s[k] == ch
    requires forall j :: k < j < StrLen(s) ==> s[j] != ch
    ensures StrRChr(s, ch) == Some(k)
  {
    var r := LastIndexOf(s, ch, StrLen(s));
    assert r.Some?;
    assert r.value >= k;
  }
}
