/**
 * `StringExtension.IsNullOrWhiteSpace`, the test the API validators apply to keys,
 * user names, passwords and addresses. A possibly-null .NET string is an `Option<string>`.
 */
module StringExtension {
  import opened Wrappers

  /**
   * The characters `String.Trim()` removes in .NET 3.5, the framework the client is written
   * for: its fixed white-space table, which unlike `char.IsWhiteSpace` includes the zero
   * width space U+200B and the byte order mark U+FEFF, and leaves out U+202F and U+205F.
   */
  predicate IsWhiteSpace(c: char)
  {
    || '\U{9}' <= c <= '\U{D}'
    || c == '\U{20}'
    || c == '\U{85}'
    || c == '\U{A0}'
    || c == '\U{1680}'
    || '\U{2000}' <= c <= '\U{200B}'
    || c == '\U{2028}'
    || c == '\U{2029}'
    || c == '\U{3000}'
    || c == '\U{FEFF}'
  }

  predicate AllWhiteSpace(s: string)
  {
    forall i :: 0 <= i < |s| ==> IsWhiteSpace(s[i])
  }

  /** Drops the leading white space: what remains is a suffix that starts with a non-white character. */
  function TrimStart(s: string): (r: string)
    ensures |r| <= |s| && r == s[|s| - |r|..]
    ensures r == [] || !IsWhiteSpace(r[0])
    ensures AllWhiteSpace(s[..|s| - |r|])
  {
    if s == [] || !IsWhiteSpace(s[0]) then s
    else
      var r := TrimStart(s[1..]);
      var k := |s| - |r|;
      assert s[1..][k - 1..] == s[k..];
      assert AllWhiteSpace(s[..k]) by {
        forall i | 0 <= i < k
          ensures IsWhiteSpace(s[..k][i])
        {
          if i > 0 {
            assert s[..k][i] == s[1..][..k - 1][i - 1];
          }
        }
      }
      r
  }

  /** Drops the trailing white space: what remains is a prefix that ends with a non-white character. */
  function TrimEnd(s: string): (r: string)
    ensures |r| <= |s| && r == s[..|r|]
    ensures r == [] || !IsWhiteSpace(r[|r| - 1])
    ensures AllWhiteSpace(s[|r|..])
  {
    if s == [] || !IsWhiteSpace(s[|s| - 1]) then s else TrimEnd(s[..|s| - 1])
  }

  /** `String.Trim()`: empty exactly when the string is made of white space only. */
  function Trim(s: string): (r: string)
    ensures r == [] <==> AllWhiteSpace(s)
    ensures r == [] || (!IsWhiteSpace(r[0]) && !IsWhiteSpace(r[|r| - 1]))
  {
    var t := TrimStart(s);
    TrimSplit(s, t, TrimEnd(t));
    TrimEnd(t)
  }

  /**
   * The two halves of `Trim`: when `t` is `s` without its leading white space and `r` is `t`
   * without its trailing white space, `r` is empty exactly when `s` is all white space.
   */
  lemma TrimSplit(s: string, t: string, r: string)
    requires |t| <= |s| && t == s[|s| - |t|..] && (t == [] || !IsWhiteSpace(t[0])) && AllWhiteSpace(s[..|s| - |t|])
    requires |r| <= |t| && r == t[..|r|] && AllWhiteSpace(t[|r|..])
    ensures r == [] <==> AllWhiteSpace(s)
  {
    var k := |s| - |t|;
    if r == [] {
      assert t == t[|r|..];
      WhiteSpaceConcat(s[..k], t);
      assert s == s[..k] + t;
    }
    if t != [] {
      assert t[0] == s[k] && !IsWhiteSpace(s[k]);
    }
  }

  lemma WhiteSpaceConcat(a: string, b: string)
    requires AllWhiteSpace(a) && AllWhiteSpace(b)
    ensures AllWhiteSpace(a + b)
  {
  }

  predicate IsNullOrEmpty(x: Option<string>)
  {
    x.None? || x.value == ""
  }

  /** True for null, for the empty string and for a string of white space only; false once any other character occurs. */
  function IsNullOrWhiteSpace(x: Option<string>): (r: bool)
    ensures x.None? ==> r
    ensures r <==> x.None? || AllWhiteSpace(x.value)
    ensures x.Some? && (exists i :: 0 <= i < |x.value| && !IsWhiteSpace(x.value[i])) ==> !r
  {
    if IsNullOrEmpty(x) then true
    else if Trim(x.value) == "" then true
    else false
  }

  /** A byte order mark and a zero width space count as blank; a medium mathematical space does not. */
  lemma ZeroWidthIsBlank()
    ensures IsNullOrWhiteSpace(Some("\U{FEFF}\U{200B} "))
    ensures !IsNullOrWhiteSpace(Some(" \U{205F}"))
  {
    var blank := "\U{FEFF}\U{200B} ";
    assert AllWhiteSpace(blank) by {
      assert IsWhiteSpace(blank[0]) && IsWhiteSpace(blank[1]) && IsWhiteSpace(blank[2]);
    }
    var marked := " \U{205F}";
    assert !IsWhiteSpace(marked[1]);
  }
}
