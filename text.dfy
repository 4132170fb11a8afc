/**
 * Small text helpers shared by the relationship extractor and the box-model
 * builder: the optional-value wrapper used for unparsable CSS values,
 * JavaScript's `String.prototype.trim`, the 80-character snippet used as a
 * matching key, and the set of text-bearing tags.
 */
module TextUtil {

  datatype Option<T> = None | Some(value: T)

  /** Maximum length of a text snippet (`substring(0, 80)`). */
  const SnippetLength: nat := 80

  /** The characters `trim` strips: ECMAScript WhiteSpace and LineTerminator. */
  predicate IsTrimmable(c: char) {
    c == ' ' || c == '\t' || c == '\n' || c == '\r'
    || c == '\U{000B}' || c == '\U{000C}' || c == '\U{00A0}' || c == '\U{FEFF}'
    || c == '\U{1680}' || ('\U{2000}' <= c <= '\U{200A}')
    || c == '\U{2028}' || c == '\U{2029}' || c == '\U{202F}' || c == '\U{205F}'
    || c == '\U{3000}'
  }

  /** How many trimmable characters `s` starts with. */
  function LeadingTrimmable(s: string): (n: nat)
    ensures n <= |s|
  {
    if s != [] && IsTrimmable(s[0]) then 1 + LeadingTrimmable(s[1..]) else 0
  }

  /** How many trimmable characters `s` ends with. */
  function TrailingTrimmable(s: string): (n: nat)
    ensures n <= |s|
  {
    if s != [] && IsTrimmable(s[|s| - 1]) then 1 + TrailingTrimmable(s[..|s| - 1]) else 0
  }

  /** JavaScript `trim`: drops the leading, then the trailing, trimmable characters. */
  function Trim(s: string): string {
    var t := s[LeadingTrimmable(s)..];
    t[..|t| - TrailingTrimmable(t)]
  }

  lemma {:induction false} LeadingTrimmableIsMaximal(s: string)
    ensures forall i :: 0 <= i < LeadingTrimmable(s) ==> IsTrimmable(s[i])
    ensures LeadingTrimmable(s) < |s| ==> !IsTrimmable(s[LeadingTrimmable(s)])
  {
    if s != [] && IsTrimmable(s[0]) {
      LeadingTrimmableIsMaximal(s[1..]);
      assert forall i :: 1 <= i < |s| ==> s[i] == s[1..][i - 1];
    }
  }

  lemma {:induction false} TrailingTrimmableIsMaximal(s: string)
    ensures forall i :: |s| - TrailingTrimmable(s) <= i < |s| ==> IsTrimmable(s[i])
    ensures TrailingTrimmable(s) < |s| ==> !IsTrimmable(s[|s| - 1 - TrailingTrimmable(s)])
  {
    if s != [] && IsTrimmable(s[|s| - 1]) {
      TrailingTrimmableIsMaximal(s[..|s| - 1]);
    }
  }

  /**
   * `Trim(s)` is the slice of `s` left when every leading and trailing
   * trimmable character is cut away, and what is cut is trimmable.
   */
  lemma TrimIsSlice(s: string)
    ensures var k := LeadingTrimmable(s); var r := Trim(s);
      && k + |r| <= |s| && r == s[k..k + |r|]
      && (forall i :: 0 <= i < k ==> IsTrimmable(s[i]))
      && (forall i :: k + |r| <= i < |s| ==> IsTrimmable(s[i]))
  {
    var k := LeadingTrimmable(s);
    var t := s[k..];
    LeadingTrimmableIsMaximal(s);
    TrailingTrimmableOfSuffix(s, k);
    SliceOfSuffix(s, k, |t| - TrailingTrimmable(t));
  }

  /** A prefix of a suffix is a slice. */
  lemma SliceOfSuffix(s: string, k: nat, n: nat)
    requires k + n <= |s|
    ensures s[k..][..n] == s[k..k + n]
  {
  }

  /** The trailing trimmable characters of a suffix of `s` are trailing characters of `s`. */
  lemma TrailingTrimmableOfSuffix(s: string, k: nat)
    requires k <= |s|
    ensures forall i :: |s| - TrailingTrimmable(s[k..]) <= i < |s| ==> IsTrimmable(s[i])
  {
    var t := s[k..];
    TrailingTrimmableIsMaximal(t);
    forall i | |s| - TrailingTrimmable(t) <= i < |s| ensures IsTrimmable(s[i]) {
      assert s[i] == t[i - k];
    }
  }

  /** A non-empty trimmed string neither starts nor ends with a trimmable character. */
  lemma TrimmedEnds(s: string)
    ensures Trim(s) == [] || (!IsTrimmable(Trim(s)[0]) && !IsTrimmable(Trim(s)[|Trim(s)| - 1]))
  {
    var k := LeadingTrimmable(s);
    var t := s[k..];
    LeadingTrimmableIsMaximal(s);
    TrailingTrimmableIsMaximal(t);
    var n := |t| - TrailingTrimmable(t);
    if n > 0 {
      assert Trim(s)[0] == t[0] == s[k];
      assert Trim(s)[n - 1] == t[|t| - 1 - TrailingTrimmable(t)];
    }
  }

  /** A string trims to empty exactly when it consists of trimmable characters only. */
  lemma TrimEmptyIffBlank(s: string)
    ensures Trim(s) == [] <==> forall i :: 0 <= i < |s| ==> IsTrimmable(s[i])
  {
    TrimIsSlice(s);
    TrimmedEnds(s);
    var k := LeadingTrimmable(s);
    if Trim(s) != [] {
      assert s[k] == Trim(s)[0];
    }
  }

  /** `substring(0, 80)`: the prefix of at most 80 characters. */
  function Snippet(s: string): (r: string)
    ensures |r| <= SnippetLength && r <= s
    ensures |s| <= SnippetLength ==> r == s
    ensures |s| > SnippetLength ==> |r| == SnippetLength
  {
    if |s| <= SnippetLength then s else s[..SnippetLength]
  }

  /** The tags the analyzer treats as text: `h1`..`h6` and `p`. */
  predicate IsTextTag(tag: string) {
    tag in ["h1", "h2", "h3", "h4", "h5", "h6", "p"]
  }
}
