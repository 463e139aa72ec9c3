/** The profile page's check of an avatar URL: the text must end with a dot
    and one of six image extensions, in any mix of upper and lower case. */
module ProfileUtils {

  /** The image extensions the check accepts, in the order the pattern lists them. */
  const Extensions: seq<string> := ["jpg", "jpeg", "png", "gif", "webp", "bmp"]

  /** ASCII case folding, the only folding a case-insensitive pattern
      without the unicode flag applies to these letters. */
  function Lower(c: char): (r: char)
    ensures 'A' <= c <= 'Z' ==> r as int == c as int + 32
    ensures !('A' <= c <= 'Z') ==> r == c
    ensures !('A' <= r <= 'Z')
  {
    if 'A' <= c <= 'Z' then (c as int + 32) as char else c
  }

  function LowerAll(s: string): (r: string)
    ensures |r| == |s|
    ensures forall i :: 0 <= i < |s| ==> r[i] == Lower(s[i])
  {
    seq(|s|, i requires 0 <= i < |s| => Lower(s[i]))
  }

  /** `s` spells the lower-case word `w` in any mix of cases. */
  predicate Spells(s: string, w: string) {
    |s| == |w| && forall i :: 0 <= i < |s| ==> Lower(s[i]) == w[i]
  }

  /** `url` ends with a dot followed by `ext`, in any case. */
  predicate EndsWithExtension(url: string, ext: string) {
    |url| > |ext| && url[|url| - |ext| - 1] == '.' && Spells(url[|url| - |ext|..], ext)
  }

  /** The alternatives of the pattern, tried one after the other. */
  function MatchesAny(url: string, exts: seq<string>): (r: bool)
    ensures r <==> exists i :: 0 <= i < |exts| && EndsWithExtension(url, exts[i])
    decreases |exts|
  {
    if exts == [] then false
    else if EndsWithExtension(url, exts[0]) then
      assert EndsWithExtension(url, exts[0]);
      true
    else
      var rest := MatchesAny(url, exts[1..]);
      assert forall i :: 1 <= i < |exts| ==> exts[i] == exts[1..][i - 1];
      rest
  }

  /** `isValidImageUrl`: the URL ends with "." and an accepted extension. */
  function IsValidImageUrl(url: string): (r: bool)
    ensures r <==> exists i :: 0 <= i < |Extensions| && EndsWithExtension(url, Extensions[i])
  {
    MatchesAny(url, Extensions)
  }

  lemma LowerAllSlice(s: string, k: nat)
    requires k <= |s|
    ensures LowerAll(s)[k..] == LowerAll(s[k..])
  {
  }

  lemma SpellsIgnoresCase(s: string, w: string)
    ensures Spells(s, w) <==> Spells(LowerAll(s), w)
  {
    assert forall i :: 0 <= i < |s| ==> Lower(LowerAll(s)[i]) == Lower(s[i]);
  }

  lemma EndingIgnoresCase(url: string, ext: string)
    ensures EndsWithExtension(url, ext) <==> EndsWithExtension(LowerAll(url), ext)
  {
    if |url| > |ext| {
      var k := |url| - |ext|;
      LowerAllSlice(url, k);
      SpellsIgnoresCase(url[k..], ext);
      assert LowerAll(url)[k - 1] == Lower(url[k - 1]);
    }
  }

  /** Case does not matter: a URL and its lower-case spelling are judged alike. */
  lemma CaseIsIgnored(url: string)
    ensures IsValidImageUrl(url) <==> IsValidImageUrl(LowerAll(url))
  {
    forall i | 0 <= i < |Extensions|
      ensures EndsWithExtension(url, Extensions[i]) <==> EndsWithExtension(LowerAll(url), Extensions[i])
    {
      EndingIgnoresCase(url, Extensions[i]);
    }
  }

  /** Only the end of the URL matters: whatever precedes an accepted name is allowed. */
  lemma AnyPrefixIsAllowed(prefix: string, url: string)
    requires IsValidImageUrl(url)
    ensures IsValidImageUrl(prefix + url)
  {
    var i :| 0 <= i < |Extensions| && EndsWithExtension(url, Extensions[i]);
    var ext := Extensions[i];
    var whole := prefix + url;
    var k := |url| - |ext|;
    assert whole[|whole| - |ext|..] == url[k..];
    assert whole[|whole| - |ext| - 1] == url[k - 1];
    assert EndsWithExtension(whole, ext);
  }

  lemma EndingLetter(url: string, ext: string)
    requires EndsWithExtension(url, ext) && |ext| > 0
    ensures Lower(url[|url| - 1]) == ext[|ext| - 1]
  {
    assert url[|url| - |ext|..][|ext| - 1] == url[|url| - 1];
  }

  /** An accepted URL ends in the last letter of an extension (g, f or p in
      either case), so nothing such as a query string may follow it. */
  lemma ExtensionIsAtTheEnd(url: string)
    requires |url| > 0
    ensures IsValidImageUrl(url) ==> Lower(url[|url| - 1]) in {'g', 'f', 'p'}
  {
    if IsValidImageUrl(url) {
      var i :| 0 <= i < |Extensions| && EndsWithExtension(url, Extensions[i]);
      EndingLetter(url, Extensions[i]);
      assert Extensions[i][|Extensions[i]| - 1] in {'g', 'f', 'p'} by {
        assert i == 0 || i == 1 || i == 2 || i == 3 || i == 4 || i == 5;
      }
    }
  }

  /** An accepted URL contains the dot that opens its extension. */
  lemma DotIsRequired(url: string)
    requires IsValidImageUrl(url)
    ensures exists i :: 0 <= i < |url| - 3 && url[i] == '.'
  {
    var i :| 0 <= i < |Extensions| && EndsWithExtension(url, Extensions[i]);
    assert url[|url| - |Extensions[i]| - 1] == '.';
  }

  lemma UpperCaseIsAccepted()
    ensures IsValidImageUrl("a.PNG")
    ensures IsValidImageUrl("a.JpEg")
    ensures IsValidImageUrl(".gif")
  {
    assert EndsWithExtension("a.PNG", Extensions[2]);
    assert EndsWithExtension("a.JpEg", Extensions[1]);
    assert EndsWithExtension(".gif", Extensions[3]);
  }

  lemma MissingDotOrTrailingTextIsRejected()
    ensures !IsValidImageUrl("apng")
    ensures !IsValidImageUrl("a.png?x=1")
  {
    forall i | 0 <= i < |Extensions|
      ensures !EndsWithExtension("apng", Extensions[i])
    {
      assert |Extensions[i]| >= 4 || "apng"[|"apng"| - |Extensions[i]| - 1] == 'a';
    }
    ExtensionIsAtTheEnd("a.png?x=1");
    assert Lower('1') == '1';
  }
}
