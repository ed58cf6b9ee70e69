/**
 * The captcha half of utils.py: the whitelist filter applied to the OCR
 * service's answer, and the way `extract_captcha_from_img` turns that answer
 * into the text typed into the login form.  The HTTP request to the OCR
 * service is an oracle: its reply is an `OcrReply` value.
 */
module Captcha {

  /**
   * The characters `filter_text` keeps: its default `whitelist` argument is
   * the 26 upper-case ASCII letters, the 26 lower-case ones and the 10 digits.
   */
  predicate Whitelisted(c: char) {
    'A' <= c <= 'Z' || 'a' <= c <= 'z' || '0' <= c <= '9'
  }

  /** The subsequence of `text` made of whitelisted characters, in their original order. */
  function FilterText(text: string): (r: string)
    ensures |r| <= |text|
    ensures forall i :: 0 <= i < |r| ==> Whitelisted(r[i])
    ensures forall c :: Whitelisted(c) ==> multiset(r)[c] == multiset(text)[c]
    ensures forall c :: !Whitelisted(c) ==> multiset(r)[c] == 0
  {
    if text == [] then []
    else
      var rest := FilterText(text[1..]);
      assert text == [text[0]] + text[1..];
      if Whitelisted(text[0]) then [text[0]] + rest else rest
  }

  /** Filtering distributes over concatenation, so the filter works character by character. */
  lemma {:induction false} FilterTextConcat(a: string, b: string)
    ensures FilterText(a + b) == FilterText(a) + FilterText(b)
  {
    if a == [] {
      assert a + b == b;
    } else {
      assert (a + b)[1..] == a[1..] + b;
      assert (a + b)[0] == a[0];
      FilterTextConcat(a[1..], b);
    }
  }

  /** A text made only of whitelisted characters passes the filter unchanged. */
  lemma {:induction false} FilterTextKeepsClean(text: string)
    requires forall i :: 0 <= i < |text| ==> Whitelisted(text[i])
    ensures FilterText(text) == text
  {
    if text != [] {
      FilterTextKeepsClean(text[1..]);
    }
  }

  /** Applying the filter twice is the same as applying it once. */
  lemma FilterTextIdempotent(text: string)
    ensures FilterText(FilterText(text)) == FilterText(text)
  {
    FilterTextKeepsClean(FilterText(text));
  }

  /** Python's `str.isspace()`: the characters `str.strip()` removes. */
  predicate IsSpace(c: char) {
    ('\U{9}' <= c <= '\U{d}') || ('\U{1c}' <= c <= '\U{20}') || c == '\U{85}' || c == '\U{a0}'
    || c == '\U{1680}' || ('\U{2000}' <= c <= '\U{200a}') || c == '\U{2028}' || c == '\U{2029}'
    || c == '\U{202f}' || c == '\U{205f}' || c == '\U{3000}'
  }

  /** The first position at or after `i` that is not white space (`|s|` when there is none). */
  function SpaceRunEnd(s: string, i: nat): (n: nat)
    requires i <= |s|
    ensures i <= n <= |s|
    ensures forall k :: i <= k < n ==> IsSpace(s[k])
    ensures n < |s| ==> !IsSpace(s[n])
    decreases |s| - i
  {
    if i < |s| && IsSpace(s[i]) then SpaceRunEnd(s, i + 1) else i
  }

  /** The start of the white space that ends `s[..e]`, not going below `lo`. */
  function SpaceRunStart(s: string, lo: nat, e: nat): (n: nat)
    requires lo <= e <= |s|
    ensures lo <= n <= e
    ensures forall k :: n <= k < e ==> IsSpace(s[k])
    ensures n > lo ==> !IsSpace(s[n - 1])
    decreases e - lo
  {
    if e > lo && IsSpace(s[e - 1]) then SpaceRunStart(s, lo, e - 1) else e
  }

  /** `str.strip()` without arguments: leading and trailing white space removed. */
  function Strip(s: string): (r: string)
    ensures var i := |s| - |StripStart(s)|;
            0 <= i <= i + |r| <= |s| && r == s[i..i + |r|]
            && (forall k :: 0 <= k < i ==> IsSpace(s[k]))
            && (forall k :: i + |r| <= k < |s| ==> IsSpace(s[k]))
    ensures r != [] ==> !IsSpace(r[0]) && !IsSpace(r[|r| - 1])
  {
    var i := SpaceRunEnd(s, 0);
    s[i..SpaceRunStart(s, i, |s|)]
  }

  /** `str.lstrip()`: the leading white space removed. */
  function StripStart(s: string): (r: string)
    ensures |r| <= |s| && r == s[|s| - |r|..]
    ensures forall k :: 0 <= k < |s| - |r| ==> IsSpace(s[k])
    ensures r != [] ==> !IsSpace(r[0])
  {
    s[SpaceRunEnd(s, 0)..]
  }

  /** `str.rstrip()`: the trailing white space removed. */
  function StripEnd(s: string): (r: string)
    ensures |r| <= |s| && r == s[..|r|]
    ensures forall k :: |r| <= k < |s| ==> IsSpace(s[k])
    ensures r != [] ==> !IsSpace(r[|r| - 1])
  {
    s[..SpaceRunStart(s, 0, |s|)]
  }

  /** A text with no whitelisted character filters to the empty string. */
  lemma {:induction false} FilterTextDropsAll(text: string)
    requires forall i :: 0 <= i < |text| ==> !Whitelisted(text[i])
    ensures FilterText(text) == []
  {
    if text != [] {
      FilterTextDropsAll(text[1..]);
    }
  }

  /**
   * `extract_captcha_from_img` strips the OCR text before filtering it; the
   * strip never changes the result, since white space is not whitelisted.
   */
  lemma FilterTextIgnoresStrip(s: string)
    ensures FilterText(Strip(s)) == FilterText(s)
  {
    var i := SpaceRunEnd(s, 0);
    var j := SpaceRunStart(s, i, |s|);
    FilterTextDropsSpaces(s, 0, i);
    FilterTextDropsSpaces(s, j, |s|);
    FilterTextOfSlice(s, i, j);
  }

  /** When the head and the tail filter to nothing, the filter is the middle slice's. */
  lemma FilterTextOfSlice(s: string, i: nat, j: nat)
    requires i <= j <= |s| && FilterText(s[..i]) == [] && FilterText(s[j..]) == []
    ensures FilterText(s) == FilterText(s[i..j])
  {
    SliceThree(s, i, j);
    FilterTextKeepsMiddle(s[..i], s[i..j], s[j..]);
  }

  /** A string is its head, middle and tail slices put back together. */
  lemma SliceThree(s: string, i: nat, j: nat)
    requires i <= j <= |s|
    ensures s == s[..i] + (s[i..j] + s[j..])
  {
    assert s[i..] == s[i..j] + s[j..];
  }

  /** A run of white space filters to nothing. */
  lemma FilterTextDropsSpaces(s: string, lo: nat, hi: nat)
    requires lo <= hi <= |s|
    requires forall k :: lo <= k < hi ==> IsSpace(s[k])
    ensures FilterText(s[lo..hi]) == []
  {
    var t := s[lo..hi];
    forall k | 0 <= k < |t|
      ensures !Whitelisted(t[k])
    {
      assert t[k] == s[lo + k];
    }
    FilterTextDropsAll(t);
  }

  /** What filters to nothing on either side leaves only the middle's filter. */
  lemma FilterTextKeepsMiddle(head: string, r: string, tail: string)
    requires FilterText(head) == [] && FilterText(tail) == []
    ensures FilterText(head + (r + tail)) == FilterText(r)
  {
    FilterTextConcat(r, tail);
    FilterTextConcat(head, r + tail);
  }

  /** What the OCR service answered, as `extract_captcha_from_img` sees it. */
  datatype OcrReply =
    | Parsed(text: string)      // `result['ParsedResults'][0]['ParsedText']` was present
    | Unparsable                // the JSON body or one of those keys was missing
    | PostRaised(error: string) // `requests.post` itself raised (not caught in utils.py)

  /**
   * The captcha text `extract_captcha_from_img` returns for a reply that did
   * not raise: the filtered, stripped parsed text, or "" when parsing failed.
   */
  function ExtractCaptcha(reply: OcrReply): (text: string)
    requires !reply.PostRaised?
    ensures forall i :: 0 <= i < |text| ==> Whitelisted(text[i])
    ensures reply.Unparsable? ==> text == ""
    ensures reply.Parsed? ==> text == FilterText(reply.text)
  {
    match reply
    case Parsed(t) =>
      FilterTextIgnoresStrip(t);
      FilterText(Strip(t))
    case Unparsable => ""
  }
}
