/**
 * The link classifier of utils/selectors.py: an href is a video link when its
 * lower-cased form contains "/video/", "douyin.com/video" or "share".
 * A missing href is treated as the empty string.
 */
module Classifier {
  import opened Wrappers

  const VideoPath := "/video/"
  const VideoHost := "douyin.com/video"
  const ShareMarker := "share"

  /** Python's `str.lower()` on one character, restricted to ASCII letters. */
  function Lower(c: char): (l: char)
    ensures 'A' <= c <= 'Z' ==> 'a' <= l <= 'z' && l as int == c as int + 32
    ensures !('A' <= c <= 'Z') ==> l == c
  {
    if 'A' <= c <= 'Z' then (c as int + 32) as char else c
  }

  /** Python's `str.lower()`, character by character. */
  function ToLower(s: string): (r: string)
    ensures |r| == |s|
  {
    if s == [] then [] else [Lower(s[0])] + ToLower(s[1..])
  }

  /** Position `i` of the lower-cased string is the lower-cased character at `i`. */
  lemma {:induction false} ToLowerAt(s: string, i: nat)
    requires i < |s|
    ensures ToLower(s)[i] == Lower(s[i])
    decreases i
  {
    if i > 0 {
      ToLowerAt(s[1..], i - 1);
    }
  }

  /** Lower-casing a string that is already lower case changes nothing. */
  lemma LowerIdempotent(s: string)
    ensures ToLower(ToLower(s)) == ToLower(s)
  {
    var l := ToLower(s);
    forall i | 0 <= i < |s|
      ensures ToLower(l)[i] == l[i]
    {
      ToLowerAt(l, i);
      ToLowerAt(s, i);
    }
  }

  /** `s` begins with `pat`, compared character by character. */
  predicate StartsWith(s: string, pat: string): (found: bool)
    ensures found ==> |pat| <= |s|
  {
    pat == [] || (s != [] && s[0] == pat[0] && StartsWith(s[1..], pat[1..]))
  }

  /** Python's substring test `pat in s`, searching from the left. */
  predicate Contains(s: string, pat: string): (found: bool)
    ensures found ==> |pat| <= |s|
    decreases |s|
  {
    StartsWith(s, pat) || (s != [] && Contains(s[1..], pat))
  }

  /** The character-by-character comparison agrees with comparing the leading slice. */
  lemma {:induction false} StartsWithIff(s: string, pat: string)
    ensures StartsWith(s, pat) <==> |pat| <= |s| && s[..|pat|] == pat
  {
    if pat != [] && s != [] {
      StartsWithIff(s[1..], pat[1..]);
      if |pat| <= |s| && s[0] == pat[0] {
        assert s[..|pat|] == [s[0]] + s[1..][..|pat| - 1];
        assert pat == [pat[0]] + pat[1..];
      }
    }
  }

  /** `pat` occurs in `s` starting at index `i`. */
  predicate OccursAt(s: string, pat: string, i: int)
  {
    0 <= i && i + |pat| <= |s| && s[i..i + |pat|] == pat
  }

  /** The search finds `pat` exactly when it occurs somewhere in `s`. */
  lemma {:induction false} ContainsIff(s: string, pat: string)
    ensures Contains(s, pat) <==> exists i :: OccursAt(s, pat, i)
    decreases |s|
  {
    StartsWithIff(s, pat);
    if StartsWith(s, pat) {
      assert OccursAt(s, pat, 0);
    } else if s == [] {
      assert forall i :: !OccursAt(s, pat, i);
    } else {
      ContainsIff(s[1..], pat);
      if Contains(s[1..], pat) {
        var i :| OccursAt(s[1..], pat, i);
        OccursShift(s, pat, i);
      }
      if i :| OccursAt(s, pat, i) {
        assert i != 0 by { assert s[0..|pat|] == s[..|pat|]; }
        OccursShift(s, pat, i - 1);
      }
    }
  }

  /** Dropping the first character moves every occurrence one place to the left. */
  lemma OccursShift(s: string, pat: string, i: nat)
    requires s != []
    ensures OccursAt(s[1..], pat, i) <==> OccursAt(s, pat, i + 1)
  {
    if 0 <= i && i + |pat| <= |s| - 1 {
      assert s[1..][i..i + |pat|] == s[i + 1..i + 1 + |pat|];
    }
  }

  /** `(h or "").lower()`: a missing or empty href becomes the empty string. */
  function Normalized(h: Option<string>): (l: string)
    ensures l == "" <==> h.None? || h.value == ""
    ensures h.Some? ==> |l| == |h.value|
  {
    ToLower(if h.Some? then h.value else "")
  }

  /** `is_video_link`: one of the three markers occurs in the lower-cased href. */
  function IsVideoLink(h: Option<string>): (accepted: bool)
    ensures accepted ==> h.Some? && h.value != ""
  {
    var l := Normalized(h);
    Contains(l, VideoPath) || Contains(l, VideoHost) || Contains(l, ShareMarker)
  }

  /** Some marker occurs at some position of `l`. */
  ghost predicate HasMarker(l: string)
  {
    exists i :: OccursAt(l, VideoPath, i) || OccursAt(l, VideoHost, i) || OccursAt(l, ShareMarker, i)
  }

  /** The classifier accepts exactly the hrefs whose lower-cased form holds a marker. */
  lemma IsVideoLinkIff(h: Option<string>)
    ensures IsVideoLink(h) <==> HasMarker(Normalized(h))
  {
    var l := Normalized(h);
    ContainsIff(l, VideoPath);
    ContainsIff(l, VideoHost);
    ContainsIff(l, ShareMarker);
  }

  /** Classification ignores case: lower-casing the href first changes nothing. */
  lemma IgnoresCase(h: string)
    ensures IsVideoLink(Some(h)) == IsVideoLink(Some(ToLower(h)))
  {
    LowerIdempotent(h);
  }

  /** Lower-casing a stretch of `s` that spells `pat` (in any case) exposes `pat` there. */
  lemma LowerExposes(s: string, pat: string, i: nat)
    requires i + |pat| <= |s|
    requires forall k :: 0 <= k < |pat| ==> Lower(s[i + k]) == pat[k]
    ensures OccursAt(ToLower(s), pat, i)
  {
    var w := ToLower(s)[i..i + |pat|];
    forall k | 0 <= k < |pat|
      ensures w[k] == pat[k]
    {
      ToLowerAt(s, i + k);
    }
    assert w == pat;
  }

  /** An href whose lower-cased form contains "/video/" at `i` is accepted. */
  lemma AcceptsVideoPath(h: string, i: int)
    requires OccursAt(ToLower(h), VideoPath, i)
    ensures IsVideoLink(Some(h))
  {
    IsVideoLinkIff(Some(h));
  }

  /** An href whose lower-cased form contains "douyin.com/video" at `i` is accepted. */
  lemma AcceptsVideoHost(h: string, i: int)
    requires OccursAt(ToLower(h), VideoHost, i)
    ensures IsVideoLink(Some(h))
  {
    IsVideoLinkIff(Some(h));
  }

  /** An href whose lower-cased form contains "share" at `i` is accepted. */
  lemma AcceptsShare(h: string, i: int)
    requires OccursAt(ToLower(h), ShareMarker, i)
    ensures IsVideoLink(Some(h))
  {
    IsVideoLinkIff(Some(h));
  }

  /** A canonical video page is accepted. */
  lemma AcceptsCanonicalVideoPage()
    ensures IsVideoLink(Some("https://www.douyin.com/video/123"))
  {
    var h := "https://www.douyin.com/video/123";
    LowerExposes(h, VideoPath, 22);
    AcceptsVideoPath(h, 22);
  }

  /** The host marker needs no trailing slash, and upper case in the href does not matter. */
  lemma AcceptsHostWithoutSlash()
    ensures IsVideoLink(Some("https://www.DOUYIN.com/videos"))
  {
    var h := "https://www.DOUYIN.com/videos";
    LowerExposes(h, VideoHost, 12);
    AcceptsVideoHost(h, 12);
  }

  /** A missing href and the empty href are never video links. */
  lemma RejectsMissing()
    ensures !IsVideoLink(None) && !IsVideoLink(Some(""))
  {
  }

  /** Every marker holds a 'v' or an 'a', so an href without either letter, in any case, is rejected. */
  lemma RejectsWithoutMarkerLetters(h: string)
    requires forall i :: 0 <= i < |h| ==> Lower(h[i]) != 'v' && Lower(h[i]) != 'a'
    ensures !IsVideoLink(Some(h))
  {
    var l := ToLower(h);
    IsVideoLinkIff(Some(h));
    if HasMarker(l) {
      var i :| OccursAt(l, VideoPath, i) || OccursAt(l, VideoHost, i) || OccursAt(l, ShareMarker, i);
      if OccursAt(l, VideoPath, i) {
        assert l[i + 1] == l[i..i + |VideoPath|][1] == 'v';
        ToLowerAt(h, i + 1);
      } else if OccursAt(l, VideoHost, i) {
        assert l[i + 11] == l[i..i + |VideoHost|][11] == 'v';
        ToLowerAt(h, i + 11);
      } else {
        assert l[i + 2] == l[i..i + |ShareMarker|][2] == 'a';
        ToLowerAt(h, i + 2);
      }
    }
  }

  /** A link to some other page is rejected. */
  lemma RejectsOtherPage()
    ensures !IsVideoLink(Some("b/other"))
  {
    RejectsWithoutMarkerLetters("b/other");
  }

  /** A relative video path is accepted. */
  lemma AcceptsRelativeVideoPath()
    ensures IsVideoLink(Some("a/video/1"))
  {
    var h := "a/video/1";
    LowerExposes(h, VideoPath, 1);
    AcceptsVideoPath(h, 1);
  }
}
