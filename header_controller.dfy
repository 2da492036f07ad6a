/** frontend/src/layout/HeaderController: on which paths the header is rendered. */
module HeaderController {
  import opened Wrappers
  import opened Text

  const HiddenPaths: seq<string> := ["/", "/login", "/signup", "/map"]
  const ShopsPrefix := "/shops/"

  /** JavaScript's `\d`: an ASCII decimal digit. */
  predicate IsDigit(c: char)
  {
    '0' <= c <= '9'
  }

  /** The regex tail `\d+$`, matched one character at a time (`$` without the `m` flag is end of input). */
  predicate DigitsToEnd(s: string)
    decreases |s|
  {
    |s| >= 1 && IsDigit(s[0]) && (|s| == 1 || DigitsToEnd(s[1..]))
  }

  /** The regex `/^\/shops\/\d+$/`. */
  predicate MatchesShopDetail(p: string)
  {
    StartsWith(p, ShopsPrefix) && DigitsToEnd(p[|ShopsPrefix|..])
  }

  /** showHeader: a null pathname is read as ''. */
  function ShowHeader(pathname: Option<string>): (show: bool)
    ensures pathname.None? ==> show
  {
    var p := pathname.GetOr("");
    p !in HiddenPaths && !MatchesShopDetail(p)
  }

  /** The digit matcher accepts exactly the non-empty all-digit strings. */
  lemma {:induction false} DigitsToEndIff(s: string)
    ensures DigitsToEnd(s) <==> |s| >= 1 && forall i :: 0 <= i < |s| ==> IsDigit(s[i])
    decreases |s|
  {
    if |s| > 1 {
      DigitsToEndIff(s[1..]);
      if forall i :: 1 <= i < |s| ==> IsDigit(s[i]) {
        assert forall i :: 0 <= i < |s| - 1 ==> s[1..][i] == s[i + 1];
      }
      if DigitsToEnd(s) {
        forall i | 0 <= i < |s| ensures IsDigit(s[i]) {
          if i > 0 {
            assert s[1..][i - 1] == s[i];
          }
        }
      }
    }
  }

  /** The header is hidden exactly on the four listed paths and on '/shops/' followed by digits only. */
  lemma HiddenIff(p: string)
    ensures !ShowHeader(Some(p)) <==>
      p in {"/", "/login", "/signup", "/map"}
      || (|p| > |ShopsPrefix| && p[..|ShopsPrefix|] == ShopsPrefix
          && forall i :: |ShopsPrefix| <= i < |p| ==> IsDigit(p[i]))
  {
    if StartsWith(p, ShopsPrefix) {
      var tail := p[|ShopsPrefix|..];
      DigitsToEndIff(tail);
      assert forall i :: |ShopsPrefix| <= i < |p| ==> p[i] == tail[i - |ShopsPrefix|];
    }
  }

  /** A shop detail path hides the header. */
  lemma ShopDetailHidden(digits: string)
    requires |digits| >= 1 && forall i :: 0 <= i < |digits| ==> IsDigit(digits[i])
    ensures !ShowHeader(Some(ShopsPrefix + digits))
  {
    var p := ShopsPrefix + digits;
    assert p[|ShopsPrefix|..] == digits;
    DigitsToEndIff(digits);
  }

  /** The listing, the bare prefix and a nested page under a shop still show the header. */
  lemma OtherShopPathsShown()
    ensures ShowHeader(Some("/shops"))
    ensures ShowHeader(Some("/shops/"))
    ensures ShowHeader(Some("/shops/12/update"))
  {
    var q := "/shops/12/update";
    assert q[..|ShopsPrefix|] == ShopsPrefix;
    assert q[|ShopsPrefix|..] == "12/update";
    assert !IsDigit(q[9]);
    HiddenIff(q);
    assert "/shops/"[|ShopsPrefix|..] == "";
  }
}
