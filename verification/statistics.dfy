/**
 * `numberClicks` of handlers/statistics.go: the click count shown for a
 * link, as a short English label.
 */
module Statistics {
  import opened GoErrors
  import opened GoStrconv

  /** The label for a visit count. */
  function ClickLabel(n: int): (text: string)
    ensures n <= 0 ==> text == "no click"
    ensures n == 1 ==> text == "1 click"
    ensures n >= 2 ==> |text| > |" clicks"| && text[|text| - |" clicks"|..] == " clicks"
    ensures n >= 2 ==> text[..|text| - |" clicks"|] == Itoa(n)
  {
    if n <= 0 then "no click"
    else if n == 1 then "1 click"
    else Itoa(n) + " clicks"
  }

  /** The number in a plural label reads back as the count. */
  lemma ClickLabelReadsBack(n: int)
    requires 2 <= n <= MaxInt64
    ensures Atoi(ClickLabel(n)[..|ClickLabel(n)| - |" clicks"|]) == Some(n)
  {
    ItoaAtoi(n);
  }

  /** Different positive counts get different labels. */
  lemma ClickLabelInjective(m: int, n: int)
    requires 1 <= m <= MaxInt64 && 1 <= n <= MaxInt64 && m != n
    ensures ClickLabel(m) != ClickLabel(n)
  {
    if m >= 2 && n >= 2 {
      ClickLabelReadsBack(m);
      ClickLabelReadsBack(n);
    } else if m == 1 {
      ClickLabelOneDiffers(n);
    } else {
      ClickLabelOneDiffers(m);
    }
  }

  /** "1 click" is never a plural label. */
  lemma ClickLabelOneDiffers(n: int)
    requires 2 <= n
    ensures ClickLabel(n) != "1 click"
  {
    assert |"1 click"| == |" clicks"| < |ClickLabel(n)|;
  }

  datatype Reply =
    | ToLogin              // HTMX redirect to "/login"
    | Failed               // 500 "failed to get statistics"
    | Label(text: string)  // 200 with the label

  /** `numberClicks`: the signed-in user's link statistics, or why there are none. */
  function NumberClicks(signedIn: bool, visits: Result<int>): (r: Reply)
    ensures !signedIn ==> r == ToLogin
    ensures signedIn && visits.Err? ==> r == Failed
    ensures r.Label? <==> signedIn && visits.Ok?
    ensures r.Label? ==> r.text == ClickLabel(visits.value)
  {
    if !signedIn then ToLogin
    else if visits.Err? then Failed
    else Label(ClickLabel(visits.value))
  }
}
