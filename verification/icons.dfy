/**
 * `GetSourceIcon` of templates/components/icons.go: the icon and colour
 * classes shown next to a referrer source, chosen by substring tests on the
 * lower-cased source in a fixed order.
 */
module Icons {
  import opened GoStrings

  /** An icon class and its background and text colour classes. */
  datatype Icon = Icon(icon: string, bg: string, text: string)

  const Google: Icon := Icon("fab fa-google", "bg-red-50", "text-red-600")
  const Twitter: Icon := Icon("fab fa-twitter", "bg-blue-50", "text-blue-400")
  const Facebook: Icon := Icon("fab fa-facebook", "bg-blue-50", "text-blue-700")
  const LinkedIn: Icon := Icon("fab fa-linkedin", "bg-blue-50", "text-blue-800")
  const Reddit: Icon := Icon("fab fa-reddit-alien", "bg-orange-50", "text-orange-600")
  const Instagram: Icon := Icon("fab fa-instagram", "bg-pink-50", "text-pink-600")
  const YouTube: Icon := Icon("fab fa-youtube", "bg-red-50", "text-red-600")
  const GitHub: Icon := Icon("fab fa-github", "bg-gray-50", "text-gray-800")
  const DirectLink: Icon := Icon("fas fa-link", "bg-gray-50", "text-gray-600")
  const Globe: Icon := Icon("fas fa-globe", "bg-indigo-50", "text-indigo-600")

  /** `GetSourceIcon`: the first matching test wins; unmatched sources get the globe. */
  function GetSourceIcon(source: string): (r: Icon)
    ensures r in {Google, Twitter, Facebook, LinkedIn, Reddit, Instagram, YouTube, GitHub, DirectLink, Globe}
  {
    var s := ToLower(source);
    if Contains(s, "google") then Google
    else if Contains(s, "twitter") || Contains(s, "t.co") || Contains(s, "x.com") then Twitter
    else if Contains(s, "facebook") then Facebook
    else if Contains(s, "linkedin") then LinkedIn
    else if Contains(s, "reddit") then Reddit
    else if Contains(s, "instagram") then Instagram
    else if Contains(s, "youtube") then YouTube
    else if Contains(s, "github") then GitHub
    else if s == "direct" || s == "" then DirectLink
    else Globe
  }

  /** Case does not matter: a source and its lower-case form get the same icon. */
  lemma CaseInsensitive(source: string)
    ensures GetSourceIcon(ToLower(source)) == GetSourceIcon(source)
  {
    ToLowerIdempotent(source);
  }

  // ---- the priority order, as a table --------------------------------------

  /** The tests in the order they are tried: each a list of patterns and the icon they give. */
  const Tiers: seq<(seq<string>, Icon)> := [
    (["google"], Google),
    (["twitter", "t.co", "x.com"], Twitter),
    (["facebook"], Facebook),
    (["linkedin"], LinkedIn),
    (["reddit"], Reddit),
    (["instagram"], Instagram),
    (["youtube"], YouTube),
    (["github"], GitHub)
  ]

  /** Some pattern of the list occurs in `s`. */
  predicate AnyOccurs(s: string, patterns: seq<string>)
  {
    exists k :: 0 <= k < |patterns| && Contains(s, patterns[k])
  }

  /** The rule applied when no pattern matches. */
  function Fallback(s: string): Icon
  {
    if s == "direct" || s == "" then DirectLink else Globe
  }

  /** The icon of the first tier, from `from` on, with a pattern in `s`; else the fallback. */
  function FirstMatch(s: string, from: nat): (r: Icon)
    requires from <= |Tiers|
    ensures r == Fallback(s) || exists i :: from <= i < |Tiers| && AnyOccurs(s, Tiers[i].0) && r == Tiers[i].1
    decreases |Tiers| - from
  {
    if from == |Tiers| then Fallback(s)
    else if AnyOccurs(s, Tiers[from].0) then Tiers[from].1
    else FirstMatch(s, from + 1)
  }

  /** The first match is the tier of least index whose patterns occur. */
  lemma {:induction false} FirstMatchLeast(s: string, from: nat, i: nat)
    requires from <= i < |Tiers| && AnyOccurs(s, Tiers[i].0)
    requires forall j :: from <= j < i ==> !AnyOccurs(s, Tiers[j].0)
    ensures FirstMatch(s, from) == Tiers[i].1
    decreases i - from
  {
    if from < i {
      FirstMatchLeast(s, from + 1, i);
    }
  }

  /** With no tier matching, the fallback rule decides. */
  lemma {:induction false} FirstMatchNone(s: string, from: nat)
    requires from <= |Tiers|
    requires forall j :: from <= j < |Tiers| ==> !AnyOccurs(s, Tiers[j].0)
    ensures FirstMatch(s, from) == Fallback(s)
    decreases |Tiers| - from
  {
    if from < |Tiers| {
      FirstMatchNone(s, from + 1);
    }
  }

  /** `GetSourceIcon` is the first match of the table on the lower-cased source. */
  lemma SourceIconIsFirstMatch(source: string)
    ensures GetSourceIcon(source) == FirstMatch(ToLower(source), 0)
  {
    var s := ToLower(source);
    assert AnyOccurs(s, Tiers[1].0) <==> Contains(s, "twitter") || Contains(s, "t.co") || Contains(s, "x.com") by {
      if Contains(s, "twitter") { assert Contains(s, Tiers[1].0[0]); }
      if Contains(s, "t.co") { assert Contains(s, Tiers[1].0[1]); }
      if Contains(s, "x.com") { assert Contains(s, Tiers[1].0[2]); }
    }
    forall i | i in {0, 2, 3, 4, 5, 6, 7}
      ensures AnyOccurs(s, Tiers[i].0) <==> Contains(s, Tiers[i].0[0])
    {
      if Contains(s, Tiers[i].0[0]) { assert Contains(s, Tiers[i].0[0]); }
    }
  }

  /**
   * The priority order: the source gets the icon of the first tier with a
   * pattern in its lower-cased form, and the link or globe icon when there is none.
   */
  lemma PriorityOrder(source: string, i: nat)
    requires i < |Tiers| && AnyOccurs(ToLower(source), Tiers[i].0)
    requires forall j :: 0 <= j < i ==> !AnyOccurs(ToLower(source), Tiers[j].0)
    ensures GetSourceIcon(source) == Tiers[i].1
  {
    SourceIconIsFirstMatch(source);
    FirstMatchLeast(ToLower(source), 0, i);
  }

  /** "google" anywhere in the source, in any case, outranks every other test. */
  lemma GoogleFirst(source: string)
    ensures Contains(ToLower(source), "google") ==> GetSourceIcon(source) == Google
  {
  }

  /** Without "google", any of the three twitter patterns gives the Twitter icon. */
  lemma TwitterSecond(source: string)
    requires !Contains(ToLower(source), "google")
    requires Contains(ToLower(source), "twitter") || Contains(ToLower(source), "t.co") || Contains(ToLower(source), "x.com")
    ensures GetSourceIcon(source) == Twitter
  {
  }

  /** The lower-case form of "G\U{0130}THUB.COM" is "github.com". */
  lemma DottedCapitalILowers()
    ensures ToLower("G\U{0130}THUB.COM") == "github.com"
  {
    var s := ToLower("G\U{0130}THUB.COM");
    assert forall i :: 0 <= i < 10 ==> s[i] == "github.com"[i];
  }

  /** In "github.com" only the github test matches. */
  lemma GithubComTiers(s: string)
    requires s == "github.com"
    ensures forall j :: 0 <= j < 7 ==> !AnyOccurs(s, Tiers[j].0)
    ensures AnyOccurs(s, Tiers[7].0)
  {
    GithubComMissesEarly(s);
    GithubComMissesLate(s);
    forall j | 0 <= j < 7
      ensures !AnyOccurs(s, Tiers[j].0)
    {
      assert j != 1 ==> Tiers[j].0 == [Tiers[j].0[0]];
    }
    assert s[0..6] == "github";
    ContainsAt(s, "github", 0);
    assert Contains(s, Tiers[7].0[0]);
  }

  /** The first two tiers' patterns do not occur in "github.com". */
  lemma GithubComMissesEarly(s: string)
    requires s == "github.com"
    ensures !Contains(s, "google") && !Contains(s, "twitter") && !Contains(s, "t.co") && !Contains(s, "x.com")
  {
    MissingChar(s, "google", 4);
    MissingChar(s, "twitter", 1);
    ContainsPair(s, "t.co");
    assert forall k :: 0 <= k < |s| - 1 ==> !(s[k] == 't' && s[k + 1] == '.');
    MissingChar(s, "x.com", 0);
  }

  /** The third to seventh tiers' patterns do not occur in "github.com". */
  lemma GithubComMissesLate(s: string)
    requires s == "github.com"
    ensures !Contains(s, "facebook") && !Contains(s, "linkedin") && !Contains(s, "reddit")
    ensures !Contains(s, "instagram") && !Contains(s, "youtube")
  {
    MissingChar(s, "facebook", 0);
    MissingChar(s, "linkedin", 0);
    MissingChar(s, "reddit", 0);
    MissingChar(s, "instagram", 1);
    MissingChar(s, "youtube", 0);
  }

  /** The dotted capital I lower-cases to 'i', so "G\U{0130}THUB.COM" gets the GitHub icon. */
  lemma DottedCapitalI()
    ensures GetSourceIcon("G\U{0130}THUB.COM") == GitHub
  {
    DottedCapitalILowers();
    GithubComTiers("github.com");
    PriorityOrder("G\U{0130}THUB.COM", 7);
  }

  /** The twitter test comes before the reddit one, and "reddit.com" contains "t.co". */
  lemma RedditGetsTwitter()
    ensures GetSourceIcon("reddit.com") == Twitter
  {
    var s := ToLower("reddit.com");
    assert s == "reddit.com";
    assert s[5..9] == "t.co";
    ContainsAt(s, "t.co", 5);
    MissingChar(s, "google", 0);
  }

  /** A pattern holding a character the text lacks does not occur in it. */
  lemma MissingChar(s: string, sub: string, j: nat)
    requires j < |sub| && sub[j] !in s
    ensures !Contains(s, sub)
  {
    ContainsChars(s, sub);
  }

  /** No pattern of the table occurs in "direct". */
  lemma DirectMatchesNothing()
    ensures forall j :: 0 <= j < |Tiers| ==> !AnyOccurs("direct", Tiers[j].0)
  {
    var s := "direct";
    MissingChar(s, "google", 0);
    MissingChar(s, "twitter", 1);
    MissingChar(s, "t.co", 1);
    MissingChar(s, "x.com", 0);
    MissingChar(s, "facebook", 0);
    MissingChar(s, "linkedin", 0);
    assert s[..6] != "reddit" && |s[1..]| < |"reddit"|;
    assert !Contains(s, "reddit");
    MissingChar(s, "instagram", 1);
    MissingChar(s, "youtube", 0);
    MissingChar(s, "github", 0);
  }

  /** Exactly "direct" (in any case) and the empty source get the link icon. */
  lemma DirectLinkSources(source: string)
    ensures ToLower(source) == "direct" || source == "" ==> GetSourceIcon(source) == DirectLink
  {
    var s := ToLower(source);
    SourceIconIsFirstMatch(source);
    if s == "direct" {
      DirectMatchesNothing();
      FirstMatchNone(s, 0);
    }
  }

  /** The link icon is given to "direct" and "" only. */
  lemma DirectLinkOnly(source: string)
    requires GetSourceIcon(source) == DirectLink
    ensures ToLower(source) == "direct" || ToLower(source) == ""
  {
  }
}
