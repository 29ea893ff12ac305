/**
 * `NewPlanFeature` of domain/subscription.go: the plan features read from
 * a Stripe product's metadata map.
 */
module Subscription {
  import opened GoErrors
  import opened GoStrconv

  datatype PlanFeature = PlanFeature(promoted: bool, linksNumber: int)

  /**
   * Promoted only for the exact value "true"; the link count is the value
   * of "links" when `strconv.Atoi` accepts it, and 0 otherwise.
   */
  function NewPlanFeature(metadata: map<string, string>): (pf: PlanFeature)
    ensures pf.promoted <==> "promoted" in metadata && metadata["promoted"] == "true"
    ensures MinInt64 <= pf.linksNumber <= MaxInt64
    ensures pf.linksNumber != 0 ==> "links" in metadata && Atoi(metadata["links"]) == Some(pf.linksNumber)
    ensures "links" in metadata && Atoi(metadata["links"]).Some? ==> pf.linksNumber == Atoi(metadata["links"]).value
  {
    var promoted := "promoted" in metadata && metadata["promoted"] == "true";
    var links :=
      if "links" in metadata then
        match Atoi(metadata["links"])
        case Some(n) => n
        case None => 0
      else 0;
    PlanFeature(promoted, links)
  }

  /** Only the "promoted" and "links" keys are read. */
  lemma OtherKeysIgnored(metadata: map<string, string>, key: string, value: string)
    requires key != "promoted" && key != "links"
    ensures NewPlanFeature(metadata[key := value]) == NewPlanFeature(metadata)
  {
  }

  /** Empty metadata gives the zero feature set. */
  lemma EmptyMetadata()
    ensures NewPlanFeature(map[]) == PlanFeature(false, 0)
  {
  }

  /** A link count written in decimal is read back. */
  lemma LinksRoundTrip(n: int)
    requires MinInt64 <= n <= MaxInt64
    ensures NewPlanFeature(map["links" := Itoa(n)]).linksNumber == n
  {
    ItoaAtoi(n);
  }

  /** A value `Atoi` refuses leaves the count at 0. */
  lemma LinksUnparsable(metadata: map<string, string>)
    requires "links" in metadata && Atoi(metadata["links"]).None?
    ensures NewPlanFeature(metadata).linksNumber == 0
  {
  }

  /** A count outside the 64-bit range is refused, leaving 0. */
  lemma LinksOverflow(n: int)
    requires n < MinInt64 || MaxInt64 < n
    ensures NewPlanFeature(map["links" := Itoa(n)]).linksNumber == 0
  {
    ItoaAtoiOutOfRange(n);
  }

  /** Non-numeric text is refused; an explicit plus sign is accepted. */
  lemma LinksExamples()
    ensures NewPlanFeature(map["links" := "unlimited"]).linksNumber == 0
    ensures NewPlanFeature(map["links" := "+25"]).linksNumber == 25
  {
    assert !IsDigit('u');
    assert "25"[..1] == "2";
    assert DigitsValue("25") == 25;
  }

  /** The flag value is compared exactly: "True" does not promote. */
  lemma PromotedExact()
    ensures !NewPlanFeature(map["promoted" := "True"]).promoted
    ensures NewPlanFeature(map["promoted" := "true"]).promoted
  {
  }
}
