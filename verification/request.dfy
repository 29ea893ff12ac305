/**
 * `domain.RequestInfo`: what the redirect handler keeps of an inbound
 * request, and the client-address rule for forwarded-for chains.
 */
module Request {
  import opened GoStrings

  datatype RequestInfo = RequestInfo(
    ipAddress: string,  // raw, possibly "client, proxy1, proxy2"
    userAgent: string,
    referer: string,
    country: string)
  {
    /**
     * The client address: the text before the first comma of the stored
     * address (as `strings.Split(..., ",")[0]`), or the whole address when it
     * holds no comma. Surrounding spaces are kept.
     */
    function IpAddress(): (ip: string)
      ensures ',' !in ip
      ensures ip <= ipAddress
      ensures ',' !in ipAddress ==> ip == ipAddress
      ensures ',' in ipAddress ==> ipAddress[|ip|] == ','
    {
      ContainsChar(ipAddress, ',');
      if Contains(ipAddress, ",") then Split(ipAddress, ',')[0] else ipAddress
    }

    function UserAgent(): string { userAgent }
    function Referer(): string { referer }
    function Country(): string { country }
  }

  /** `NewRequestInfo`: every accessor but the address gives back its argument unchanged. */
  function NewRequestInfo(ipAddress: string, userAgent: string, referer: string, country: string): (r: RequestInfo)
    ensures r.UserAgent() == userAgent && r.Referer() == referer && r.Country() == country
    ensures ',' !in ipAddress ==> r.IpAddress() == ipAddress
  {
    RequestInfo(ipAddress, userAgent, referer, country)
  }

  /** Taking the client address of a client address changes nothing. */
  lemma IpAddressIdempotent(r: RequestInfo)
    ensures r.(ipAddress := r.IpAddress()).IpAddress() == r.IpAddress()
  {
  }

  /** The worked example of a two-hop forwarded-for chain. */
  lemma IpAddressExample()
    ensures NewRequestInfo("1.2.3.4, 5.6.7.8", "", "", "").IpAddress() == "1.2.3.4"
  {
    var s := "1.2.3.4, 5.6.7.8";
    assert s[7] == ',';
    assert ',' !in s[..7];
    assert IndexOf(s, ',') == 7;
    ContainsChar(s, ',');
  }
}
