/**
 * The part of an inbound `net/http` request the core reads: its header
 * fields (keys in canonical form) and the peer address.
 */
module GoHttp {

  datatype HttpRequest = HttpRequest(header: map<string, string>, remoteAddr: string)
  {
    /** `r.Header.Get(name)`: the field's value, or "" when it is absent. */
    function Get(name: string): (v: string)
      ensures name in header ==> v == header[name]
      ensures name !in header ==> v == ""
    {
      if name in header then header[name] else ""
    }
  }
}
