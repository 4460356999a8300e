/** `domain/utils.py`: the URI builder. */
module Utils {

  /** `uri(end_point, host, version, scheme)`: `scheme://host/version/end_point`,
      with no normalisation of the parts. */
  function Uri(endPoint: string, host: string, version: string, scheme: string): (r: string)
    ensures |r| == |scheme| + |host| + |version| + |endPoint| + 5
    ensures r[..|scheme| + 3] == scheme + "://"
    ensures r[|scheme| + 3..|scheme| + 3 + |host|] == host
    ensures r[|scheme| + 3 + |host|] == '/'
    ensures r[|scheme| + 4 + |host|..|scheme| + 4 + |host| + |version|] == version
    ensures r[|scheme| + 4 + |host| + |version|] == '/'
    ensures r[|r| - |endPoint|..] == endPoint
  {
    scheme + "://" + host + "/" + version + "/" + endPoint
  }

  /** Slashes are not normalised: an end point with a leading slash yields
      a doubled slash after the version. */
  lemma LeadingSlashDoubled(endPoint: string, host: string, version: string, scheme: string)
    requires |endPoint| > 0 && endPoint[0] == '/'
    ensures var r := Uri(endPoint, host, version, scheme);
            var at := |scheme| + 4 + |host| + |version|;
            r[at..at + 2] == "//"
  {
    var r := Uri(endPoint, host, version, scheme);
    var at := |scheme| + 4 + |host| + |version|;
    assert r[at + 1] == r[|r| - |endPoint|..][0];
  }

  /** The decimal digits of a natural number, as `str(n)` writes them. */
  function DecimalString(n: nat): (r: string)
    ensures |r| >= 1
    ensures forall i :: 0 <= i < |r| ==> '0' <= r[i] <= '9'
  {
    var digit := ['0' + (n % 10) as char];
    if n < 10 then digit else DecimalString(n / 10) + digit
  }
}
