/** The few `java.lang.String` operations the request handler relies on. */
module JavaStrings {

  /** `s.startsWith(prefix)`: compares character by character, so the empty
      prefix starts every string. */
  function StartsWith(s: string, prefix: string): (r: bool)
    ensures r <==> prefix <= s
  {
    if prefix == [] then true
    else if s == [] then false
    else s[0] == prefix[0] && StartsWith(s[1..], prefix[1..])
  }
}
