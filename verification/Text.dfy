/** Host names as the DNS server compares them. */
module Text {

  function LowerChar(c: char): char {
    if 'A' <= c <= 'Z' then c - 'A' + 'a' else c
  }

  function Lower(s: string): (r: string)
    ensures |r| == |s|
    ensures forall i :: 0 <= i < |s| ==> r[i] == LowerChar(s[i])
  {
    seq(|s|, i requires 0 <= i < |s| => LowerChar(s[i]))
  }

  /** The agent closes a name with a dot. */
  function Closed(domain: string): string {
    if |domain| > 0 && domain[|domain| - 1] == '.' then domain else domain + "."
  }

  /** The name under which the server files a domain: closed, and in lower case. */
  function Host(domain: string): string {
    Lower(Closed(domain))
  }
}
