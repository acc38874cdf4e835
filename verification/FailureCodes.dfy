/** The failure code of a provider error, read off the name of its exception class. */
module FailureCodes {

  datatype PspError = PSPTimeout | PSPNetworkError

  function TypeName(error: PspError): string {
    match error
    case PSPTimeout => "PSPTimeout"
    case PSPNetworkError => "PSPNetworkError"
  }

  function LowerChar(c: char): char {
    if 'A' <= c <= 'Z' then c - 'A' + 'a' else c
  }

  function Lower(s: string): (r: string)
    ensures |r| == |s| && forall k :: 0 <= k < |s| ==> r[k] == LowerChar(s[k])
  {
    seq(|s|, k requires 0 <= k < |s| => LowerChar(s[k]))
  }

  predicate ContainsAt(s: string, part: string, k: nat) {
    k + |part| <= |s| && s[k..k + |part|] == part
  }

  predicate Contains(s: string, part: string) {
    exists k: nat :: k <= |s| && ContainsAt(s, part, k)
  }

  function FailureCode(error: PspError): string {
    if Contains(Lower(TypeName(error)), "timeout") then "psp_timeout" else "psp_unavailable"
  }

  /** The two errors get the two codes. */
  lemma FailureCodesOfErrors()
    ensures FailureCode(PSPTimeout) == "psp_timeout"
    ensures FailureCode(PSPNetworkError) == "psp_unavailable"
  {
    TimeoutNamed();
    NetworkNotNamed();
  }

  lemma TimeoutNamed()
    ensures Contains(Lower("PSPTimeout"), "timeout")
  {
    var name := Lower("PSPTimeout");
    assert name == "psptimeout";
    assert name[3..10] == "timeout";
    assert ContainsAt(name, "timeout", 3);
  }

  lemma NetworkNotNamed()
    ensures !Contains(Lower("PSPNetworkError"), "timeout")
  {
    NetworkLower();
    if Contains("pspnetworkerror", "timeout") {
      var k: nat :| k <= 15 && ContainsAt("pspnetworkerror", "timeout", k);
      ContainedChar("pspnetworkerror", "timeout", k, 1);
      NoI("pspnetworkerror", k + 1);
    }
  }

  lemma NetworkLower()
    ensures Lower("PSPNetworkError") == "pspnetworkerror"
  {
    assert |Lower("PSPNetworkError")| == |"pspnetworkerror"|;
  }

  lemma NoI(name: string, k: nat)
    requires name == "pspnetworkerror" && k < |name|
    ensures name[k] != 'i'
  {
    assert name == ['p', 's', 'p', 'n', 'e', 't', 'w', 'o', 'r', 'k', 'e', 'r', 'r', 'o', 'r'];
  }

  lemma ContainedChar(s: string, part: string, k: nat, j: nat)
    requires ContainsAt(s, part, k) && j < |part|
    ensures s[k + j] == part[j]
  {
    assert s[k..k + |part|][j] == s[k + j];
  }
}
