/** Trimming as JavaScript's trim and trimStart do it. */
module Whitespace {

  predicate IsSpace(c: char) {
    || c in {' ', '\t', '\n', '\r', '\U{0B}', '\U{0C}', '\U{A0}', '\U{1680}', '\U{2028}', '\U{2029}', '\U{202F}',
             '\U{205F}', '\U{3000}', '\U{FEFF}'}
    || '\U{2000}' <= c <= '\U{200A}'
  }

  function TrimStart(s: string): string {
    if s != "" && IsSpace(s[0]) then TrimStart(s[1..]) else s
  }

  function Trim(s: string): string {
    TrimEnd(TrimStart(s))
  }

  function TrimEnd(s: string): string {
    if s != "" && IsSpace(s[|s| - 1]) then TrimEnd(s[..|s| - 1]) else s
  }

  predicate AllSpace(s: string) {
    forall i :: 0 <= i < |s| ==> IsSpace(s[i])
  }

  /** What trimming removes is white space, and what it leaves neither starts nor ends with any. */
  lemma {:induction false} TrimIsTheCore(s: string) returns (lead: string, trail: string)
    ensures s == lead + Trim(s) + trail && AllSpace(lead) && AllSpace(trail)
    ensures Trim(s) != "" ==> !IsSpace(Trim(s)[0]) && !IsSpace(Trim(s)[|Trim(s)| - 1])
  {
    lead := StartCuts(s);
    trail := EndCuts(TrimStart(s));
  }

  lemma {:induction false} StartCuts(s: string) returns (lead: string)
    ensures s == lead + TrimStart(s) && AllSpace(lead)
    ensures TrimStart(s) != "" ==> !IsSpace(TrimStart(s)[0])
  {
    lead := "";
    if s != "" && IsSpace(s[0]) {
      var rest := StartCuts(s[1..]);
      lead := [s[0]] + rest;
    }
  }

  lemma {:induction false} EndCuts(s: string) returns (trail: string)
    ensures s == TrimEnd(s) + trail && AllSpace(trail)
    ensures TrimEnd(s) != "" ==> TrimEnd(s)[0] == s[0] && !IsSpace(TrimEnd(s)[|TrimEnd(s)| - 1])
  {
    trail := "";
    if s != "" && IsSpace(s[|s| - 1]) {
      var rest := EndCuts(s[..|s| - 1]);
      trail := rest + [s[|s| - 1]];
    }
  }
}
