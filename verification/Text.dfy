/** Characters and identifiers, as the services test them. */
module Text {

  /** The characters that stripping removes and splitting breaks at. */
  predicate IsSpace(c: char) {
    '\t' <= c <= '\r' || '\U{1c}' <= c <= ' ' || c == '\U{85}' || c == '\U{a0}' || c == '\U{1680}'
    || '\U{2000}' <= c <= '\U{200a}' || c == '\U{2028}' || c == '\U{2029}' || c == '\U{202f}'
    || c == '\U{205f}' || c == '\U{3000}'
  }

  predicate Blank(s: string) {
    forall c <- s :: IsSpace(c)
  }

  function StripLeft(s: string): string {
    if s != "" && IsSpace(s[0]) then StripLeft(s[1..]) else s
  }

  function StripRight(s: string): string {
    if s != "" && IsSpace(s[|s| - 1]) then StripRight(s[..|s| - 1]) else s
  }

  function Strip(s: string): string {
    StripRight(StripLeft(s))
  }

  /** Spaces go at both ends and nothing else does. */
  lemma {:induction false} StripTakesTheEnds(s: string) returns (before: string, after: string)
    ensures s == before + Strip(s) + after && Blank(before) && Blank(after)
    ensures Strip(s) != "" ==> !IsSpace(Strip(s)[0]) && !IsSpace(Strip(s)[|Strip(s)| - 1])
    ensures Strip(s) == "" <==> Blank(s)
  {
    before := StripsLeft(s);
    after := StripsRight(StripLeft(s));
    assert s == before + (Strip(s) + after);
  }

  lemma {:induction false} StripsLeft(s: string) returns (before: string)
    ensures s == before + StripLeft(s) && Blank(before)
    ensures StripLeft(s) != "" ==> !IsSpace(StripLeft(s)[0])
  {
    before := "";
    if s != "" && IsSpace(s[0]) {
      before := StripsLeft(s[1..]);
      before := [s[0]] + before;
    }
  }

  lemma {:induction false} StripsRight(s: string) returns (after: string)
    ensures s == StripRight(s) + after && Blank(after)
    ensures StripRight(s) != "" ==> !IsSpace(StripRight(s)[|StripRight(s)| - 1]) && StripRight(s)[0] == s[0]
  {
    after := "";
    if s != "" && IsSpace(s[|s| - 1]) {
      after := StripsRight(s[..|s| - 1]);
      after := after + [s[|s| - 1]];
    }
  }

  predicate Lower(c: char) {
    'a' <= c <= 'z'
  }

  predicate Letter(c: char) {
    Lower(c) || 'A' <= c <= 'Z'
  }

  predicate Numeral(c: char) {
    '0' <= c <= '9'
  }
}
