/** Text as the program handles it: trimming, lower case, and the parts of an address. */
module Text {

  predicate IsSpace(c: char) {
    c == ' ' || '\t' <= c <= '\r' || c == '\U{a0}' || c == '\U{feff}' || c == '\U{1680}'
    || '\U{2000}' <= c <= '\U{200a}' || c == '\U{2028}' || c == '\U{2029}' || c == '\U{202f}'
    || c == '\U{205f}' || c == '\U{3000}'
  }

  function TrimStart(s: string): (r: string)
    ensures r == [] || !IsSpace(r[0])
    ensures s == [] || !IsSpace(s[0]) ==> r == s
    ensures r != [] ==> s != [] && r[|r| - 1] == s[|s| - 1]
  {
    if s != [] && IsSpace(s[0]) then TrimStart(s[1..]) else s
  }

  function TrimEnd(s: string): (r: string)
    ensures r == [] || !IsSpace(r[|r| - 1])
    ensures s == [] || !IsSpace(s[|s| - 1]) ==> r == s
    ensures r != [] ==> s != [] && r[0] == s[0]
  {
    if s != [] && IsSpace(s[|s| - 1]) then TrimEnd(s[..|s| - 1]) else s
  }

  function Trim(s: string): string {
    TrimEnd(TrimStart(s))
  }

  lemma TrimIdempotent(s: string)
    ensures Trim(Trim(s)) == Trim(s)
  {
  }

  /** What is left of a text without the spaces at its ends. */
  ghost predicate IsTrimmed(s: string, r: string) {
    && (r != "" ==> !IsSpace(r[0]) && !IsSpace(r[|r| - 1]))
    && exists front, back :: s == front + r + back && AllSpace(front) && AllSpace(back)
  }

  predicate AllSpace(s: string) {
    forall i :: 0 <= i < |s| ==> IsSpace(s[i])
  }

  lemma TrimIs(s: string)
    ensures IsTrimmed(s, Trim(s))
  {
    hide IsSpace;
    hide TrimStart, TrimEnd;
    var n := FrontOf(s);
    var m := BackOf(s[n..]);
    assert s == s[..n] + Trim(s) + s[n..][m..];
  }

  lemma TrimmedBlank(s: string)
    ensures Trim(s) == "" <==> AllSpace(s)
  {
    hide IsSpace;
    TrimIs(s);
    if Trim(s) != "" {
      var front, back :| s == front + Trim(s) + back;
      assert s[|front|] == Trim(s)[0];
    }
  }

  /** Only one text is left. */
  lemma TrimmedOnce(s: string, r: string)
    requires IsTrimmed(s, r)
    ensures r == Trim(s)
  {
    hide IsSpace, TrimStart, TrimEnd;
    var front, back :| s == front + r + back && AllSpace(front) && AllSpace(back);
    if r == "" {
      TrimmedBlank(s);
    } else {
      assert s == front + (r + back);
      StartsBehind(front, r + back);
      EndsBefore(r, back);
    }
  }

  lemma {:induction false} StartsBehind(front: string, rest: string)
    requires AllSpace(front) && rest != "" && !IsSpace(rest[0])
    ensures TrimStart(front + rest) == rest
  {
    hide IsSpace;
    if front == "" {
      assert front + rest == rest;
    } else {
      assert (front + rest)[1..] == front[1..] + rest;
      StartsBehind(front[1..], rest);
    }
  }

  lemma {:induction false} EndsBefore(rest: string, back: string)
    requires AllSpace(back) && rest != "" && !IsSpace(rest[|rest| - 1])
    ensures TrimEnd(rest + back) == rest
  {
    hide IsSpace;
    if back == "" {
      assert rest + back == rest;
    } else {
      var s := rest + back;
      assert s[..|s| - 1] == rest + back[..|back| - 1];
      EndsBefore(rest, back[..|back| - 1]);
    }
  }

  /** How many spaces the text starts with. */
  lemma {:induction false} FrontOf(s: string) returns (n: nat)
    ensures n <= |s| && TrimStart(s) == s[n..] && AllSpace(s[..n])
  {
    hide IsSpace;
    n := 0;
    if s != [] && IsSpace(s[0]) {
      var m := FrontOf(s[1..]);
      n := m + 1;
      assert s[1..][m..] == s[n..];
      assert forall i :: 0 < i < n ==> s[i] == s[1..][..m][i - 1];
    }
  }

  /** Where the spaces start that the text ends with. */
  lemma {:induction false} BackOf(s: string) returns (n: nat)
    ensures n <= |s| && TrimEnd(s) == s[..n] && AllSpace(s[n..])
  {
    hide IsSpace;
    n := |s|;
    if s != [] && IsSpace(s[|s| - 1]) {
      var last := |s| - 1;
      n := BackOf(s[..last]);
      assert s[..last][..n] == s[..n];
      assert forall i :: n <= i < last ==> s[i] == s[..last][n..][i - n];
    }
  }

  /** Lower case of the ASCII letters. */
  function Lower(s: string): string {
    seq(|s|, (i: nat) requires i < |s| =>
      if 'A' <= s[i] <= 'Z' then (s[i] as int + 32) as char else s[i])
  }

  /** The same text with its capital letters small. */
  ghost predicate IsLower(s: string, r: string) {
    |r| == |s| && forall i :: 0 <= i < |s| ==>
      if 'A' <= s[i] <= 'Z' then r[i] as int - 'a' as int == s[i] as int - 'A' as int else r[i] == s[i]
  }

  lemma LowerIs(s: string)
    ensures IsLower(s, Lower(s))
  {
  }

  predicate HasScheme(s: string) {
    "http://" <= s || "https://" <= s
  }

  function WithoutScheme(s: string): string {
    if "https://" <= s then s[8..] else if "http://" <= s then s[7..] else s
  }
}
