/** Case and white space of symbols and names, on ASCII characters. */
module Symbols {

  function UpperChar(c: char): char {
    if 'a' <= c <= 'z' then ((c as int) - 32) as char else c
  }

  function Upper(s: string): (r: string)
    ensures |r| == |s| && forall i :: 0 <= i < |s| ==> r[i] == UpperChar(s[i])
  {
    if s == "" then "" else [UpperChar(s[0])] + Upper(s[1..])
  }

  function LowerChar(c: char): char {
    if 'A' <= c <= 'Z' then ((c as int) + 32) as char else c
  }

  function Lower(s: string): (r: string)
    ensures |r| == |s| && forall i :: 0 <= i < |s| ==> r[i] == LowerChar(s[i])
  {
    if s == "" then "" else [LowerChar(s[0])] + Lower(s[1..])
  }

  predicate EqualFold(a: string, b: string) {
    Upper(a) == Upper(b)
  }

  predicate Space(c: char) {
    c == ' ' || c == '\t' || c == '\n' || c == '\U{000b}' || c == '\U{000c}' || c == '\r'
  }

  /** Without leading and trailing white space. */
  function Trim(s: string): (r: string)
    ensures r == "" || (!Space(r[0]) && !Space(r[|r| - 1]))
    ensures r == "" <==> forall i :: 0 <= i < |s| ==> Space(s[i])
    decreases |s|
  {
    if s == "" then ""
    else if Space(s[0]) then Trim(s[1..])
    else if Space(s[|s| - 1]) then Trim(s[..|s| - 1])
    else s
  }

  /** The codes of tab, line feed, vertical tab, form feed, carriage return and space. */
  predicate White(c: char) {
    9 <= c as int <= 13 || c as int == 32
  }

  predicate Blank(s: string) {
    forall k :: 0 <= k < |s| ==> White(s[k])
  }

  lemma WhiteIsSpace()
    ensures forall c :: White(c) <==> Space(c)
  {
  }

  /** Trimming `s` leaves the part between `from` and `to`, outside of which there is only white space. */
  predicate CutsWhite(s: string, from: nat, to: nat) {
    && from <= to <= |s| && Trim(s) == s[from..to]
    && (forall k :: 0 <= k < from ==> White(s[k])) && (forall k :: to <= k < |s| ==> White(s[k]))
    && (from < to ==> !White(s[from]) && !White(s[to - 1]))
  }

  lemma CutsAfterFirst(s: string, i: nat, j: nat)
    requires s != "" && White(s[0]) && Trim(s) == Trim(s[1..]) && CutsWhite(s[1..], i, j)
    ensures CutsWhite(s, i + 1, j + 1)
  {
    hide Trim, White;
    assert s[1..][i..j] == s[i + 1..j + 1];
    assert forall k :: 1 <= k < |s| ==> s[1..][k - 1] == s[k];
  }

  lemma CutsBeforeLast(s: string, rest: string, i: nat, j: nat)
    requires s != "" && rest == s[..|s| - 1] && White(s[|s| - 1]) && Trim(s) == Trim(rest) && CutsWhite(rest, i, j)
    ensures CutsWhite(s, i, j)
  {
    hide Trim, White;
    assert forall k :: 0 <= k < |rest| ==> rest[k] == s[k];
    assert rest[i..j] == s[i..j];
  }

  /** Trimming cuts away exactly the white space before the first other character and after the last one. */
  lemma {:induction false} TrimmedExactly(s: string) returns (from: nat, to: nat)
    ensures from <= to <= |s| && Trim(s) == s[from..to]
    ensures forall k :: 0 <= k < from ==> White(s[k])
    ensures forall k :: to <= k < |s| ==> White(s[k])
    ensures from < to ==> !White(s[from]) && !White(s[to - 1])
    decreases |s|
  {
    WhiteIsSpace();
    hide White, Space;
    if s == "" {
      return 0, 0;
    } else if Space(s[0]) {
      var i, j := TrimmedExactly(s[1..]);
      CutsAfterFirst(s, i, j);
      return i + 1, j + 1;
    } else if Space(s[|s| - 1]) {
      from, to := TrimmedExactly(s[..|s| - 1]);
      CutsBeforeLast(s, s[..|s| - 1], from, to);
    } else {
      return 0, |s|;
    }
  }

  lemma TrimmedAway(s: string)
    ensures Trim(s) == "" <==> Blank(s)
  {
    WhiteIsSpace();
    hide White, Space;
  }

  /** Letters change case by their code, and nothing else changes. */
  lemma CasesExactly(s: string, k: nat)
    requires k < |s|
    ensures Upper(s)[k] as int == s[k] as int - if 97 <= s[k] as int <= 122 then 32 else 0
    ensures Lower(s)[k] as int == s[k] as int + if 65 <= s[k] as int <= 90 then 32 else 0
    ensures |Upper(s)| == |s| && |Lower(s)| == |s|
  {
  }

  lemma {:induction false} TrimTwice(s: string)
    ensures Trim(Trim(s)) == Trim(s)
    decreases |s|
  {
    if s != "" && Space(s[0]) {
      TrimTwice(s[1..]);
    } else if s != "" && Space(s[|s| - 1]) {
      TrimTwice(s[..|s| - 1]);
    }
  }

  lemma {:induction false} UpperTwice(s: string)
    ensures Upper(Upper(s)) == Upper(s)
    decreases |s|
  {
    if s != "" {
      UpperTwice(s[1..]);
    }
  }

  lemma CaseKeepsSpace(c: char)
    ensures Space(UpperChar(c)) <==> Space(c)
    ensures Space(LowerChar(c)) <==> Space(c)
  {
  }

  lemma UpperCut(s: string)
    requires s != ""
    ensures Upper(s)[1..] == Upper(s[1..]) && Upper(s)[..|s| - 1] == Upper(s[..|s| - 1])
  {
    hide UpperChar;
  }

  lemma {:induction false} UpperOfTrim(s: string)
    ensures Upper(Trim(s)) == Trim(Upper(s))
    decreases |s|
  {
    if s != "" {
      CaseKeepsSpace(s[0]);
      CaseKeepsSpace(s[|s| - 1]);
      UpperCut(s);
    }
    hide Space, UpperChar, Upper;
    if s != "" && Space(s[0]) {
      UpperOfTrim(s[1..]);
    } else if s != "" && Space(s[|s| - 1]) {
      UpperOfTrim(s[..|s| - 1]);
    }
  }

  lemma LowerLaws(s: string)
    ensures Lower(Lower(s)) == Lower(s) && Lower(Upper(s)) == Lower(s)
  {
  }

  lemma LowerCut(s: string)
    requires s != ""
    ensures Lower(s)[1..] == Lower(s[1..]) && Lower(s)[..|s| - 1] == Lower(s[..|s| - 1])
  {
    hide LowerChar;
  }

  lemma LowerStays(s: string)
    requires forall k :: 0 <= k < |s| ==> 'a' <= s[k] <= 'z'
    ensures Lower(s) == s
  {
    forall k | 0 <= k < |s|
      ensures Lower(s)[k] == s[k]
    {
    }
  }

  /** Lower-casing moves no white space. */
  lemma {:induction false} TrimOfLower(s: string)
    ensures Trim(Lower(s)) == Lower(Trim(s))
    decreases |s|
  {
    if s != "" {
      CaseKeepsSpace(s[0]);
      CaseKeepsSpace(s[|s| - 1]);
      LowerCut(s);
    }
    hide Space, LowerChar, Lower;
    if s != "" && Space(s[0]) {
      TrimOfLower(s[1..]);
    } else if s != "" && Space(s[|s| - 1]) {
      TrimOfLower(s[..|s| - 1]);
    }
  }

  /** Names cleaned by trimming and lower-casing, or trimming and upper-casing, stay as they are when cleaned again. */
  lemma CleanedTwice(s: string)
    ensures Lower(Trim(Lower(Trim(s)))) == Lower(Trim(s))
    ensures Upper(Trim(Upper(Trim(s)))) == Upper(Trim(s))
  {
    TrimTwice(s);
    TrimOfLower(Trim(s));
    LowerLaws(Trim(s));
    UpperOfTrim(Trim(s));
    UpperTwice(Trim(s));
  }
}
