/** Character classes of the classic locale, and the scanning loops over a line. */
module Chars {

  predicate IsSpace(c: char) {
    c == ' ' || ('\U{9}' <= c <= '\U{D}')
  }

  predicate IsControl(c: char) {
    c < ' ' || c == '\U{7F}'
  }

  predicate IsDigit(c: char) {
    '0' <= c <= '9'
  }

  predicate IsPunct(c: char) {
    '!' <= c <= '/' || ':' <= c <= '@' || '[' <= c <= '`' || '{' <= c <= '~'
  }

  /** What may stand in the name of a setting or, with `env`, of a variable, which has no dashes and dots. */
  predicate IsNameChar(c: char, env: bool) {
    ((c == '-' || c == '.') && !env) || c == '_' || (!IsControl(c) && !IsPunct(c) && !IsSpace(c))
  }

  // The end of the run of characters from `i` that are not (or are) of a kind.

  function FindSpace(s: string, i: nat): (j: nat)
    requires i <= |s|
    ensures i <= j <= |s| && (j < |s| ==> IsSpace(s[j]))
    decreases |s| - i
  {
    if i == |s| || IsSpace(s[i]) then i else FindSpace(s, i + 1)
  }

  function SkipSpace(s: string, i: nat): (j: nat)
    requires i <= |s|
    ensures i <= j <= |s| && (i < |s| && IsSpace(s[i]) ==> i < j)
    decreases |s| - i
  {
    if i == |s| || !IsSpace(s[i]) then i else SkipSpace(s, i + 1)
  }

  function NameRun(s: string, i: nat, env: bool): (j: nat)
    requires i <= |s|
    ensures i <= j <= |s|
    decreases |s| - i
  {
    if i == |s| || !IsNameChar(s[i], env) then i else NameRun(s, i + 1, env)
  }

  function Find(s: string, c: char, i: nat): (j: nat)
    requires i <= |s|
    ensures i <= j <= |s| && (j < |s| ==> s[j] == c) && forall k :: i <= k < j ==> s[k] != c
    decreases |s| - i
  {
    if i == |s| || s[i] == c then i else Find(s, c, i + 1)
  }

  lemma {:induction false} SkipSpaceStops(s: string, i: nat)
    requires i <= |s|
    ensures var j := SkipSpace(s, i); (j < |s| ==> !IsSpace(s[j])) && forall k :: i <= k < j ==> IsSpace(s[k])
    decreases |s| - i
  {
    if i < |s| && IsSpace(s[i]) { SkipSpaceStops(s, i + 1); }
  }

  /** A name may not be empty or start with a digit, a dash or a dot. */
  function NameEnd(s: string, i: nat, env: bool): (j: nat)
    requires i <= |s|
    ensures i <= j <= |s|
  {
    if i < |s| && (s[i] == '-' || s[i] == '.' || IsDigit(s[i])) then i else NameRun(s, i, env)
  }

  lemma {:induction false} NameRunShift(s: string, p: nat, k: nat, env: bool)
    requires p + k <= |s|
    ensures NameRun(s, p + k, env) == p + NameRun(s[p..], k, env)
    decreases |s| - k
  {
    if p + k < |s| && IsNameChar(s[p + k], env) { NameRunShift(s, p, k + 1, env); }
  }

  /** Reading a name depends only on the text from there on. */
  lemma NameShift(s: string, p: nat, k: nat, env: bool)
    requires p + k <= |s|
    ensures NameEnd(s, p + k, env) == p + NameEnd(s[p..], k, env)
  {
    NameRunShift(s, p, k, env);
  }

  /** What a name is: all of it are name characters, and it is as long as it can be. */
  lemma {:induction false} NameRunIs(s: string, i: nat, env: bool)
    requires i <= |s|
    ensures var j := NameRun(s, i, env);
            (forall k :: i <= k < j ==> IsNameChar(s[k], env)) && (j < |s| ==> !IsNameChar(s[j], env))
    decreases |s| - i
  {
    if i < |s| && IsNameChar(s[i], env) { NameRunIs(s, i + 1, env); }
  }

  lemma {:induction false} FindShift(s: string, c: char, p: nat, k: nat)
    requires p + k <= |s|
    ensures Find(s, c, p + k) == p + Find(s[p..], c, k)
    decreases |s| - k
  {
    if p + k < |s| && s[p + k] != c { FindShift(s, c, p, k + 1); }
  }

  lemma {:induction false} FindSpaceShift(s: string, p: nat, k: nat)
    requires p + k <= |s|
    ensures FindSpace(s, p + k) == p + FindSpace(s[p..], k)
    decreases |s| - k
  {
    if p + k < |s| && !IsSpace(s[p + k]) { FindSpaceShift(s, p, k + 1); }
  }

  lemma {:induction false} SkipSpaceShift(s: string, p: nat, k: nat)
    requires p + k <= |s|
    ensures SkipSpace(s, p + k) == p + SkipSpace(s[p..], k)
    decreases |s| - k
  {
    if p + k < |s| && IsSpace(s[p + k]) { SkipSpaceShift(s, p, k + 1); }
  }

  method SkipWs(s: string, from: nat, end: nat) returns (i: nat)
    requires from <= end <= |s|
    ensures i == SkipSpace(s[..end], from)
  {
    i := from;
    while i != end && IsSpace(s[i])
      invariant from <= i <= end && SkipSpace(s[..end], i) == SkipSpace(s[..end], from)
    {
      i := i + 1;
    }
  }

  method FindWs(s: string, from: nat, end: nat) returns (i: nat)
    requires from <= end <= |s|
    ensures i == FindSpace(s[..end], from)
  {
    i := from;
    while i != end && !IsSpace(s[i])
      invariant from <= i <= end && FindSpace(s[..end], i) == FindSpace(s[..end], from)
    {
      i := i + 1;
    }
  }

  /** Read the name of a setting or a variable; an empty one if there is none. */
  method ReadConfigName(s: string, from: nat, end: nat, env: bool) returns (i: nat, name: string)
    requires from <= end <= |s|
    ensures i == NameEnd(s[..end], from, env) && name == s[from..i]
    ensures name != [] ==> s[from] != '-' && s[from] != '.' && !IsDigit(s[from])
    ensures name != [] ==> (forall c :: c in name ==> IsNameChar(c, env)) && (i < end ==> !IsNameChar(s[i], env))
  {
    NameRunIs(s[..end], from, env);
    i, name := from, [];
    if i == end || s[i] == '-' || s[i] == '.' || IsDigit(s[i]) {
      return;
    }
    while i != end && (((s[i] == '-' || s[i] == '.') && !env) || s[i] == '_'
                       || (!IsControl(s[i]) && !IsPunct(s[i]) && !IsSpace(s[i])))
      invariant from <= i <= end && NameRun(s[..end], i, env) == NameRun(s[..end], from, env) && name == s[from..i]
      invariant forall c :: c in name ==> IsNameChar(c, env)
    {
      name := name + [s[i]];
      i := i + 1;
    }
  }
}
