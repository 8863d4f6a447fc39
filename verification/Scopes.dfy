/** Scope strings (authapp/models.py; section 3.3 of RFC 6749). */
module Scopes {

  /** Python's whitespace, of which a scope has none. */
  predicate IsSpace(c: char) {
    var n := c as int;
    || 0x9 <= n <= 0xD || 0x1C <= n <= 0x20 || n == 0x85 || n == 0xA0 || n == 0x1680 || 0x2000 <= n <= 0x200A
    || n == 0x2028 || n == 0x2029 || n == 0x202F || n == 0x205F || n == 0x3000
  }

  predicate Plain(s: string) {
    s != "" && forall i :: 0 <= i < |s| ==> !IsSpace(s[i])
  }

  predicate AllPlain(scopes: seq<string>) {
    forall i :: 0 <= i < |scopes| ==> Plain(scopes[i])
  }

  /** `split(" ")`: the pieces between single spaces, empty ones included. */
  function SplitSpace(s: string): (r: seq<string>)
    ensures |r| > 0
  {
    if s == "" then [""]
    else
      var rest := SplitSpace(s[1..]);
      if s[0] == ' ' then [""] + rest else [[s[0]] + rest[0]] + rest[1..]
  }

  function StripLeft(s: string): string {
    if s != "" && IsSpace(s[0]) then StripLeft(s[1..]) else s
  }

  function StripRight(s: string): string {
    if s != "" && IsSpace(s[|s| - 1]) then StripRight(s[..|s| - 1]) else s
  }

  function Strip(s: string): string {
    StripRight(StripLeft(s))
  }

  function StripAll(xs: seq<string>): (r: seq<string>)
    ensures |r| == |xs| && forall i :: 0 <= i < |xs| ==> r[i] == Strip(xs[i])
  {
    seq(|xs|, i requires 0 <= i < |xs| => Strip(xs[i]))
  }

  /** `scope_to_list`. */
  function ScopeToList(scope: string): seq<string> {
    if scope == "" then [] else StripAll(SplitSpace(scope))
  }

  /** `list_to_scope`. */
  function ListToScope(scopes: seq<string>): string {
    if scopes == [] then "" else if |scopes| == 1 then scopes[0] else scopes[0] + " " + ListToScope(scopes[1..])
  }

  /** `split()`: the maximal runs of characters that are not whitespace. */
  function Words(s: string): seq<string>
    decreases |s|
  {
    var t := StripLeft(s);
    if t == "" then [] else
      StripLeftShrinks(s);
      var n := WordLength(t);
      [t[..n]] + Words(t[n..])
  }

  function WordLength(s: string): (n: nat)
    ensures n <= |s| && (s != "" && !IsSpace(s[0]) ==> n > 0)
    ensures forall i :: 0 <= i < n ==> !IsSpace(s[i])
    ensures n < |s| ==> IsSpace(s[n])
  {
    if s == "" || IsSpace(s[0]) then 0 else 1 + WordLength(s[1..])
  }

  lemma {:induction false} StripLeftShrinks(s: string)
    ensures |StripLeft(s)| <= |s| && (StripLeft(s) != "" ==> !IsSpace(StripLeft(s)[0]))
  {
    if s != "" && IsSpace(s[0]) { StripLeftShrinks(s[1..]); }
  }

  /** `get_allowed_scope`: the requested scopes that the client's own scope string lists. */
  function AllowedScope(own: string, requested: string): string {
    if requested == "" then "" else ListToScope(Restrict(Words(requested), ScopeToList(own)))
  }

  /** The in-order part of the request that lies in the allowed list. */
  function Restrict(requested: seq<string>, allowed: seq<string>): (r: seq<string>)
    ensures forall s :: s in r <==> s in requested && s in allowed
  {
    if requested == [] then []
    else
      var before, last := Restrict(requested[..|requested| - 1], allowed), requested[|requested| - 1];
      assert requested == requested[..|requested| - 1] + [last];
      if last in allowed then before + [last] else before
  }

  // ---- Joining and splitting ------------------------------------------------------------------------------------

  lemma PlainStripped(s: string)
    requires Plain(s)
    ensures Strip(s) == s
  {
    assert !IsSpace(s[0]) && !IsSpace(s[|s| - 1]);
  }

  /** Splitting at the first space that follows a plain scope. */
  lemma {:induction false} SplitPlain(s: string, rest: string)
    requires forall i :: 0 <= i < |s| ==> s[i] != ' '
    ensures SplitSpace(s) == [s]
    ensures SplitSpace(s + " " + rest) == [s] + SplitSpace(rest)
  {
    if s == "" {
      assert "" + " " + rest == " " + rest;
      assert (" " + rest)[1..] == rest;
    } else {
      SplitPlain(s[1..], rest);
      assert s == [s[0]] + s[1..];
      assert (s + " " + rest)[1..] == s[1..] + " " + rest;
    }
  }

  predicate SpaceFree(s: string) {
    forall i :: 0 <= i < |s| ==> s[i] != ' '
  }

  lemma {:induction false} SplitJoined(scopes: seq<string>)
    requires (forall i :: 0 <= i < |scopes| ==> SpaceFree(scopes[i])) && scopes != []
    ensures SplitSpace(ListToScope(scopes)) == scopes
    ensures ListToScope(scopes) == "" <==> scopes == [""]
  {
    var first := scopes[0];
    assert SpaceFree(first);
    if |scopes| == 1 {
      SplitPlain(first, "");
    } else {
      SplitJoined(scopes[1..]);
      SplitPlain(first, ListToScope(scopes[1..]));
      assert scopes == [first] + scopes[1..];
    }
  }

  /** Joining scopes and splitting the string again gives the scopes. */
  lemma JoinThenSplit(scopes: seq<string>)
    requires AllPlain(scopes)
    ensures ScopeToList(ListToScope(scopes)) == scopes
  {
    forall i | 0 <= i < |scopes| ensures SpaceFree(scopes[i]) && Strip(scopes[i]) == scopes[i] && scopes[i] != "" {
      assert Plain(scopes[i]);
      PlainStripped(scopes[i]);
    }
    RoundTripExactly(scopes);
  }

  lemma {:induction false} PiecesSpaceFree(s: string)
    ensures forall i :: 0 <= i < |SplitSpace(s)| ==> SpaceFree(SplitSpace(s)[i])
  {
    if s != "" {
      PiecesSpaceFree(s[1..]);
      var rest := SplitSpace(s[1..]);
      if s[0] != ' ' {
        assert SpaceFree(rest[0]) && SpaceFree([s[0]] + rest[0]);
      }
    }
  }

  lemma {:induction false} LeftStripped(s: string)
    ensures SpaceFree(s) ==> SpaceFree(StripLeft(s))
    ensures StripLeft(s) != "" ==> !IsSpace(StripLeft(s)[0])
  {
    if s != "" && IsSpace(s[0]) { LeftStripped(s[1..]); }
  }

  lemma {:induction false} RightStripped(s: string)
    ensures SpaceFree(s) ==> SpaceFree(StripRight(s))
    ensures StripRight(s) != "" ==> StripRight(s)[0] == s[0] && !IsSpace(StripRight(s)[|StripRight(s)| - 1])
    ensures |StripRight(s)| <= |s|
  {
    if s != "" && IsSpace(s[|s| - 1]) { RightStripped(s[..|s| - 1]); }
  }

  /** Stripping leaves nothing to strip. */
  lemma StripTwice(s: string)
    ensures Strip(Strip(s)) == Strip(s)
    ensures SpaceFree(s) ==> SpaceFree(Strip(s))
  {
    LeftStripped(s);
    RightStripped(StripLeft(s));
  }

  /** Exactly when the round trip holds: no scope has a space in it or whitespace at its ends, and the list is not
      the one empty scope. */
  lemma {:induction false} RoundTripExactly(scopes: seq<string>)
    ensures ScopeToList(ListToScope(scopes)) == scopes
       <==> scopes != [""] && forall i :: 0 <= i < |scopes| ==> SpaceFree(scopes[i]) && Strip(scopes[i]) == scopes[i]
  {
    if scopes != [""] && forall i :: 0 <= i < |scopes| ==> SpaceFree(scopes[i]) && Strip(scopes[i]) == scopes[i] {
      if scopes != [] { SplitJoined(scopes); }
    }
    if ScopeToList(ListToScope(scopes)) == scopes {
      var pieces := SplitSpace(ListToScope(scopes));
      PiecesSpaceFree(ListToScope(scopes));
      forall i | 0 <= i < |scopes| ensures SpaceFree(scopes[i]) && Strip(scopes[i]) == scopes[i] {
        StripTwice(pieces[i]);
      }
    }
  }

  // ---- Words ------------------------------------------------------------------------------------------------------

  lemma {:induction false} WordsArePlain(s: string)
    ensures AllPlain(Words(s))
    decreases |s|
  {
    var t := StripLeft(s);
    StripLeftShrinks(s);
    if t != "" {
      var n := WordLength(t);
      WordsArePlain(t[n..]);
      assert Plain(t[..n]);
    }
  }

  lemma {:induction false} WordLengthPlain(s: string, rest: string)
    requires forall i :: 0 <= i < |s| ==> !IsSpace(s[i])
    requires rest == "" || IsSpace(rest[0])
    ensures WordLength(s + rest) == |s|
  {
    if s == "" {
      assert "" + rest == rest;
    } else {
      assert (s + rest)[1..] == s[1..] + rest;
      WordLengthPlain(s[1..], rest);
    }
  }

  lemma FirstWord(s: string, rest: string)
    requires Plain(s) && (rest == "" || IsSpace(rest[0]))
    ensures Words(s + rest) == [s] + Words(rest)
  {
    assert StripLeft(s + rest) == s + rest;
    WordLengthPlain(s, rest);
    assert (s + rest)[..|s|] == s && (s + rest)[|s|..] == rest;
  }

  lemma SkipSpace(rest: string)
    ensures Words(" " + rest) == Words(rest)
  {
    assert (" " + rest)[1..] == rest;
    assert StripLeft(" " + rest) == StripLeft(rest);
  }

  /** Joining scopes and taking the words gives the scopes. */
  lemma {:induction false} JoinThenWords(scopes: seq<string>)
    requires AllPlain(scopes)
    ensures Words(ListToScope(scopes)) == scopes
  {
    if scopes != [] {
      var first := scopes[0];
      assert Plain(first);
      assert scopes == [first] + scopes[1..];
      if |scopes| == 1 {
        assert first + "" == first;
        FirstWord(first, "");
      } else {
        var rest := ListToScope(scopes[1..]);
        JoinThenWords(scopes[1..]);
        FirstWord(first, " " + rest);
        SkipSpace(rest);
        assert first + " " + rest == first + (" " + rest);
      }
    }
  }

  // ---- Restricting ------------------------------------------------------------------------------------------------

  /** `positions` picks the elements of `part` out of `whole`, in order. */
  predicate PicksOut(part: seq<string>, whole: seq<string>, positions: seq<nat>) {
    && |positions| == |part|
    && (forall i :: 0 <= i < |part| ==> positions[i] < |whole| && part[i] == whole[positions[i]])
    && (forall i, j :: 0 <= i < j < |part| ==> positions[i] < positions[j])
  }

  lemma PicksMore(part: seq<string>, whole: seq<string>, positions: seq<nat>, last: string)
    requires PicksOut(part, whole, positions)
    ensures PicksOut(part, whole + [last], positions)
    ensures PicksOut(part + [last], whole + [last], positions + [|whole|])
  {
  }

  /** The part keeps the order of the request and leaves out exactly the scopes that are not allowed. */
  lemma {:induction false} RestrictPicks(requested: seq<string>, allowed: seq<string>) returns (positions: seq<nat>)
    ensures PicksOut(Restrict(requested, allowed), requested, positions)
    ensures forall i :: 0 <= i < |requested| ==> (i in positions <==> requested[i] in allowed)
  {
    hide PicksOut, Restrict;
    positions := [];
    if requested == [] {
      NothingPicked(allowed);
    } else {
      var n := |requested| - 1;
      var before := RestrictPicks(requested[..n], allowed);
      RestrictLast(requested, allowed);
      PicksMore(Restrict(requested[..n], allowed), requested[..n], before, requested[n]);
      PicksBelow(Restrict(requested[..n], allowed), requested[..n], before);
      positions := if requested[n] in allowed then before + [n] else before;
    }
  }

  lemma RestrictLast(requested: seq<string>, allowed: seq<string>)
    requires requested != []
    ensures var n := |requested| - 1;
            && requested == requested[..n] + [requested[n]]
            && Restrict(requested, allowed)
               == if requested[n] in allowed then Restrict(requested[..n], allowed) + [requested[n]]
                   else Restrict(requested[..n], allowed)
  {
  }

  lemma NothingPicked(allowed: seq<string>)
    ensures Restrict([], allowed) == [] && PicksOut([], [], [])
  {
  }

  lemma PicksBelow(part: seq<string>, whole: seq<string>, positions: seq<nat>)
    requires PicksOut(part, whole, positions)
    ensures |whole| !in positions
  {
  }

  lemma {:induction false} RestrictAllowed(scopes: seq<string>, allowed: seq<string>)
    requires forall s :: s in scopes ==> s in allowed
    ensures Restrict(scopes, allowed) == scopes
  {
    if scopes != [] {
      var n := |scopes| - 1;
      RestrictAllowed(scopes[..n], allowed);
      assert scopes == scopes[..n] + [scopes[n]];
    }
  }

  lemma RestrictTwice(requested: seq<string>, allowed: seq<string>)
    ensures Restrict(Restrict(requested, allowed), allowed) == Restrict(requested, allowed)
  {
    RestrictAllowed(Restrict(requested, allowed), allowed);
  }

  lemma RestrictPlain(requested: seq<string>, allowed: seq<string>)
    requires AllPlain(requested)
    ensures AllPlain(Restrict(requested, allowed))
  {
    var r := Restrict(requested, allowed);
    forall i | 0 <= i < |r| ensures Plain(r[i]) {
      assert r[i] in r;
      var j :| 0 <= j < |requested| && requested[j] == r[i];
    }
  }

  /** The allowed scope reads back as the in-order part of the request that lies in the client's scopes. */
  lemma {:induction false} AllowedReadsBack(own: string, requested: string)
    ensures Words(AllowedScope(own, requested)) == Restrict(Words(requested), ScopeToList(own))
    ensures ScopeToList(AllowedScope(own, requested)) == Restrict(Words(requested), ScopeToList(own))
  {
    WordsArePlain(requested);
    RestrictPlain(Words(requested), ScopeToList(own));
    JoinThenWords(Restrict(Words(requested), ScopeToList(own)));
    JoinThenSplit(Restrict(Words(requested), ScopeToList(own)));
  }

  /** Restricting twice is restricting once. */
  lemma {:induction false} AllowedTwice(own: string, requested: string)
    ensures AllowedScope(own, AllowedScope(own, requested)) == AllowedScope(own, requested)
  {
    AllowedReadsBack(own, requested);
    RestrictTwice(Words(requested), ScopeToList(own));
  }
}
