/** fakts/services/tokens.py: the digest of a manifest's requirements. */
module Tokens {
  import opened Rows

  /** Python's order on strings: by code point, a prefix first. */
  predicate Below(a: string, b: string) {
    a == "" || (b != "" && (a[0] < b[0] || (a[0] == b[0] && Below(a[1..], b[1..]))))
  }

  lemma {:induction false} BelowTotal(a: string, b: string)
    ensures Below(a, b) || Below(b, a)
    ensures Below(a, b) && Below(b, a) ==> a == b
  {
    if a != "" && b != "" {
      BelowTotal(a[1..], b[1..]);
      assert a == [a[0]] + a[1..] && b == [b[0]] + b[1..];
    }
  }

  lemma {:induction false} BelowTransitive(a: string, b: string, c: string)
    requires Below(a, b) && Below(b, c)
    ensures Below(a, c)
  {
    if a != "" && a[0] == b[0] == c[0] {
      BelowTransitive(a[1..], b[1..], c[1..]);
    }
  }

  predicate Sorted(xs: seq<string>) {
    forall i, j :: 0 <= i < j < |xs| ==> Below(xs[i], xs[j])
  }

  function Insert(x: string, xs: seq<string>): (r: seq<string>)
    requires Sorted(xs)
    ensures Sorted(r) && multiset(r) == multiset(xs) + multiset{x}
  {
    if xs == [] then [x]
    else if Below(x, xs[0]) then
      assert forall i :: 0 <= i < |xs| ==> Below(x, xs[i]) by {
        forall i | 0 <= i < |xs| ensures Below(x, xs[i]) { if i > 0 { BelowTransitive(x, xs[0], xs[i]); } }
      }
      [x] + xs
    else
      BelowTotal(x, xs[0]);
      var rest := Insert(x, xs[1..]);
      assert xs == [xs[0]] + xs[1..];
      assert forall i :: 0 <= i < |rest| ==> Below(xs[0], rest[i]) by {
        forall i | 0 <= i < |rest| ensures Below(xs[0], rest[i]) {
          assert rest[i] in multiset(rest);
          assert rest[i] == x || rest[i] in multiset(xs[1..]);
        }
      }
      [xs[0]] + rest
  }

  /** Python's `sorted` on strings. */
  function Sort(xs: seq<string>): (r: seq<string>)
    ensures Sorted(r) && multiset(r) == multiset(xs)
  {
    if xs == [] then []
    else
      assert xs == [xs[0]] + xs[1..];
      Insert(xs[0], Sort(xs[1..]))
  }

  // ---- Multisets of sequences -----------------------------------------------------------------------------

  /** The sequence without its element at `j`. */
  function Without<T>(xs: seq<T>, j: nat): (r: seq<T>)
    requires j < |xs|
    ensures |r| == |xs| - 1
  {
    xs[..j] + xs[j + 1..]
  }

  lemma WithoutCounts<T>(xs: seq<T>, j: nat)
    requires j < |xs|
    ensures multiset(xs) == multiset(Without(xs, j)) + multiset{xs[j]}
  {
    assert xs == xs[..j] + [xs[j]] + xs[j + 1..];
  }

  lemma Cancel<T>(x: T, a: multiset<T>, b: multiset<T>)
    requires a + multiset{x} == b + multiset{x}
    ensures a == b
  {
    assert a == (a + multiset{x}) - multiset{x};
    assert b == (b + multiset{x}) - multiset{x};
  }

  /** Taking an element both have leaves two permutations of each other. */
  lemma WithoutBoth<T>(xs: seq<T>, i: nat, ys: seq<T>, j: nat)
    requires multiset(xs) == multiset(ys) && i < |xs| && j < |ys| && xs[i] == ys[j]
    ensures multiset(Without(xs, i)) == multiset(Without(ys, j))
  {
    hide Without;
    WithoutCounts(xs, i);
    WithoutCounts(ys, j);
    Cancel(xs[i], multiset(Without(xs, i)), multiset(Without(ys, j)));
  }

  lemma HasToo<T>(xs: seq<T>, ys: seq<T>, i: nat) returns (j: nat)
    requires multiset(xs) == multiset(ys) && i < |xs|
    ensures j < |ys| && ys[j] == xs[i]
  {
    assert xs[i] in multiset(ys);
    j :| j < |ys| && ys[j] == xs[i];
  }

  lemma SameLength<T>(xs: seq<T>, ys: seq<T>)
    requires multiset(xs) == multiset(ys)
    ensures |xs| == |ys|
  {
    assert |multiset(xs)| == |xs| && |multiset(ys)| == |ys|;
  }

  lemma SortedTail(xs: seq<string>)
    requires Sorted(xs) && xs != []
    ensures Sorted(Without(xs, 0)) && Without(xs, 0) == xs[1..]
  {
  }

  lemma LowestFirst(xs: seq<string>, j: nat)
    requires Sorted(xs) && j < |xs|
    ensures Below(xs[0], xs[j])
  {
    BelowTotal(xs[0], xs[0]);
  }

  lemma {:induction false} SortedIsCanonical(xs: seq<string>, ys: seq<string>)
    requires Sorted(xs) && Sorted(ys) && multiset(xs) == multiset(ys)
    ensures xs == ys
  {
    hide Without, Sorted, Below;
    SameLength(xs, ys);
    if xs != [] {
      var j := HasToo(xs, ys, 0);
      var i := HasToo(ys, xs, 0);
      LowestFirst(xs, i);
      LowestFirst(ys, j);
      BelowTotal(xs[0], ys[0]);
      WithoutBoth(xs, 0, ys, 0);
      SortedTail(xs);
      SortedTail(ys);
      SortedIsCanonical(Without(xs, 0), Without(ys, 0));
      assert xs == [xs[0]] + xs[1..] && ys == [ys[0]] + ys[1..];
    }
  }

  function Labels(reqs: seq<Requirement>): (r: seq<string>)
    ensures |r| == |reqs| && forall i :: 0 <= i < |reqs| ==> r[i] == reqs[i].service + reqs[i].key
  {
    seq(|reqs|, i requires 0 <= i < |reqs| => reqs[i].service + reqs[i].key)
  }

  function Join(separator: string, xs: seq<string>): string {
    if xs == [] then "" else if |xs| == 1 then xs[0] else xs[0] + separator + Join(separator, xs[1..])
  }

  function RequirementsText(reqs: seq<Requirement>): string {
    Join(".", Sort(Labels(reqs)))
  }

  function HashRequirements(w: Crypto, reqs: seq<Requirement>): string {
    w.sha256(RequirementsText(reqs))
  }

  /** What the digest looks at: a requirement's service and key, not whether it is optional. */
  datatype Pair = Pair(service: string, key: string)

  function Pairs(reqs: seq<Requirement>): (r: seq<Pair>)
    ensures |r| == |reqs| && forall i :: 0 <= i < |reqs| ==> r[i] == Pair(reqs[i].service, reqs[i].key)
  {
    seq(|reqs|, i requires 0 <= i < |reqs| => Pair(reqs[i].service, reqs[i].key))
  }

  function LabelOf(p: Pair): string { p.service + p.key }

  lemma PairsWithout(reqs: seq<Requirement>, j: nat)
    requires j < |reqs|
    ensures Pairs(Without(reqs, j)) == Without(Pairs(reqs), j) && Labels(Without(reqs, j)) == Without(Labels(reqs), j)
  {
  }

  lemma {:induction false} PermutedLabels(reqs: seq<Requirement>, other: seq<Requirement>)
    requires multiset(Pairs(reqs)) == multiset(Pairs(other))
    ensures multiset(Labels(reqs)) == multiset(Labels(other))
    decreases |reqs|
  {
    hide Without, Labels, Pairs;
    SameLength(Pairs(reqs), Pairs(other));
    if reqs == [] {
      assert other == [];
    } else {
      var j := HasToo(Pairs(reqs), Pairs(other), 0);
      WithoutBoth(Pairs(reqs), 0, Pairs(other), j);
      PairsWithout(reqs, 0);
      PairsWithout(other, j);
      PermutedLabels(Without(reqs, 0), Without(other, j));
      WithoutCounts(Labels(reqs), 0);
      WithoutCounts(Labels(other), j);
    }
  }

  lemma {:induction false} PermutedPairs(reqs: seq<Requirement>, other: seq<Requirement>)
    requires multiset(reqs) == multiset(other)
    ensures multiset(Pairs(reqs)) == multiset(Pairs(other))
    decreases |reqs|
  {
    hide Without, Labels, Pairs;
    SameLength(reqs, other);
    if reqs == [] {
      assert other == [];
    } else {
      var j := HasToo(reqs, other, 0);
      WithoutBoth(reqs, 0, other, j);
      PairsWithout(reqs, 0);
      PairsWithout(other, j);
      PermutedPairs(Without(reqs, 0), Without(other, j));
      WithoutCounts(Pairs(reqs), 0);
      WithoutCounts(Pairs(other), j);
    }
  }

  /** The digest depends neither on the order in which a manifest lists its requirements nor on which are optional. */
  lemma {:induction false} HashIgnoresOrder(w: Crypto, reqs: seq<Requirement>, other: seq<Requirement>)
    requires multiset(reqs) == multiset(other) || multiset(Pairs(reqs)) == multiset(Pairs(other))
    ensures RequirementsText(reqs) == RequirementsText(other)
    ensures HashRequirements(w, reqs) == HashRequirements(w, other)
  {
    if multiset(reqs) == multiset(other) { PermutedPairs(reqs, other); }
    PermutedLabels(reqs, other);
    SortedIsCanonical(Sort(Labels(reqs)), Sort(Labels(other)));
  }

  // ---- What the text tells apart ----------------------------------------------------------------------------

  predicate DotFree(text: string) { '.' !in text }

  /** No service is the beginning of another. */
  ghost predicate PrefixFree(services: set<string>) {
    "" !in services && forall a, b :: a in services && b in services && a <= b ==> a == b
  }

  function FirstDot(text: string): (i: nat)
    requires '.' in text
    ensures i < |text| && text[i] == '.' && forall j :: 0 <= j < i ==> text[j] != '.'
  {
    if text[0] == '.' then 0 else 1 + FirstDot(text[1..])
  }

  /** Where a service begins another, the rest of the longer keeps labels apart. */
  ghost predicate Spaced(services: set<string>) {
    && "" !in services
    && forall a, b :: a in services && b in services && a <= b && a != b ==> KeepsApart(services, b[|a|..])
  }

  /** It has a dot, and no label can begin right after its first dot. */
  predicate KeepsApart(services: set<string>, rest: string) {
    '.' in rest && forall s :: s in services ==> Apart(s, rest[FirstDot(rest) + 1..])
  }

  /** Neither text begins the other. */
  predicate Apart(a: string, b: string) {
    !(a <= b) && !(b <= a)
  }

  lemma PrefixFreeIsSpaced(services: set<string>)
    requires PrefixFree(services)
    ensures Spaced(services)
  {
  }

  ghost predicate Readable(services: set<string>, text: string) {
    exists p: Pair :: p.service in services && DotFree(p.key) && LabelOf(p) == text
  }

  ghost predicate AllReadable(services: set<string>, labels: seq<string>) {
    forall i :: 0 <= i < |labels| ==> Readable(services, labels[i])
  }

  /** What can come after a label: nothing, or a dot and another service. */
  ghost predicate Follows(services: set<string>, rest: string) {
    rest == "" || exists s, tail :: s in services && rest == "." + s + tail
  }

  lemma FollowsDot(services: set<string>, rest: string)
    requires Follows(services, rest)
    ensures rest == "" || rest[0] == '.'
  {
  }

  /** Two texts that begin with services, and go on with keys up to the next label or the end, agree in all. */
  lemma SameBeginning(services: set<string>, p: Pair, rest: string, q: Pair, more: string)
    requires Spaced(services) && p.service in services && q.service in services && DotFree(p.key) && DotFree(q.key)
    requires Follows(services, rest) && Follows(services, more)
    requires LabelOf(p) + rest == LabelOf(q) + more
    ensures p == q && rest == more
  {
    hide Spaced;
    var text := LabelOf(p) + rest;
    assert p.service == text[..|p.service|] && q.service == text[..|q.service|];
    FollowsDot(services, rest);
    FollowsDot(services, more);
    if |p.service| < |q.service| { NotShorter(services, p, rest, q, more); }
    if |q.service| < |p.service| { NotShorter(services, q, more, p, rest); }
    assert p.key + rest == text[|p.service|..] == q.key + more;
    SameKey(p.key, rest, q.key, more);
  }

  /** The text goes on with a key and its next label where the longer service goes on after its dot. */
  lemma NotShorter(services: set<string>, p: Pair, rest: string, q: Pair, more: string)
    requires p.service in services && q.service in services && DotFree(p.key)
    requires Follows(services, rest) && |p.service| < |q.service| && LabelOf(p) + rest == LabelOf(q) + more
    ensures !Spaced(services)
  {
    hide Follows;
    var c := q.service[|p.service|..];
    var text := LabelOf(p) + rest;
    assert p.service == text[..|p.service|] == q.service[..|p.service|];
    if '.' in c {
      assert p.key + rest == text[|p.service|..] == c + (q.key + more);
      var s := NextLabel(services, p.key, rest, c, q.key + more);
    }
  }

  lemma NextLabel(services: set<string>, key: string, rest: string, c: string, more: string) returns (s: string)
    requires DotFree(key) && Follows(services, rest) && '.' in c && key + rest == c + more
    ensures s in services && !Apart(s, c[FirstDot(c) + 1..])
  {
    var i, text := FirstDot(c), key + rest;
    assert text == c + more;
    assert forall j :: 0 <= j <= i ==> text[j] == c[j];
    assert forall j :: 0 <= j < |key| ==> text[j] == key[j] && key[j] in key;
    FollowsDot(services, rest);
    assert |key| <= i < |text| && text[|key|] == rest[0] == '.';
    var tail: string;
    s, tail :| s in services && rest == "." + s + tail;
    assert rest[1..] == s + tail;
    assert text[i + 1..] == rest[1..] && text[i + 1..] == c[i + 1..] + more;
    Comparable(s, tail, c[i + 1..], more);
  }

  lemma Comparable(a: string, rest: string, b: string, more: string)
    requires a + rest == b + more
    ensures !Apart(a, b)
  {
    var text := a + rest;
    assert a == text[..|a|] && b == text[..|b|];
  }

  lemma SameKey(key: string, rest: string, other: string, more: string)
    requires DotFree(key) && DotFree(other) && key + rest == other + more
    requires (rest == "" || rest[0] == '.') && (more == "" || more[0] == '.')
    ensures key == other && rest == more
  {
    var text := key + rest;
    if |key| < |other| { DotWithin(key, rest, other, more); }
    if |other| < |key| { DotWithin(other, more, key, rest); }
    assert key == text[..|key|] && rest == text[|key|..];
  }

  /** The longer of two beginnings has the dot that follows the shorter. */
  lemma DotWithin(key: string, rest: string, other: string, more: string)
    requires key + rest == other + more && |key| < |other| && (rest == "" || rest[0] == '.')
    ensures '.' in other
  {
    assert (key + rest)[|key|] == (other + more)[|key|];
    assert other[|key|] == '.';
  }

  /** What follows the first label. */
  function AfterFirst(xs: seq<string>): (rest: string)
    requires xs != []
    ensures Join(".", xs) == xs[0] + rest && (rest == "" || rest[0] == '.')
    ensures rest == "" <==> |xs| == 1
    ensures |xs| > 1 ==> rest == "." + Join(".", xs[1..])
  {
    if |xs| == 1 then "" else "." + Join(".", xs[1..])
  }

  lemma {:induction false} JoinReadsBack(services: set<string>, xs: seq<string>, ys: seq<string>)
    requires Spaced(services) && AllReadable(services, xs) && AllReadable(services, ys)
             && Join(".", xs) == Join(".", ys)
    ensures xs == ys
  {
    hide Join, Spaced, LabelOf, Follows;
    if xs == [] || ys == [] {
      EmptyText(services, xs);
      EmptyText(services, ys);
    } else {
      assert Readable(services, xs[0]) && Readable(services, ys[0]);
      var p: Pair :| p.service in services && DotFree(p.key) && LabelOf(p) == xs[0];
      var q: Pair :| q.service in services && DotFree(q.key) && LabelOf(q) == ys[0];
      NextFollows(services, xs);
      NextFollows(services, ys);
      SameBeginning(services, p, AfterFirst(xs), q, AfterFirst(ys));
      if |xs| > 1 {
        assert Join(".", xs[1..]) == AfterFirst(xs)[1..] == AfterFirst(ys)[1..] == Join(".", ys[1..]);
        JoinReadsBack(services, xs[1..], ys[1..]);
      }
      assert xs == [xs[0]] + xs[1..] && ys == [ys[0]] + ys[1..];
    }
  }

  lemma NextFollows(services: set<string>, xs: seq<string>)
    requires AllReadable(services, xs) && xs != []
    ensures Follows(services, AfterFirst(xs))
  {
    hide Follows, LabelOf, Join;
    if |xs| == 1 {
      NothingFollows(services);
    } else {
      assert xs[1..][0] == xs[1] && Readable(services, xs[1]);
      var p: Pair :| p.service in services && DotFree(p.key) && LabelOf(p) == xs[1];
      LabelFollows(services, p, AfterFirst(xs[1..]));
      assert Join(".", xs[1..]) == xs[1] + AfterFirst(xs[1..]);
    }
  }

  lemma NothingFollows(services: set<string>)
    ensures Follows(services, "")
  {
  }

  lemma LabelFollows(services: set<string>, p: Pair, rest: string)
    requires p.service in services
    ensures Follows(services, "." + (LabelOf(p) + rest))
  {
    assert "." + (LabelOf(p) + rest) == "." + p.service + (p.key + rest);
  }

  lemma EmptyText(services: set<string>, xs: seq<string>)
    requires Spaced(services) && AllReadable(services, xs)
    ensures Join(".", xs) == "" <==> xs == []
  {
    if xs != [] {
      assert Readable(services, xs[0]);
      var p: Pair :| p.service in services && DotFree(p.key) && LabelOf(p) == xs[0];
      assert xs[0] != "" && Join(".", xs) == xs[0] + AfterFirst(xs);
    }
  }

  /** Every requirement asks for one of the services, with a key without a dot. */
  ghost predicate AsksOnly(services: set<string>, reqs: seq<Requirement>) {
    forall i :: 0 <= i < |reqs| ==> reqs[i].service in services && DotFree(reqs[i].key)
  }

  lemma SortedReadable(services: set<string>, reqs: seq<Requirement>)
    requires AsksOnly(services, reqs)
    ensures AllReadable(services, Sort(Labels(reqs)))
  {
    hide Sort, DotFree;
    var labels, sorted := Labels(reqs), Sort(Labels(reqs));
    forall i | 0 <= i < |sorted| ensures Readable(services, sorted[i]) {
      var j := HasToo(sorted, labels, i);
      assert LabelOf(Pair(reqs[j].service, reqs[j].key)) == labels[j];
    }
  }

  lemma {:induction false} SameLabelsSamePairs(services: set<string>, reqs: seq<Requirement>, other: seq<Requirement>)
    requires Spaced(services) && AsksOnly(services, reqs) && AsksOnly(services, other)
    requires multiset(Labels(reqs)) == multiset(Labels(other))
    ensures multiset(Pairs(reqs)) == multiset(Pairs(other))
    decreases |reqs|
  {
    hide Without, Labels, Pairs, Spaced, DotFree;
    SameLength(Labels(reqs), Labels(other));
    if reqs == [] {
      assert other == [];
    } else {
      var j := HasToo(Labels(reqs), Labels(other), 0);
      SameBeginning(services, Pairs(reqs)[0], "", Pairs(other)[j], "");
      WithoutBoth(Labels(reqs), 0, Labels(other), j);
      PairsWithout(reqs, 0);
      PairsWithout(other, j);
      AsksWithout(services, reqs, 0);
      AsksWithout(services, other, j);
      SameLabelsSamePairs(services, Without(reqs, 0), Without(other, j));
      WithoutCounts(Pairs(reqs), 0);
      WithoutCounts(Pairs(other), j);
    }
  }

  lemma AsksWithout(services: set<string>, reqs: seq<Requirement>, j: nat)
    requires AsksOnly(services, reqs) && j < |reqs|
    ensures AsksOnly(services, Without(reqs, j))
  {
    hide DotFree;
  }

  /** Where keys have no dot and services are spaced, as they are when none begins another, the text tells apart any
      two lists that do not ask for the same keys of the same services. */
  lemma {:induction false} TextTellsApart(services: set<string>, reqs: seq<Requirement>, other: seq<Requirement>)
    requires Spaced(services) && AsksOnly(services, reqs) && AsksOnly(services, other)
    ensures RequirementsText(reqs) == RequirementsText(other) <==> multiset(Pairs(reqs)) == multiset(Pairs(other))
  {
    hide AsksOnly, Spaced, Sort, Labels, Pairs, Join;
    if RequirementsText(reqs) == RequirementsText(other) {
      SortedReadable(services, reqs);
      SortedReadable(services, other);
      JoinReadsBack(services, Sort(Labels(reqs)), Sort(Labels(other)));
      SameLabelsSamePairs(services, reqs, other);
    } else if multiset(Pairs(reqs)) == multiset(Pairs(other)) {
      PermutedLabels(reqs, other);
      SortedIsCanonical(Sort(Labels(reqs)), Sort(Labels(other)));
    }
  }

  /** No two lists that ask only for these services, with keys without a dot, have one text by accident. */
  ghost predicate ReadsBack(services: set<string>) {
    forall reqs, other ::
      AsksOnly(services, reqs) && AsksOnly(services, other) && RequirementsText(reqs) == RequirementsText(other) ==>
        multiset(Pairs(reqs)) == multiset(Pairs(other))
  }

  /** Of two services of which one begins the other, the shorter can ask with the rest of the longer as key. */
  lemma BeginningCollides(services: set<string>, a: string, b: string)
    requires a in services && b in services && a <= b && a != b && DotFree(b)
    ensures !ReadsBack(services)
  {
    hide Sort;
    var rest := b[|a|..];
    var reqs, other := [Requirement(rest, a, false)], [Requirement("", b, false)];
    assert DotFree(rest);
    assert a + rest == b && b + "" == b;
    assert Labels(reqs) == [b] && Labels(other) == [b];
    TextOf(reqs, [b]);
    TextOf(other, [b]);
    assert Pair(a, rest) in multiset(Pairs(reqs)) && Pair(a, rest) !in multiset(Pairs(other)) by {
      assert Pairs(reqs)[0] == Pair(a, rest);
      assert Pairs(other) == [Pair(b, "")];
    }
    assert AsksOnly(services, reqs) && AsksOnly(services, other) && RequirementsText(reqs) == RequirementsText(other);
  }

  /** A service without a name can ask for nothing at all, and its text is that of the empty list. */
  lemma NamelessCollides(services: set<string>)
    requires "" in services
    ensures !ReadsBack(services)
  {
    hide Sort;
    var other := [Requirement("", "", false)];
    assert Labels(other) == [""] && Labels([]) == [];
    TextOf(other, [""]);
    TextOf([], []);
    assert |multiset(Pairs(other))| == 1 && |multiset(Pairs([]))| == 0;
    assert AsksOnly(services, []) && AsksOnly(services, other) && RequirementsText([]) == RequirementsText(other);
  }

  /** Exactly when the text reads back, for services without dots: when none begins another. */
  lemma ReadsBackExactly(services: set<string>)
    requires forall s :: s in services ==> DotFree(s)
    ensures ReadsBack(services) <==> PrefixFree(services)
  {
    hide AsksOnly, DotFree, RequirementsText, Pairs, Spaced;
    if PrefixFree(services) {
      PrefixFreeIsSpaced(services);
      forall reqs, other | AsksOnly(services, reqs) && AsksOnly(services, other)
        && RequirementsText(reqs) == RequirementsText(other)
        ensures multiset(Pairs(reqs)) == multiset(Pairs(other))
      {
        TextTellsApart(services, reqs, other);
      }
    } else if "" in services {
      NamelessCollides(services);
    } else {
      var a, b :| a in services && b in services && a <= b && a != b;
      BeginningCollides(services, a, b);
    }
  }

  /** A service that begins another can do no harm. */
  lemma SpacedWithoutPrefixFree()
    ensures Spaced({"x", "x.y"}) && !PrefixFree({"x", "x.y"})
  {
    hide KeepsApart;
    assert "x" <= "x.y" && "x" in {"x", "x.y"} && "x.y" in {"x", "x.y"};
    forall a, b | a in {"x", "x.y"} && b in {"x", "x.y"} && a <= b && a != b
      ensures KeepsApart({"x", "x.y"}, b[|a|..])
    {
      OnlyPair(a, b);
      AfterDot();
    }
  }

  lemma OnlyPair(a: string, b: string)
    requires a in {"x", "x.y"} && b in {"x", "x.y"} && a <= b && a != b
    ensures a == "x" && b == "x.y"
  {
    assert |a| <= |b|;
  }

  lemma AfterDot()
    ensures KeepsApart({"x", "x.y"}, "x.y"[1..])
  {
    var c := "x.y"[1..];
    assert c == ".y" && c[0] == '.';
    assert FirstDot(c) == 0 && c[1..] == "y";
    assert "x"[0] != "y"[0] && "x.y"[0] != "y"[0];
  }

  /** The text of a list whose labels are in order already. */
  lemma TextOf(reqs: seq<Requirement>, labels: seq<string>)
    requires Labels(reqs) == labels && Sorted(labels)
    ensures RequirementsText(reqs) == Join(".", labels)
  {
    hide Sort, Labels, Below, Join;
    SortedIsCanonical(Sort(Labels(reqs)), labels);
  }

  /** Without prefix-free services different lists can have the same text. */
  lemma ServicesCollide()
    ensures RequirementsText([Requirement("c", "ab", false)]) == RequirementsText([Requirement("bc", "a", false)])
  {
    hide Sort;
    assert "ab" + "c" == "abc" == "a" + "bc";
    assert Labels([Requirement("c", "ab", false)]) == ["abc"] == Labels([Requirement("bc", "a", false)]);
    TextOf([Requirement("c", "ab", false)], ["abc"]);
    TextOf([Requirement("bc", "a", false)], ["abc"]);
  }

  /** Nor without keys that have no dot. */
  lemma KeysCollide()
    ensures PrefixFree({"a", "c"})
    ensures RequirementsText([Requirement("b.cd", "a", false)])
            == RequirementsText([Requirement("b", "a", false), Requirement("d", "c", false)])
  {
    hide Sort;
    assert "a" + "b.cd" == "ab.cd" && "a" + "b" == "ab" && "c" + "d" == "cd";
    assert Labels([Requirement("b.cd", "a", false)]) == ["ab.cd"];
    assert Labels([Requirement("b", "a", false), Requirement("d", "c", false)]) == ["ab", "cd"];
    TextOf([Requirement("b.cd", "a", false)], ["ab.cd"]);
    TextOf([Requirement("b", "a", false), Requirement("d", "c", false)], ["ab", "cd"]);
    assert Join(".", ["ab", "cd"]) == "ab" + "." + Join(".", ["cd"]);
  }
}
