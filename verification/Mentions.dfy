/** Mentions in a comment tree (komment/graphql/mutations/comment.py): a deep copy that collects every
    node of kind MENTION on the way. */
module Mentions {

  datatype Entry = Entry(key: string, value: Json)

  /** Nested lists and dictionaries; a dictionary keeps the order of its keys. */
  datatype Json = Text(text: string) | Scalar(text: string) | List(items: seq<Json>) | Dict(entries: seq<Entry>)

  function Size(v: Json): nat {
    match v
    case List(items) => |items|
    case Dict(entries) => |entries|
    case _ => 0
  }

  function Kid(v: Json, i: int): (r: Json)
    requires 0 <= i < Size(v)
    ensures r < v
  {
    if v.List? then v.items[i] else v.entries[i].value
  }

  /** A dictionary has each key once. */
  predicate WellFormed(v: Json) {
    && (v.Dict? ==> forall i, j :: 0 <= i < j < |v.entries| ==> v.entries[i].key != v.entries[j].key)
    && forall i :: 0 <= i < Size(v) ==> WellFormed(Kid(v, i))
  }

  // ---- Where the mentions are -------------------------------------------------------------------------------------

  /** The way down to a row of a dictionary: positions, from the root. */
  type Path = seq<nat>

  /** Row `i` of the dictionary says that it is a mention. */
  predicate SaysMention(v: Json, i: int) {
    v.Dict? && 0 <= i < |v.entries| && v.entries[i] == Entry("kind", Text("MENTION"))
  }

  /** The path ends at a row that says mention. */
  predicate IsSpot(v: Json, p: Path)
    decreases |p|
  {
    p != [] && p[0] < Size(v) && if |p| == 1 then SaysMention(v, p[0]) else IsSpot(Kid(v, p[0]), p[1..])
  }

  /** The dictionary whose row a path ends at. */
  function Node(v: Json, p: Path): Json
    decreases |p|
  {
    if |p| <= 1 || p[0] >= Size(v) then v else Node(Kid(v, p[0]), p[1..])
  }

  /** Order of traversal: by the first position where two paths differ. */
  predicate Before(p: Path, q: Path)
    decreases |p|
  {
    q != [] && (p == [] || p[0] < q[0] || (p[0] == q[0] && Before(p[1..], q[1..])))
  }

  predicate InOrder(ps: seq<Path>) {
    forall i, j :: 0 <= i < j < |ps| ==> Before(ps[i], ps[j])
  }

  // ---- The traversal as a function --------------------------------------------------------------------------------

  function Below(i: nat, ps: seq<Path>): (r: seq<Path>)
    ensures |r| == |ps| && forall k :: 0 <= k < |ps| ==> r[k] == [i] + ps[k]
  {
    seq(|ps|, k requires 0 <= k < |ps| => [i] + ps[k])
  }

  /** What the first `n` rows contribute: each itself, when it says mention, and then what lies below it. */
  function SpotsUpTo(v: Json, n: nat): (r: seq<Path>)
    requires n <= Size(v)
    ensures forall k :: 0 <= k < |r| ==> r[k] != []
    decreases v, n
  {
    if n == 0 then []
    else SpotsUpTo(v, n - 1) + Here(v, n - 1) + Below(n - 1, Spots(Kid(v, n - 1)))
  }

  function Spots(v: Json): (r: seq<Path>)
    ensures forall k :: 0 <= k < |r| ==> r[k] != []
    decreases v, Size(v) + 1
  {
    SpotsUpTo(v, Size(v))
  }

  function Nodes(v: Json, ps: seq<Path>): (r: seq<Json>)
    ensures |r| == |ps| && forall k :: 0 <= k < |ps| ==> r[k] == Node(v, ps[k])
  {
    seq(|ps|, k requires 0 <= k < |ps| => Node(v, ps[k]))
  }

  /** Below row `i` a path is a spot exactly when its rest is one of the row's value. */
  lemma SpotBelow(v: Json, i: nat, q: Path)
    requires i < Size(v) && q != []
    ensures IsSpot(v, [i] + q) <==> IsSpot(Kid(v, i), q)
    ensures Node(v, [i] + q) == Node(Kid(v, i), q)
  {
    assert ([i] + q)[1..] == q;
  }

  lemma BelowFinds(v: Json, i: nat, ps: seq<Path>)
    requires i < Size(v) && (forall q :: q in ps <==> IsSpot(Kid(v, i), q)) && forall k :: 0 <= k < |ps| ==> ps[k] != []
    ensures forall p :: p in Below(i, ps) <==> |p| > 1 && p[0] == i && IsSpot(v, p)
  {
    forall p ensures p in Below(i, ps) <==> |p| > 1 && p[0] == i && IsSpot(v, p) {
      if p in Below(i, ps) {
        var k :| 0 <= k < |ps| && [i] + ps[k] == p;
        SpotBelow(v, i, ps[k]);
      }
      if |p| > 1 && p[0] == i && IsSpot(v, p) {
        assert p == [i] + p[1..];
        SpotBelow(v, i, p[1..]);
        var k :| 0 <= k < |ps| && ps[k] == p[1..];
        assert Below(i, ps)[k] == p;
      }
    }
  }

  lemma BelowInOrder(i: nat, ps: seq<Path>)
    requires InOrder(ps)
    ensures InOrder(Below(i, ps))
  {
    forall j, k | 0 <= j < k < |ps| ensures Before([i] + ps[j], [i] + ps[k]) {
      assert ([i] + ps[j])[1..] == ps[j] && ([i] + ps[k])[1..] == ps[k];
    }
  }

  ghost predicate Finds(v: Json, ps: seq<Path>, n: int) {
    forall p :: p in ps <==> p != [] && p[0] < n && IsSpot(v, p)
  }

  function Here(v: Json, i: nat): seq<Path> {
    if SaysMention(v, i) then [[i]] else []
  }

  lemma FindsMore(v: Json, i: nat, before: seq<Path>, below: seq<Path>)
    requires i < Size(v) && Finds(v, before, i)
    requires forall p :: p in below <==> |p| > 1 && p[0] == i && IsSpot(v, p)
    ensures Finds(v, before + Here(v, i) + below, i + 1)
  {
    hide IsSpot;
    forall p ensures p in before + Here(v, i) + below <==> p != [] && p[0] < i + 1 && IsSpot(v, p) {
      RowSpot(v, i, p);
      assert p in before + Here(v, i) + below <==> p in before || p in Here(v, i) || p in below;
    }
  }

  /** A spot of row `i` is the row itself or lies below it. */
  lemma RowSpot(v: Json, i: nat, p: Path)
    requires i < Size(v)
    ensures |p| == 1 && p[0] == i ==> (IsSpot(v, p) <==> SaysMention(v, i))
    ensures |p| == 1 && p[0] == i ==> p == [i]
  {
  }

  /** The spots of the first `n` rows: all of them, each once, in the order of traversal. */
  lemma {:induction false} SpotsExactly(v: Json, n: nat)
    requires n <= Size(v)
    ensures Finds(v, SpotsUpTo(v, n), n) && InOrder(SpotsUpTo(v, n))
    decreases v, n
  {
    hide *;
    if n == 0 {
      NoSpots(v);
      NoRows(v);
    } else {
      var i := n - 1;
      SpotsExactly(v, i);
      AllSpots(Kid(v, i));
      RowsSplit(v, i);
      RowAdded(v, i, SpotsUpTo(v, i), Spots(Kid(v, i)));
    }
  }

  lemma NoRows(v: Json)
    ensures SpotsUpTo(v, 0) == []
  {
  }

  lemma RowsSplit(v: Json, i: nat)
    requires i < Size(v)
    ensures SpotsUpTo(v, i + 1) == SpotsUpTo(v, i) + Here(v, i) + Below(i, Spots(Kid(v, i)))
  {
    hide Spots, Here, Below;
  }

  lemma RowAdded(v: Json, i: nat, before: seq<Path>, kid: seq<Path>)
    requires i < Size(v) && Finds(v, before, i) && InOrder(before)
    requires InOrder(kid) && (forall p :: p in kid <==> IsSpot(Kid(v, i), p)) && forall k :: 0 <= k < |kid| ==>
             kid[k] != []
    ensures Finds(v, before + Here(v, i) + Below(i, kid), i + 1) && InOrder(before + Here(v, i) + Below(i, kid))
  {
    hide IsSpot, Before, InOrder, Finds, SaysMention, Below;
    BelowFinds(v, i, kid);
    BelowInOrder(i, kid);
    FindsMore(v, i, before, Below(i, kid));
    FoundBelow(v, before, i);
    Ordered(before, Here(v, i), Below(i, kid), i);
  }

  lemma FoundBelow(v: Json, ps: seq<Path>, n: int)
    requires Finds(v, ps, n)
    ensures forall p :: p in ps ==> p != [] && p[0] < n
  {
  }

  lemma NoSpots(v: Json)
    ensures Finds(v, [], 0) && InOrder([])
  {
  }

  lemma Ordered(before: seq<Path>, here: seq<Path>, below: seq<Path>, i: nat)
    requires InOrder(before) && InOrder(below) && (here == [] || here == [[i]])
    requires forall p :: p in before ==> p != [] && p[0] < i
    requires forall p :: p in below ==> |p| > 1 && p[0] == i
    ensures InOrder(before + here + below)
  {
    var all := before + here + below;
    forall j, k | 0 <= j < k < |all| ensures Before(all[j], all[k]) {
      if k < |before| {
        assert all[j] == before[j] && all[k] == before[k];
      } else if j < |before| {
        assert all[j] in before;
        assert all[k] in here || all[k] in below;
      } else if j < |before| + |here| {
        assert all[j] == [i] && all[k] in below;
        assert all[j][1..] == [];
      } else {
        assert all[j] == below[j - |before| - |here|] && all[k] == below[k - |before| - |here|];
      }
    }
  }

  lemma {:induction false} AllSpots(v: Json)
    ensures forall p :: p in Spots(v) <==> IsSpot(v, p)
    ensures InOrder(Spots(v))
    decreases v, Size(v) + 1
  {
    hide Before, InOrder;
    SpotsExactly(v, Size(v));
  }

  // ---- The traversal as it runs -----------------------------------------------------------------------------------

  /** `nulled_obj[key] = value`. */
  function Assign(entries: seq<Entry>, key: string, value: Json): seq<Entry> {
    if entries == [] then [Entry(key, value)]
    else if entries[0].key == key then [Entry(key, value)] + entries[1..]
    else [entries[0]] + Assign(entries[1..], key, value)
  }

  lemma {:induction false} AssignNew(entries: seq<Entry>, key: string, value: Json)
    requires forall i :: 0 <= i < |entries| ==> entries[i].key != key
    ensures Assign(entries, key, value) == entries + [Entry(key, value)]
  {
    if entries != [] {
      AssignNew(entries[1..], key, value);
      assert entries == [entries[0]] + entries[1..];
    }
  }

  lemma NextNodes(v: Json, n: nat)
    requires n < Size(v)
    ensures Nodes(v, SpotsUpTo(v, n + 1))
            == Nodes(v, SpotsUpTo(v, n)) + (if SaysMention(v, n) then [v] else []) + Nodes(Kid(v, n), Spots(Kid(v, n)))
  {
    var ps := Spots(Kid(v, n));
    forall k | 0 <= k < |ps| ensures Node(v, Below(n, ps)[k]) == Node(Kid(v, n), ps[k]) {
      SpotBelow(v, n, ps[k]);
    }
    assert Nodes(v, Below(n, ps)) == Nodes(Kid(v, n), ps);
    assert SaysMention(v, n) ==> Nodes(v, [[n]]) == [v];
  }

  /** The walk, with the list that the inner recursion appends to. */
  class Walk {
    var mentions: seq<Json>

    constructor ()
      ensures mentions == []
    {
      mentions := [];
    }

    /** `recurse_extract`: an equal copy, and the nodes of the spots in the order of traversal. */
    method RecurseExtract(obj: Json) returns (copy: Json)
      requires WellFormed(obj)
      modifies this
      ensures copy == obj
      ensures mentions == old(mentions) + Nodes(obj, Spots(obj))
      decreases obj, 1
    {
      hide Spots, Nodes;
      match obj {
        case List(_) =>
          copy := ExtractList(obj);
        case Dict(_) =>
          copy := ExtractDict(obj);
        case _ =>
          NoNodes(obj);
          SpotsAre(obj);
          copy := obj;
      }
    }

    method ExtractList(obj: Json) returns (copy: Json)
      requires obj.List? && WellFormed(obj)
      modifies this
      ensures copy == obj
      ensures mentions == old(mentions) + Nodes(obj, Spots(obj))
      decreases obj, 0
    {
      hide Spots, Nodes, SpotsUpTo, WellFormed;
      ghost var found := mentions;
      NoNodes(obj);
      var nulled: seq<Json> := [];
      for i := 0 to |obj.items|
        invariant nulled == obj.items[..i]
        invariant mentions == found + Nodes(obj, SpotsUpTo(obj, i))
      {
        NextNodes(obj, i);
        ItemWellFormed(obj, i);
        var value := RecurseExtract(Kid(obj, i));
        nulled := nulled + [value];
      }
      SpotsAre(obj);
      return List(nulled);
    }

    method ExtractDict(obj: Json) returns (copy: Json)
      requires obj.Dict? && WellFormed(obj)
      modifies this
      ensures copy == obj
      ensures mentions == old(mentions) + Nodes(obj, Spots(obj))
      decreases obj, 0
    {
      hide Spots, Nodes, SpotsUpTo, WellFormed, Assign;
      ghost var found := mentions;
      NoNodes(obj);
      var nulled: seq<Entry> := [];
      for i := 0 to |obj.entries|
        invariant nulled == obj.entries[..i]
        invariant mentions == found + Nodes(obj, SpotsUpTo(obj, i))
      {
        NextNodes(obj, i);
        DictRow(obj, i);
        var key := obj.entries[i].key;
        if key == "kind" && obj.entries[i].value == Text("MENTION") {
          mentions := mentions + [obj];
        }
        var value := RecurseExtract(Kid(obj, i));
        AssignNew(nulled, key, value);
        nulled := Assign(nulled, key, value);
      }
      SpotsAre(obj);
      return Dict(nulled);
    }
  }

  lemma ItemWellFormed(v: Json, i: nat)
    requires WellFormed(v) && i < Size(v)
    ensures WellFormed(Kid(v, i))
  {
  }

  lemma DictRow(v: Json, i: nat)
    requires WellFormed(v) && v.Dict? && i < |v.entries|
    ensures WellFormed(Kid(v, i))
    ensures forall j :: 0 <= j < i ==> v.entries[..i][j].key != v.entries[i].key
  {
  }

  lemma NoNodes(v: Json)
    ensures Nodes(v, SpotsUpTo(v, 0)) == []
  {
  }

  lemma SpotsAre(v: Json)
    ensures Spots(v) == SpotsUpTo(v, Size(v))
  {
  }

  /** `recurse_parse_decendents`. */
  method ParseDescendants(variables: seq<Json>) returns (copy: Json, mentions: seq<Json>)
    requires forall i :: 0 <= i < |variables| ==> WellFormed(variables[i])
    ensures copy == List(variables)
    ensures mentions == Nodes(List(variables), Spots(List(variables)))
  {
    hide Spots, Nodes;
    var walk := new Walk();
    copy := walk.RecurseExtract(List(variables));
    mentions := walk.mentions;
    assert [] + Nodes(List(variables), Spots(List(variables))) == Nodes(List(variables), Spots(List(variables)));
  }

  /** Each mention that is collected is a node of kind MENTION of the tree; every such node is collected,
      once, and in the order of traversal of its row. */
  lemma {:induction false} MentionsExactly(v: Json)
    ensures var ps, ms := Spots(v), Nodes(v, Spots(v));
            && |ms| == |ps| && InOrder(ps)
            && (forall k :: 0 <= k < |ps| ==> IsSpot(v, ps[k]) && ms[k] == Node(v, ps[k]))
            && (forall p :: IsSpot(v, p) ==> exists k :: 0 <= k < |ps| && ps[k] == p)
            && (forall j, k :: 0 <= j < k < |ps| ==> ps[j] != ps[k])
  {
    hide IsSpot, Spots;
    AllSpots(v);
    forall j, k | 0 <= j < k < |Spots(v)| ensures Spots(v)[j] != Spots(v)[k] {
      NotBeforeItself(Spots(v)[j]);
    }
    forall k | 0 <= k < |Spots(v)| ensures IsSpot(v, Spots(v)[k]) {
      assert Spots(v)[k] in Spots(v);
    }
  }

  lemma {:induction false} NotBeforeItself(p: Path)
    ensures !Before(p, p)
    decreases |p|
  {
    if p != [] { NotBeforeItself(p[1..]); }
  }

  function Parent(p: Path): Path
    requires p != []
  {
    p[..|p| - 1]
  }

  lemma {:induction false} ParentsInOrder(p: Path, q: Path)
    requires p != [] && q != [] && p[|p| - 1] == 0 && q[|q| - 1] == 0 && Before(p, q)
    ensures Before(Parent(p), Parent(q))
    decreases |p|
  {
    NotBeforeFirst(p, q);
    if |p| > 1 && p[0] == q[0] {
      assert Parent(p)[1..] == Parent(p[1..]) && Parent(q)[1..] == Parent(q[1..]);
      ParentsInOrder(p[1..], q[1..]);
    }
  }

  lemma NotBeforeFirst(p: Path, q: Path)
    ensures p != [] && |q| == 1 && q[0] == 0 ==> !Before(p, q)
  {
  }

  /** Where every mention says so in its first row, the mentions come in pre-order: a node before what lies
      below it, and below one node in the order of its rows. */
  lemma {:induction false} PreOrderWhenKindFirst(v: Json)
    requires forall p :: IsSpot(v, p) ==> p != [] && p[|p| - 1] == 0
    ensures var ps := Spots(v);
            forall j, k :: 0 <= j < k < |ps| ==> ps[j] != [] && ps[k] != [] && Before(Parent(ps[j]), Parent(ps[k]))
  {
    hide IsSpot, Spots;
    AllSpots(v);
    var ps := Spots(v);
    forall j, k | 0 <= j < k < |ps| ensures ps[j] != [] && ps[k] != [] && Before(Parent(ps[j]), Parent(ps[k])) {
      assert ps[j] in ps && ps[k] in ps;
      ParentsInOrder(ps[j], ps[k]);
    }
  }
}
