/** Findings that share an id are one finding at every one of its locations. */
module Findings {
  datatype Location = Location(startLine: nat, endLine: nat)

  datatype Severity = Smoke | Fire | Inferno

  datatype Finding = Finding(id: string, file: string, locations: seq<Location>, rule: string, severity: Severity,
                             source: string, title: string, evidence: string)

  /* ----- Adding a location ----- */

  predicate Before(a: Location, b: Location) {
    a.startLine < b.startLine || (a.startLine == b.startLine && a.endLine <= b.endLine)
  }

  /** How many leading locations do not come after `x`. */
  function Place(sorted: seq<Location>, x: Location, from: nat): (k: nat)
    requires from <= |sorted|
    ensures from <= k <= |sorted|
    ensures forall j :: from <= j < k ==> !Before(x, sorted[j])
    ensures k < |sorted| ==> Before(x, sorted[k])
    decreases |sorted| - from
  {
    if from == |sorted| || Before(x, sorted[from]) then from else Place(sorted, x, from + 1)
  }

  function Insert(sorted: seq<Location>, x: Location): (r: seq<Location>)
    ensures multiset(r) == multiset(sorted) + multiset{x}
  {
    var k := Place(sorted, x, 0);
    assert sorted == sorted[..k] + sorted[k..];
    sorted[..k] + [x] + sorted[k..]
  }

  function SortAll(xs: seq<Location>): (r: seq<Location>)
    ensures multiset(r) == multiset(xs)
  {
    if xs == [] then []
    else
      var n := |xs| - 1;
      assert xs == xs[..n] + [xs[n]];
      Insert(SortAll(xs[..n]), xs[n])
  }

  ghost predicate Sorted(xs: seq<Location>) {
    forall i, j :: 0 <= i < j < |xs| ==> Before(xs[i], xs[j])
  }

  lemma InsertSorts(sorted: seq<Location>, x: Location)
    requires Sorted(sorted)
    ensures Sorted(Insert(sorted, x))
  {
    var k, r := Place(sorted, x, 0), Insert(sorted, x);
    forall i, j | 0 <= i < j < |r| ensures Before(r[i], r[j]) {
      assert r[i] == (if i < k then sorted[i] else if i == k then x else sorted[i - 1]);
      assert r[j] == (if j < k then sorted[j] else if j == k then x else sorted[j - 1]);
    }
  }

  lemma {:induction false} SortAllSorts(xs: seq<Location>)
    ensures Sorted(SortAll(xs))
  {
    if xs != [] {
      SortAllSorts(xs[..|xs| - 1]);
      InsertSorts(SortAll(xs[..|xs| - 1]), xs[|xs| - 1]);
    }
  }

  function AddLocation(locations: seq<Location>, x: Location): (r: seq<Location>)
    ensures forall y :: y in r <==> y in locations || y == x
  {
    if x in locations then locations
    else
      var r := SortAll(locations + [x]);
      assert forall y :: y in r <==> y in multiset(r);
      assert forall y :: y in locations + [x] <==> y in multiset(locations + [x]);
      r
  }

  function AddAll(locations: seq<Location>, more: seq<Location>): (r: seq<Location>)
    ensures forall y :: y in r <==> y in locations || y in more
    decreases |more|
  {
    if more == [] then locations else AddAll(AddLocation(locations, more[0]), more[1..])
  }

  /* ----- Coalescing ----- */

  function IndexOf(acc: seq<Finding>, id: string): (i: nat)
    ensures i <= |acc|
    ensures i < |acc| ==> acc[i].id == id
    ensures forall k :: 0 <= k < i ==> acc[k].id != id
  {
    if acc == [] then 0 else if acc[0].id == id then 0 else IndexOf(acc[1..], id) + 1
  }

  /** One more finding: its places join those of the first finding of that id. */
  function Merge(acc: seq<Finding>, f: Finding): seq<Finding> {
    var i := IndexOf(acc, f.id);
    if i == |acc| then acc + [f] else acc[i := acc[i].(locations := AddAll(acc[i].locations, f.locations))]
  }

  function Coalesce(findings: seq<Finding>): seq<Finding> {
    if findings == [] then [] else Merge(Coalesce(findings[..|findings| - 1]), findings[|findings| - 1])
  }

  ghost predicate HasPlace(findings: seq<Finding>, id: string, x: Location) {
    exists i :: 0 <= i < |findings| && findings[i].id == id && x in findings[i].locations
  }

  ghost predicate DistinctIds(findings: seq<Finding>) {
    forall i, j :: 0 <= i < j < |findings| ==> findings[i].id != findings[j].id
  }

  function Ids(findings: seq<Finding>): (r: seq<string>)
    ensures |r| == |findings|
  {
    seq(|findings|, i requires 0 <= i < |findings| => findings[i].id)
  }

  /** Each value where it is first seen. */
  function FirstSeen(xs: seq<string>): seq<string> {
    if xs == [] then []
    else
      var before, x := FirstSeen(xs[..|xs| - 1]), xs[|xs| - 1];
      if x in before then before else before + [x]
  }

  lemma MergeIds(acc: seq<Finding>, f: Finding)
    requires DistinctIds(acc)
    ensures DistinctIds(Merge(acc, f))
    ensures Ids(Merge(acc, f)) == if f.id in Ids(acc) then Ids(acc) else Ids(acc) + [f.id]
  {
    var i := IndexOf(acc, f.id);
    if i < |acc| {
      assert Ids(acc)[i] == f.id;
    } else {
      assert forall k :: 0 <= k < |acc| ==> Ids(acc)[k] != f.id;
    }
  }

  lemma MergePlaces(acc: seq<Finding>, f: Finding, id: string, x: Location)
    requires DistinctIds(acc)
    ensures HasPlace(Merge(acc, f), id, x) <==> HasPlace(acc, id, x) || (id == f.id && x in f.locations)
  {
    var i, out := IndexOf(acc, f.id), Merge(acc, f);
    if HasPlace(acc, id, x) {
      var k :| 0 <= k < |acc| && acc[k].id == id && x in acc[k].locations;
      assert out[k].id == id && x in out[k].locations;
    }
    if id == f.id && x in f.locations {
      assert out[i].id == id && x in out[i].locations;
    }
    if HasPlace(out, id, x) {
      var k :| 0 <= k < |out| && out[k].id == id && x in out[k].locations;
      if k < |acc| && k != i { assert acc[k] == out[k]; }
    }
  }

  /** The merged list names each id once, where it was first seen. */
  lemma {:induction false} CoalesceIds(findings: seq<Finding>)
    ensures DistinctIds(Coalesce(findings)) && Ids(Coalesce(findings)) == FirstSeen(Ids(findings))
  {
    if findings != [] {
      var before, f := findings[..|findings| - 1], findings[|findings| - 1];
      CoalesceIds(before);
      MergeIds(Coalesce(before), f);
      assert Ids(findings)[..|findings| - 1] == Ids(before);
    }
  }

  /** Nothing found is lost and nothing is added: the places of each id are the same. */
  lemma {:induction false} CoalescePlaces(findings: seq<Finding>, id: string, x: Location)
    ensures HasPlace(Coalesce(findings), id, x) <==> HasPlace(findings, id, x)
  {
    if findings != [] {
      var before, f := findings[..|findings| - 1], findings[|findings| - 1];
      CoalesceIds(before);
      CoalescePlaces(before, id, x);
      MergePlaces(Coalesce(before), f, id, x);
      if HasPlace(findings, id, x) && !(id == f.id && x in f.locations) {
        var k :| 0 <= k < |findings| && findings[k].id == id && x in findings[k].locations;
        assert before[k] == findings[k];
      }
      if HasPlace(before, id, x) {
        var k :| 0 <= k < |before| && before[k].id == id && x in before[k].locations;
        assert findings[k] == before[k];
      }
    }
  }

  /** A list without repeated ids is left alone; so coalescing twice is coalescing once. */
  lemma {:induction false} CoalesceDistinct(findings: seq<Finding>)
    requires DistinctIds(findings)
    ensures Coalesce(findings) == findings
  {
    if findings != [] {
      var before, f := findings[..|findings| - 1], findings[|findings| - 1];
      CoalesceDistinct(before);
      assert IndexOf(before, f.id) == |before|;
      assert findings == before + [f];
    }
  }

  lemma CoalesceIdempotent(findings: seq<Finding>)
    ensures Coalesce(Coalesce(findings)) == Coalesce(findings)
  {
    CoalesceIds(findings);
    CoalesceDistinct(Coalesce(findings));
  }

  /* ----- As it runs ----- */

  method AddLocationTo(locations: seq<Location>, x: Location) returns (r: seq<Location>)
    ensures r == AddLocation(locations, x)
  {
    if x in locations {
      return locations;
    }
    r := SortUnstable(locations + [x]);
  }

  method SortUnstable(xs: seq<Location>) returns (r: seq<Location>)
    ensures r == SortAll(xs)
  {
    hide Insert;
    r := [];
    for i := 0 to |xs|
      invariant r == SortAll(xs[..i])
    {
      assert xs[..i + 1][..i] == xs[..i] && xs[..i + 1][i] == xs[i];
      r := InsertInto(r, xs[i]);
    }
    assert xs[..|xs|] == xs;
  }

  method InsertInto(sorted: seq<Location>, x: Location) returns (r: seq<Location>)
    ensures r == Insert(sorted, x)
  {
    var k := 0;
    while k < |sorted| && !Before(x, sorted[k])
      invariant k <= |sorted| && Place(sorted, x, 0) == Place(sorted, x, k)
    {
      k := k + 1;
    }
    r := sorted[..k] + [x] + sorted[k..];
  }

  method AddEach(locations: seq<Location>, more: seq<Location>) returns (r: seq<Location>)
    ensures r == AddAll(locations, more)
  {
    hide AddLocation;
    r := locations;
    for l := 0 to |more|
      invariant AddAll(r, more[l..]) == AddAll(locations, more)
    {
      assert more[l..][0] == more[l] && more[l..][1..] == more[l + 1..];
      r := AddLocationTo(r, more[l]);
    }
    assert more[|more|..] == [];
  }

  /** The table of the findings seen so far, read in the order their ids came. */
  ghost predicate Reads(order: seq<string>, byId: map<string, Finding>, acc: seq<Finding>) {
    && |order| == |acc| && (forall i :: 0 <= i < |order| ==> order[i] in byId && byId[order[i]] == acc[i] && acc[i].id == order[i])
    && (forall id :: id in byId ==> id in order)
  }

  method CoalesceAll(findings: seq<Finding>) returns (r: seq<Finding>)
    ensures r == Coalesce(findings)
  {
    hide AddAll, AddLocation, Merge, DistinctIds;
    var order: seq<string> := [];
    var byId: map<string, Finding> := map[];
    for n := 0 to |findings|
      invariant Reads(order, byId, Coalesce(findings[..n]))
    {
      var f := findings[n];
      ghost var acc := Coalesce(findings[..n]);
      assert findings[..n + 1][..n] == findings[..n];
      CoalesceIds(findings[..n]);
      if f.id in byId {
        var locations := AddEach(byId[f.id].locations, f.locations);
        var existing := byId[f.id].(locations := locations);
        Joined(order, byId, acc, f, existing);
        byId := byId[f.id := existing];
      } else {
        Opened(order, byId, acc, f);
        order := order + [f.id];
        byId := byId[f.id := f];
      }
    }
    assert findings[..|findings|] == findings;
    r := [];
    for n := 0 to |order|
      invariant r == Coalesce(findings)[..n]
    {
      r := r + [byId[order[n]]];
    }
  }

  lemma Joined(order: seq<string>, byId: map<string, Finding>, acc: seq<Finding>, f: Finding, existing: Finding)
    requires Reads(order, byId, acc) && DistinctIds(acc) && f.id in byId
    requires existing == byId[f.id].(locations := AddAll(byId[f.id].locations, f.locations))
    ensures Reads(order, byId[f.id := existing], Merge(acc, f))
  {
    var k :| 0 <= k < |order| && order[k] == f.id;
    assert acc[k].id == f.id;
  }

  lemma Opened(order: seq<string>, byId: map<string, Finding>, acc: seq<Finding>, f: Finding)
    requires Reads(order, byId, acc) && f.id !in byId
    ensures Reads(order + [f.id], byId[f.id := f], Merge(acc, f))
  {
    assert forall i :: 0 <= i < |acc| ==> acc[i].id != f.id;
    assert (order + [f.id])[|order|] == f.id;
  }
}
