/** Display titles of workspaces: rows that share a stored title are told apart by a number. */
module WorkspaceTitles {
  import opened Basics

  datatype Workspace = Workspace(id: string, title: string)

  function Candidate(title: string, number: nat): string {
    title + " " + Decimal(number)
  }

  lemma CandidatesApart(title: string, a: nat, b: nat)
    requires Candidate(title, a) == Candidate(title, b)
    ensures a == b
  {
    var s := Candidate(title, a);
    assert s[|title| + 1..] == Decimal(a) && s[|title| + 1..] == Decimal(b);
    DecimalInjective(a, b);
  }

  ghost predicate IsCandidate(c: string, title: string, from: nat) {
    exists m: nat :: m >= from && c == Candidate(title, m)
  }

  /** The held titles a numbering that has reached `from` may still run into. */
  ghost function Ahead(held: set<string>, title: string, from: nat): set<string> {
    set c | c in held && IsCandidate(c, title, from)
  }

  lemma AheadShrinks(held: set<string>, title: string, from: nat)
    requires Candidate(title, from) in held
    ensures Ahead(held, title, from + 1) < Ahead(held, title, from)
  {
    var c := Candidate(title, from);
    assert IsCandidate(c, title, from);
    if IsCandidate(c, title, from + 1) {
      var m: nat :| m >= from + 1 && c == Candidate(title, m);
      CandidatesApart(title, from, m);
    }
    forall d | d in Ahead(held, title, from + 1) ensures d in Ahead(held, title, from) {
      var m: nat :| m >= from + 1 && d == Candidate(title, m);
      assert IsCandidate(d, title, from);
    }
    assert c in Ahead(held, title, from) && c !in Ahead(held, title, from + 1);
  }

  /** The first number from `from` on whose title nobody holds. */
  method FreeNumber(held: set<string>, title: string, from: nat) returns (number: nat)
    ensures number >= from && Candidate(title, number) !in held
    ensures forall m :: from <= m < number ==> Candidate(title, m) in held
  {
    number := from;
    while Candidate(title, number) in held
      invariant number >= from && forall m :: from <= m < number ==> Candidate(title, m) in held
      decreases Ahead(held, title, number)
    {
      AheadShrinks(held, title, number);
      number := number + 1;
    }
  }

  predicate DistinctIds(ws: seq<Workspace>) {
    forall i, j :: 0 <= i < j < |ws| ==> ws[i].id != ws[j].id
  }

  /** No earlier row stores this row's title. */
  predicate IsFirst(ws: seq<Workspace>, i: nat)
    requires i < |ws|
  {
    forall k :: 0 <= k < i ==> ws[k].title != ws[i].title
  }

  predicate IsStored(ws: seq<Workspace>, title: string) {
    exists k :: 0 <= k < |ws| && ws[k].title == title
  }

  /** A row shows its own title when it is the first with it, and otherwise that title with
      a number from two on, which no row stores. */
  ghost predicate Shows(ws: seq<Workspace>, i: nat, shown: string)
    requires i < |ws|
  {
    if IsFirst(ws, i) then shown == ws[i].title
    else IsCandidate(shown, ws[i].title, 2) && !IsStored(ws, shown)
  }

  /** Every smaller number was taken, by a stored title or by an earlier row. */
  ghost predicate Least(ws: seq<Workspace>, before: seq<string>, title: string, c: string) {
    exists n: nat :: n >= 2 && c == Candidate(title, n) && Taken(ws, before, title, n)
  }

  ghost predicate Taken(ws: seq<Workspace>, before: seq<string>, title: string, n: nat) {
    forall m :: 2 <= m < n ==> IsStored(ws, Candidate(title, m)) || Candidate(title, m) in before
  }

  ghost predicate Numbered(ws: seq<Workspace>, shown: seq<string>) {
    && |shown| <= |ws|
    && (forall i :: 0 <= i < |shown| ==> Shows(ws, i, shown[i]))
    && (forall i :: 0 <= i < |shown| && !IsFirst(ws, i) ==> Least(ws, shown[..i], ws[i].title, shown[i]))
    && (forall i, j :: 0 <= i < j < |shown| ==> shown[i] != shown[j])
  }

  lemma FirstShows(ws: seq<Workspace>, shown: seq<string>)
    requires Numbered(ws, shown) && |shown| < |ws| && IsFirst(ws, |shown|)
    ensures Numbered(ws, shown + [ws[|shown|].title])
  {
    var i := |shown|;
    assert IsStored(ws, ws[i].title);
    forall k | 0 <= k < i ensures shown[k] != ws[i].title {
      assert Shows(ws, k, shown[k]);
    }
    assert forall k :: 0 <= k < i ==> (shown + [ws[i].title])[..k] == shown[..k];
  }

  lemma LaterShows(ws: seq<Workspace>, shown: seq<string>, c: string)
    requires Numbered(ws, shown) && |shown| < |ws| && !IsFirst(ws, |shown|)
    requires Least(ws, shown, ws[|shown|].title, c) && !IsStored(ws, c) && c !in shown
    ensures Numbered(ws, shown + [c])
  {
    assert (shown + [c])[..|shown|] == shown;
    assert forall k :: 0 <= k < |shown| ==> (shown + [c])[..k] == shown[..k];
  }

  /** The numbers a title has used up so far. */
  ghost predicate Used(held: set<string>, seen: map<string, nat>) {
    forall t, m :: t in seen && 2 <= m <= seen[t] ==> Candidate(t, m) in held
  }

  lemma LeastFree(ws: seq<Workspace>, shown: seq<string>, held: set<string>, seen: map<string, nat>, title: string, number: nat)
    requires Used(held, seen) && title in seen && seen[title] + 1 <= number && number >= 2
    requires forall m :: seen[title] + 1 <= m < number ==> Candidate(title, m) in held
    requires forall t :: t in held <==> IsStored(ws, t) || t in shown
    ensures Least(ws, shown, title, Candidate(title, number))
    ensures Used(held + {Candidate(title, number)}, seen[title := seen[title] + 1])
  {
    forall m | 2 <= m < number ensures IsStored(ws, Candidate(title, m)) || Candidate(title, m) in shown {
      assert Candidate(title, m) in held;
    }
    assert Taken(ws, shown, title, number);
  }

  /** How often each title was met in the first `i` rows. */
  ghost predicate Seen(ws: seq<Workspace>, i: nat, seen: map<string, nat>)
    requires i <= |ws|
  {
    && (forall k :: 0 <= k < i ==> ws[k].title in seen)
    && (forall t :: t in seen ==> seen[t] >= 1 && exists k :: 0 <= k < i && ws[k].title == t)
  }

  /** With distinct ids all displayed titles are distinct, and the first row of each stored
      title keeps it. */
  method WorkspaceDisplayTitles(ws: seq<Workspace>) returns (titles: map<string, string>, ghost shown: seq<string>)
    ensures |shown| == |ws| && Numbered(ws, shown)
    ensures forall i :: 0 <= i < |ws| ==> ws[i].id in titles
    ensures DistinctIds(ws) ==> forall i :: 0 <= i < |ws| ==> titles[ws[i].id] == shown[i]
    ensures DistinctIds(ws) ==> forall i :: 0 <= i < |ws| ==> Shows(ws, i, titles[ws[i].id])
    ensures DistinctIds(ws) ==> forall i, j :: 0 <= i < j < |ws| ==> titles[ws[i].id] != titles[ws[j].id]
  {
    hide Numbered, Seen, Shows, IsFirst, Least, Used, Candidate;
    var held := StoredTitles(ws);
    var seen: map<string, nat> := map[];
    titles := map[];
    shown := [];
    NothingYet(ws, held);
    for i := 0 to |ws|
      invariant |shown| == i && Numbered(ws, shown) && Seen(ws, i, seen) && Used(held, seen)
      invariant forall t :: t in held <==> IsStored(ws, t) || t in shown
      invariant forall k :: 0 <= k < i ==> ws[k].id in titles
      invariant DistinctIds(ws) ==> forall k :: 0 <= k < i ==> titles[ws[k].id] == shown[k]
    {
      var w := ws[i];
      SeenBefore(ws, i, seen);
      var nth := (if w.title in seen then seen[w.title] else 0) + 1;
      SeenNext(ws, i, seen, nth);
      ghost var before := seen;
      seen := seen[w.title := nth];
      if nth == 1 {
        FirstShows(ws, shown);
        UsedFirst(held, before, w.title);
        assert IsStored(ws, w.title);
        titles := titles[w.id := w.title];
        shown := shown + [w.title];
      } else {
        var number := FreeNumber(held, w.title, nth);
        var candidate := Candidate(w.title, number);
        LeastFree(ws, shown, held, before, w.title, number);
        LaterShows(ws, shown, candidate);
        held := held + {candidate};
        titles := titles[w.id := candidate];
        shown := shown + [candidate];
      }
    }
    AllShown(ws, shown);
  }

  lemma NothingYet(ws: seq<Workspace>, held: set<string>)
    ensures Numbered(ws, []) && Seen(ws, 0, map[]) && Used(held, map[])
  {
  }

  lemma UsedFirst(held: set<string>, seen: map<string, nat>, title: string)
    requires Used(held, seen) && title !in seen
    ensures Used(held, seen[title := 1])
  {
  }

  lemma SeenBefore(ws: seq<Workspace>, i: nat, seen: map<string, nat>)
    requires i < |ws| && Seen(ws, i, seen)
    ensures ws[i].title in seen <==> !IsFirst(ws, i)
    ensures ws[i].title in seen ==> seen[ws[i].title] >= 1
  {
  }

  lemma SeenNext(ws: seq<Workspace>, i: nat, seen: map<string, nat>, n: nat)
    requires i < |ws| && Seen(ws, i, seen) && n >= 1
    ensures Seen(ws, i + 1, seen[ws[i].title := n])
  {
    forall t | t in seen && t != ws[i].title ensures exists k :: 0 <= k < i + 1 && ws[k].title == t {
      var k :| 0 <= k < i && ws[k].title == t;
    }
  }

  lemma AllShown(ws: seq<Workspace>, shown: seq<string>)
    requires Numbered(ws, shown) && |shown| == |ws|
    ensures forall i :: 0 <= i < |ws| ==> Shows(ws, i, shown[i])
    ensures forall i, j :: 0 <= i < j < |ws| ==> shown[i] != shown[j]
  {
  }

  method StoredTitles(ws: seq<Workspace>) returns (held: set<string>)
    ensures forall t :: t in held <==> IsStored(ws, t)
  {
    held := {};
    for i := 0 to |ws|
      invariant forall t :: t in held <==> exists k :: 0 <= k < i && ws[k].title == t
    {
      held := held + {ws[i].title};
    }
  }
}
