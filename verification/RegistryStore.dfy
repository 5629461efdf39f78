/** The registry as the module state its functions update. */
module RegistryStore {
  import opened Basics
  import opened Registry

  ghost predicate ByView(ids: seq<string>, entries: map<string, Entry>) {
    && (forall i :: 0 <= i < |ids| ==> ids[i] in entries)
    && forall i, j :: 0 <= i < j < |ids| ==> entries[ids[i]].lastViewedAt < entries[ids[j]].lastViewedAt
  }

  /** `ids` are the evictable ids, oldest-viewed first. */
  ghost predicate Lists(ids: seq<string>, entries: map<string, Entry>) {
    ByView(ids, entries) && forall id :: id in ids <==> id in EvictableIds(entries)
  }

  method IdleByView(entries: map<string, Entry>) returns (ids: seq<string>)
    requires forall id, other :: id in entries && other in entries && id != other ==> entries[id].lastViewedAt != entries[other].lastViewedAt
    ensures Lists(ids, entries)
  {
    ids := [];
    var rest := entries.Keys;
    while rest != {}
      invariant rest <= entries.Keys && ByView(ids, entries)
      invariant forall id :: id in ids <==> id in EvictableIds(entries) && id !in rest
      decreases rest
    {
      var id :| id in rest;
      rest := rest - {id};
      if Evictable(entries[id]) {
        ids := Insert(ids, id, entries);
      }
    }
  }

  /** One step of the sort: `id` goes before the first id viewed later. */
  method Insert(ids: seq<string>, id: string, entries: map<string, Entry>) returns (r: seq<string>)
    requires ByView(ids, entries) && id in entries
    requires forall other :: other in ids ==> entries[other].lastViewedAt != entries[id].lastViewedAt
    ensures ByView(r, entries)
    ensures forall x :: x in r <==> x in ids || x == id
  {
    var k := |ids|;
    while k > 0 && entries[ids[k - 1]].lastViewedAt > entries[id].lastViewedAt
      invariant 0 <= k <= |ids|
      invariant forall j :: k <= j < |ids| ==> entries[ids[j]].lastViewedAt > entries[id].lastViewedAt
    {
      k := k - 1;
    }
    assert k > 0 ==> ids[k - 1] in ids;
    r := ids[..k] + [id] + ids[k..];
    InsertedOrder(ids, k, id, entries);
    InsertedMembers(ids, k, id);
  }

  lemma InsertedOrder(ids: seq<string>, k: nat, id: string, entries: map<string, Entry>)
    requires ByView(ids, entries) && id in entries && k <= |ids|
    requires forall j :: k <= j < |ids| ==> entries[ids[j]].lastViewedAt > entries[id].lastViewedAt
    requires k > 0 ==> entries[ids[k - 1]].lastViewedAt < entries[id].lastViewedAt
    ensures ByView(ids[..k] + [id] + ids[k..], entries)
  {
    var r := ids[..k] + [id] + ids[k..];
    assert forall j :: 0 <= j < k ==> entries[ids[j]].lastViewedAt < entries[id].lastViewedAt;
    forall i, j | 0 <= i < j < |r| ensures r[i] in entries && r[j] in entries && entries[r[i]].lastViewedAt < entries[r[j]].lastViewedAt {
    }
    assert r[k] == id;
  }

  lemma InsertedMembers(ids: seq<string>, k: nat, id: string)
    requires k <= |ids|
    ensures forall x :: x in ids[..k] + [id] + ids[k..] <==> x in ids || x == id
  {
    var r := ids[..k] + [id] + ids[k..];
    assert r[k] == id;
    forall x | x in ids ensures x in r {
      var j :| 0 <= j < |ids| && ids[j] == x;
      assert r[if j < k then j else j + 1] == x;
    }
  }

  class Store {
    var entries: map<string, Entry>
    var bySession: map<nat, string>
    var sweepScheduled: bool
    var viewOrder: nat
    var nextSession: nat

    ghost function View(): Registry
      reads this
    {
      Registry(entries, bySession, sweepScheduled, viewOrder, nextSession)
    }

    /** What holds between any two of the store's steps. */
    ghost predicate Sound()
      reads this
    {
      Mirrored(entries, bySession) && Numbered(View())
    }

    constructor ()
      ensures View() == EMPTY && Sound()
    {
      entries, bySession, sweepScheduled, viewOrder, nextSession := map[], map[], false, 0, 0;
    }

    method RemoveEntry(id: string)
      requires id in entries
      modifies `entries, `bySession
      ensures View() == Remove(old(View()), id)
    {
      bySession := bySession - {entries[id].session};
      entries := entries - {id};
    }

    /** The oldest of the evictable entries goes. */
    method RemoveNext(idle: seq<string>)
      requires Sound() && idle != [] && Lists(idle, entries) && |entries| > CAP
      modifies `entries, `bySession
      ensures Sound() && Sweep(View()) == Sweep(old(View())) && Lists(idle[1..], entries)
    {
      hide Mirrored, Numbered, Lists, Sweep;
      FirstIsNext(View(), idle);
      RestStays(View(), idle);
      RemoveKeeps(View(), idle[0]);
      RemoveEntry(idle[0]);
    }

    method SweepNow()
      requires Sound()
      modifies `entries, `bySession
      ensures View() == Sweep(old(View())) && Sound()
    {
      hide Mirrored, Numbered, Lists, Sweep, Remove, OnlyEvicts, OldestFirst, Swept, Needed;
      ghost var before := View();
      SweepKeepsSound(before);
      if |entries| <= CAP {
        FewStay(View());
        return;
      }
      Apart(View());
      var idle := IdleByView(entries);
      assert idle[0..] == idle;
      var k := 0;
      while k < |idle| && |entries| > CAP
        invariant 0 <= k <= |idle|
        invariant Sweep(View()) == Sweep(before) && Sound()
        invariant Lists(idle[k..], entries)
      {
        RemoveNext(idle[k..]);
        assert idle[k..][1..] == idle[k + 1..];
        k := k + 1;
      }
      if k == |idle| { NoneLeft(View(), idle[k..]); } else { FewStay(View()); }
    }

    method ViewEntry(id: string)
      requires Sound() && id in entries
      modifies `entries, `viewOrder
      ensures var order := old(viewOrder) + 1;
              var e := old(entries)[id];
              View() == Put(old(View()), id, e.(mounts := e.mounts + 1, lastViewedAt := order)).(viewOrder := order) && Sound()
    {
      hide Mirrored, Numbered;
      ViewedKeeps(View(), id);
      viewOrder := viewOrder + 1;
      entries := entries[id := entries[id].(mounts := entries[id].mounts + 1, lastViewedAt := viewOrder)];
    }

    method CreateEntry(id: string, generation: Option<int>)
      requires Sound() && id !in entries
      modifies this
      ensures var r := old(View());
              var e := Entry(r.nextSession, generation, 1, r.viewOrder + 1, false, false, {}, 0, false, false);
              View() == Registry(r.entries[id := e], r.bySession[r.nextSession := id], r.sweepScheduled, r.viewOrder + 1, r.nextSession + 1)
      ensures Sound()
    {
      hide Mirrored, Numbered;
      CreatedKeeps(View(), id, Entry(nextSession, generation, 1, viewOrder + 1, false, false, {}, 0, false, false), nextSession + 1);
      viewOrder := viewOrder + 1;
      entries := entries[id := Entry(nextSession, generation, 1, viewOrder, false, false, {}, 0, false, false)];
      bySession := bySession[nextSession := id];
      nextSession := nextSession + 1;
    }

    method AcquireEntry(id: string, generation: Option<int>)
      requires Sound()
      modifies this
      ensures View() == HandleAcquire(old(View()), id, generation) && Sound()
    {
      hide Mirrored, Numbered, Sweep;
      if id in entries && (entries[id].generation != generation || entries[id].broken) {
        RemoveKeeps(View(), id);
        RemoveEntry(id);
      }
      if id in entries {
        ViewEntry(id);
      } else {
        CreateEntry(id, generation);
      }
      SweepNow();
    }

    method ReleaseEntry(session: nat)
      requires Sound()
      modifies `entries, `sweepScheduled
      ensures View() == Step(old(View()), Release(session))
    {
      hide Mirrored, Numbered;
      if session in bySession {
        Found(View(), session);
        var id := bySession[session];
        var mounts := if entries[id].mounts > 0 then entries[id].mounts - 1 else 0;
        entries := entries[id := entries[id].(mounts := mounts)];
        if mounts == 0 {
          entries := entries[id := entries[id].(tasksVisible := false)];
          sweepScheduled := true;
        }
      }
    }

    method RunMicrotask()
      requires Sound() && sweepScheduled
      modifies this
      ensures View() == Step(old(View()), Microtask)
    {
      sweepScheduled := false;
      SweepNow();
    }

    method SyncTabs(open: set<string>)
      requires Sound()
      modifies this
      ensures View() == Step(old(View()), SyncOpenTabs(open))
    {
      hide Mirrored, Numbered, Sweep, CloseTabs, Remove;
      ghost var before := View();
      var rest := entries.Keys;
      CloseNone(before, open + rest);
      while rest != {}
        modifies `entries, `bySession
        invariant rest <= entries.Keys && Sound()
        invariant View() == CloseTabs(before, open + rest)
        decreases rest
      {
        var id :| id in rest;
        if id !in open {
          RemoveKeeps(View(), id);
          CloseOne(before, open + rest, id);
          RemoveEntry(id);
          assert open + rest - {id} == open + (rest - {id});
        } else {
          assert open + rest == open + (rest - {id});
        }
        rest := rest - {id};
      }
      assert open + rest == open;
      SweepNow();
    }

    method StateCallback(session: nat, idle: bool, broken: bool)
      requires Sound()
      modifies this
      ensures View() == Step(old(View()), StateChanged(session, idle, broken))
    {
      hide Mirrored, Numbered, Sweep;
      if session in bySession {
        Found(View(), session);
        var id := bySession[session];
        var becameIdle := idle && !entries[id].idle;
        PutKeeps(View(), id, entries[id].(idle := idle, broken := broken));
        entries := entries[id := entries[id].(idle := idle, broken := broken)];
        if becameIdle {
          SweepNow();
        }
      }
    }

    method ShowTasks(session: nat, visible: bool)
      requires Sound()
      modifies this
      ensures View() == Step(old(View()), SetTasksVisible(session, visible))
    {
      hide Mirrored, Numbered, Sweep;
      if session !in bySession {
        return;
      }
      Found(View(), session);
      var id := bySession[session];
      PutKeeps(View(), id, entries[id].(tasksVisible := visible, tasksNews := false));
      entries := entries[id := entries[id].(tasksVisible := visible)];
      if visible && entries[id].tasksNews {
        entries := entries[id := entries[id].(tasksNews := false)];
        assert entries == old(entries)[id := old(entries)[id].(tasksVisible := visible, tasksNews := false)];
        SweepNow();
      }
    }

    method TasksCallback(session: nat)
      requires Sound()
      modifies `entries
      ensures View() == Step(old(View()), TasksSettled(session))
    {
      hide Mirrored, Numbered;
      if session in bySession {
        Found(View(), session);
        var id := bySession[session];
        if !entries[id].tasksVisible {
          entries := entries[id := entries[id].(tasksNews := true)];
        }
      }
    }

    method QueueCallback(session: nat, queued: nat)
      requires Sound()
      modifies this
      ensures View() == Step(old(View()), QueueChanged(session, queued))
    {
      hide Mirrored, Numbered, Sweep;
      if session in bySession {
        Found(View(), session);
        var id := bySession[session];
        var hadQueue := entries[id].queued > 0;
        PutKeeps(View(), id, entries[id].(queued := queued));
        entries := entries[id := entries[id].(queued := queued)];
        if hadQueue && queued == 0 {
          SweepNow();
        }
      }
    }

    method RequestCallback(session: nat, call: string)
      requires Sound()
      modifies `entries
      ensures View() == Step(old(View()), PermissionRequested(session, call))
    {
      hide Mirrored, Numbered;
      if session in bySession {
        Found(View(), session);
        var id := bySession[session];
        entries := entries[id := entries[id].(permissions := entries[id].permissions + {call})];
      }
    }

    method ResolvedCallback(session: nat, call: string)
      requires Sound()
      modifies this
      ensures View() == Step(old(View()), PermissionResolved(session, call))
    {
      hide Mirrored, Numbered, HandleDrop;
      if session in bySession {
        Found(View(), session);
        DropRequest(bySession[session], call);
      }
    }

    method ResetAll()
      requires Sound()
      modifies this
      ensures View() == Step(old(View()), Reset)
    {
      hide Mirrored, Numbered;
      while entries.Keys != {}
        modifies `entries, `bySession
        invariant Sound()
        decreases entries.Keys
      {
        var id :| id in entries.Keys;
        RemoveKeeps(View(), id);
        RemoveEntry(id);
      }
      EmptyMirrored(View());
      viewOrder := 0;
    }

    method DropRequest(id: string, call: string)
      requires Sound()
      modifies this
      ensures View() == Step(old(View()), DropPermission(id, call))
    {
      hide Mirrored, Numbered, Sweep;
      if id in entries && call in entries[id].permissions {
        PutKeeps(View(), id, entries[id].(permissions := entries[id].permissions - {call}));
        entries := entries[id := entries[id].(permissions := entries[id].permissions - {call})];
        SweepNow();
      }
    }
  }

  lemma SweepKeepsSound(r: Registry)
    requires Mirrored(r.entries, r.bySession) && Numbered(r)
    ensures Mirrored(Sweep(r).entries, Sweep(r).bySession) && Numbered(Sweep(r))
    ensures Sweep(r) == r.(entries := Sweep(r).entries, bySession := Sweep(r).bySession)
  {
    SweepEvicts(r);
  }

  lemma Apart(r: Registry)
    requires Numbered(r)
    ensures forall id, other :: id in r.entries && other in r.entries && id != other ==> r.entries[id].lastViewedAt != r.entries[other].lastViewedAt
  {
  }

  lemma EmptyMirrored(r: Registry)
    requires Mirrored(r.entries, r.bySession) && r.entries.Keys == {}
    ensures r.entries == map[] && r.bySession == map[]
  {
  }

  lemma Found(r: Registry, session: nat)
    requires Mirrored(r.entries, r.bySession) && session in r.bySession
    ensures r.bySession[session] in r.entries
  {
  }

  lemma CloseNone(r: Registry, open: set<string>)
    requires Mirrored(r.entries, r.bySession) && r.entries.Keys <= open
    ensures CloseTabs(r, open) == r
  {
  }

  lemma CloseOne(r: Registry, open: set<string>, id: string)
    requires Mirrored(r.entries, r.bySession) && id in CloseTabs(r, open).entries
    ensures Remove(CloseTabs(r, open), id) == CloseTabs(r, open - {id})
    ensures forall other :: other in CloseTabs(r, open).entries && other != id ==> other in Remove(CloseTabs(r, open), id).entries
  {
    var a, b := Remove(CloseTabs(r, open), id), CloseTabs(r, open - {id});
    assert a.entries == b.entries;
    assert a.bySession == b.bySession;
  }

  lemma FewStay(r: Registry)
    requires |r.entries| <= CAP
    ensures Sweep(r) == r
  {
  }

  lemma NoneLeft(r: Registry, ids: seq<string>)
    requires ids == [] && Lists(ids, r.entries)
    ensures Sweep(r) == r
  {
    assert EvictableIds(r.entries) == {};
  }

  /** The first id of the sorted list is the one a sweep takes next. */
  lemma FirstIsNext(r: Registry, ids: seq<string>)
    requires ids != [] && |r.entries| > CAP && Lists(ids, r.entries)
    ensures ids[0] in r.entries && Sweep(r) == Sweep(Remove(r, ids[0]))
  {
    var first := ids[0];
    assert first in ids;
    assert first in EvictableIds(r.entries);
    var oldest := OldestOf(r);
    assert oldest in ids;
    var k :| 0 <= k < |ids| && ids[k] == oldest;
  }

  lemma RestStays(r: Registry, ids: seq<string>)
    requires ids != [] && Lists(ids, r.entries)
    ensures ids[0] in r.entries && Lists(ids[1..], Remove(r, ids[0]).entries)
  {
    var first, entries := ids[0], Remove(r, ids[0]).entries;
    assert first in ids;
    assert EvictableIds(entries) == EvictableIds(r.entries) - {first};
    assert forall j :: 0 <= j < |ids| - 1 ==> ids[1..][j] == ids[j + 1];
    forall id | id in ids && id != first ensures id in ids[1..] {
      var j :| 0 <= j < |ids| && ids[j] == id;
      assert ids[1..][j - 1] == id;
    }
  }
}
