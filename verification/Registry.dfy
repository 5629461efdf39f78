/**
 The registry of live agent sessions: at most CAP entries are kept, except that an entry
 somebody needs is never evicted. A session is identified by the number it was created with.
 */
module Registry {
  import opened Basics

  /** `idle` and `broken` are the session's own state: not working, and unusable. */
  datatype Entry = Entry(session: nat, generation: Option<int>, mounts: nat, lastViewedAt: nat, tasksNews: bool,
                         tasksVisible: bool, permissions: set<string>, queued: nat, idle: bool, broken: bool)

  datatype Registry = Registry(entries: map<string, Entry>, bySession: map<nat, string>, sweepScheduled: bool,
                               viewOrder: nat, nextSession: nat)

  const CAP := 8
  const EMPTY := Registry(map[], map[], false, 0, 0)

  predicate Evictable(e: Entry) {
    e.mounts == 0 && e.idle && !e.tasksNews && e.permissions == {} && e.queued == 0
  }

  function EvictableIds(entries: map<string, Entry>): set<string> {
    set id | id in entries && Evictable(entries[id])
  }

  /* ----- What every step keeps ----- */

  ghost predicate Mirrored(entries: map<string, Entry>, bySession: map<nat, string>) {
    && (forall id :: id in entries ==> entries[id].session in bySession && bySession[entries[id].session] == id)
    && (forall session :: session in bySession ==> bySession[session] in entries && entries[bySession[session]].session == session)
  }

  ghost predicate Numbered(r: Registry) {
    && (forall id :: id in r.entries ==> r.entries[id].lastViewedAt <= r.viewOrder && r.entries[id].session < r.nextSession)
    && (forall id, other :: id in r.entries && other in r.entries && id != other ==>
                              r.entries[id].lastViewedAt != r.entries[other].lastViewedAt)
  }

  /** At most CAP entries, or every entry is pinned. */
  ghost predicate Swept(entries: map<string, Entry>) {
    |entries| <= CAP || EvictableIds(entries) == {}
  }

  ghost predicate Inv(r: Registry) {
    Mirrored(r.entries, r.bySession) && Numbered(r) && (r.sweepScheduled || Swept(r.entries))
  }

  /* ----- Removing and sweeping ----- */

  function Remove(r: Registry, id: string): Registry
    requires id in r.entries
  {
    r.(entries := r.entries - {id}, bySession := r.bySession - {r.entries[id].session})
  }

  ghost predicate IsOldest(entries: map<string, Entry>, id: string) {
    && id in EvictableIds(entries)
    && forall other :: other in EvictableIds(entries) ==> entries[id].lastViewedAt <= entries[other].lastViewedAt
  }

  lemma {:induction false} OldestAmong(entries: map<string, Entry>, ids: set<string>) returns (id: string)
    requires ids <= entries.Keys && ids != {}
    ensures id in ids && forall other :: other in ids ==> entries[id].lastViewedAt <= entries[other].lastViewedAt
    decreases ids
  {
    id :| id in ids;
    if ids != {id} {
      var rest := OldestAmong(entries, ids - {id});
      if entries[rest].lastViewedAt < entries[id].lastViewedAt { id := rest; }
    }
  }

  lemma OldestExists(entries: map<string, Entry>)
    requires EvictableIds(entries) != {}
    ensures exists id :: IsOldest(entries, id)
  {
    var id := OldestAmong(entries, EvictableIds(entries));
    assert IsOldest(entries, id);
  }

  ghost function Oldest(entries: map<string, Entry>): (id: string)
    requires EvictableIds(entries) != {}
    ensures IsOldest(entries, id)
  {
    OldestExists(entries);
    var id :| IsOldest(entries, id);
    id
  }

  ghost function Sweep(r: Registry): Registry
    decreases |r.entries|
  {
    if Swept(r.entries) then r
    else
      RemovedCount(r.entries, Oldest(r.entries));
      Sweep(Remove(r, Oldest(r.entries)))
  }

  lemma RemovedCount(entries: map<string, Entry>, id: string)
    requires id in entries
    ensures |entries - {id}| == |entries| - 1
  {
    assert (entries - {id}).Keys == entries.Keys - {id};
    assert |entries| == |entries.Keys| && |entries - {id}| == |(entries - {id}).Keys|;
  }

  lemma RemoveKeeps(r: Registry, id: string)
    requires Mirrored(r.entries, r.bySession) && Numbered(r) && id in r.entries
    ensures var r' := Remove(r, id); Mirrored(r'.entries, r'.bySession) && Numbered(r')
  {
  }

  /** Some evictable entries are gone and the rest is as it was. */
  ghost predicate OnlyEvicts(entries: map<string, Entry>, entries': map<string, Entry>) {
    && entries'.Keys <= entries.Keys && (forall id :: id in entries' ==> entries'[id] == entries[id])
    && entries.Keys - entries'.Keys <= EvictableIds(entries)
  }

  /** Whatever is gone was viewed before every evictable entry that stayed. */
  ghost predicate OldestFirst(entries: map<string, Entry>, entries': map<string, Entry>) {
    forall id, kept :: id in entries && id !in entries' && kept in entries' && Evictable(entries'[kept]) ==>
                         entries[id].lastViewedAt < entries'[kept].lastViewedAt
  }

  /** As many as the cap asks for, and no more than can go. */
  function Needed(entries: map<string, Entry>): nat {
    var over := if |entries| > CAP then |entries| - CAP else 0;
    if |EvictableIds(entries)| < over then |EvictableIds(entries)| else over
  }

  lemma OneEvicted(entries: map<string, Entry>, entries': map<string, Entry>, id: string)
    requires id in EvictableIds(entries) && OnlyEvicts(entries - {id}, entries')
    ensures OnlyEvicts(entries, entries') && |entries.Keys - entries'.Keys| == |(entries - {id}).Keys - entries'.Keys| + 1
  {
    assert entries.Keys - entries'.Keys == ((entries - {id}).Keys - entries'.Keys) + {id};
  }

  lemma OldestGone(r: Registry, entries': map<string, Entry>, id: string)
    requires Numbered(r) && IsOldest(r.entries, id)
    requires OnlyEvicts(r.entries - {id}, entries') && OldestFirst(r.entries - {id}, entries')
    ensures OldestFirst(r.entries, entries')
  {
    forall kept | kept in entries' && Evictable(entries'[kept])
      ensures r.entries[id].lastViewedAt < entries'[kept].lastViewedAt
    {
      assert kept in EvictableIds(r.entries) && kept != id;
    }
  }

  lemma OneNeeded(entries: map<string, Entry>, id: string)
    requires id in EvictableIds(entries) && !Swept(entries)
    ensures Needed(entries) == Needed(entries - {id}) + 1
  {
    RemovedCount(entries, id);
    assert EvictableIds(entries - {id}) == EvictableIds(entries) - {id};
  }

  lemma NothingNeeded(entries: map<string, Entry>)
    requires Swept(entries)
    ensures OnlyEvicts(entries, entries) && OldestFirst(entries, entries) && Needed(entries) == |entries.Keys - entries.Keys|
  {
    assert entries.Keys - entries.Keys == {};
  }

  /** A sweep removes only entries nobody needs, oldest-viewed first, and exactly as many as
      the cap asks for or as can go. */
  lemma {:induction false} SweepEvicts(r: Registry)
    requires Mirrored(r.entries, r.bySession) && Numbered(r)
    ensures var r' := Sweep(r);
            && OnlyEvicts(r.entries, r'.entries) && OldestFirst(r.entries, r'.entries)
            && |r.entries.Keys - r'.entries.Keys| == Needed(r.entries) && Swept(r'.entries)
            && Mirrored(r'.entries, r'.bySession) && Numbered(r')
            && r' == r.(entries := r'.entries, bySession := r'.bySession)
    decreases |r.entries|
  {
    hide Mirrored, Numbered, OnlyEvicts, OldestFirst, Needed, Swept, EvictableIds;
    if Swept(r.entries) {
      NothingNeeded(r.entries);
    } else {
      var id := OldestOf(r);
      RemovedCount(r.entries, id);
      RemoveKeeps(r, id);
      SweepEvicts(Remove(r, id));
      var r' := Sweep(Remove(r, id));
      OneEvicted(r.entries, r'.entries, id);
      OldestGone(r, r'.entries, id);
      OneNeeded(r.entries, id);
    }
  }

  lemma OldestOf(r: Registry) returns (id: string)
    requires !Swept(r.entries)
    ensures IsOldest(r.entries, id) && id in r.entries && Sweep(r) == Sweep(Remove(r, id))
  {
    id := Oldest(r.entries);
  }

  lemma SweepKeeps(r: Registry)
    requires Mirrored(r.entries, r.bySession) && Numbered(r)
    ensures Inv(Sweep(r))
  {
    SweepEvicts(r);
  }

  /* ----- Everything that happens to the registry ----- */

  datatype Op =
    | Acquire(id: string, generation: Option<int>)
    | Release(session: nat)
    | Microtask
    | StateChanged(session: nat, idle: bool, broken: bool)
    | TasksSettled(session: nat)
    | QueueChanged(session: nat, queued: nat)
    | PermissionRequested(session: nat, call: string)
    | PermissionResolved(session: nat, call: string)
    | SetTasksVisible(session: nat, visible: bool)
    | DropPermission(id: string, call: string)
    | SyncOpenTabs(open: set<string>)
    | Reset

  predicate Replaced(e: Entry, generation: Option<int>) {
    e.generation != generation || e.broken
  }

  function Put(r: Registry, id: string, e: Entry): Registry {
    r.(entries := r.entries[id := e])
  }

  ghost function HandleAcquire(r: Registry, id: string, generation: Option<int>): Registry {
    var r0 := if id in r.entries && Replaced(r.entries[id], generation) then Remove(r, id) else r;
    var order := r.viewOrder + 1;
    if id in r0.entries then
      Sweep(Put(r0, id, r0.entries[id].(mounts := r0.entries[id].mounts + 1, lastViewedAt := order)).(viewOrder := order))
    else
      Sweep(Registry(r0.entries[id := Entry(r.nextSession, generation, 1, order, false, false, {}, 0, false, false)],
                     r0.bySession[r.nextSession := id], r.sweepScheduled, order, r.nextSession + 1))
  }

  /** A released entry is swept in a microtask, so that a view remounting at once keeps it. */
  function HandleRelease(r: Registry, id: string): Registry
    requires id in r.entries
  {
    var e := r.entries[id];
    if e.mounts > 1 then Put(r, id, e.(mounts := e.mounts - 1))
    else Put(r, id, e.(mounts := 0, tasksVisible := false)).(sweepScheduled := true)
  }

  ghost function HandleState(r: Registry, id: string, idle: bool, broken: bool): Registry
    requires id in r.entries
  {
    var e := r.entries[id];
    var r' := Put(r, id, e.(idle := idle, broken := broken));
    if idle && !e.idle then Sweep(r') else r'
  }

  ghost function HandleQueue(r: Registry, id: string, queued: nat): Registry
    requires id in r.entries
  {
    var e := r.entries[id];
    var r' := Put(r, id, e.(queued := queued));
    if e.queued > 0 && queued == 0 then Sweep(r') else r'
  }

  ghost function HandleDrop(r: Registry, id: string, call: string): Registry
    requires id in r.entries
  {
    var e := r.entries[id];
    if call in e.permissions then Sweep(Put(r, id, e.(permissions := e.permissions - {call}))) else r
  }

  ghost function HandleVisible(r: Registry, id: string, visible: bool): Registry
    requires id in r.entries
  {
    var e := r.entries[id];
    if visible && e.tasksNews then Sweep(Put(r, id, e.(tasksVisible := true, tasksNews := false)))
    else Put(r, id, e.(tasksVisible := visible))
  }

  /** Every entry whose tab is closed is removed. */
  ghost function CloseTabs(r: Registry, open: set<string>): Registry {
    r.(entries := map id | id in r.entries && id in open :: r.entries[id],
       bySession := map session | session in r.bySession && r.bySession[session] in open :: r.bySession[session])
  }

  /** The registry's own callbacks find the entry by its session; a session that is no
      longer registered changes nothing. */
  ghost function Step(r: Registry, op: Op): Registry
    requires Mirrored(r.entries, r.bySession)
  {
    match op
    case Acquire(id, generation) => HandleAcquire(r, id, generation)
    case Release(session) => if session in r.bySession then HandleRelease(r, r.bySession[session]) else r
    case Microtask => if r.sweepScheduled then Sweep(r.(sweepScheduled := false)) else r
    case StateChanged(session, idle, broken) =>
      if session in r.bySession then HandleState(r, r.bySession[session], idle, broken) else r
    case TasksSettled(session) =>
      if session in r.bySession && !r.entries[r.bySession[session]].tasksVisible
      then Put(r, r.bySession[session], r.entries[r.bySession[session]].(tasksNews := true)) else r
    case QueueChanged(session, queued) =>
      if session in r.bySession then HandleQueue(r, r.bySession[session], queued) else r
    case PermissionRequested(session, call) =>
      if session in r.bySession
      then var e := r.entries[r.bySession[session]]; Put(r, r.bySession[session], e.(permissions := e.permissions + {call}))
      else r
    case PermissionResolved(session, call) =>
      if session in r.bySession then HandleDrop(r, r.bySession[session], call) else r
    case SetTasksVisible(session, visible) =>
      if session in r.bySession then HandleVisible(r, r.bySession[session], visible) else r
    case DropPermission(id, call) => if id in r.entries then HandleDrop(r, id, call) else r
    case SyncOpenTabs(open) => Sweep(CloseTabs(r, open))
    case Reset => r.(entries := map[], bySession := map[], viewOrder := 0)
  }

  lemma PutKeeps(r: Registry, id: string, e: Entry)
    requires Mirrored(r.entries, r.bySession) && Numbered(r)
    requires id in r.entries && e.session == r.entries[id].session && e.lastViewedAt == r.entries[id].lastViewedAt
    ensures Mirrored(Put(r, id, e).entries, r.bySession) && Numbered(Put(r, id, e))
  {
  }

  /** An entry that does not become evictable needs no sweep. */
  lemma PutSwept(entries: map<string, Entry>, id: string, e: Entry)
    requires Swept(entries) && id in entries && (Evictable(e) ==> Evictable(entries[id]))
    ensures Swept(entries[id := e])
  {
    assert entries[id := e].Keys == entries.Keys;
    assert |entries[id := e]| == |entries[id := e].Keys| && |entries| == |entries.Keys|;
    assert EvictableIds(entries[id := e]) <= EvictableIds(entries);
  }

  lemma QuietPut(r: Registry, id: string, e: Entry)
    requires Inv(r) && id in r.entries && e.session == r.entries[id].session && e.lastViewedAt == r.entries[id].lastViewedAt
    requires Evictable(e) ==> Evictable(r.entries[id])
    ensures Inv(Put(r, id, e))
  {
    PutKeeps(r, id, e);
    if !r.sweepScheduled { PutSwept(r.entries, id, e); }
  }

  lemma SweptPut(r: Registry, id: string, e: Entry)
    requires Inv(r) && id in r.entries && e.session == r.entries[id].session && e.lastViewedAt == r.entries[id].lastViewedAt
    ensures Inv(Sweep(Put(r, id, e)))
  {
    PutKeeps(r, id, e);
    SweepKeeps(Put(r, id, e));
  }

  lemma ViewedKeeps(r: Registry, id: string)
    requires Mirrored(r.entries, r.bySession) && Numbered(r) && id in r.entries
    ensures var order := r.viewOrder + 1;
            var r' := Put(r, id, r.entries[id].(mounts := r.entries[id].mounts + 1, lastViewedAt := order)).(viewOrder := order);
            Mirrored(r'.entries, r'.bySession) && Numbered(r')
  {
  }

  lemma CreatedKeeps(r: Registry, id: string, e: Entry, next: nat)
    requires Mirrored(r.entries, r.bySession) && Numbered(r) && id !in r.entries
    requires e.lastViewedAt == r.viewOrder + 1 && e.session == r.nextSession && next == r.nextSession + 1
    ensures var r' := Registry(r.entries[id := e], r.bySession[e.session := id], r.sweepScheduled, r.viewOrder + 1, next);
            Mirrored(r'.entries, r'.bySession) && Numbered(r')
  {
  }

  lemma AcquireKeeps(r: Registry, id: string, generation: Option<int>)
    requires Inv(r)
    ensures Inv(HandleAcquire(r, id, generation))
  {
    hide Mirrored, Numbered, Sweep, Swept;
    var r0 := if id in r.entries && Replaced(r.entries[id], generation) then Remove(r, id) else r;
    if r0 != r { RemoveKeeps(r, id); }
    var order := r.viewOrder + 1;
    if id in r0.entries {
      ViewedKeeps(r0, id);
      SweepKeeps(Put(r0, id, r0.entries[id].(mounts := r0.entries[id].mounts + 1, lastViewedAt := order)).(viewOrder := order));
    } else {
      var e := Entry(r.nextSession, generation, 1, order, false, false, {}, 0, false, false);
      CreatedKeeps(r0, id, e, r.nextSession + 1);
      SweepKeeps(Registry(r0.entries[id := e], r0.bySession[r.nextSession := id], r.sweepScheduled, order, r.nextSession + 1));
    }
  }

  lemma CloseTabsKeeps(r: Registry, open: set<string>)
    requires Mirrored(r.entries, r.bySession) && Numbered(r)
    ensures var r' := CloseTabs(r, open); Mirrored(r'.entries, r'.bySession) && Numbered(r')
  {
  }

  lemma ReleaseKeeps(r: Registry, id: string)
    requires Inv(r) && id in r.entries
    ensures Inv(HandleRelease(r, id))
  {
    hide Mirrored, Numbered, Swept;
    var e := r.entries[id];
    var away := e.(mounts := 0, tasksVisible := false);
    PutKeeps(r, id, away);
    SameNumbers(Put(r, id, away), true);
    if e.mounts > 1 { QuietPut(r, id, e.(mounts := e.mounts - 1)); }
  }

  lemma StepKeeps(r: Registry, op: Op)
    requires Inv(r)
    ensures Inv(Step(r, op))
  {
    hide Inv, Numbered, Sweep, Swept, HandleAcquire, HandleRelease, CloseTabs;
    assert Mirrored(r.entries, r.bySession) && Numbered(r) by { Parts(r); }
    match op
    case Acquire(id, generation) => AcquireKeeps(r, id, generation);
    case Release(session) => if session in r.bySession { ReleaseKeeps(r, r.bySession[session]); }
    case Microtask => if r.sweepScheduled { SameNumbers(r, false); SweepKeeps(r.(sweepScheduled := false)); }
    case StateChanged(session, idle, broken) =>
      if session in r.bySession {
        var id := r.bySession[session];
        var e := r.entries[id].(idle := idle, broken := broken);
        if idle && !r.entries[id].idle { SweptPut(r, id, e); } else { QuietPut(r, id, e); }
      }
    case TasksSettled(session) =>
      if session in r.bySession { QuietPut(r, r.bySession[session], r.entries[r.bySession[session]].(tasksNews := true)); }
    case QueueChanged(session, queued) =>
      if session in r.bySession {
        var id := r.bySession[session];
        var e := r.entries[id].(queued := queued);
        if r.entries[id].queued > 0 && queued == 0 { SweptPut(r, id, e); } else { QuietPut(r, id, e); }
      }
    case PermissionRequested(session, call) =>
      if session in r.bySession {
        var e := r.entries[r.bySession[session]];
        QuietPut(r, r.bySession[session], e.(permissions := e.permissions + {call}));
      }
    case PermissionResolved(session, call) => if session in r.bySession { DropKeeps(r, r.bySession[session], call); }
    case SetTasksVisible(session, visible) =>
      if session in r.bySession {
        var e := r.entries[r.bySession[session]];
        if visible && e.tasksNews { SweptPut(r, r.bySession[session], e.(tasksVisible := true, tasksNews := false)); }
        else { QuietPut(r, r.bySession[session], e.(tasksVisible := visible)); }
      }
    case DropPermission(id, call) => if id in r.entries { DropKeeps(r, id, call); }
    case SyncOpenTabs(open) => CloseTabsKeeps(r, open); SweepKeeps(CloseTabs(r, open));
    case Reset => ResetKeeps(r);
  }

  lemma Parts(r: Registry)
    requires Inv(r)
    ensures Mirrored(r.entries, r.bySession) && Numbered(r)
  {
  }

  lemma SameNumbers(r: Registry, scheduled: bool)
    requires Numbered(r)
    ensures Numbered(r.(sweepScheduled := scheduled))
  {
  }

  lemma DropKeeps(r: Registry, id: string, call: string)
    requires Inv(r) && id in r.entries
    ensures Inv(HandleDrop(r, id, call))
  {
    hide Inv, Sweep;
    SweptPut(r, id, r.entries[id].(permissions := r.entries[id].permissions - {call}));
  }

  lemma ResetKeeps(r: Registry)
    requires Inv(r)
    ensures Inv(r.(entries := map[], bySession := map[], viewOrder := 0))
  {
  }

  /** Every run from the empty registry. */
  ghost function Run(ops: seq<Op>): (r: Registry)
    ensures Inv(r)
  {
    if ops == [] then EMPTY
    else
      var r := Run(ops[..|ops| - 1]);
      StepKeeps(r, ops[|ops| - 1]);
      Step(r, ops[|ops| - 1])
  }

  /** After every run a sweep is scheduled, or at most CAP entries are kept, or every entry
      is pinned; and the two maps mirror each other. */
  lemma RegistryIsBounded(ops: seq<Op>)
    ensures var r := Run(ops);
            && (r.sweepScheduled || |r.entries| <= CAP || forall id :: id in r.entries ==> !Evictable(r.entries[id]))
            && (forall id :: id in r.entries ==> r.entries[id].session in r.bySession && r.bySession[r.entries[id].session] == id)
            && (forall session :: session in r.bySession ==> r.bySession[session] in r.entries && r.entries[r.bySession[session]].session == session)
  {
    var r := Run(ops);
    if !r.sweepScheduled && |r.entries| > CAP {
      forall id | id in r.entries ensures !Evictable(r.entries[id]) {
        assert id !in EvictableIds(r.entries);
      }
    }
  }
}
