/**
 The stored ledger: a row per finding id, and the set of dismissed ids. A row holds what
 `Encode` writes; the text it is written in is left out, so a row is the record itself.
 */
module Ledger {
  import opened Basics
  import opened Findings

  /* ----- Rows ----- */

  datatype Payload = Payload(fingerprint: string, uri: string, startLine: nat, endLine: nat, locations: seq<Location>,
                             ruleId: string, level: string, message: string, snippet: string, tool: string)

  /** How text is redacted on its way out, and the rules whose evidence is a secret. */
  datatype Policy = Policy(redact: string -> string, verbatim: string -> bool)

  const SECRET_MARKER := "[redacted-secret]"

  function CountNewlines(s: string): nat {
    if s == "" then 0 else CountNewlines(s[..|s| - 1]) + (if s[|s| - 1] == '\n' then 1 else 0)
  }

  function Lines(n: nat): (r: string)
    ensures |r| == n
  {
    seq(n, i => '\n')
  }

  /** A secret is replaced by a marker with as many lines. */
  function HideSecret(s: string): string {
    SECRET_MARKER + Lines(CountNewlines(s))
  }

  function RedactEvidence(p: Policy, rule: string, evidence: string): string {
    if p.verbatim(rule) then HideSecret(evidence) else p.redact(evidence)
  }

  function Assemble(p: Policy, id: string, file: string, locations: seq<Location>, rule: string, severity: Severity,
                    source: string, title: string, evidence: string): Finding {
    Finding(id, p.redact(file), locations, p.redact(rule), severity, p.redact(source), p.redact(title),
            RedactEvidence(p, rule, evidence))
  }

  function LevelOf(severity: Severity): string {
    match severity
    case Smoke => "note"
    case Fire => "warning"
    case Inferno => "error"
  }

  function SeverityOf(level: string): Option<Severity> {
    if level == "note" then Some(Smoke)
    else if level == "warning" then Some(Fire)
    else if level == "error" then Some(Inferno)
    else None
  }

  function Encode(f: Finding): Payload {
    var start := if f.locations == [] then 1 else f.locations[0].startLine;
    var end := if f.locations == [] then start else f.locations[|f.locations| - 1].endLine;
    Payload(f.id, f.file, start, end, f.locations, f.rule, LevelOf(f.severity), f.title, f.evidence, f.source)
  }

  function Decode(p: Policy, row: Payload): Option<Finding> {
    var locations := if row.locations == [] then [Location(row.startLine, row.endLine)] else row.locations;
    if row.fingerprint == "" || SeverityOf(row.level).None? then None
    else Some(Assemble(p, row.fingerprint, row.uri, locations, row.ruleId, SeverityOf(row.level).value,
                       row.tool, row.message, row.snippet))
  }

  /** What a row gives back is what was put in. */
  predicate Storable(p: Policy, f: Finding) {
    && f.id != "" && f.locations != []
    && p.redact(f.file) == f.file && p.redact(f.rule) == f.rule && p.redact(f.source) == f.source && p.redact(f.title) == f.title
    && RedactEvidence(p, f.rule, f.evidence) == f.evidence
  }

  lemma LevelsDistinct(severity: Severity)
    ensures SeverityOf(LevelOf(severity)) == Some(severity)
  {
    assert "note"[0] == 'n' && "warning"[0] == 'w' && "error"[0] == 'e';
  }

  /** A finding comes back from its row exactly when it is storable. */
  lemma RowRoundTrip(p: Policy, f: Finding)
    ensures Decode(p, Encode(f)) == Some(f) <==> Storable(p, f)
  {
    LevelsDistinct(f.severity);
    hide LevelOf, SeverityOf, RedactEvidence;
  }

  lemma {:induction false} NoNewlines(s: string)
    requires '\n' !in s
    ensures CountNewlines(s) == 0
  {
    if s != "" { NoNewlines(s[..|s| - 1]); }
  }

  lemma {:induction false} CountLines(text: string, n: nat)
    requires CountNewlines(text) == 0
    ensures CountNewlines(text + Lines(n)) == n
  {
    if n == 0 {
      assert text + Lines(0) == text;
    } else {
      CountLines(text, n - 1);
      var s := text + Lines(n);
      assert s[..|s| - 1] == text + Lines(n - 1);
    }
  }

  lemma HiddenStaysHidden(s: string)
    ensures HideSecret(HideSecret(s)) == HideSecret(s)
  {
    NoNewlines(SECRET_MARKER);
    hide SECRET_MARKER, Lines;
    CountLines(SECRET_MARKER, CountNewlines(s));
  }

  ghost predicate Idempotent(redact: string -> string) {
    forall s :: redact(redact(s)) == redact(s)
  }

  /** Whatever a detector assembles comes back from its row, when redaction is idempotent
      and leaves the rule's name alone. */
  lemma AssembledRoundTrip(p: Policy, id: string, file: string, locations: seq<Location>, rule: string, severity: Severity,
                           source: string, title: string, evidence: string)
    requires id != "" && locations != [] && Idempotent(p.redact) && p.redact(rule) == rule
    ensures var f := Assemble(p, id, file, locations, rule, severity, source, title, evidence); Decode(p, Encode(f)) == Some(f)
  {
    var f := Assemble(p, id, file, locations, rule, severity, source, title, evidence);
    HiddenStaysHidden(evidence);
    hide HideSecret;
    assert Storable(p, f);
    RowRoundTrip(p, f);
  }

  /* ----- Scans and dismissals ----- */

  datatype Ledger = Ledger(findings: map<string, Payload>, dismissed: set<string>)

  const EMPTY := Ledger(map[], {})

  /** A row whose detector has just completed, or no longer exists. A row that cannot be
      read is never stale. */
  predicate Stale(p: Policy, row: Payload, completed: set<string>, registered: set<string>) {
    var f := Decode(p, row);
    f.Some? && (f.value.source in completed || (registered != {} && f.value.source !in registered))
  }

  function Keep(p: Policy, rows: map<string, Payload>, completed: set<string>, registered: set<string>): map<string, Payload> {
    map id | id in rows && !Stale(p, rows[id], completed, registered) :: rows[id]
  }

  function Put(rows: map<string, Payload>, findings: seq<Finding>): map<string, Payload> {
    if findings == [] then rows
    else
      var f := findings[|findings| - 1];
      Put(rows, findings[..|findings| - 1])[f.id := Encode(f)]
  }

  function RecordScan(p: Policy, l: Ledger, findings: seq<Finding>, completed: set<string>, registered: set<string>): Ledger {
    l.(findings := Put(Keep(p, l.findings, completed, registered), findings))
  }

  function Dismiss(l: Ledger, id: string): Ledger {
    l.(dismissed := l.dismissed + {id})
  }

  function Get(p: Policy, l: Ledger, id: string): Option<Finding> {
    if id in l.findings && id !in l.dismissed then Decode(p, l.findings[id]) else None
  }

  /** The findings a reader sees. */
  function Active(p: Policy, l: Ledger): set<Finding> {
    set id | id in l.findings && id !in l.dismissed && Decode(p, l.findings[id]).Some? :: Decode(p, l.findings[id]).value
  }

  datatype Op =
    | Scan(findings: seq<Finding>, completed: set<string>, registered: set<string>)
    | Hide(id: string)

  function Run(p: Policy, l: Ledger, ops: seq<Op>): Ledger {
    if ops == [] then l
    else
      var before := Run(p, l, ops[..|ops| - 1]);
      match ops[|ops| - 1]
      case Scan(findings, completed, registered) => RecordScan(p, before, findings, completed, registered)
      case Hide(id) => Dismiss(before, id)
  }

  /** A row is filed under the id it carries. */
  ghost predicate Filed(rows: map<string, Payload>) {
    forall id :: id in rows ==> rows[id].fingerprint == id
  }

  lemma {:induction false} PutFiled(rows: map<string, Payload>, findings: seq<Finding>)
    requires Filed(rows)
    ensures Filed(Put(rows, findings))
  {
    if findings != [] { PutFiled(rows, findings[..|findings| - 1]); }
  }

  lemma {:induction false} RunFiled(p: Policy, l: Ledger, ops: seq<Op>)
    requires Filed(l.findings)
    ensures Filed(Run(p, l, ops).findings) && l.dismissed <= Run(p, l, ops).dismissed
  {
    if ops != [] {
      RunFiled(p, l, ops[..|ops| - 1]);
      var before, op := Run(p, l, ops[..|ops| - 1]), ops[|ops| - 1];
      if op.Scan? { PutFiled(Keep(p, before.findings, op.completed, op.registered), op.findings); }
    }
  }

  lemma {:induction false} HiddenIsDismissed(p: Policy, l: Ledger, ops: seq<Op>, id: string)
    requires id in l.dismissed || Hide(id) in ops
    ensures id in Run(p, l, ops).dismissed
  {
    if ops != [] && ops[|ops| - 1] != Hide(id) {
      HiddenIsDismissed(p, l, ops[..|ops| - 1], id);
    }
  }

  /** Once dismissed, an id is never seen again, whatever is scanned and dismissed around it. */
  lemma DismissedIsNeverSeen(p: Policy, ops: seq<Op>, id: string)
    requires Hide(id) in ops
    ensures var l := Run(p, EMPTY, ops); Get(p, l, id).None? && forall f :: f in Active(p, l) ==> f.id != id
  {
    RunFiled(p, EMPTY, ops);
    HiddenIsDismissed(p, EMPTY, ops, id);
  }

  /* ----- Partial scans ----- */

  ghost predicate Files(findings: seq<Finding>, id: string) {
    exists i :: 0 <= i < |findings| && findings[i].id == id
  }

  lemma {:induction false} PutAt(rows: map<string, Payload>, findings: seq<Finding>, id: string)
    ensures id in Put(rows, findings) <==> id in rows || Files(findings, id)
    ensures !Files(findings, id) && id in rows ==> Put(rows, findings)[id] == rows[id]
    ensures Files(findings, id) ==> id in Put(map[], findings) && Put(rows, findings)[id] == Put(map[], findings)[id]
  {
    if findings != [] {
      var before, f := findings[..|findings| - 1], findings[|findings| - 1];
      PutAt(rows, before, id);
      if Files(before, id) {
        var k :| 0 <= k < |before| && before[k].id == id;
        assert findings[k] == before[k];
      }
      if Files(findings, id) && f.id != id {
        var k :| 0 <= k < |findings| && findings[k].id == id;
        assert before[k] == findings[k];
      }
    }
  }

  lemma FilesJoin(a: seq<Finding>, b: seq<Finding>, id: string)
    ensures Files(a + b, id) <==> Files(a, id) || Files(b, id)
  {
    if Files(a, id) {
      var k :| 0 <= k < |a| && a[k].id == id;
      assert (a + b)[k].id == id;
    }
    if Files(b, id) {
      var k :| 0 <= k < |b| && b[k].id == id;
      assert (a + b)[|a| + k].id == id;
    }
  }

  lemma {:induction false} PutJoins(rows: map<string, Payload>, a: seq<Finding>, b: seq<Finding>)
    ensures Put(rows, a + b) == Put(Put(rows, a), b)
    decreases |b|
  {
    if b == [] {
      assert a + b == a;
    } else {
      assert (a + b)[..|a + b| - 1] == a + b[..|b| - 1];
      PutJoins(rows, a, b[..|b| - 1]);
    }
  }

  /** No row the first scan writes is stale for the second. */
  ghost predicate Unharmed(p: Policy, findings: seq<Finding>, completed: set<string>, registered: set<string>) {
    var rows := Put(map[], findings);
    forall id :: id in rows ==> !Stale(p, rows[id], completed, registered)
  }

  ghost predicate DisjointIds(a: seq<Finding>, b: seq<Finding>) {
    forall i, j :: 0 <= i < |a| && 0 <= j < |b| ==> a[i].id != b[j].id
  }

  /** What either way of scanning leaves under one id. */
  lemma ScanAt(p: Policy, l: Ledger, a: seq<Finding>, b: seq<Finding>, c: set<string>, d: set<string>, registered: set<string>, id: string)
    requires id in Put(map[], a) ==> Files(b, id) || !Stale(p, Put(map[], a)[id], d, registered)
    ensures var twice := RecordScan(p, RecordScan(p, l, a, c, registered), b, d, registered).findings;
            var once := RecordScan(p, l, a + b, c + d, registered).findings;
            (id in twice <==> id in once) && (id in once ==> twice[id] == once[id])
  {
    hide Stale, Encode;
    var kept := Keep(p, l.findings, c, registered);
    PutJoins(Keep(p, l.findings, c + d, registered), a, b);
    PutAt(kept, a, id);
    PutAt(Keep(p, Put(kept, a), d, registered), b, id);
    PutAt(Keep(p, l.findings, c + d, registered), a, id);
    PutAt(Put(Keep(p, l.findings, c + d, registered), a), b, id);
    if id in l.findings { StaleJoins(p, l.findings[id], c, d, registered); }
  }

  lemma StaleJoins(p: Policy, row: Payload, c: set<string>, d: set<string>, registered: set<string>)
    ensures Stale(p, row, c + d, registered) <==> Stale(p, row, c, registered) || Stale(p, row, d, registered)
  {
  }

  /** Scanning twice is scanning once exactly when the second scan spares what the first wrote. */
  lemma TwoScansAreOne(p: Policy, l: Ledger, a: seq<Finding>, b: seq<Finding>, c: set<string>, d: set<string>, registered: set<string>)
    requires DisjointIds(a, b)
    ensures RecordScan(p, RecordScan(p, l, a, c, registered), b, d, registered) == RecordScan(p, l, a + b, c + d, registered)
       <==> Unharmed(p, a, d, registered)
  {
    hide Stale, Encode, Keep;
    var twice := RecordScan(p, RecordScan(p, l, a, c, registered), b, d, registered);
    var once := RecordScan(p, l, a + b, c + d, registered);
    if Unharmed(p, a, d, registered) {
      forall id ensures (id in twice.findings <==> id in once.findings) && (id in once.findings ==> twice.findings[id] == once.findings[id]) {
        ScanAt(p, l, a, b, c, d, registered, id);
      }
      assert twice.findings == once.findings;
    } else {
      var id :| id in Put(map[], a) && Stale(p, Put(map[], a)[id], d, registered);
      HarmedIsLost(p, l, a, b, c, d, registered, id);
    }
  }

  lemma HarmedIsLost(p: Policy, l: Ledger, a: seq<Finding>, b: seq<Finding>, c: set<string>, d: set<string>, registered: set<string>, id: string)
    requires DisjointIds(a, b) && id in Put(map[], a) && Stale(p, Put(map[], a)[id], d, registered)
    ensures id !in RecordScan(p, RecordScan(p, l, a, c, registered), b, d, registered).findings
    ensures id in RecordScan(p, l, a + b, c + d, registered).findings
  {
    hide Stale, Encode;
    var kept := Keep(p, l.findings, c, registered);
    PutAt(map[], a, id);
    PutAt(kept, a, id);
    PutAt(Keep(p, Put(kept, a), d, registered), b, id);
    FilesJoin(a, b, id);
    PutAt(Keep(p, l.findings, c + d, registered), a + b, id);
  }

  /** A second scan that wipes the first: nothing of the first is left, though one scan
      with both detectors would have kept it. */
  lemma SecondScanWipesFirst(p: Policy, f: Finding)
    requires Storable(p, f)
    ensures var first := RecordScan(p, EMPTY, [f], {f.source}, {f.source});
            RecordScan(p, first, [], {f.source}, {f.source}).findings == map[] && f.id in RecordScan(p, EMPTY, [f] + [], {f.source}, {f.source}).findings
  {
    RowRoundTrip(p, f);
    hide Storable, Decode, Encode;
    assert [f][..0] == [] && [f] + [] == [f];
    assert Put(map[], [f]) == map[f.id := Encode(f)];
    assert Keep(p, map[], {f.source}, {f.source}) == map[];
  }

  /** Detectors report under their own names: with storable findings, disjoint completed
      sets inside the registered list and disjoint ids, two partial scans commute and
      amount to one. */
  lemma PartialScansCommute(p: Policy, l: Ledger, a: seq<Finding>, b: seq<Finding>, c: set<string>, d: set<string>, registered: set<string>)
    requires DisjointIds(a, b) && c !! d && (registered == {} || c + d <= registered)
    requires forall f :: f in a ==> Storable(p, f) && f.source in c
    requires forall f :: f in b ==> Storable(p, f) && f.source in d
    ensures var once := RecordScan(p, l, a + b, c + d, registered);
            && RecordScan(p, RecordScan(p, l, a, c, registered), b, d, registered) == once
            && RecordScan(p, RecordScan(p, l, b, d, registered), a, c, registered) == once
  {
    OwnRowsUnharmed(p, a, c, d, registered);
    OwnRowsUnharmed(p, b, d, c, registered);
    TwoScansAreOne(p, l, a, b, c, d, registered);
    TwoScansAreOne(p, l, b, a, d, c, registered);
    assert c + d == d + c;
    PutCommutes(Keep(p, l.findings, c + d, registered), a, b);
  }

  lemma {:induction false} RowsAreEncoded(findings: seq<Finding>, id: string) returns (f: Finding)
    requires id in Put(map[], findings)
    ensures f in findings && Put(map[], findings)[id] == Encode(f)
  {
    var before, last := findings[..|findings| - 1], findings[|findings| - 1];
    if last.id == id {
      f := last;
    } else {
      f := RowsAreEncoded(before, id);
    }
  }

  lemma OwnRowsUnharmed(p: Policy, findings: seq<Finding>, own: set<string>, other: set<string>, registered: set<string>)
    requires own !! other && (registered == {} || own <= registered)
    requires forall f :: f in findings ==> Storable(p, f) && f.source in own
    ensures Unharmed(p, findings, other, registered)
  {
    hide Encode, Decode, Storable;
    var rows := Put(map[], findings);
    forall id | id in rows ensures !Stale(p, rows[id], other, registered) {
      var f := RowsAreEncoded(findings, id);
      RowRoundTrip(p, f);
    }
  }

  lemma PutCommutes(rows: map<string, Payload>, a: seq<Finding>, b: seq<Finding>)
    requires DisjointIds(a, b)
    ensures Put(rows, a + b) == Put(rows, b + a)
  {
    hide Encode;
    PutJoins(rows, a, b);
    PutJoins(rows, b, a);
    forall id ensures (id in Put(rows, a + b) <==> id in Put(rows, b + a)) && (id in Put(rows, a + b) ==> Put(rows, a + b)[id] == Put(rows, b + a)[id]) {
      PutAt(rows, a, id);
      PutAt(rows, b, id);
      PutAt(Put(rows, a), b, id);
      PutAt(Put(rows, b), a, id);
    }
  }

  /* ----- The ledger as it runs ----- */

  class LedgerStore {
    const policy: Policy
    var findings: map<string, Payload>
    var dismissed: set<string>

    ghost function View(): Ledger
      reads this
    {
      Ledger(findings, dismissed)
    }

    constructor (policy: Policy)
      ensures View() == EMPTY && this.policy == policy
    {
      this.policy := policy;
      findings, dismissed := map[], {};
    }

    /** Stale rows are collected, deleted, and the new rows written over what is left. */
    method Record(found: seq<Finding>, completed: set<string>, registered: set<string>)
      modifies `findings
      ensures View() == RecordScan(policy, old(View()), found, completed, registered)
    {
      hide Stale, Encode;
      ghost var before := findings;
      var stale: set<string> := {};
      var rest := findings.Keys;
      while rest != {}
        invariant rest <= findings.Keys && findings == before
        invariant stale == set id | id in before && id !in rest && Stale(policy, before[id], completed, registered)
        decreases rest
      {
        var id :| id in rest;
        rest := rest - {id};
        if Stale(policy, findings[id], completed, registered) {
          stale := stale + {id};
        }
      }
      while stale != {}
        invariant findings == map id | id in before && (id in stale || !Stale(policy, before[id], completed, registered)) :: before[id]
        decreases stale
      {
        var id :| id in stale;
        findings := findings - {id};
        stale := stale - {id};
      }
      assert findings == Keep(policy, before, completed, registered);
      for i := 0 to |found|
        invariant findings == Put(Keep(policy, before, completed, registered), found[..i])
      {
        assert found[..i + 1][..i] == found[..i];
        findings := findings[found[i].id := Encode(found[i])];
      }
      assert found[..|found|] == found;
    }

    method Find(id: string) returns (f: Option<Finding>)
      ensures f == Get(policy, View(), id)
    {
      if id in findings && id !in dismissed {
        return Decode(policy, findings[id]);
      }
      return None;
    }

    /** The readable rows that are not dismissed, in some order. */
    method ListActive() returns (seen: seq<Finding>)
      ensures (set f | f in seen) == Active(policy, View())
    {
      hide Decode;
      seen := [];
      var rest := findings.Keys;
      while rest != {}
        invariant rest <= findings.Keys
        invariant forall f :: f in seen <==> exists id :: id in findings && id !in rest && Listed(id, f)
        decreases rest
      {
        var id :| id in rest;
        var row := if id in dismissed then None else Decode(policy, findings[id]);
        ghost var before, was := rest, seen;
        rest := rest - {id};
        if row.Some? {
          seen := seen + [row.value];
        }
        forall f ensures f in seen <==> exists x :: x in findings && x !in rest && Listed(x, f) {
          if f in was {
            var x :| x in findings && x !in before && Listed(x, f);
            assert x !in rest;
          }
          if row == Some(f) { assert Listed(id, f); }
        }
      }
    }

    ghost predicate Listed(id: string, f: Finding)
      reads this
    {
      id in findings && id !in dismissed && Decode(policy, findings[id]) == Some(f)
    }

    method HideFinding(id: string)
      modifies `dismissed
      ensures View() == Dismiss(old(View()), id)
    {
      dismissed := dismissed + {id};
    }
  }
}
