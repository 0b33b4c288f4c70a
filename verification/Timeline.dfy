/** The history page: submitted 212 statuses with their echoes folded in, and the lifecycle summary. */
module Timeline {
  import opened Wrappers

  datatype Kind = CdarEvent | PaidSubmitted | FlowSubmitted | Other

  /** An audit log row as the history reads it; `code` is `int(code)` of a numeric CDAR code, 999 otherwise. */
  datatype Row = Row(
    pk: nat,
    time: Option<nat>,
    kind: Kind,
    code: nat,
    direction: string,
    role: string,
    document: string)

  datatype Entry = Entry(row: Row, echo: Option<Row>)

  const MICROSECONDS := 1_000_000

  // ---------- order ----------

  /** `_chronological_key`: second, statuses before other rows, code, exact time. */
  function SortKey(r: Row): (nat, nat, nat, nat)
    requires r.time.Some?
  {
    var second := r.time.value / MICROSECONDS;
    if r.kind.CdarEvent? then (second, 0, r.code, r.time.value) else (second, 1, 0, r.time.value)
  }

  predicate KeyAtLeast(a: (nat, nat, nat, nat), b: (nat, nat, nat, nat)) {
    a.0 > b.0 || (a.0 == b.0 && (a.1 > b.1 || (a.1 == b.1 && (a.2 > b.2 || (a.2 == b.2 && a.3 >= b.3)))))
  }

  predicate Timed(rows: seq<Row>) {
    forall r | r in rows :: r.time.Some?
  }

  predicate NewestFirst(rows: seq<Row>)
    requires Timed(rows)
  {
    forall i, j | 0 <= i < j < |rows| :: KeyAtLeast(SortKey(rows[i]), SortKey(rows[j]))
  }

  /** Insert after the rows with a greater or equal key. */
  function Insert(rows: seq<Row>, r: Row): (s: seq<Row>)
    requires Timed(rows) && r.time.Some? && NewestFirst(rows)
    ensures multiset(s) == multiset(rows) + multiset{r}
    ensures Timed(s) && NewestFirst(s)
  {
    if rows == [] then [r]
    else
      var n := |rows| - 1;
      assert rows == rows[..n] + [rows[n]];
      if KeyAtLeast(SortKey(rows[n]), SortKey(r)) then Appended(rows, r)
      else
        assert NewestFirst(rows[..n]);
        var before := Insert(rows[..n], r);
        InsertedBefore(rows, r, before);
        before + [rows[n]]
  }

  function Appended(rows: seq<Row>, r: Row): (s: seq<Row>)
    requires Timed(rows) && r.time.Some? && rows != [] && NewestFirst(rows)
    requires KeyAtLeast(SortKey(rows[|rows| - 1]), SortKey(r))
    ensures s == rows + [r] && Timed(s) && NewestFirst(s) && multiset(s) == multiset(rows) + multiset{r}
  {
    rows + [r]
  }

  lemma InsertedBefore(rows: seq<Row>, r: Row, before: seq<Row>)
    requires Timed(rows) && r.time.Some? && rows != [] && NewestFirst(rows)
    requires !KeyAtLeast(SortKey(rows[|rows| - 1]), SortKey(r))
    requires Timed(before) && NewestFirst(before) && multiset(before) == multiset(rows[..|rows| - 1]) + multiset{r}
    ensures Timed(before + [rows[|rows| - 1]]) && NewestFirst(before + [rows[|rows| - 1]])
    ensures multiset(before + [rows[|rows| - 1]]) == multiset(rows) + multiset{r}
  {
    var last := rows[|rows| - 1];
    assert rows == rows[..|rows| - 1] + [last];
    forall x | x in before ensures KeyAtLeast(SortKey(x), SortKey(last)) {
      assert x in multiset(before);
      assert x == r || x in rows[..|rows| - 1];
    }
  }

  /** `sort(key=_chronological_key, reverse=True)` of the rows that have a timestamp. */
  function Sorted(rows: seq<Row>): (s: seq<Row>)
    ensures Timed(s) && NewestFirst(s)
  {
    if rows == [] then []
    else
      var before, r := Sorted(rows[..|rows| - 1]), rows[|rows| - 1];
      if r.time.None? then before else Insert(before, r)
  }

  function Select(rows: seq<Row>, p: Row -> bool): (s: seq<Row>)
    ensures forall r :: r in s <==> r in rows && p(r)
  {
    if rows == [] then []
    else
      assert rows == rows[..|rows| - 1] + [rows[|rows| - 1]];
      Select(rows[..|rows| - 1], p) + if p(rows[|rows| - 1]) then [rows[|rows| - 1]] else []
  }

  lemma {:induction false} SortedIsPermutation(rows: seq<Row>)
    ensures multiset(Sorted(rows)) == multiset(Select(rows, (r: Row) => r.time.Some?))
  {
    if rows != [] {
      SortedIsPermutation(rows[..|rows| - 1]);
    }
  }

  function WithKey(key: (nat, nat, nat, nat)): Row -> bool {
    (r: Row) => r.time.Some? && SortKey(r) == key
  }

  lemma FrontSorted(rows: seq<Row>)
    requires Timed(rows) && NewestFirst(rows) && rows != []
    ensures NewestFirst(rows[..|rows| - 1]) && rows == rows[..|rows| - 1] + [rows[|rows| - 1]]
  {
  }

  lemma SelectLast(rows: seq<Row>, r: Row, p: Row -> bool)
    ensures Select(rows + [r], p) == Select(rows, p) + if p(r) then [r] else []
  {
    assert (rows + [r])[..|rows|] == rows;
  }

  lemma {:induction false} InsertIsStable(rows: seq<Row>, r: Row, key: (nat, nat, nat, nat))
    requires Timed(rows) && r.time.Some? && NewestFirst(rows)
    ensures Select(Insert(rows, r), WithKey(key))
         == Select(rows, WithKey(key)) + if SortKey(r) == key then [r] else []
  {
    hide Select, SortKey, NewestFirst;
    if rows == [] || KeyAtLeast(SortKey(rows[|rows| - 1]), SortKey(r)) {
      assert Insert(rows, r) == rows + [r];
      SelectLast(rows, r, WithKey(key));
    } else {
      var front, last := rows[..|rows| - 1], rows[|rows| - 1];
      assert rows == front + [last] && NewestFirst(front) by { FrontSorted(rows); }
      InsertIsStable(front, r, key);
      SelectLast(Insert(front, r), last, WithKey(key));
      SelectLast(front, last, WithKey(key));
    }
  }

  /** Rows that compare equal keep the order they were read in. */
  lemma {:induction false} SortIsStable(rows: seq<Row>, key: (nat, nat, nat, nat))
    ensures Select(Sorted(rows), WithKey(key)) == Select(rows, WithKey(key))
  {
    if rows != [] {
      var n := |rows| - 1;
      SortIsStable(rows[..n], key);
      if rows[n].time.Some? {
        InsertIsStable(Sorted(rows[..n]), rows[n], key);
      }
    }
  }

  // ---------- echoes ----------

  predicate Outgoing(r: Row) {
    if r.direction != "" then r.direction == "out" else r.role == "SE"
  }

  /** The first submitted row a polled event reflects back. */
  function EchoOf(r: Row, submitted: seq<Row>): (s: Option<Row>)
    ensures s.Some? ==> s.value in submitted
  {
    if !r.kind.CdarEvent? || r.code != 212 || !Outgoing(r) || submitted == [] then None
    else if r.document == "" || submitted[0].document == r.document then Some(submitted[0])
    else EchoOf(r, submitted[1..])
  }

  function SubmittedRows(logs: seq<Row>): seq<Row> {
    Select(logs, (r: Row) => r.kind.PaidSubmitted?)
  }

  /** The newest row whose echo target is `sent`. */
  function FoldedInto(logs: seq<Row>, submitted: seq<Row>, sent: Row): (e: Option<Row>)
    ensures e.Some? ==> e.value in logs && EchoOf(e.value, submitted) == Some(sent)
    ensures e.None? ==> forall r | r in logs :: EchoOf(r, submitted) != Some(sent)
  {
    if logs == [] then None
    else if EchoOf(logs[0], submitted) == Some(sent) then Some(logs[0])
    else FoldedInto(logs[1..], submitted, sent)
  }

  /** No row that echoes the same submission is newer. */
  lemma {:induction false} NewestEcho(logs: seq<Row>, submitted: seq<Row>, sent: Row, r: Row)
    requires Timed(logs) && NewestFirst(logs) && r in logs && EchoOf(r, submitted) == Some(sent)
    ensures var e := FoldedInto(logs, submitted, sent);
            e.Some? && KeyAtLeast(SortKey(e.value), SortKey(r))
  {
    if EchoOf(logs[0], submitted) == Some(sent) {
      var i :| 0 <= i < |logs| && logs[i] == r;
    } else {
      NewestEcho(logs[1..], submitted, sent, r);
    }
  }

  /** The row is shown inside another entry. */
  predicate Folded(logs: seq<Row>, r: Row) {
    var submitted := SubmittedRows(logs);
    var target := EchoOf(r, submitted);
    target.Some? && FoldedInto(logs, submitted, target.value) == Some(r)
  }

  function EntryFor(logs: seq<Row>, r: Row): Entry {
    Entry(r, if r.kind.PaidSubmitted? then FoldedInto(logs, SubmittedRows(logs), r) else None)
  }

  function EntriesFrom(logs: seq<Row>, rows: seq<Row>): seq<Entry> {
    if rows == [] then []
    else
      var n := |rows| - 1;
      EntriesFrom(logs, rows[..n]) + if Folded(logs, rows[n]) then [] else [EntryFor(logs, rows[n])]
  }

  function BuildTimeline(rows: seq<Row>): seq<Entry> {
    EntriesFrom(Sorted(rows), Sorted(rows))
  }

  predicate DistinctKeys(rows: seq<Row>) {
    forall i, j | 0 <= i < j < |rows| :: rows[i].pk != rows[j].pk
  }

  // ---------- the computation ----------

  /** `build_timeline` on the sorted rows: `echoes` by primary key, then one entry a row not folded. */
  method BuildEntries(logs: seq<Row>) returns (entries: seq<Entry>)
    requires DistinctKeys(logs)
    ensures entries == EntriesFrom(logs, logs)
  {
    hide Folded, EchoMap, FoldedInto, EchoOf, Select, DistinctKeys;
    var submitted := SubmittedRows(logs);
    var echoes := CollectEchoes(logs, submitted);
    entries := [];
    for i := 0 to |logs|
      invariant entries == EntriesFrom(logs, logs[..i])
    {
      var log := logs[i];
      assert logs[..i + 1][..i] == logs[..i] && log in logs;
      EchoLookup(logs, submitted, echoes, log);
      if !exists pk | pk in echoes :: echoes[pk].pk == log.pk {
        entries := entries + [Entry(log, if log.pk in echoes then Some(echoes[log.pk]) else None)];
      }
    }
    assert logs[..|logs|] == logs;
  }

  ghost predicate EchoMap(logs: seq<Row>, submitted: seq<Row>, echoes: map<nat, Row>) {
    && (forall pk | pk in echoes ::
          echoes[pk] in logs && EchoOf(echoes[pk], submitted).Some? && EchoOf(echoes[pk], submitted).value.pk == pk
          && FoldedInto(logs, submitted, EchoOf(echoes[pk], submitted).value) == Some(echoes[pk]))
    && (forall sent | sent in submitted && FoldedInto(logs, submitted, sent).Some? ::
          sent.pk in echoes && echoes[sent.pk] == FoldedInto(logs, submitted, sent).value)
  }

  method CollectEchoes(logs: seq<Row>, submitted: seq<Row>) returns (echoes: map<nat, Row>)
    requires DistinctKeys(logs) && forall r | r in submitted :: r in logs
    ensures EchoMap(logs, submitted, echoes)
  {
    echoes := map[];
    for i := 0 to |logs|
      invariant EchoMap(logs[..i], submitted, echoes)
    {
      var sent := EchoOf(logs[i], submitted);
      EchoMapStep(logs, submitted, echoes, i);
      if sent.Some? && sent.value.pk !in echoes {
        echoes := echoes[sent.value.pk := logs[i]];
      }
    }
    assert logs[..|logs|] == logs;
  }

  lemma SameRow(logs: seq<Row>, a: Row, b: Row)
    requires DistinctKeys(logs) && a in logs && b in logs && a.pk == b.pk
    ensures a == b
  {
  }

  lemma {:induction false} FoldedIntoMore(logs: seq<Row>, submitted: seq<Row>, r: Row, sent: Row)
    ensures FoldedInto(logs + [r], submitted, sent)
         == if FoldedInto(logs, submitted, sent).Some? then FoldedInto(logs, submitted, sent)
            else if EchoOf(r, submitted) == Some(sent) then Some(r) else None
  {
    if logs != [] {
      FoldedIntoMore(logs[1..], submitted, r, sent);
      assert (logs + [r])[1..] == logs[1..] + [r];
    } else {
      assert (logs + [r])[1..] == [];
    }
  }

  lemma EchoMapStep(logs: seq<Row>, submitted: seq<Row>, echoes: map<nat, Row>, i: nat)
    requires i < |logs| && DistinctKeys(logs) && (forall r | r in submitted :: r in logs)
    requires EchoMap(logs[..i], submitted, echoes)
    ensures var sent := EchoOf(logs[i], submitted);
            EchoMap(logs[..i + 1], submitted,
                    if sent.Some? && sent.value.pk !in echoes then echoes[sent.value.pk := logs[i]] else echoes)
  {
    hide EchoOf, FoldedInto, DistinctKeys;
    var r, sent := logs[i], EchoOf(logs[i], submitted);
    var now, next := logs[..i], logs[..i + 1];
    var echoes' := if sent.Some? && sent.value.pk !in echoes then echoes[sent.value.pk := r] else echoes;
    assert next == now + [r];
    forall x | x in submitted && sent.Some? && x.pk == sent.value.pk ensures x == sent.value {
      SameRow(logs, x, sent.value);
    }
    forall pk | pk in echoes'
      ensures echoes'[pk] in next && EchoOf(echoes'[pk], submitted).Some?
      ensures EchoOf(echoes'[pk], submitted).value.pk == pk
      ensures FoldedInto(next, submitted, EchoOf(echoes'[pk], submitted).value) == Some(echoes'[pk])
    {
      FoldedIntoMore(now, submitted, r, EchoOf(echoes'[pk], submitted).value);
    }
    forall x | x in submitted && FoldedInto(next, submitted, x).Some?
      ensures x.pk in echoes' && echoes'[x.pk] == FoldedInto(next, submitted, x).value
    {
      FoldedIntoMore(now, submitted, r, x);
    }
  }

  lemma EchoLookup(logs: seq<Row>, submitted: seq<Row>, echoes: map<nat, Row>, log: Row)
    requires DistinctKeys(logs) && submitted == SubmittedRows(logs) && EchoMap(logs, submitted, echoes) && log in logs
    ensures Folded(logs, log) <==> exists pk | pk in echoes :: echoes[pk].pk == log.pk
    ensures EntryFor(logs, log).echo == if log.pk in echoes then Some(echoes[log.pk]) else None
  {
    if Folded(logs, log) {
      var target := EchoOf(log, submitted).value;
      assert echoes[target.pk] == log;
    }
    if pk :| pk in echoes && echoes[pk].pk == log.pk {
      SameRow(logs, echoes[pk], log);
    }
    if log.pk in echoes {
      SameRow(logs, EchoOf(echoes[log.pk], submitted).value, log);
    }
  }

  // ---------- nothing is lost ----------

  function RowsShown(entries: seq<Entry>): seq<Row> {
    if entries == [] then [] else RowsShown(entries[..|entries| - 1]) + [entries[|entries| - 1].row]
  }

  lemma {:induction false} ShownRows(logs: seq<Row>, rows: seq<Row>)
    ensures RowsShown(EntriesFrom(logs, rows)) == Select(rows, (r: Row) => !Folded(logs, r))
  {
    if rows != [] {
      var n := |rows| - 1;
      ShownRows(logs, rows[..n]);
      var before := EntriesFrom(logs, rows[..n]);
      assert (before + [EntryFor(logs, rows[n])])[..|before|] == before;
      assert before + [] == before;
    }
  }

  lemma {:induction false} EntriesAre(logs: seq<Row>, rows: seq<Row>)
    ensures forall e :: e in EntriesFrom(logs, rows)
                        <==> exists r | r in rows :: !Folded(logs, r) && e == EntryFor(logs, r)
  {
    if rows != [] {
      var n := |rows| - 1;
      assert rows == rows[..n] + [rows[n]];
      EntriesAre(logs, rows[..n]);
    }
  }

  /** The entries are the timestamped rows in order, the folded ones left out. */
  lemma EntriesInOrder(rows: seq<Row>)
    ensures RowsShown(BuildTimeline(rows)) == Select(Sorted(rows), (r: Row) => !Folded(Sorted(rows), r))
  {
    ShownRows(Sorted(rows), Sorted(rows));
  }

  lemma SubmittedKeepsEntry(logs: seq<Row>, sent: Row)
    requires sent.kind.PaidSubmitted?
    ensures !Folded(logs, sent)
  {
  }

  /** Every timestamped row is shown: as an entry of its own unless folded, and if folded, inside the
      entry of the submitted row it echoes. */
  lemma EveryRowShown(rows: seq<Row>, r: Row)
    requires r in rows && r.time.Some?
    ensures var logs, entries := Sorted(rows), BuildTimeline(rows);
            && (!Folded(logs, r) <==> EntryFor(logs, r) in entries)
            && (Folded(logs, r) <==> exists sent :: Entry(sent, Some(r)) in entries)
  {
    var logs, submitted := Sorted(rows), SubmittedRows(Sorted(rows));
    SortedIsPermutation(rows);
    assert r in Select(rows, (x: Row) => x.time.Some?);
    assert r in multiset(logs);
    EntriesAre(logs, logs);
    forall e | e in BuildTimeline(rows) && e.echo == Some(r) ensures Folded(logs, r) {
      EchoIsFolded(rows, e);
    }
    forall e | e in BuildTimeline(rows) && e == EntryFor(logs, r) ensures !Folded(logs, r) {
      assert e.row == r;
    }
    if Folded(logs, r) {
      var sent := EchoOf(r, submitted).value;
      SubmittedKeepsEntry(logs, sent);
      assert sent in submitted && EntryFor(logs, sent) == Entry(sent, Some(r));
    }
  }

  lemma EchoIsFolded(rows: seq<Row>, e: Entry)
    requires e in BuildTimeline(rows) && e.echo.Some?
    ensures e == EntryFor(Sorted(rows), e.row) && Folded(Sorted(rows), e.echo.value)
  {
    EntriesAre(Sorted(rows), Sorted(rows));
  }

  /** A folded row is inside one entry only, which is that of a submitted 212, and has none of its own. */
  lemma ShownOnce(rows: seq<Row>, e: Entry)
    requires e in BuildTimeline(rows) && e.echo.Some?
    ensures e.row.kind.PaidSubmitted? && e.echo.value.kind.CdarEvent?
    ensures forall f | f in BuildTimeline(rows) :: f.row != e.echo.value && (f.echo == e.echo ==> f == e)
  {
    var logs := Sorted(rows);
    EchoIsFolded(rows, e);
    forall f | f in BuildTimeline(rows) ensures f.row != e.echo.value && (f.echo == e.echo ==> f == e) {
      EntriesAre(logs, logs);
      if f.echo == e.echo {
        EchoIsFolded(rows, f);
      }
    }
  }

  // ---------- lifecycle summary ----------

  datatype StepState = Done | Pending | Warn | Error

  datatype Step = Step(code: nat, state: StepState)

  const MAIN_PATH: set<nat> := {200, 202, 203, 212}
  const STOPS: set<nat> := {210, 213}
  const WARNINGS: set<nat> := {207, 208}

  /** The codes of LIFECYCLE_LABELS. */
  predicate Labelled(code: nat) {
    200 <= code <= 213
  }

  function StateOf(code: nat, reached: set<nat>): StepState {
    if code !in reached then Pending else if code in STOPS then Error else if code in WARNINGS then Warn else Done
  }

  /** The labelled statuses received, and 212 once submitted. */
  function Reached(logs: seq<Row>): set<nat> {
    (set r | r in logs && r.kind.CdarEvent? && Labelled(r.code) :: r.code)
    + (set r | r in logs && r.kind.PaidSubmitted? :: 212)
  }

  ghost predicate OnPlatform(logs: seq<Row>) {
    Reached(logs) != {} || exists r | r in logs :: r.kind.FlowSubmitted?
  }

  /** `lifecycle_steps`: what the rows reached, then one step a code in ascending order. */
  method LifecycleSteps(logs: seq<Row>) returns (steps: Option<seq<Step>>)
    ensures steps.Some? <==> OnPlatform(logs)
    ensures steps.Some? ==> Summary(steps.value, Reached(logs))
  {
    var reached: set<nat>, submitted := {}, false;
    for i := 0 to |logs|
      invariant reached == Reached(logs[..i])
      invariant submitted <==> exists r | r in logs[..i] :: r.kind.FlowSubmitted?
    {
      assert logs[..i + 1] == logs[..i] + [logs[i]];
      match logs[i].kind
      case FlowSubmitted => submitted := true;
      case PaidSubmitted => reached := reached + {212};
      case CdarEvent => if Labelled(logs[i].code) { reached := reached + {logs[i].code}; }
      case Other =>
    }
    assert logs[..|logs|] == logs;
    if reached == {} && !submitted {
      return None;
    }
    var shown := StepsOf(reached);
    steps := Some(shown);
  }

  method StepsOf(reached: set<nat>) returns (r: seq<Step>)
    requires forall c | c in reached :: Labelled(c)
    ensures Summary(r, reached)
  {
    var stop := reached * STOPS != {};
    r := [];
    for code: nat := 200 to 214
      invariant forall i | 0 <= i < |r| :: 200 <= r[i].code < code && r[i].state == StateOf(r[i].code, reached)
      invariant forall i, j | 0 <= i < j < |r| :: r[i].code < r[j].code
      invariant forall c: nat | 200 <= c < code ::
                  (exists i | 0 <= i < |r| :: r[i].code == c) <==> Shown(c, reached)
    {
      if code in reached + MAIN_PATH && !(code !in reached && (stop || code in STOPS)) {
        ghost var before := r;
        r := r + [Step(code, StateOf(code, reached))];
        assert forall i | 0 <= i < |before| :: r[i] == before[i];
        assert r[|r| - 1].code == code;
      }
    }
  }

  predicate Shown(c: nat, reached: set<nat>) {
    c in reached || (c in MAIN_PATH && reached * STOPS == {})
  }

  /** The codes rise strictly; they are the codes reached and, unless the invoice was refused or
      rejected, those of the main path; what is not reached is pending. */
  ghost predicate Summary(steps: seq<Step>, reached: set<nat>) {
    && (forall i, j | 0 <= i < j < |steps| :: steps[i].code < steps[j].code)
    && (forall i | 0 <= i < |steps| :: Labelled(steps[i].code) && steps[i].state == StateOf(steps[i].code, reached))
    && (forall c: nat | Labelled(c) :: (exists i | 0 <= i < |steps| :: steps[i].code == c) <==> Shown(c, reached))
  }

  /** Once refused or rejected, nothing is pending any more and the stop is shown as an error. */
  lemma StoppedSummary(steps: seq<Step>, reached: set<nat>, stop: nat)
    requires Summary(steps, reached) && stop in reached && stop in STOPS
    ensures forall s | s in steps :: s.state != Pending
    ensures Step(stop, Error) in steps
  {
    assert stop in reached * STOPS;
    forall s | s in steps ensures s.state != Pending {
      var i :| 0 <= i < |steps| && steps[i] == s;
      assert Shown(s.code, reached);
    }
    assert Labelled(stop) && Shown(stop, reached);
    var i :| 0 <= i < |steps| && steps[i].code == stop;
    assert steps[i] == Step(stop, Error);
  }

  // ---------- the order, the echoes and the states, spelled out ----------

  /** Newest second first; within a second other rows before statuses, statuses by falling code, and rows
      alike by falling time. */
  lemma OrderPromise(rows: seq<Row>, i: nat, j: nat)
    requires i < j < |Sorted(rows)|
    ensures var a, b := Sorted(rows)[i], Sorted(rows)[j];
            && a.time.Some? && b.time.Some?
            && var x, y := a.time.value / 1_000_000, b.time.value / 1_000_000;
               && x >= y
               && (x == y && !b.kind.CdarEvent? ==> !a.kind.CdarEvent? && a.time.value >= b.time.value)
               && (x == y && a.kind.CdarEvent? && b.kind.CdarEvent? ==>
                     a.code >= b.code && (a.code == b.code ==> a.time.value >= b.time.value))
  {
    var s := Sorted(rows);
    assert s[i] in s && s[j] in s;
    assert KeyAtLeast(SortKey(s[i]), SortKey(s[j]));
  }

  /** A polled 212 that we sent ourselves, by its direction or else by the role of its issuer. */
  predicate OwnPayment(r: Row) {
    r.kind.CdarEvent? && r.code == 212 && if r.direction != "" then r.direction == "out" else r.role == "SE"
  }

  /** It echoes the first submission of its document, or the first of all when it names none. */
  lemma {:induction false} EchoPromise(r: Row, submitted: seq<Row>)
    ensures var e := EchoOf(r, submitted);
            && (e.None? <==>
                  !OwnPayment(r) || forall x | x in submitted :: r.document != "" && x.document != r.document)
            && (e.Some? ==> exists k | 0 <= k < |submitted| ::
                  && submitted[k] == e.value && (r.document == "" || submitted[k].document == r.document)
                  && forall j | 0 <= j < k :: r.document != "" && submitted[j].document != r.document)
  {
    if submitted != [] {
      EchoPromise(r, submitted[1..]);
      assert submitted[0] in submitted;
      if EchoOf(r, submitted).Some? && !(r.document == "" || submitted[0].document == r.document) {
        var k :| 0 <= k < |submitted[1..]| && submitted[1..][k] == EchoOf(r, submitted).value
                 && (r.document == "" || submitted[1..][k].document == r.document)
                 && forall j | 0 <= j < k :: r.document != "" && submitted[1..][j].document != r.document;
        assert submitted[k + 1] == submitted[1..][k];
        forall j | 0 <= j < k + 1 ensures r.document != "" && submitted[j].document != r.document {
          if j > 0 {
            assert submitted[j] == submitted[1..][j - 1];
          }
        }
      }
    }
  }

  /** What counts as reached: the codes 200 to 213 received, and 212 once submitted. */
  lemma ReachedPromise(logs: seq<Row>, code: nat)
    ensures code in Reached(logs)
       <==> exists r | r in logs ::
              (r.kind.CdarEvent? && r.code == code && 200 <= code <= 213) || (r.kind.PaidSubmitted? && code == 212)
  {
  }

  /** The state of each code shown. */
  lemma StatePromise(steps: seq<Step>, reached: set<nat>, s: Step)
    requires Summary(steps, reached) && s in steps
    ensures s.code in reached ==>
              s.state == if s.code in {210, 213} then Error else if s.code in {207, 208} then Warn else Done
    ensures s.code !in reached ==>
              s.state == Pending && s.code in {200, 202, 203, 212} && 210 !in reached && 213 !in reached
  {
    var i :| 0 <= i < |steps| && steps[i] == s;
    NoStop(reached);
    assert Labelled(s.code) && Shown(s.code, reached);
  }

  lemma NoStop(reached: set<nat>)
    ensures reached * STOPS == {} <==> 210 !in reached && 213 !in reached
  {
    assert 210 in reached ==> 210 in reached * STOPS;
    assert 213 in reached ==> 213 in reached * STOPS;
    assert forall c | c in reached * STOPS :: c == 210 || c == 213;
  }

  /** All codes reached are shown, and the main path too unless the invoice was refused or rejected. */
  lemma ShownPromise(steps: seq<Step>, reached: set<nat>, code: nat)
    requires Summary(steps, reached) && 200 <= code <= 213
    ensures (exists s | s in steps :: s.code == code)
       <==> code in reached || (code in {200, 202, 203, 212} && 210 !in reached && 213 !in reached)
  {
    assert Labelled(code);
    NoStop(reached);
    if exists s | s in steps :: s.code == code {
      var s :| s in steps && s.code == code;
      var i :| 0 <= i < |steps| && steps[i] == s;
      assert steps[i].code == code;
    }
    if Shown(code, reached) {
      var i :| 0 <= i < |steps| && steps[i].code == code;
      assert steps[i] in steps;
    }
  }

  lemma {:induction false} FoldedIntoFirst(logs: seq<Row>, submitted: seq<Row>, sent: Row, r: Row)
    ensures FoldedInto(logs, submitted, sent) == Some(r)
       <==> exists i | 0 <= i < |logs| ::
              && logs[i] == r && EchoOf(r, submitted) == Some(sent)
              && forall j | 0 <= j < i :: EchoOf(logs[j], submitted) != Some(sent)
  {
    hide EchoOf;
    if logs != [] && EchoOf(logs[0], submitted) != Some(sent) {
      FoldedIntoFirst(logs[1..], submitted, sent, r);
      if FoldedInto(logs, submitted, sent) == Some(r) {
        var i :| 0 <= i < |logs[1..]| && logs[1..][i] == r && EchoOf(r, submitted) == Some(sent)
                 && forall j | 0 <= j < i :: EchoOf(logs[1..][j], submitted) != Some(sent);
        assert logs[i + 1] == r;
        forall j | 0 <= j < i + 1 ensures EchoOf(logs[j], submitted) != Some(sent) {
          assert j > 0 ==> logs[j] == logs[1..][j - 1];
        }
      }
      if i :| 0 <= i < |logs| && logs[i] == r && EchoOf(r, submitted) == Some(sent)
              && forall j | 0 <= j < i :: EchoOf(logs[j], submitted) != Some(sent) {
        assert logs[1..][i - 1] == r;
        assert forall j | 0 <= j < i - 1 :: logs[1..][j] == logs[j + 1];
      }
    }
  }

  /** A row is folded away exactly when it is the first in order of those that echo its submission. */
  lemma FoldPromise(logs: seq<Row>, r: Row)
    ensures var submitted := SubmittedRows(logs);
            Folded(logs, r)
            <==> exists sent, i | EchoOf(r, submitted) == Some(sent) && 0 <= i < |logs| ::
                   logs[i] == r && forall j | 0 <= j < i :: EchoOf(logs[j], submitted) != Some(sent)
  {
    var submitted := SubmittedRows(logs);
    var target := EchoOf(r, submitted);
    if target.Some? {
      FoldedIntoFirst(logs, submitted, target.value, r);
    }
    hide EchoOf, FoldedInto;
  }

  /** The submissions are the rows that record one. */
  lemma SubmissionPromise(logs: seq<Row>, r: Row)
    ensures r in SubmittedRows(logs) <==> r in logs && r.kind.PaidSubmitted?
  {
  }
}
