/**
 * The append-only event table, its hash chain, and disposable snapshots
 * (src/agent_runtime_lab/persistence/sqlite_store.py).
 */
module EventStores {
  import opened Values
  import opened Events
  import opened RunStates
  import opened Reducer
  import opened Replay
  import opened Lifecycle
  import opened Snapshots

  // ----- The chain -----

  /** CHAIN_SEED, SHA-256 links taken to be injective, and any other text a damaged column may hold. */
  datatype Chain = ChainSeed | Link(previous: Chain, seal: Fingerprint) | OtherText(text: string)

  function NextChainDigest(previous: Chain, seal: Fingerprint): Chain {
    Link(previous, seal)
  }

  function ChainOf(events: seq<Event>): Chain {
    if events == [] then ChainSeed
    else NextChainDigest(ChainOf(events[..|events| - 1]), Fingerprint(events[|events| - 1]))
  }

  /** A chain digest identifies the whole event prefix below it. */
  lemma {:induction false} ChainBindsPrefix(a: seq<Event>, b: seq<Event>)
    requires ChainOf(a) == ChainOf(b)
    ensures a == b
  {
    if a != [] && b != [] {
      ChainBindsPrefix(a[..|a| - 1], b[..|b| - 1]);
      assert a == a[..|a| - 1] + [a[|a| - 1]];
      assert b == b[..|b| - 1] + [b[|b| - 1]];
    }
  }

  // ----- One run's rows -----

  datatype Row = Row(event: Event, fingerprint: Fingerprint, chain: Chain)

  function EventsOf(rows: seq<Row>): (events: seq<Event>)
    ensures |events| == |rows|
    ensures forall i :: 0 <= i < |rows| ==> events[i] == rows[i].event
  {
    seq(|rows|, i requires 0 <= i < |rows| => rows[i].event)
  }

  /** The rows of one run as appends leave them. */
  ghost predicate StoredRows(run: Text, rows: seq<Row>) {
    forall i :: 0 <= i < |rows| ==>
      && rows[i].event.runId == run
      && rows[i].event.sequence == i
      && rows[i].fingerprint == Fingerprint(rows[i].event)
      && rows[i].chain == ChainOf(EventsOf(rows)[..i + 1])
  }

  function PrefixChainDigest(rows: seq<Row>, nextSequence: int): Option<Chain> {
    if nextSequence < 0 then None
    else if nextSequence == 0 then Some(ChainSeed)
    else if nextSequence - 1 < |rows| then Some(rows[nextSequence - 1].chain)
    else None
  }

  lemma PrefixDigestIsChain(run: Text, rows: seq<Row>, n: nat)
    requires StoredRows(run, rows)
    ensures PrefixChainDigest(rows, n) == if n <= |rows| then Some(ChainOf(EventsOf(rows)[..n])) else None
  {
  }

  lemma RowsSnoc(run: Text, rows: seq<Row>, e: Event, chain: Chain)
    requires StoredRows(run, rows) && e.runId == run && e.sequence == |rows|
    requires chain == NextChainDigest(ChainOf(EventsOf(rows)), Fingerprint(e))
    ensures var rows' := rows + [Row(e, Fingerprint(e), chain)];
            StoredRows(run, rows') && EventsOf(rows') == EventsOf(rows) + [e]
  {
    var rows' := rows + [Row(e, Fingerprint(e), chain)];
    assert EventsOf(rows') == EventsOf(rows) + [e];
    forall i | 0 <= i < |rows'| ensures rows'[i].chain == ChainOf(EventsOf(rows')[..i + 1]) {
      if i < |rows| {
        assert EventsOf(rows')[..i + 1] == EventsOf(rows)[..i + 1];
      } else {
        assert EventsOf(rows')[..i + 1][..i] == EventsOf(rows);
      }
    }
  }

  // ----- Snapshot rows -----

  /**
   * What a column holds, as the driver reads it: a value of the column's type (or one that compares equal to it);
   * anything else that it returns, such as bytes or None, which compares equal to no such value; or text that is
   * not UTF-8, which it cannot return at all.
   */
  datatype Column<T> = Value(value: T) | OtherValue | Undecodable

  datatype SnapshotRow = SnapshotRow(schemaVersion: Column<int>, nextSequence: Column<int>, prefixChain: Column<Chain>,
                                     stateJson: Column<Json>, stateDigest: Column<StateDigest>)

  /** The row that `save_snapshot` writes, or None where it raises (sqlite_store.py:232-275). */
  function SnapshotOf(rows: seq<Row>, state: RunState): Option<SnapshotRow> {
    var prefix := PrefixChainDigest(rows, state.nextSequence);
    if prefix.None? then None
    else if |state.applied| != state.nextSequence then None
    else if state.nextSequence > |rows| then None
    else if ReplayRun(state.runId, EventsOf(rows)[..state.nextSequence]) != Ok(state) then None
    else
      Some(SnapshotRow(Value(SNAPSHOT_SCHEMA_VERSION), Value(state.nextSequence), Value(prefix.value),
                       Value(EncodeState(state)), Value(StateDigest(EncodeState(state)))))
  }

  /** All five columns are selected, so each of them must be one that the driver can return. */
  predicate Fetches(row: SnapshotRow) {
    && !row.schemaVersion.Undecodable? && !row.nextSequence.Undecodable? && !row.prefixChain.Undecodable?
    && !row.stateJson.Undecodable? && !row.stateDigest.Undecodable?
  }

  /**
   * Where `load_snapshot` raises: the fetch stands before its `try`; and in a row of the current schema it asks
   * state_json for its encoding, which only text has, with an error that it does not catch.
   */
  predicate RaisesOnLoad(row: SnapshotRow) {
    !Fetches(row) || (row.schemaVersion == Value(SNAPSHOT_SCHEMA_VERSION) && !row.stateJson.Value?)
  }

  /** The state that `load_snapshot` accepts from a row that it can read, if any (sqlite_store.py:277-312). */
  function AcceptedSnapshot(run: Text, rows: seq<Row>, row: SnapshotRow): Option<RunState> {
    if row.schemaVersion != Value(SNAPSHOT_SCHEMA_VERSION) || !row.stateJson.Value? then None
    else if row.stateDigest != Value(StateDigest(row.stateJson.value)) then None
    else
      var decoded := DecodeState(row.stateJson.value);
      if decoded.None? then None
      else
        var state := decoded.value;
        if state.runId != run || row.nextSequence != Value(state.nextSequence) then None
        else if |state.applied| != state.nextSequence then None
        else
          var prefix := PrefixChainDigest(rows, state.nextSequence);
          if prefix.None? || row.prefixChain != Value(prefix.value) then None else Some(state)
  }

  /** The events at or after a position, as `load_tail` selects them. */
  function Tail(events: seq<Event>, start: nat): seq<Event> {
    if start <= |events| then events[start..] else []
  }

  /** What loading a run comes to: the replay, or an error that no caller expects. */
  datatype Loading = Loaded(result: Result<RunState, ReduceError>) | LoadRaises

  /** Snapshot plus tail when a snapshot is accepted, full replay otherwise (authorized_tool_runtime.py:430-442). */
  function FastState(run: Text, rows: seq<Row>, row: Option<SnapshotRow>): Loading {
    if row.Some? && RaisesOnLoad(row.value) then LoadRaises
    else
      var snapshot := if row.None? then None else AcceptedSnapshot(run, rows, row.value);
      if snapshot.Some? then Loaded(Fold(snapshot.value, Tail(EventsOf(rows), snapshot.value.nextSequence)))
      else Loaded(ReplayRun(run, EventsOf(rows)))
  }

  /** Whatever the row holds, accepting it cannot change the answer. */
  ghost predicate Harmless(run: Text, rows: seq<Row>, row: SnapshotRow) {
    var snapshot := AcceptedSnapshot(run, rows, row);
    snapshot.Some? ==>
      && snapshot.value.nextSequence <= |rows|
      && ReplayRun(run, EventsOf(rows)[..snapshot.value.nextSequence]) == Ok(snapshot.value)
  }

  lemma HarmlessIsExact(run: Text, rows: seq<Row>, row: SnapshotRow)
    requires Harmless(run, rows, row)
    ensures FastState(run, rows, Some(row)) ==
            if RaisesOnLoad(row) then LoadRaises else Loaded(ReplayRun(run, EventsOf(rows)))
  {
    hide AcceptedSnapshot, Fold;
    var snapshot := AcceptedSnapshot(run, rows, row);
    if snapshot.Some? {
      var n := snapshot.value.nextSequence;
      FoldConcat(Initial(run), EventsOf(rows)[..n], EventsOf(rows)[n..]);
      assert EventsOf(rows)[..n] + EventsOf(rows)[n..] == EventsOf(rows);
    }
  }

  lemma SavedDecodes(run: Text, rows: seq<Row>, state: RunState)
    requires SnapshotOf(rows, state).Some? && StoredRows(run, rows) && state.runId == run && run != Raw("")
    ensures DecodeState(EncodeState(state)) == Some(state)
  {
    hide EncodeState, DecodeState;
    var prefix := EventsOf(rows)[..state.nextSequence];
    assert Accepted(run, prefix);
    ReachableShape(run, prefix);
    CodecRoundTrip(state);
  }

  /**
   * A snapshot saved against any log `saved` and accepted on any log `current` is the saved state, the two
   * logs share that whole prefix, and snapshot plus tail is full replay of `current`, errors included.
   */
  lemma AcceptedSnapshotIsExact(run: Text, saved: seq<Row>, current: seq<Row>, state: RunState)
    requires StoredRows(run, saved) && StoredRows(run, current) && run != Raw("") && state.runId == run
    requires SnapshotOf(saved, state).Some?
    requires AcceptedSnapshot(run, current, SnapshotOf(saved, state).value).Some?
    ensures var row := SnapshotOf(saved, state).value; var n := state.nextSequence;
            && AcceptedSnapshot(run, current, row) == Some(state)
            && n <= |saved| && n <= |current|
            && EventsOf(saved)[..n] == EventsOf(current)[..n]
            && FastState(run, current, Some(row)) == Loaded(ReplayRun(run, EventsOf(current)))
  {
    hide EncodeState, DecodeState;
    SavedDecodes(run, saved, state);
    var n := state.nextSequence;
    PrefixDigestIsChain(run, saved, n);
    PrefixDigestIsChain(run, current, n);
    ChainBindsPrefix(EventsOf(saved)[..n], EventsOf(current)[..n]);
    HarmlessIsExact(run, current, SnapshotOf(saved, state).value);
  }

  /** A snapshot row exists exactly for the states that a prefix of the stored log produces, the whole log or not. */
  lemma SnapshotExistsExactly(run: Text, rows: seq<Row>, state: RunState)
    requires StoredRows(run, rows) && state.runId == run
    ensures SnapshotOf(rows, state).Some? <==>
              state.nextSequence <= |rows| && ReplayRun(run, EventsOf(rows)[..state.nextSequence]) == Ok(state)
    ensures SnapshotOf(rows, state).Some? ==>
              && state.nextSequence <= |rows|
              && SnapshotOf(rows, state).value ==
                 SnapshotRow(Value(2), Value(state.nextSequence), Value(ChainOf(EventsOf(rows)[..state.nextSequence])),
                             Value(EncodeState(state)), Value(StateDigest(EncodeState(state))))
  {
    hide EncodeState, Fold;
    PrefixDigestIsChain(run, rows, state.nextSequence);
    if state.nextSequence <= |rows| && ReplayRun(run, EventsOf(rows)[..state.nextSequence]) == Ok(state) {
      ReplayBooks(run, EventsOf(rows)[..state.nextSequence]);
    }
  }

  /**
   * A snapshot saved against the log `saved` is accepted on the log `current`, as the state that it was saved for, if
   * and only if `current` begins with the events that the snapshot covers, however many follow; otherwise it is ignored.
   */
  lemma SnapshotIsAcceptedExactly(run: Text, saved: seq<Row>, current: seq<Row>, state: RunState)
    requires StoredRows(run, saved) && StoredRows(run, current) && run != Raw("") && state.runId == run
    requires SnapshotOf(saved, state).Some?
    ensures var row := SnapshotOf(saved, state).value; var n := state.nextSequence;
            && n <= |saved| && !RaisesOnLoad(row)
            && AcceptedSnapshot(run, current, row) ==
               if n <= |current| && EventsOf(current)[..n] == EventsOf(saved)[..n] then Some(state) else None
  {
    hide EncodeState, DecodeState;
    SavedDecodes(run, saved, state);
    var n := state.nextSequence;
    SnapshotExistsExactly(run, saved, state);
    PrefixDigestIsChain(run, current, n);
    if n <= |current| && ChainOf(EventsOf(current)[..n]) == ChainOf(EventsOf(saved)[..n]) {
      ChainBindsPrefix(EventsOf(current)[..n], EventsOf(saved)[..n]);
    }
  }

  /** All columns but one are as saved. */
  ghost predicate DamagedInOneColumn(row: SnapshotRow, damaged: SnapshotRow) {
    || damaged == row.(schemaVersion := damaged.schemaVersion)
    || damaged == row.(nextSequence := damaged.nextSequence)
    || damaged == row.(prefixChain := damaged.prefixChain)
    || damaged == row.(stateJson := damaged.stateJson)
    || damaged == row.(stateDigest := damaged.stateDigest)
  }

  /**
   * After damage to any one column of a saved row, and any appends, loading still gives the full replay, if and
   * only if every column can be fetched and state_json is text; otherwise it raises.
   */
  lemma DamageIsHarmless(run: Text, saved: seq<Row>, current: seq<Row>, state: RunState, damaged: SnapshotRow)
    requires StoredRows(run, saved) && StoredRows(run, current) && run != Raw("") && state.runId == run
    requires saved <= current
    requires SnapshotOf(saved, state).Some? && DamagedInOneColumn(SnapshotOf(saved, state).value, damaged)
    ensures Harmless(run, current, damaged)
    ensures FastState(run, current, Some(damaged)) == Loaded(ReplayRun(run, EventsOf(current)))
            <==> Fetches(damaged) && damaged.stateJson.Value?
    ensures !Fetches(damaged) || !damaged.stateJson.Value? ==> FastState(run, current, Some(damaged)) == LoadRaises
  {
    hide EncodeState, DecodeState, FastState;
    SavedDecodes(run, saved, state);
    assert EventsOf(current)[..state.nextSequence] == EventsOf(saved)[..state.nextSequence];
    HarmlessIsExact(run, current, damaged);
  }

  /** A fault overwrites one column. */
  datatype Damage =
    | OfSchemaVersion(schemaVersion: Column<int>)
    | OfNextSequence(nextSequence: Column<int>)
    | OfPrefixChain(prefixChain: Column<Chain>)
    | OfStateJson(stateJson: Column<Json>)
    | OfStateDigest(stateDigest: Column<StateDigest>)

  function Damaged(row: SnapshotRow, damage: Damage): SnapshotRow {
    match damage
    case OfSchemaVersion(n) => row.(schemaVersion := n)
    case OfNextSequence(n) => row.(nextSequence := n)
    case OfPrefixChain(c) => row.(prefixChain := c)
    case OfStateJson(j) => row.(stateJson := j)
    case OfStateDigest(d) => row.(stateDigest := d)
  }

  /**
   * One bit is enough: with its state_json as saved, a row whose digest is no longer UTF-8 makes loading raise, and
   * so does one whose other columns are not, or whose state_json is a BLOB.
   */
  lemma UnreadableColumnRaises(run: Text, saved: seq<Row>, current: seq<Row>, state: RunState, damage: Damage)
    requires StoredRows(run, saved) && StoredRows(run, current) && run != Raw("") && state.runId == run
    requires saved <= current && SnapshotOf(saved, state).Some?
    requires damage in {OfStateDigest(Undecodable), OfPrefixChain(Undecodable), OfNextSequence(Undecodable),
                        OfSchemaVersion(Undecodable), OfStateJson(Undecodable), OfStateJson(OtherValue)}
    ensures var row := SnapshotOf(saved, state).value;
            && FastState(run, current, Some(row)) == Loaded(ReplayRun(run, EventsOf(current)))
            && FastState(run, current, Some(Damaged(row, damage))) == LoadRaises
            && (!damage.OfStateJson? ==> Damaged(row, damage).stateJson == row.stateJson)
  {
    hide SnapshotOf, FastState, EncodeState;
    var row := SnapshotOf(saved, state).value;
    SavedIsReadable(saved, state);
    DamageIsHarmless(run, saved, current, state, row);
    DamageIsHarmless(run, saved, current, state, Damaged(row, damage));
  }

  lemma SavedIsReadable(rows: seq<Row>, state: RunState)
    requires SnapshotOf(rows, state).Some?
    ensures Fetches(SnapshotOf(rows, state).value) && SnapshotOf(rows, state).value.stateJson.Value?
  {
    hide EncodeState;
  }

  /** A row filed under another run is refused there. */
  lemma MisfiledSnapshotIsRefused(run: Text, other: Text, saved: seq<Row>, rows: seq<Row>, state: RunState)
    requires StoredRows(run, saved) && run != Raw("") && state.runId == run && other != run
    requires SnapshotOf(saved, state).Some?
    ensures AcceptedSnapshot(other, rows, SnapshotOf(saved, state).value).None?
  {
    hide EncodeState, DecodeState;
    SavedDecodes(run, saved, state);
  }

  /**
   * The row was saved for the state of the first n rows.  It is still as saved if no fault has struck since, and
   * otherwise at most one of its columns was overwritten.
   */
  ghost predicate Trusted(run: Text, rows: seq<Row>, n: nat, state: RunState, row: SnapshotRow, struck: bool) {
    && run != Raw("") && state.runId == run && n <= |rows|
    && SnapshotOf(rows[..n], state).Some?
    && (if struck then DamagedInOneColumn(SnapshotOf(rows[..n], state).value, row)
        else row == SnapshotOf(rows[..n], state).value)
  }

  lemma PrefixRows(run: Text, rows: seq<Row>, n: nat)
    requires StoredRows(run, rows) && n <= |rows|
    ensures StoredRows(run, rows[..n])
  {
    forall i | 0 <= i < n ensures rows[..n][i].chain == ChainOf(EventsOf(rows[..n])[..i + 1]) {
      assert EventsOf(rows[..n])[..i + 1] == EventsOf(rows)[..i + 1];
    }
  }

  lemma TrustedIsHarmless(run: Text, rows: seq<Row>, n: nat, state: RunState, row: SnapshotRow, struck: bool)
    requires StoredRows(run, rows) && Trusted(run, rows, n, state, row, struck)
    ensures Harmless(run, rows, row)
  {
    hide SnapshotOf, Harmless;
    PrefixRows(run, rows, n);
    DamageIsHarmless(run, rows[..n], rows, state, row);
  }

  /** A row that no fault has struck since it was saved is accepted, however far the log has grown. */
  lemma UnstruckIsAccepted(run: Text, rows: seq<Row>, n: nat, state: RunState, row: SnapshotRow)
    requires StoredRows(run, rows) && Trusted(run, rows, n, state, row, false)
    ensures !RaisesOnLoad(row) && AcceptedSnapshot(run, rows, row) == Some(state)
  {
    hide SnapshotOf, AcceptedSnapshot, RaisesOnLoad;
    PrefixRows(run, rows, n);
    SnapshotIsAcceptedExactly(run, rows[..n], rows, state);
    assert EventsOf(rows)[..state.nextSequence] == EventsOf(rows[..n])[..state.nextSequence];
  }

  lemma TrustedGrows(run: Text, rows: seq<Row>, more: seq<Row>, n: nat, state: RunState, row: SnapshotRow, struck: bool)
    requires Trusted(run, rows, n, state, row, struck) && rows <= more
    ensures Trusted(run, more, n, state, row, struck)
  {
    hide SnapshotOf, DamagedInOneColumn;
    assert more[..n] == rows[..n];
  }

  lemma SavedIsTrusted(run: Text, rows: seq<Row>, state: RunState)
    requires run != Raw("") && state.runId == run && SnapshotOf(rows, state).Some?
    ensures Trusted(run, rows, |rows|, state, SnapshotOf(rows, state).value, false)
  {
    hide SnapshotOf;
    assert rows[..|rows|] == rows;
  }

  lemma StruckIsTrusted(run: Text, rows: seq<Row>, n: nat, state: RunState, row: SnapshotRow, damage: Damage)
    requires Trusted(run, rows, n, state, row, false)
    ensures Trusted(run, rows, n, state, Damaged(row, damage), true)
  {
    hide SnapshotOf;
  }

  // ----- The store -----

  function RowsIn(tables: map<Text, seq<Row>>, run: Text): seq<Row> {
    if run in tables then tables[run] else []
  }

  ghost predicate Listed(log: seq<Event>, identities: map<Text, Fingerprint>) {
    forall i :: 0 <= i < |log| ==> log[i].eventId in identities && identities[log[i].eventId] == Fingerprint(log[i])
  }

  /** Each run's rows are as appends leave them, and the identity index lists exactly the stored events. */
  ghost predicate GoodTables(tables: map<Text, seq<Row>>, identities: map<Text, Fingerprint>) {
    && (forall run :: StoredRows(run, RowsIn(tables, run)))
    && (forall run :: Listed(EventsOf(RowsIn(tables, run)), identities))
    && (forall id :: id in identities ==>
          var e := identities[id].event; e.eventId == id && e in EventsOf(RowsIn(tables, e.runId)))
  }

  lemma StoredRun(tables: map<Text, seq<Row>>, identities: map<Text, Fingerprint>, run: Text)
    requires GoodTables(tables, identities)
    ensures StoredRows(run, RowsIn(tables, run))
  {
    hide StoredRows, Listed;
  }

  lemma StillListed(log: seq<Event>, identities: map<Text, Fingerprint>, e: Event)
    requires Listed(log, identities) && e.eventId !in identities
    ensures Listed(log, identities[e.eventId := Fingerprint(e)])
    ensures Listed(log + [e], identities[e.eventId := Fingerprint(e)])
  {
  }

  function WithRow(tables: map<Text, seq<Row>>, e: Event, chain: Chain): map<Text, seq<Row>> {
    tables[e.runId := RowsIn(tables, e.runId) + [Row(e, Fingerprint(e), chain)]]
  }

  lemma RowsWithRow(tables: map<Text, seq<Row>>, e: Event, chain: Chain)
    requires forall run :: StoredRows(run, RowsIn(tables, run))
    requires e.sequence == |RowsIn(tables, e.runId)|
    requires chain == NextChainDigest(ChainOf(EventsOf(RowsIn(tables, e.runId))), Fingerprint(e))
    ensures forall run :: StoredRows(run, RowsIn(WithRow(tables, e, chain), run))
    ensures EventsOf(RowsIn(WithRow(tables, e, chain), e.runId)) == EventsOf(RowsIn(tables, e.runId)) + [e]
    ensures forall run :: run != e.runId ==> RowsIn(WithRow(tables, e, chain), run) == RowsIn(tables, run)
  {
    hide StoredRows, EventsOf, ChainOf;
    RowsSnoc(e.runId, RowsIn(tables, e.runId), e, chain);
    forall run | run != e.runId ensures RowsIn(WithRow(tables, e, chain), run) == RowsIn(tables, run) {
    }
    forall run ensures StoredRows(run, RowsIn(WithRow(tables, e, chain), run)) {
      if run != e.runId {
        assert StoredRows(run, RowsIn(tables, run));
      }
    }
  }

  /** A new identity at the next sequence number joins the table. */
  lemma InsertRow(tables: map<Text, seq<Row>>, identities: map<Text, Fingerprint>, e: Event, chain: Chain)
    requires GoodTables(tables, identities)
    requires e.eventId !in identities && e.sequence == |RowsIn(tables, e.runId)|
    requires chain == NextChainDigest(ChainOf(EventsOf(RowsIn(tables, e.runId))), Fingerprint(e))
    ensures GoodTables(WithRow(tables, e, chain), identities[e.eventId := Fingerprint(e)])
    ensures EventsOf(RowsIn(WithRow(tables, e, chain), e.runId)) == EventsOf(RowsIn(tables, e.runId)) + [e]
    ensures forall run :: run != e.runId ==> RowsIn(WithRow(tables, e, chain), run) == RowsIn(tables, run)
  {
    RowsWithRow(tables, e, chain);
    hide StoredRows, EventsOf, ChainOf, WithRow, RowsIn;
    var tables' := WithRow(tables, e, chain);
    var identities' := identities[e.eventId := Fingerprint(e)];
    hide Listed;
    forall run ensures Listed(EventsOf(RowsIn(tables', run)), identities') {
      StillListed(EventsOf(RowsIn(tables, run)), identities, e);
    }
    forall id | id in identities'
      ensures identities'[id].event.eventId == id
      ensures identities'[id].event in EventsOf(RowsIn(tables', identities'[id].event.runId))
    {
      if id != e.eventId {
        assert identities'[id] == identities[id];
      }
    }
  }

  datatype StoreError =
    | ConflictingEvent
    | WrongSequence
    | SnapshotRefused
    | SnapshotUnreadable

  /**
   * The database file: one event table, keyed by event identity and ordered by run and sequence, and one
   * snapshot row per run.  Each method is one transaction.
   */
  class EventStore {
    var tables: map<Text, seq<Row>>
    var identities: map<Text, Fingerprint>
    var snapshots: map<Text, SnapshotRow>
    /** The fault model: the runs whose snapshot row was overwritten since it was saved, at most once each. */
    var struck: set<Text>
    /** For each snapshot row, the log length and the state it was saved for. */
    ghost var savedFor: map<Text, (nat, RunState)>

    function Rows(run: Text): seq<Row>
      reads this
    {
      RowsIn(tables, run)
    }

    function Log(run: Text): seq<Event>
      reads this
    {
      EventsOf(Rows(run))
    }

    /** Loading the run's snapshot does not raise. */
    predicate Readable(run: Text)
      reads this
    {
      run in snapshots ==> !RaisesOnLoad(snapshots[run])
    }

    ghost predicate Valid()
      reads this
    {
      && GoodTables(tables, identities)
      && forall run :: run in snapshots ==>
           && run in savedFor
           && Trusted(run, Rows(run), savedFor[run].0, savedFor[run].1, snapshots[run], run in struck)
    }

    constructor ()
      ensures Valid() && tables == map[] && identities == map[] && snapshots == map[]
    {
      tables, identities, snapshots, struck, savedFor := map[], map[], map[], {}, map[];
    }

    /**
     * Append one event or accept an exact redelivery.  A refused event and a redelivery change nothing; an
     * accepted one extends its own run's log by itself and touches no other run.
     */
    method Append(e: Event) returns (r: Result<(), StoreError>)
      requires Valid()
      modifies `tables, `identities
      ensures Valid() && snapshots == old(snapshots)
      ensures r.Ok? <==> e in old(Log(e.runId)) || (e.eventId !in old(identities) && e.sequence == |old(Log(e.runId))|)
      ensures r.Err? ==> r.error == if e.eventId in old(identities) then ConflictingEvent else WrongSequence
      ensures Log(e.runId) == if r.Ok? && e !in old(Log(e.runId)) then old(Log(e.runId)) + [e] else old(Log(e.runId))
      ensures forall run :: run != e.runId ==> Log(run) == old(Log(run))
      ensures identities == if r.Ok? then old(identities)[e.eventId := Fingerprint(e)] else old(identities)
    {
      hide EventsOf, StoredRows, Trusted, ChainOf, Listed;
      if e.eventId in identities {
        if identities[e.eventId] != Fingerprint(e) {
          Known(tables, identities, e);
          return Err(ConflictingEvent);
        }
        Known(tables, identities, e);
        assert identities[e.eventId := Fingerprint(e)] == identities;
        return Ok(());
      }
      Known(tables, identities, e);
      var rows := Rows(e.runId);
      LastRow(e.runId, rows);
      var expected := if rows == [] then 0 else rows[|rows| - 1].event.sequence + 1;
      if e.sequence != expected {
        return Err(WrongSequence);
      }
      var previous := if rows == [] then ChainSeed else rows[|rows| - 1].chain;
      var chain := NextChainDigest(previous, Fingerprint(e));
      InsertRow(tables, identities, e, chain);
      SnapshotsStay(tables, snapshots, savedFor, struck, e, chain);
      hide GoodTables;
      tables := WithRow(tables, e, chain);
      identities := identities[e.eventId := Fingerprint(e)];
      return Ok(());
    }

    method LoadTail(run: Text, start: nat) returns (events: seq<Event>)
      requires Valid()
      ensures events == Tail(Log(run), start)
    {
      hide Trusted, ChainOf;
      assert StoredRows(run, Rows(run));
      events := SelectFrom(Rows(run), start);
    }

    /** Replace the snapshot of the state's run; refuse a state that the stored prefix does not produce. */
    method SaveSnapshot(state: RunState) returns (r: Result<(), StoreError>)
      requires Valid() && state.runId != Raw("")
      modifies `snapshots, `savedFor, `struck
      ensures Valid()
      ensures r.Ok? <==>
                && state.nextSequence <= |Log(state.runId)|
                && ReplayRun(state.runId, Log(state.runId)[..state.nextSequence]) == Ok(state)
      ensures r.Ok? <==> SnapshotOf(Rows(state.runId), state).Some?
      ensures r.Err? ==> snapshots == old(snapshots) && struck == old(struck)
      ensures r.Ok? ==> snapshots == old(snapshots)[state.runId := SnapshotOf(Rows(state.runId), state).value]
                        && struck == old(struck) - {state.runId}
                        && savedFor == old(savedFor)[state.runId := (|Rows(state.runId)|, state)]
    {
      hide SnapshotOf, GoodTables, Trusted, StoredRows, ChainOf, EncodeState, Fold;
      StoredRun(tables, identities, state.runId);
      SnapshotExistsExactly(state.runId, Rows(state.runId), state);
      var row := SnapshotOf(Rows(state.runId), state);
      if row.None? {
        return Err(SnapshotRefused);
      }
      SavedIsTrusted(state.runId, Rows(state.runId), state);
      snapshots := snapshots[state.runId := row.value];
      struck := struck - {state.runId};
      savedFor := savedFor[state.runId := (|Rows(state.runId)|, state)];
      return Ok(());
    }

    /**
     * Accept the run's snapshot only when it is bound to the current log; what is accepted is a prefix state.
     * A row that cannot be fetched, or whose state_json is not text, raises instead.
     */
    method LoadSnapshot(run: Text) returns (r: Result<Option<RunState>, StoreError>)
      requires Valid()
      ensures r.Ok? <==> Readable(run)
      ensures r.Ok? && r.value.Some? ==>
                && r.value.value.nextSequence <= |Log(run)|
                && ReplayRun(run, Log(run)[..r.value.value.nextSequence]) == Ok(r.value.value)
      ensures r.Ok? ==> r.value == if run in snapshots then AcceptedSnapshot(run, Rows(run), snapshots[run]) else None
      ensures run in snapshots && run !in struck ==> run in savedFor && r == Ok(Some(savedFor[run].1))
    {
      hide Trusted, AcceptedSnapshot, RaisesOnLoad;
      if run in snapshots && run !in struck {
        UnstruckIsAccepted(run, Rows(run), savedFor[run].0, savedFor[run].1, snapshots[run]);
      }
      if run !in snapshots {
        return Ok(None);
      }
      if RaisesOnLoad(snapshots[run]) {
        return Err(SnapshotUnreadable);
      }
      TrustedIsHarmless(run, Rows(run), savedFor[run].0, savedFor[run].1, snapshots[run], run in struck);
      return Ok(AcceptedSnapshot(run, Rows(run), snapshots[run]));
    }

    /** A fault overwrites one column of the run's snapshot row, if none has struck it since it was saved. */
    method DamageSnapshot(run: Text, damage: Damage)
      requires Valid()
      modifies `snapshots, `struck
      ensures Valid()
      ensures if run in old(snapshots) && run !in old(struck) then
                snapshots == old(snapshots)[run := Damaged(old(snapshots)[run], damage)] && struck == old(struck) + {run}
              else snapshots == old(snapshots) && struck == old(struck)
    {
      hide GoodTables, Trusted, Damaged;
      if run in snapshots && run !in struck {
        StruckIsTrusted(run, Rows(run), savedFor[run].0, savedFor[run].1, snapshots[run], damage);
        snapshots := snapshots[run := Damaged(snapshots[run], damage)];
        struck := struck + {run};
      }
    }
  }

  /** The identity index tells whether an event is stored. */
  lemma Known(tables: map<Text, seq<Row>>, identities: map<Text, Fingerprint>, e: Event)
    requires GoodTables(tables, identities)
    ensures e in EventsOf(RowsIn(tables, e.runId)) <==> e.eventId in identities && identities[e.eventId] == Fingerprint(e)
  {
    hide StoredRows, EventsOf;
    assert Listed(EventsOf(RowsIn(tables, e.runId)), identities);
  }

  /** Snapshot rows stay trusted when a log grows. */
  lemma SnapshotsStay(tables: map<Text, seq<Row>>, snapshots: map<Text, SnapshotRow>, savedFor: map<Text, (nat, RunState)>,
                      struck: set<Text>, e: Event, chain: Chain)
    requires forall run :: run in snapshots ==>
               && run in savedFor
               && Trusted(run, RowsIn(tables, run), savedFor[run].0, savedFor[run].1, snapshots[run], run in struck)
    ensures forall run :: run in snapshots ==>
              && run in savedFor
              && Trusted(run, RowsIn(WithRow(tables, e, chain), run), savedFor[run].0, savedFor[run].1, snapshots[run],
                         run in struck)
  {
    hide Trusted;
    forall run | run in snapshots
      ensures Trusted(run, RowsIn(WithRow(tables, e, chain), run), savedFor[run].0, savedFor[run].1, snapshots[run],
                      run in struck)
    {
      TrustedGrows(run, RowsIn(tables, run), RowsIn(WithRow(tables, e, chain), run),
                   savedFor[run].0, savedFor[run].1, snapshots[run], run in struck);
    }
  }

  /** SELECT ... WHERE sequence >= start ORDER BY sequence, on the rows of one run. */
  method SelectFrom(rows: seq<Row>, start: nat) returns (events: seq<Event>)
    requires forall i :: 0 <= i < |rows| ==> rows[i].event.sequence == i
    ensures events == Tail(EventsOf(rows), start)
  {
    events := [];
    for i := 0 to |rows|
      invariant events == if start <= i then EventsOf(rows)[start..i] else []
    {
      if rows[i].event.sequence >= start {
        events := events + [rows[i].event];
      }
    }
  }

  /** The last row carries the number of rows and the digest of all of them. */
  lemma LastRow(run: Text, rows: seq<Row>)
    requires StoredRows(run, rows)
    ensures |EventsOf(rows)| == |rows|
    ensures rows != [] ==> rows[|rows| - 1].event.sequence == |rows| - 1
    ensures (if rows == [] then ChainSeed else rows[|rows| - 1].chain) == ChainOf(EventsOf(rows))
  {
    if rows != [] {
      assert EventsOf(rows)[..|rows|] == EventsOf(rows);
    }
  }

  // ----- Backfilling a legacy table -----

  /** The events of one run among the rows. */
  function EventsOfRun(rows: seq<Event>, run: Text): seq<Event> {
    if rows == [] then []
    else
      var last := rows[|rows| - 1];
      if last.runId == run then EventsOfRun(rows[..|rows| - 1], run) + [last] else EventsOfRun(rows[..|rows| - 1], run)
  }

  /** ORDER BY run_id, sequence: the rows of a run are contiguous, and identities are unique. */
  ghost predicate SortedTable(rows: seq<Event>) {
    && (forall i, j, k :: 0 <= i <= j <= k < |rows| && rows[i].runId == rows[k].runId ==> rows[j].runId == rows[i].runId)
    && (forall i, j :: 0 <= i < j < |rows| ==> rows[i].eventId != rows[j].eventId)
  }

  lemma {:induction false} NewRunStartsEmpty(rows: seq<Event>, run: Text)
    requires forall i :: 0 <= i < |rows| ==> rows[i].runId != run
    ensures EventsOfRun(rows, run) == []
  {
    if rows != [] {
      NewRunStartsEmpty(rows[..|rows| - 1], run);
    }
  }

  /** A legacy table whose chain column is filled in one sorted scan (sqlite_store.py:97-115). */
  class LegacyTable {
    var chains: map<Text, Chain>

    /** Every row gets the digest that appending its run's events one by one would have given it. */
    method BackfillChainDigests(rows: seq<Event>)
      requires SortedTable(rows)
      modifies this
      ensures forall i :: 0 <= i < |rows| ==>
                rows[i].eventId in chains
                && chains[rows[i].eventId] == ChainOf(EventsOfRun(rows[..i + 1], rows[i].runId))
      ensures forall id :: id in old(chains) && (forall i :: 0 <= i < |rows| ==> rows[i].eventId != id) ==>
                id in chains && chains[id] == old(chains)[id]
    {
      hide ChainOf, EventsOfRun;
      ChainOfNothing();
      var previousRun: Option<Text> := None;
      var previousDigest := ChainSeed;
      for n := 0 to |rows|
        invariant n == 0 ==> previousRun.None?
        invariant n > 0 ==> previousRun == Some(rows[n - 1].runId)
                            && previousDigest == ChainOf(EventsOfRun(rows[..n], rows[n - 1].runId))
        invariant forall i :: 0 <= i < n ==>
                    rows[i].eventId in chains
                    && chains[rows[i].eventId] == ChainOf(EventsOfRun(rows[..i + 1], rows[i].runId))
        invariant forall id :: id in old(chains) && (forall i :: 0 <= i < n ==> rows[i].eventId != id) ==>
                    id in chains && chains[id] == old(chains)[id]
      {
        var row := rows[n];
        if Some(row.runId) != previousRun {
          NewRunStartsEmpty(rows[..n], row.runId);
          previousRun := Some(row.runId);
          previousDigest := ChainSeed;
        }
        previousDigest := NextChainDigest(previousDigest, Fingerprint(row));
        BackfillStep(rows, n);
        chains := chains[row.eventId := previousDigest];
      }
    }
  }

  lemma ChainOfNothing()
    ensures ChainOf([]) == ChainSeed
  {
  }

  lemma BackfillStep(rows: seq<Event>, n: nat)
    requires n < |rows|
    ensures ChainOf(EventsOfRun(rows[..n + 1], rows[n].runId)) ==
            NextChainDigest(ChainOf(EventsOfRun(rows[..n], rows[n].runId)), Fingerprint(rows[n]))
  {
    assert rows[..n + 1][..n] == rows[..n];
    var before := EventsOfRun(rows[..n], rows[n].runId);
    assert (before + [rows[n]])[..|before|] == before;
  }

  /** Where the k-th event of a run stands in the table, and which of the run's events stand up to there. */
  lemma {:induction false} PositionOf(rows: seq<Event>, run: Text, k: nat) returns (i: nat)
    requires k < |EventsOfRun(rows, run)|
    ensures i < |rows| && rows[i] == EventsOfRun(rows, run)[k] && rows[i].runId == run
    ensures EventsOfRun(rows[..i + 1], run) == EventsOfRun(rows, run)[..k + 1]
  {
    var n := |rows| - 1;
    var before := EventsOfRun(rows[..n], run);
    if k < |before| {
      i := PositionOf(rows[..n], run, k);
      assert rows[..n][..i + 1] == rows[..i + 1];
      assert EventsOfRun(rows, run)[..k + 1] == before[..k + 1];
    } else {
      i := n;
      assert rows[..n + 1] == rows;
      assert EventsOfRun(rows, run)[..k + 1] == EventsOfRun(rows, run);
    }
  }

  /** The rows of one run after the backfill. */
  function BackfilledRows(rows: seq<Event>, chains: map<Text, Chain>, run: Text): seq<Row>
    requires forall k :: 0 <= k < |EventsOfRun(rows, run)| ==> EventsOfRun(rows, run)[k].eventId in chains
  {
    var events := EventsOfRun(rows, run);
    seq(|events|, k requires 0 <= k < |events| => Row(events[k], Fingerprint(events[k]), chains[events[k].eventId]))
  }

  /** A migrated table is one that appends could have left, so snapshots may be bound to it. */
  lemma BackfilledTableIsStored(rows: seq<Event>, chains: map<Text, Chain>, run: Text)
    requires Dense(EventsOfRun(rows, run))
    requires forall i :: 0 <= i < |rows| ==>
               rows[i].eventId in chains
               && chains[rows[i].eventId] == ChainOf(EventsOfRun(rows[..i + 1], rows[i].runId))
    ensures forall k :: 0 <= k < |EventsOfRun(rows, run)| ==> EventsOfRun(rows, run)[k].eventId in chains
    ensures StoredRows(run, BackfilledRows(rows, chains, run))
    ensures EventsOf(BackfilledRows(rows, chains, run)) == EventsOfRun(rows, run)
  {
    hide ChainOf, EventsOfRun;
    var events := EventsOfRun(rows, run);
    forall k | 0 <= k < |events|
      ensures events[k].runId == run && events[k].eventId in chains
      ensures chains[events[k].eventId] == ChainOf(events[..k + 1])
    {
      var i := PositionOf(rows, run, k);
    }
    assert EventsOf(BackfilledRows(rows, chains, run)) == events;
  }
}
