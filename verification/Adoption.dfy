/**
 * Adopting a database that predates the migrations journal: detect the applied prefix
 * from the live schema, record it, and check the journal against the schema before
 * migrating. SHA-256 is ideal: two files hash alike only when they are equal.
 */
module Adoption {
  import opened Wrappers

  datatype Probe = Probe(table: string, column: Option<string>)
  datatype Marker = Marker(tag: string, probe: Probe)
  datatype Entry = Entry(tag: string, when: int)
  datatype Hash = Sha256(content: string)
  datatype MigrationRow = MigrationRow(hash: Hash, when: int)
  datatype Row = Row(hash: Hash, createdAt: Option<int>)
  datatype Schema = Schema(tables: set<string>, columns: set<(string, string)>)

  datatype Error =
    | Unmarked(tags: seq<string>)
    | NotAPrefix(tag: string)
    | NotInJournal(tag: string)
    | NoFile(tag: string)
    | NoJournalTable
    | Incomplete(recorded: nat, reflected: nat)
    | AheadOfSchema(recorded: nat, reflected: nat)
    | Mismatch(migration: nat)
    | AlreadyJournaled
    | NotBaselined

  datatype Result<T> = Ok(value: T) | Err(error: Error)

  predicate ProbeExists(schema: Schema, probe: Probe) {
    match probe.column
    case None => probe.table in schema.tables
    case Some(column) => (probe.table, column) in schema.columns
  }

  // ----- The applied prefix -----

  /** The schema reflects exactly the first n migrations. */
  predicate IsPrefix(markers: seq<Marker>, schema: Schema, n: nat) {
    n <= |markers| && forall i :: 0 <= i < |markers| ==> (ProbeExists(schema, markers[i].probe) <==> i < n)
  }

  // The first marker found present after an absent one.
  predicate Breaks(markers: seq<Marker>, schema: Schema, k: nat) {
    && k < |markers| && ProbeExists(schema, markers[k].probe)
    && (exists j :: 0 <= j < k && !ProbeExists(schema, markers[j].probe))
    && (forall i, j :: 0 <= j < i < k && !ProbeExists(schema, markers[j].probe) ==>
        !ProbeExists(schema, markers[i].probe))
  }

  lemma PrefixUnique(markers: seq<Marker>, schema: Schema, m: nat, n: nat)
    requires IsPrefix(markers, schema, m) && IsPrefix(markers, schema, n)
    ensures m == n
  {
    assert m < |markers| ==> (ProbeExists(schema, markers[m].probe) <==> m < n);
    assert n < |markers| ==> (ProbeExists(schema, markers[n].probe) <==> n < m);
  }

  lemma BrokenIsNoPrefix(markers: seq<Marker>, schema: Schema, k: nat, n: nat)
    requires Breaks(markers, schema, k)
    ensures !IsPrefix(markers, schema, n)
  {}

  /** A marker without a column counts by its table, one with a column by that column of that table. */
  lemma PrefixSpelledOut(markers: seq<Marker>, schema: Schema, n: nat)
    ensures IsPrefix(markers, schema, n) <==>
            && n <= |markers|
            && (forall i :: 0 <= i < |markers| && markers[i].probe.column == None ==>
                  (markers[i].probe.table in schema.tables <==> i < n))
            && (forall i, c :: 0 <= i < |markers| && markers[i].probe.column == Some(c) ==>
                  ((markers[i].probe.table, c) in schema.columns <==> i < n))
  {
    forall i | 0 <= i < |markers|
      ensures ProbeExists(schema, markers[i].probe) <==>
              if markers[i].probe.column == None then markers[i].probe.table in schema.tables
              else (markers[i].probe.table, markers[i].probe.column.value) in schema.columns
    {}
    hide ProbeExists;
    if IsPrefix(markers, schema, n) {
    } else if n <= |markers| {
      var i :| 0 <= i < |markers| && !(ProbeExists(schema, markers[i].probe) <==> i < n);
      assert markers[i].probe.column != None ==> markers[i].probe.column == Some(markers[i].probe.column.value);
    }
  }

  function Tags(markers: seq<Marker>): (tags: seq<string>)
    ensures |tags| == |markers| && forall i :: 0 <= i < |tags| ==> tags[i] == markers[i].tag
  {
    seq(|markers|, i requires 0 <= i < |markers| => markers[i].tag)
  }

  // ----- The rows a prefix should have left -----

  // journal.find: the first entry with the tag.
  function Find(entries: seq<Entry>, tag: string): (r: Option<Entry>)
    ensures r.Some? ==> r.value in entries && r.value.tag == tag
    ensures r.None? ==> forall e :: e in entries ==> e.tag != tag
  {
    if entries == [] then None else if entries[0].tag == tag then Some(entries[0]) else Find(entries[1..], tag)
  }

  function RowFor(tag: string, entries: seq<Entry>, files: map<string, string>): Result<MigrationRow> {
    match Find(entries, tag)
    case None => Err(NotInJournal(tag))
    case Some(e) => if tag !in files then Err(NoFile(tag)) else Ok(MigrationRow(Sha256(files[tag]), e.when))
  }

  /** The rows are those of the tags, in order; every tag has one. */
  predicate AreRows(rows: seq<MigrationRow>, tags: seq<string>, entries: seq<Entry>, files: map<string, string>) {
    |rows| == |tags| && forall i :: 0 <= i < |tags| ==> RowFor(tags[i], entries, files) == Ok(rows[i])
  }

  // The tag's first journal entry is the k-th, its file is there, and the row is made of both.
  predicate RowOf(row: MigrationRow, tag: string, entries: seq<Entry>, files: map<string, string>, k: nat) {
    && k < |entries| && entries[k].tag == tag && (forall j :: 0 <= j < k ==> entries[j].tag != tag)
    && tag in files && row.hash == Sha256(files[tag]) && row.when == entries[k].when
  }

  lemma {:induction false} FindsFirst(entries: seq<Entry>, tag: string) returns (k: nat)
    requires Find(entries, tag).Some?
    ensures k < |entries| && entries[k].tag == tag && (forall j :: 0 <= j < k ==> entries[j].tag != tag)
    ensures Find(entries, tag) == Some(entries[k])
  {
    if entries[0].tag == tag { k := 0; }
    else {
      var rest := FindsFirst(entries[1..], tag);
      k := rest + 1;
      assert forall j :: 1 <= j < k ==> entries[1..][j - 1] == entries[j];
    }
  }

  ghost predicate HasRow(row: MigrationRow, tag: string, entries: seq<Entry>, files: map<string, string>) {
    exists k: nat :: RowOf(row, tag, entries, files, k)
  }

  lemma RowSpelledOut(row: MigrationRow, tag: string, entries: seq<Entry>, files: map<string, string>)
    ensures RowFor(tag, entries, files) == Ok(row) <==> HasRow(row, tag, entries, files)
  {
    if Find(entries, tag).Some? {
      var k := FindsFirst(entries, tag);
      assert forall j: nat :: RowOf(row, tag, entries, files, j) ==> j == k;
      assert RowFor(tag, entries, files) == Ok(row) <==> RowOf(row, tag, entries, files, k);
    }
  }

  /** Every row is the hash of its tag's file and the time of the tag's first journal entry. */
  lemma RowsSpelledOut(rows: seq<MigrationRow>, tags: seq<string>, entries: seq<Entry>, files: map<string, string>)
    ensures AreRows(rows, tags, entries, files) <==>
            |rows| == |tags| && forall i :: 0 <= i < |tags| ==> HasRow(rows[i], tags[i], entries, files)
  {
    hide HasRow, RowFor;
    if |rows| == |tags| {
      forall i | 0 <= i < |tags|
        ensures RowFor(tags[i], entries, files) == Ok(rows[i]) <==> HasRow(rows[i], tags[i], entries, files)
      {
        RowSpelledOut(rows[i], tags[i], entries, files);
      }
    }
  }

  // ----- ORDER BY created_at ASC, id ASC -----

  // The table is kept in id order; created_at sorts nulls last.
  predicate NotAfter(a: Option<int>, b: Option<int>) {
    b.None? || (a.Some? && a.value <= b.value)
  }

  function Insert(row: Row, sorted: seq<Row>): seq<Row> {
    if sorted == [] then [row]
    else if NotAfter(row.createdAt, sorted[0].createdAt) then [row] + sorted
    else [sorted[0]] + Insert(row, sorted[1..])
  }

  function OrderBy(table: seq<Row>): seq<Row> {
    if table == [] then [] else Insert(table[0], OrderBy(table[1..]))
  }

  predicate Ordered(rows: seq<Row>) {
    forall i, j :: 0 <= i <= j < |rows| ==> NotAfter(rows[i].createdAt, rows[j].createdAt)
  }

  // The rows with one timestamp, in the order they stand.
  function Having(rows: seq<Row>, createdAt: Option<int>): seq<Row> {
    if rows == [] then []
    else if rows[0].createdAt == createdAt then [rows[0]] + Having(rows[1..], createdAt)
    else Having(rows[1..], createdAt)
  }

  lemma {:induction false} InsertOrders(row: Row, sorted: seq<Row>)
    requires Ordered(sorted)
    ensures Ordered(Insert(row, sorted)) && multiset(Insert(row, sorted)) == multiset([row]) + multiset(sorted)
    ensures forall r :: r in Insert(row, sorted) ==> r == row || r in sorted
  {
    if sorted == [] {
    } else {
      assert sorted == [sorted[0]] + sorted[1..];
      if !NotAfter(row.createdAt, sorted[0].createdAt) {
        InsertOrders(row, sorted[1..]);
        var tail := Insert(row, sorted[1..]);
        forall j | 0 <= j < |tail| ensures NotAfter(sorted[0].createdAt, tail[j].createdAt) { assert tail[j] in tail; }
      }
    }
  }

  lemma {:induction false} InsertIsStable(row: Row, sorted: seq<Row>, at: Option<int>)
    requires Ordered(sorted)
    ensures Having(Insert(row, sorted), at) == Having([row] + sorted, at)
  {
    assert ([row] + sorted)[1..] == sorted;
    if sorted == [] || NotAfter(row.createdAt, sorted[0].createdAt) {
    } else {
      InsertIsStable(row, sorted[1..], at);
      assert ([row] + sorted[1..])[1..] == sorted[1..];
      assert Insert(row, sorted)[1..] == Insert(row, sorted[1..]);
    }
  }

  /** The query returns the table's rows, by timestamp, nulls last, and rows of one timestamp by id. */
  lemma {:induction false} OrderByOrders(table: seq<Row>, at: Option<int>)
    ensures Ordered(OrderBy(table)) && multiset(OrderBy(table)) == multiset(table)
    ensures var rows := OrderBy(table);
            forall i, j :: 0 <= i <= j < |rows| && rows[j].createdAt.Some? ==>
              rows[i].createdAt.Some? && rows[i].createdAt.value <= rows[j].createdAt.value
    ensures Having(OrderBy(table), at) == Having(table, at)
  {
    if table == [] {
    } else {
      OrderByOrders(table[1..], at);
      InsertOrders(table[0], OrderBy(table[1..]));
      InsertIsStable(table[0], OrderBy(table[1..]), at);
      assert table == [table[0]] + table[1..];
      assert ([table[0]] + OrderBy(table[1..]))[1..] == OrderBy(table[1..]);
    }
  }

  lemma {:induction false} OrderByKeepsOrdered(table: seq<Row>)
    requires Ordered(table)
    ensures OrderBy(table) == table
  {
    if table == [] {
    } else {
      OrderByKeepsOrdered(table[1..]);
      assert table == [table[0]] + table[1..];
    }
  }

  // ----- The journal check -----

  // Number(null) is 0.
  function Number(createdAt: Option<int>): int {
    if createdAt.Some? then createdAt.value else 0
  }

  predicate Agrees(recorded: Row, expected: MigrationRow) {
    recorded.hash == expected.hash && Number(recorded.createdAt) == expected.when
  }

  predicate Matches(recorded: seq<Row>, expected: seq<MigrationRow>) {
    |recorded| == |expected| && forall i :: 0 <= i < |expected| ==> Agrees(recorded[i], expected[i])
  }

  /** What a journal must be: the rows of the schema's prefix, in query order. */
  predicate Accepts(markers: seq<Marker>, schema: Schema, entries: seq<Entry>, files: map<string, string>,
                    table: seq<Row>,
                    n: nat, expected: seq<MigrationRow>)
  {
    IsPrefix(markers, schema, n) && AreRows(expected, Tags(markers[..n]), entries, files)
        && Matches(OrderBy(table), expected)
  }

  function BaselineRows(rows: seq<MigrationRow>): seq<Row> {
    seq(|rows|, i requires 0 <= i < |rows| => Row(rows[i].hash, Some(rows[i].when)))
  }

  predicate NonDecreasing(rows: seq<MigrationRow>) {
    forall i, j :: 0 <= i <= j < |rows| ==> rows[i].when <= rows[j].when
  }

  /** What the baseline wrote passes the check exactly when the prefix's timestamps never decrease. */
  lemma BaselinePassesExactly(rows: seq<MigrationRow>)
    ensures Matches(OrderBy(BaselineRows(rows)), rows) <==> NonDecreasing(rows)
  {
    var table := BaselineRows(rows);
    OrderByOrders(table, None);
    if Matches(OrderBy(table), rows) {
      forall r | r in OrderBy(table) ensures r.createdAt.Some? {
        assert r in multiset(OrderBy(table));
        assert r in table;
      }
      forall i, j | 0 <= i <= j < |rows| ensures rows[i].when <= rows[j].when {
        assert Agrees(OrderBy(table)[i], rows[i]) && Agrees(OrderBy(table)[j], rows[j]);
        assert OrderBy(table)[i] in OrderBy(table) && OrderBy(table)[j] in OrderBy(table);
      }
    }
    if NonDecreasing(rows) { OrderByKeepsOrdered(table); }
  }

  predicate Increasing(rows: seq<Row>) {
    forall i, j :: 0 <= i < j < |rows| ==> !NotAfter(rows[j].createdAt, rows[i].createdAt)
  }

  lemma SameFirst(a: seq<Row>, b: seq<Row>)
    requires Ordered(a) && Increasing(b) && multiset(a) == multiset(b) && b != []
    ensures a != [] && a[0] == b[0]
  {
    assert b[0] in multiset(a);
    assert a[0] in multiset(b);
    var i :| 0 <= i < |a| && a[i] == b[0];
    var k :| 0 <= k < |b| && b[k] == a[0];
    assert NotAfter(a[0].createdAt, a[i].createdAt);
    assert k == 0;
  }

  // Two sorted sequences of the same rows, one without equal timestamps, are the same.
  lemma {:induction false} SortedUnique(a: seq<Row>, b: seq<Row>)
    requires Ordered(a) && Increasing(b) && multiset(a) == multiset(b)
    ensures a == b
  {
    if b == [] {
      assert |a| == |multiset(a)|;
    } else {
      SameFirst(a, b);
      assert a == [a[0]] + a[1..] && b == [b[0]] + b[1..];
      assert multiset(a[1..]) == multiset(a) - multiset{a[0]} == multiset(b[1..]);
      SortedUnique(a[1..], b[1..]);
    }
  }

  /** A journal without nulls that matches holds exactly the expected rows, no more, no fewer, none substituted. */
  lemma MatchesIsExact(table: seq<Row>, rows: seq<MigrationRow>)
    requires Matches(OrderBy(table), rows) && forall r :: r in table ==> r.createdAt.Some?
    ensures multiset(table) == multiset(BaselineRows(rows))
  {
    OrderByOrders(table, None);
    var recorded := OrderBy(table);
    forall i | 0 <= i < |rows| ensures recorded[i] == BaselineRows(rows)[i] {
      assert recorded[i] in multiset(recorded);
      assert recorded[i] in table;
      assert Agrees(recorded[i], rows[i]);
    }
    assert recorded == BaselineRows(rows);
  }

  // Rows of the journal table for these files at these times.
  predicate Records(row: Row, expected: MigrationRow) {
    row.hash == expected.hash && row.createdAt == Some(expected.when)
  }

  /**
   * A journal without nulls is accepted exactly when it holds the prefix's rows, each once
   * and nothing else, in whatever order they were inserted; the prefix's timestamps being
   * pairwise different and in order.
   */
  lemma AcceptedExactly(markers: seq<Marker>, schema: Schema, entries: seq<Entry>, files: map<string, string>,
                        table: seq<Row>, n: nat, expected: seq<MigrationRow>, wanted: seq<Row>)
    requires IsPrefix(markers, schema, n) && AreRows(expected, Tags(markers[..n]), entries, files)
    requires forall r :: r in table ==> r.createdAt.Some?
    requires forall i, j :: 0 <= i < j < |expected| ==> expected[i].when < expected[j].when
    requires |wanted| == |expected| && forall i :: 0 <= i < |wanted| ==> Records(wanted[i], expected[i])
    ensures Accepts(markers, schema, entries, files, table, n, expected) <==> multiset(table) == multiset(wanted)
  {
    hide IsPrefix, AreRows;
    assert wanted == BaselineRows(expected);
    if Matches(OrderBy(table), expected) { MatchesIsExact(table, expected); }
    if multiset(table) == multiset(wanted) {
      OrderByOrders(table, None);
      SortedUnique(OrderBy(table), wanted);
    }
  }

  function EntryTags(entries: seq<Entry>): set<string> {
    set e | e in entries :: e.tag
  }

  lemma KnownTags(markers: seq<Marker>, tag: string)
    ensures tag in Tags(markers) <==> exists m :: m in markers && m.tag == tag
  {}

  lemma RowsUnique(rows: seq<MigrationRow>, tags: seq<string>, entries: seq<Entry>, files: map<string, string>)
    requires AreRows(rows, tags, entries, files)
    ensures forall other :: AreRows(other, tags, entries, files) ==> other == rows
  {}

  /** The schema is a prefix whose rows can be loaded and whose timestamps never decrease. */
  predicate Adoptable(markers: seq<Marker>, schema: Schema, entries: seq<Entry>, files: map<string, string>, n: nat,
                      rows: seq<MigrationRow>) {
    IsPrefix(markers, schema, n) && AreRows(rows, Tags(markers[..n]), entries, files) && NonDecreasing(rows)
  }

  lemma NoRows(i: nat, tags: seq<string>, entries: seq<Entry>, files: map<string, string>, rows: seq<MigrationRow>)
    requires i < |tags| && RowFor(tags[i], entries, files).Err?
    ensures !AreRows(rows, tags, entries, files)
  {}

  // ----- The functions of the module, over one database -----

  class Database {
    const markers: seq<Marker>
    const entries: seq<Entry>
    const files: map<string, string>
    var schema: Schema
    var journal: Option<seq<Row>> // drizzle.__drizzle_migrations, in id order

    constructor (markers: seq<Marker>, entries: seq<Entry>, files: map<string, string>, schema: Schema,
                 journal: Option<seq<Row>>)
      ensures this.markers == markers && this.entries == entries && this.files == files
      ensures this.schema == schema && this.journal == journal
    {
      this.markers, this.entries, this.files, this.schema, this.journal := markers, entries, files, schema, journal;
    }

    method UnmarkedTags() returns (tags: seq<string>)
      ensures forall t :: t in tags <==> t in EntryTags(entries) && t !in Tags(markers)
    {
      var known := set m | m in markers :: m.tag;
      tags := [];
      for i := 0 to |entries|
        invariant forall t :: t in tags <==> t in EntryTags(entries[..i]) && t !in Tags(markers)
      {
        assert entries[..i + 1] == entries[..i] + [entries[i]];
        assert entries[i].tag in known <==> entries[i].tag in Tags(markers) by { KnownTags(markers, entries[i].tag); }
        if entries[i].tag !in known { tags := tags + [entries[i].tag]; }
      }
      assert entries[..|entries|] == entries;
    }

    /**
     * Succeeds exactly when every journal entry has a marker and the schema is a prefix,
     * with that prefix's tags; otherwise it names what is wrong.
     */
    method DetectAppliedMigrations() returns (r: Result<seq<string>>)
      ensures r.Ok? ==> IsPrefix(markers, schema, |r.value|) && r.value == Tags(markers[..|r.value|])
      ensures r.Ok? ==> forall t :: t in EntryTags(entries) ==> t in Tags(markers)
      ensures r.Err? && r.error.Unmarked? ==> r.error.tags != []
      ensures r.Err? && r.error.Unmarked? ==> forall t :: t in r.error.tags <==>
                t in EntryTags(entries) && t !in Tags(markers)
      ensures r.Err? && !r.error.Unmarked? ==>
                exists k: nat :: Breaks(markers, schema, k) && r.error == NotAPrefix(markers[k].tag)
      ensures (forall t :: t in EntryTags(entries) ==> t in Tags(markers)) ==>
                forall n: nat :: IsPrefix(markers, schema, n) ==> r == Ok(Tags(markers[..n]))
    {
      var unmarked := UnmarkedTags();
      if |unmarked| > 0 {
        assert unmarked[0] in unmarked;
        return Err(Unmarked(unmarked));
      }
      var applied := [];
      var prefixEnded := false;
      for i := 0 to |markers|
        invariant |applied| <= i && applied == Tags(markers[..|applied|])
        invariant forall j :: 0 <= j < i ==> (ProbeExists(schema, markers[j].probe) <==> j < |applied|)
        invariant prefixEnded <==> |applied| < i
      {
        var present := ProbeExists(schema, markers[i].probe);
        if present && prefixEnded {
          assert !ProbeExists(schema, markers[|applied|].probe);
          assert Breaks(markers, schema, i);
          forall n: nat | true ensures !IsPrefix(markers, schema, n) { BrokenIsNoPrefix(markers, schema, i, n); }
          return Err(NotAPrefix(markers[i].tag));
        }
        if !present {
          prefixEnded := true;
        } else {
          applied := applied + [markers[i].tag];
        }
      }
      forall n: nat | IsPrefix(markers, schema, n) ensures n == |applied| {
        PrefixUnique(markers, schema, n, |applied|);
      }
      r := Ok(applied);
    }

    /** How many leading migrations the schema reflects; fails on the same schemas. */
    method PresentMarkerPrefix() returns (r: Result<nat>)
      ensures r.Ok? ==> IsPrefix(markers, schema, r.value)
      ensures r.Err? ==> exists k: nat :: Breaks(markers, schema, k) && r.error == NotAPrefix(markers[k].tag)
    {
      var count := 0;
      var prefixEnded := false;
      for i := 0 to |markers|
        invariant count <= i && (prefixEnded <==> count < i)
        invariant forall j :: 0 <= j < i ==> (ProbeExists(schema, markers[j].probe) <==> j < count)
      {
        var present := ProbeExists(schema, markers[i].probe);
        if present && prefixEnded {
          assert !ProbeExists(schema, markers[count].probe);
          assert Breaks(markers, schema, i);
          return Err(NotAPrefix(markers[i].tag));
        }
        if present { count := count + 1; } else { prefixEnded := true; }
      }
      r := Ok(count);
    }

    method LoadMigrationRows(tags: seq<string>) returns (r: Result<seq<MigrationRow>>)
      ensures r.Ok? ==> AreRows(r.value, tags, entries, files)
      ensures r.Err? ==> exists i :: 0 <= i < |tags| && RowFor(tags[i], entries, files) == Err(r.error)
      ensures r.Err? ==> r.error.NotInJournal? || r.error.NoFile?
      ensures r.Err? && r.error.NotInJournal? ==>
                r.error.tag in tags && forall e :: e in entries ==> e.tag != r.error.tag
      ensures r.Err? && r.error.NoFile? ==> r.error.tag in tags && r.error.tag !in files
    {
      var rows := [];
      for i := 0 to |tags|
        invariant AreRows(rows, tags[..i], entries, files)
      {
        var row := RowFor(tags[i], entries, files);
        if row.Err? { return Err(row.error); }
        rows := rows + [row.value];
      }
      assert tags[..|tags|] == tags;
      r := Ok(rows);
    }

    // expected.findIndex
    method FirstMismatch(recorded: seq<Row>, expected: seq<MigrationRow>) returns (at: Option<nat>)
      requires |recorded| == |expected|
      ensures at.None? ==> Matches(recorded, expected)
      ensures at.Some? ==> at.value < |expected| && !Agrees(recorded[at.value], expected[at.value])
      ensures at.Some? ==> forall i :: 0 <= i < at.value ==> Agrees(recorded[i], expected[i])
      ensures at.None? <==> forall i :: 0 <= i < |expected| ==>
                recorded[i].hash == expected[i].hash
                && (recorded[i].createdAt == Some(expected[i].when)
                    || (recorded[i].createdAt == None && expected[i].when == 0))
    {
      for i := 0 to |expected|
        invariant forall j :: 0 <= j < i ==> Agrees(recorded[j], expected[j])
      {
        if recorded[i].hash != expected[i].hash || Number(recorded[i].createdAt) != expected[i].when { return Some(i); }
      }
      at := None;
    }

    /** Passes exactly the journals that Accepts describes; each refusal says why. */
    method AssertJournalMatchesSchemaPrefix() returns (r: Result<()>)
      ensures r.Ok? ==> journal.Some? && exists n: nat, expected ::
              Accepts(markers, schema, entries, files, journal.value, n, expected)
      ensures r.Err? ==> forall n: nat, expected :: journal.Some? ==>
              !Accepts(markers, schema, entries, files, journal.value, n, expected)
      ensures r != Err(NotBaselined)
      ensures r.Err? && r.error.Incomplete? ==>
                IsPrefix(markers, schema, r.error.reflected) && r.error.recorded < r.error.reflected
      ensures r.Err? && r.error.AheadOfSchema? ==>
                IsPrefix(markers, schema, r.error.reflected) && r.error.recorded > r.error.reflected
    {
      var reflected := PresentMarkerPrefix();
      if reflected.Err? {
        var k: nat :| Breaks(markers, schema, k);
        forall n: nat | true ensures !IsPrefix(markers, schema, n) { BrokenIsNoPrefix(markers, schema, k, n); }
        return Err(reflected.error);
      }
      forall n: nat | IsPrefix(markers, schema, n) ensures n == reflected.value {
        PrefixUnique(markers, schema, n, reflected.value);
      }
      if journal.None? { return Err(NoJournalTable); }
      var recorded := OrderBy(journal.value);
      if |recorded| < reflected.value { return Err(Incomplete(|recorded|, reflected.value)); }
      if |recorded| > reflected.value { return Err(AheadOfSchema(|recorded|, reflected.value)); }
      var tags := Tags(markers[..reflected.value]);
      var expected := LoadMigrationRows(tags);
      if expected.Err? {
        var i :| 0 <= i < |tags| && RowFor(tags[i], entries, files) == Err(expected.error);
        forall rows | true ensures !AreRows(rows, tags, entries, files) { NoRows(i, tags, entries, files, rows); }
        return Err(expected.error);
      }
      var mismatch := FirstMismatch(recorded, expected.value);
      RowsUnique(expected.value, tags, entries, files);
      if mismatch.Some? { return Err(Mismatch(mismatch.value + 1)); }
      assert Accepts(markers, schema, entries, files, journal.value, reflected.value, expected.value);
      r := Ok(());
    }

    /** All the rows or none: on any failure the database is as it was. */
    method BaselineJournal(appliedTags: seq<string>) returns (r: Result<()>)
      modifies this`journal
      ensures r.Ok? ==> exists rows :: AreRows(rows, appliedTags, entries, files) && journal == Some(BaselineRows(rows))
      ensures r.Ok? ==> old(journal) == None || old(journal) == Some([])
      ensures r.Err? ==> journal == old(journal)
      ensures r.Err? && r.error == AlreadyJournaled ==> old(journal).Some? && old(journal).value != []
      ensures r.Err? && r.error != AlreadyJournaled ==>
                exists i :: 0 <= i < |appliedTags| && RowFor(appliedTags[i], entries, files) == Err(r.error)
    {
      var rows := LoadMigrationRows(appliedTags);
      if rows.Err? { return Err(rows.error); }
      var before := journal;
      if journal.None? { journal := Some([]); }
      if |journal.value| > 0 {
        journal := before; // rolled back
        return Err(AlreadyJournaled);
      }
      assert BaselineRows(rows.value[..0]) == [];
      for i := 0 to |rows.value|
        invariant journal == Some(BaselineRows(rows.value[..i]))
      {
        journal := Some(journal.value + [Row(rows.value[i].hash, Some(rows.value[i].when))]);
        assert journal.value == BaselineRows(rows.value[..i + 1]);
      }
      assert rows.value[..|rows.value|] == rows.value;
      r := Ok(());
    }

    predicate Populated()
      reads this`schema
    {
      "clients" in schema.tables
    }

    /** Safe exactly when the database is fresh, or its journal is the one its schema calls for. */
    method AssertSafeToMigrate() returns (r: Result<()>)
      ensures r.Ok? <==>
                if journal.None? then "clients" !in schema.tables
                else exists n: nat, expected :: Accepts(markers, schema, entries, files, journal.value, n, expected)
      ensures r == Err(NotBaselined) ==> journal.None? && "clients" in schema.tables
    {
      if journal.None? {
        if !Populated() { return Ok(()); }
        return Err(NotBaselined);
      }
      r := AssertJournalMatchesSchemaPrefix();
    }

    /**
     * The adoption script with --apply, then the migration guard. On a populated
     * database without a journal it ends safe exactly when the detected prefix's
     * timestamps never decrease.
     */
    method Adopt() returns (r: Result<()>)
      requires journal.None? && "clients" in schema.tables
      modifies this`journal
      ensures r.Ok? ==> exists n: nat, rows ::
                Adoptable(markers, schema, entries, files, n, rows) && journal == Some(BaselineRows(rows))
      ensures (forall t :: t in EntryTags(entries) ==> t in Tags(markers)) ==>
                forall n: nat, rows :: Adoptable(markers, schema, entries, files, n, rows) ==> r.Ok?
    {
      var applied := DetectAppliedMigrations();
      if applied.Err? {
        if !applied.error.Unmarked? {
          var k: nat :| Breaks(markers, schema, k);
          forall n: nat | true ensures !IsPrefix(markers, schema, n) { BrokenIsNoPrefix(markers, schema, k, n); }
        } else {
          assert applied.error.tags[0] in applied.error.tags;
        }
        return Err(applied.error);
      }
      var tags := applied.value;
      forall n: nat | IsPrefix(markers, schema, n) ensures n == |tags| { PrefixUnique(markers, schema, n, |tags|); }
      var done := BaselineJournal(tags);
      if done.Err? {
        var i :| 0 <= i < |tags| && RowFor(tags[i], entries, files) == Err(done.error);
        forall rows | true ensures !AreRows(rows, tags, entries, files) { NoRows(i, tags, entries, files, rows); }
        return done;
      }
      ghost var rows :| AreRows(rows, tags, entries, files) && journal == Some(BaselineRows(rows));
      RowsUnique(rows, tags, entries, files);
      BaselinePassesExactly(rows);
      r := AssertSafeToMigrate();
      if NonDecreasing(rows) { assert Accepts(markers, schema, entries, files, journal.value, |tags|, rows); }
      assert r.Ok? ==> Adoptable(markers, schema, entries, files, |tags|, rows);
    }
  }

  // ----- The repository's own nine migrations -----

  const MIGRATION_MARKERS: seq<Marker> := [
    Marker("0000_known_maria_hill", Probe("clients", None)),
    Marker("0001_clear_fixer", Probe("account_tokens", None)),
    Marker("0002_stormy_steel_serpent", Probe("clients", Some("is_public"))),
    Marker("0003_stormy_adam_destine", Probe("clients", Some("password_reset_url"))),
    Marker("0004_odd_cargill", Probe("clients", Some("allow_user_registration"))),
    Marker("0005_tearful_nightcrawler", Probe("audit_logs", None)),
    Marker("0006_amusing_punisher", Probe("refresh_tokens", Some("revoked_reason"))),
    Marker("0007_strong_multiple_man", Probe("service_accounts", None)),
    Marker("0008_naive_payback", Probe("refresh_tokens", Some("rotation_operation_hash")))]

  const JOURNAL: seq<Entry> := [
    Entry("0000_known_maria_hill", 1781204869558),
    Entry("0001_clear_fixer", 1781216092522),
    Entry("0002_stormy_steel_serpent", 1781218766448),
    Entry("0003_stormy_adam_destine", 1781265591968),
    Entry("0004_odd_cargill", 1781265908920),
    Entry("0005_tearful_nightcrawler", 1783278184566),
    Entry("0006_amusing_punisher", 1783283734920),
    Entry("0007_strong_multiple_man", 1783501019972),
    Entry("0008_naive_payback", 1783688047771)]

  const DIGITS := "012345678"

  lemma TagsNumbered()
    ensures |MIGRATION_MARKERS| == |JOURNAL| == |DIGITS| == 9
    ensures forall i :: 0 <= i < 9 ==>
              MIGRATION_MARKERS[i].tag == JOURNAL[i].tag && |JOURNAL[i].tag| > 3 && JOURNAL[i].tag[3] == DIGITS[i]
    ensures forall i, j :: 0 <= i < j < 9 ==> DIGITS[i] != DIGITS[j] && JOURNAL[i].when <= JOURNAL[j].when
  {}

  lemma {:induction false} FindSkips(entries: seq<Entry>, i: nat)
    requires i < |entries| && forall j :: 0 <= j < i ==> entries[j].tag != entries[i].tag
    ensures Find(entries, entries[i].tag) == Some(entries[i])
  {
    if i == 0 {
    } else {
      FindSkips(entries[1..], i - 1);
    }
  }

  /**
   * A schema reflects exactly the first n of the nine migrations when it has the tables and
   * columns of the first n markers, spelled out here, and none of the later ones.
   */
  lemma OwnPrefixExactly(schema: Schema, n: nat)
    ensures IsPrefix(MIGRATION_MARKERS, schema, n) <==>
            && n <= 9
            && ("clients" in schema.tables <==> n >= 1)
            && ("account_tokens" in schema.tables <==> n >= 2)
            && (("clients", "is_public") in schema.columns <==> n >= 3)
            && (("clients", "password_reset_url") in schema.columns <==> n >= 4)
            && (("clients", "allow_user_registration") in schema.columns <==> n >= 5)
            && ("audit_logs" in schema.tables <==> n >= 6)
            && (("refresh_tokens", "revoked_reason") in schema.columns <==> n >= 7)
            && ("service_accounts" in schema.tables <==> n >= 8)
            && (("refresh_tokens", "rotation_operation_hash") in schema.columns <==> n >= 9)
  {
    var m := MIGRATION_MARKERS;
    assert |m| == 9;
    assert IsPrefix(m, schema, n) <==>
           n <= 9 && (ProbeExists(schema, m[0].probe) <==> 0 < n) && (ProbeExists(schema, m[1].probe) <==> 1 < n)
           && (ProbeExists(schema, m[2].probe) <==> 2 < n) && (ProbeExists(schema, m[3].probe) <==> 3 < n)
           && (ProbeExists(schema, m[4].probe) <==> 4 < n) && (ProbeExists(schema, m[5].probe) <==> 5 < n)
           && (ProbeExists(schema, m[6].probe) <==> 6 < n) && (ProbeExists(schema, m[7].probe) <==> 7 < n)
           && (ProbeExists(schema, m[8].probe) <==> 8 < n) by { hide ProbeExists; }
  }

  /**
   * Whatever the migration files contain, every prefix of this repository's journal can be
   * adopted, and the rows it writes are the hash of each file with its journal time.
   */
  lemma OwnJournalIsAdoptable(schema: Schema, files: map<string, string>, n: nat, rows: seq<MigrationRow>)
    requires IsPrefix(MIGRATION_MARKERS, schema, n) && AreRows(rows, Tags(MIGRATION_MARKERS[..n]), JOURNAL, files)
    ensures Adoptable(MIGRATION_MARKERS, schema, JOURNAL, files, n, rows)
    ensures forall t :: t in EntryTags(JOURNAL) ==> t in Tags(MIGRATION_MARKERS)
    ensures |rows| == n <= 9
    ensures forall i :: 0 <= i < n ==>
              JOURNAL[i].tag in files && rows[i] == MigrationRow(Sha256(files[JOURNAL[i].tag]), JOURNAL[i].when)
  {
    TagsNumbered();
    hide ProbeExists, Find;
    var markers, entries := MIGRATION_MARKERS, JOURNAL;
    forall i | 0 <= i < n
      ensures entries[i].tag in files && rows[i] == MigrationRow(Sha256(files[entries[i].tag]), entries[i].when)
    {
      assert Tags(markers[..n])[i] == entries[i].tag;
      FindSkips(entries, i);
    }
    hide AreRows;
    forall t | t in EntryTags(entries) ensures t in Tags(markers) {
      var i :| 0 <= i < 9 && entries[i].tag == t;
      assert Tags(markers)[i] == t;
    }
  }
}
