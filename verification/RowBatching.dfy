/** One execution's row: merging updates in memory, and the upsert column by column (database/execution-recorder.ts). */
module RowBatching {
  import opened Collections

  datatype Column =
    | WorkflowId | WorkflowVersion | EndpointId | EventId | EventType | JobId | ReceivedAt | EnqueuedAt
    | RequestId | TriggerPayload
    | RowStatus | RowError
    | Attempts
    | StartedAt | FinishedAt | QueueLatencyMs | OutboundStartLatencyMs | ExecutionDurationMs | TotalLatencyMs

  datatype Cell = Null | Num(n: real) | Text(s: string)

  /** A property of an update object: unset, or set to null or to a value. */
  datatype Field = Undefined | Set(cell: Cell)

  type Update = map<Column, Field>

  function FieldOf(u: Update, c: Column): Field {
    if c in u then u[c] else Undefined
  }

  function Over(prev: Field, next: Field): Field {
    if next == Undefined then prev else next
  }

  /** The properties `next` has set, over those of `prev`. */
  function Merged(prev: Update, next: Update): Update {
    map c | c in prev.Keys + next.Keys && (c in prev || next[c] != Undefined) ::
      Over(FieldOf(prev, c), FieldOf(next, c))
  }

  lemma MergeOneMore(prev: Update, next: Update, c: Column, f: Field)
    requires c !in next
    ensures Merged(prev, next[c := f]) == if f == Undefined then Merged(prev, next) else Merged(prev, next)[c := f]
  {
  }

  method MergeUpdate(prev: Update, next: InsertionMap<Column, Field>) returns (merged: Update)
    requires next.Valid()
    ensures merged == Merged(prev, next.vals)
  {
    merged := prev;
    ghost var seen: Update := map[];
    assert Merged(prev, seen) == prev;
    hide Merged;
    var i := 0;
    while i < |next.keys|
      invariant 0 <= i <= |next.keys|
      invariant forall c :: c in seen <==> c in next.keys[..i]
      invariant forall c :: c in seen ==> c in next.vals && seen[c] == next.vals[c]
      invariant merged == Merged(prev, seen)
    {
      var c := next.keys[i];
      assert c !in next.keys[..i];
      MergeOneMore(prev, seen, c, next.vals[c]);
      if next.vals[c] != Undefined {
        merged := merged[c := next.vals[c]];
      }
      seen := seen[c := next.vals[c]];
      assert next.keys[..i + 1] == next.keys[..i] + [c];
      i := i + 1;
    }
    assert seen == next.vals;
  }

  lemma MergedFields(prev: Update, next: Update)
    ensures forall c :: FieldOf(Merged(prev, next), c) == Over(FieldOf(prev, c), FieldOf(next, c))
  {
  }

  /** Merging is associative, which is what lets a failed batch go back under newer updates. */
  lemma MergeIsAssociative(a: Update, b: Update, c: Update)
    ensures forall x :: FieldOf(Merged(Merged(a, b), c), x) == FieldOf(Merged(a, Merged(b, c)), x)
  {
    MergedFields(Merged(a, b), c);
    MergedFields(a, b);
    MergedFields(a, Merged(b, c));
    MergedFields(b, c);
  }

  // ---- the upsert ----

  datatype Rule = Overwrite | Greatest | KeepFirst | LatestNonNull | InsertOnly

  function RuleOf(c: Column): Rule {
    match c
    case RowStatus => Overwrite
    case RowError => Overwrite
    case Attempts => Greatest
    case TriggerPayload => KeepFirst
    case RequestId => KeepFirst
    case StartedAt => LatestNonNull
    case FinishedAt => LatestNonNull
    case QueueLatencyMs => LatestNonNull
    case OutboundStartLatencyMs => LatestNonNull
    case ExecutionDurationMs => LatestNonNull
    case TotalLatencyMs => LatestNonNull
    case _ => InsertOnly
  }

  /** An unset property is bound as NULL. */
  function Bound(f: Field): Cell {
    if f == Undefined then Null else f.cell
  }

  function Coalesce(a: Cell, b: Cell): Cell {
    if a == Null then b else a
  }

  /** SQL's GREATEST skips NULL. */
  function GreatestOf(a: Cell, b: Cell): Cell {
    if a.Num? && b.Num? then (if a.n >= b.n then a else b) else Coalesce(b, a)
  }

  /** The column after writing `f`; `None` is a row that does not exist yet. */
  function Written(rule: Rule, row: Option<Cell>, f: Field): Cell {
    if row == None then Bound(f)
    else
      match rule
      case Overwrite => Bound(f)
      case Greatest => GreatestOf(row.value, Bound(f))
      case KeepFirst => Coalesce(row.value, Bound(f))
      case LatestNonNull => Coalesce(Bound(f), row.value)
      case InsertOnly => row.value
  }

  // ---- one column, many updates ----

  /** What merging a list of updates leaves in one column. */
  function LastSet(fs: seq<Field>): Field {
    if fs == [] then Undefined else Over(LastSet(fs[..|fs| - 1]), fs[|fs| - 1])
  }

  /** Each update written on its own. */
  function OneByOne(rule: Rule, row: Option<Cell>, fs: seq<Field>): Option<Cell> {
    if fs == [] then row else Some(Written(rule, OneByOne(rule, row, fs[..|fs| - 1]), fs[|fs| - 1]))
  }

  function Flat<T>(groups: seq<seq<T>>): seq<T> {
    if groups == [] then [] else Flat(groups[..|groups| - 1]) + groups[|groups| - 1]
  }

  /** One write for each group of updates. */
  function InBatches(rule: Rule, row: Option<Cell>, groups: seq<seq<Field>>): Option<Cell> {
    if groups == [] then row
    else Some(Written(rule, InBatches(rule, row, groups[..|groups| - 1]), LastSet(groups[|groups| - 1])))
  }

  ghost predicate NonEmptyGroups<T(!new)>(groups: seq<seq<T>>) {
    forall i :: 0 <= i < |groups| ==> |groups[i]| > 0
  }

  /**
   * However the updates are cut into batches, and whatever the row held, the column ends as if each were written on its
   * own.
   */
  ghost predicate CutsAgree(rule: Rule, fs: seq<Field>) {
    forall row, groups :: NonEmptyGroups(groups) && Flat(groups) == fs ==>
      InBatches(rule, row, groups) == OneByOne(rule, row, fs)
  }

  predicate SetsValue(f: Field) {
    f.Set? && f.cell != Null
  }

  ghost predicate NoValue(fs: seq<Field>) {
    forall i :: 0 <= i < |fs| ==> !SetsValue(fs[i])
  }

  /** The exact condition, rule by rule. */
  ghost predicate Steady(rule: Rule, fs: seq<Field>)
    requires fs != []
  {
    var last := fs[|fs| - 1];
    match rule
    case Overwrite => last.Set? || !SetsValue(LastSet(fs))
    case Greatest =>
      Bound(last).Num? && forall i :: 0 <= i < |fs| && Bound(fs[i]).Num? ==> Bound(fs[i]).n <= Bound(last).n
    case KeepFirst => NoValue(fs) ||
      (SetsValue(LastSet(fs)) && forall i :: 0 <= i < |fs| && SetsValue(fs[i]) ==> fs[i] == LastSet(fs))
    case LatestNonNull => NoValue(fs) || SetsValue(LastSet(fs))
    case InsertOnly => forall i :: 0 <= i < |fs| && fs[i].Set? ==> fs[i].cell == Bound(fs[0])
  }

  lemma {:induction false} LastSetAppend(a: seq<Field>, b: seq<Field>)
    ensures LastSet(a + b) == Over(LastSet(a), LastSet(b))
  {
    if b == [] {
      assert a + b == a;
    } else {
      assert (a + b)[..|a + b| - 1] == a + b[..|b| - 1];
      LastSetAppend(a, b[..|b| - 1]);
    }
  }

  lemma {:induction false} LastSetIsOneOf(fs: seq<Field>)
    ensures LastSet(fs) == Undefined || LastSet(fs) in fs
    ensures LastSet(fs) == Undefined ==> forall i :: 0 <= i < |fs| ==> fs[i] == Undefined
  {
    if fs != [] {
      LastSetIsOneOf(fs[..|fs| - 1]);
      assert fs == fs[..|fs| - 1] + [fs[|fs| - 1]];
    }
  }

  /** What each batch writes. */
  function Merges(groups: seq<seq<Field>>): (gs: seq<Field>)
    ensures |gs| == |groups|
  {
    if groups == [] then [] else Merges(groups[..|groups| - 1]) + [LastSet(groups[|groups| - 1])]
  }

  /** Writing batches is writing their merges one by one. */
  lemma {:induction false} BatchesWriteMerges(rule: Rule, row: Option<Cell>, groups: seq<seq<Field>>)
    ensures InBatches(rule, row, groups) == OneByOne(rule, row, Merges(groups))
  {
    if groups != [] {
      var n := |groups| - 1;
      BatchesWriteMerges(rule, row, groups[..n]);
      assert Merges(groups)[..n] == Merges(groups[..n]);
    }
  }

  /** The last set property is the same, and nothing is in the merges that was not in the updates. */
  lemma {:induction false} MergesOf(groups: seq<seq<Field>>)
    ensures LastSet(Merges(groups)) == LastSet(Flat(groups))
    ensures forall i :: 0 <= i < |groups| ==> Merges(groups)[i] == Undefined || Merges(groups)[i] in Flat(groups)
  {
    if groups != [] {
      var n := |groups| - 1;
      var front, last := groups[..n], groups[n];
      MergesOf(front);
      LastSetAppend(Flat(front), last);
      LastSetIsOneOf(last);
      assert Merges(groups)[..n] == Merges(front);
      assert forall i :: 0 <= i < n ==> Merges(groups)[i] == Merges(front)[i];
    }
  }

  lemma {:induction false} FirstOfGroups(groups: seq<seq<Field>>)
    requires NonEmptyGroups(groups) && groups != []
    ensures Merges(groups)[0] == LastSet(groups[0]) && Flat(groups) != [] && Flat(groups)[0] == groups[0][0]
  {
    if |groups| > 1 {
      FirstOfGroups(groups[..|groups| - 1]);
    } else {
      assert Flat(groups) == groups[0];
    }
  }

  lemma {:induction false} LastOfGroups(groups: seq<seq<Field>>)
    requires NonEmptyGroups(groups) && groups != []
    ensures
      var fs, last := Flat(groups), groups[|groups| - 1];
      && Merges(groups)[|groups| - 1] == LastSet(last) && fs != [] && fs[|fs| - 1] == last[|last| - 1]
      && LastSet(fs) == Over(LastSet(Flat(groups[..|groups| - 1])), LastSet(last))
  {
    LastSetAppend(Flat(groups[..|groups| - 1]), groups[|groups| - 1]);
  }

  lemma {:induction false} InsertOnlyKeepsFirst(row: Option<Cell>, fs: seq<Field>)
    requires fs != []
    ensures OneByOne(InsertOnly, row, fs) == Some(if row == None then Bound(fs[0]) else row.value)
  {
    if |fs| > 1 {
      InsertOnlyKeepsFirst(row, fs[..|fs| - 1]);
    }
  }

  /** The last of the writes. */
  lemma OneMoreWrite(rule: Rule, row: Option<Cell>, fs: seq<Field>)
    requires fs != []
    ensures
      var front, last := fs[..|fs| - 1], fs[|fs| - 1];
      && OneByOne(rule, row, fs) == Some(Written(rule, OneByOne(rule, row, front), last))
      && LastSet(fs) == Over(LastSet(front), last)
      && (NoValue(fs) <==> NoValue(front) && !SetsValue(last))
      && (front == [] ==> OneByOne(rule, row, front) == row && LastSet(front) == Undefined)
  {
    assert fs == fs[..|fs| - 1] + [fs[|fs| - 1]];
  }

  lemma {:induction false} LatestIsLastValue(row: Option<Cell>, fs: seq<Field>)
    requires fs != []
    ensures OneByOne(LatestNonNull, row, fs).Some?
    ensures NoValue(fs) ==> OneByOne(LatestNonNull, row, fs) == Some(if row == None then Null else row.value)
    ensures SetsValue(LastSet(fs)) ==> OneByOne(LatestNonNull, row, fs) == Some(LastSet(fs).cell)
    ensures !NoValue(fs) ==> OneByOne(LatestNonNull, row, fs) != Some(Null)
  {
    hide OneByOne, LastSet, NoValue;
    var front := fs[..|fs| - 1];
    OneMoreWrite(LatestNonNull, row, fs);
    if front != [] {
      LatestIsLastValue(row, front);
    } else {
      assert NoValue(front) by {
        NothingIsNoValue();
      }
    }
  }

  lemma NothingIsNoValue()
    ensures NoValue([])
  {
  }

  lemma {:induction false} KeepFirstOfEqualValues(row: Option<Cell>, fs: seq<Field>, v: Field)
    requires fs != [] && SetsValue(v) && forall i :: 0 <= i < |fs| && SetsValue(fs[i]) ==> fs[i] == v
    ensures
      OneByOne(KeepFirst, row, fs) ==
      Some(if row != None && row.value != Null then row.value else if v in fs then v.cell else Null)
  {
    var front, last := fs[..|fs| - 1], fs[|fs| - 1];
    assert v in fs <==> v in front || last == v;
    assert OneByOne(KeepFirst, row, fs) == Some(Written(KeepFirst, OneByOne(KeepFirst, row, front), last));
    if front != [] {
      assert forall i :: 0 <= i < |front| ==> front[i] == fs[i];
      KeepFirstOfEqualValues(row, front, v);
    }
    hide OneByOne, LastSet;
  }

  lemma {:induction false} KeepFirstFindsValue(fs: seq<Field>)
    requires !NoValue(fs)
    ensures OneByOne(KeepFirst, None, fs) != Some(Null)
  {
    var front, last := fs[..|fs| - 1], fs[|fs| - 1];
    assert fs == front + [last];
    if !NoValue(front) {
      KeepFirstFindsValue(front);
    }
  }

  lemma {:induction false} NoValueStaysNull(row: Option<Cell>, fs: seq<Field>)
    requires fs != [] && NoValue(fs)
    ensures OneByOne(KeepFirst, row, fs) == Some(if row == None then Null else row.value)
  {
    var front, last := fs[..|fs| - 1], fs[|fs| - 1];
    assert fs == front + [last];
    if front != [] {
      NoValueStaysNull(row, front);
    }
  }

  predicate NumericFields(fs: seq<Field>) {
    forall i :: 0 <= i < |fs| ==> fs[i].Set? && fs[i].cell.Num?
  }

  lemma {:induction false} GreatestIsMaximum(row: Option<Cell>, fs: seq<Field>)
    requires fs != [] && NumericFields(fs)
    ensures
      var r := OneByOne(Greatest, row, fs);
      && r != None && r.value.Num?
      && (forall i :: 0 <= i < |fs| ==> fs[i].cell.n <= r.value.n)
      && (row != None && row.value.Num? ==> row.value.n <= r.value.n)
      && (Set(r.value) in fs || r == row)
  {
    hide OneByOne, LastSet, NoValue;
    var front, last := fs[..|fs| - 1], fs[|fs| - 1];
    OneMoreWrite(Greatest, row, fs);
    assert fs == front + [last];
    if front != [] {
      GreatestIsMaximum(row, front);
    }
  }

  lemma {:induction false} NumericLastSet(fs: seq<Field>)
    requires fs != [] && NumericFields(fs)
    ensures LastSet(fs) == fs[|fs| - 1]
  {
  }

  // ---- steadiness is enough ----

  lemma SteadyCut(rule: Rule, row: Option<Cell>, groups: seq<seq<Field>>)
    requires NonEmptyGroups(groups) && Flat(groups) != [] && Steady(rule, Flat(groups))
    requires rule == Greatest ==> NumericFields(Flat(groups))
    ensures InBatches(rule, row, groups) == OneByOne(rule, row, Flat(groups))
  {
    var fs, gs := Flat(groups), Merges(groups);
    assert groups != [];
    BatchesWriteMerges(rule, row, groups);
    MergesOf(groups);
    FirstOfGroups(groups);
    LastOfGroups(groups);
    match rule
    case Overwrite =>
      assert gs[..|gs| - 1] + [gs[|gs| - 1]] == gs;
    case InsertOnly =>
      InsertOnlyKeepsFirst(row, gs);
      InsertOnlyKeepsFirst(row, fs);
      LastSetIsOneOf(groups[0]);
    case LatestNonNull =>
      LatestIsLastValue(row, gs);
      LatestIsLastValue(row, fs);
    case KeepFirst =>
      if NoValue(fs) {
        NoValueStaysNull(row, gs);
        NoValueStaysNull(row, fs);
      } else {
        LastSetIsOneOf(gs);
        LastSetIsOneOf(fs);
        KeepFirstOfEqualValues(row, gs, LastSet(fs));
        KeepFirstOfEqualValues(row, fs, LastSet(fs));
      }
    case Greatest =>
      SteadyGreatest(row, groups);
  }

  lemma SteadyGreatest(row: Option<Cell>, groups: seq<seq<Field>>)
    requires NonEmptyGroups(groups) && Flat(groups) != [] && Steady(Greatest, Flat(groups)) &&
             NumericFields(Flat(groups))
    ensures OneByOne(Greatest, row, Merges(groups)) == OneByOne(Greatest, row, Flat(groups))
  {
    var fs, gs := Flat(groups), Merges(groups);
    MergesOf(groups);
    LastOfGroups(groups);
    NumericGroups(groups);
    NumericLastSet(groups[|groups| - 1]);
    assert gs[|gs| - 1] == fs[|fs| - 1];
    GreatestIsMaximum(row, gs);
    GreatestIsMaximum(row, fs);
  }

  lemma {:induction false} NumericGroups(groups: seq<seq<Field>>)
    requires NonEmptyGroups(groups) && NumericFields(Flat(groups))
    ensures NumericFields(Merges(groups))
    ensures groups != [] ==> NumericFields(groups[|groups| - 1])
  {
    if groups != [] {
      var n := |groups| - 1;
      var front := Flat(groups[..n]);
      assert forall i :: 0 <= i < |front| ==> front[i] == Flat(groups)[i];
      assert forall i :: 0 <= i < |groups[n]| ==> groups[n][i] == Flat(groups)[|front| + i];
      NumericGroups(groups[..n]);
      NumericLastSet(groups[n]);
    }
  }

  // ---- and nothing less is ----

  lemma OneBatch(rule: Rule, row: Option<Cell>, fs: seq<Field>)
    requires fs != []
    ensures NonEmptyGroups([fs]) && Flat([fs]) == fs
    ensures InBatches(rule, row, [fs]) == Some(Written(rule, row, LastSet(fs)))
  {
  }

  /** Cutting after the update at `i`. */
  function CutAfter(fs: seq<Field>, i: nat): seq<seq<Field>>
    requires i < |fs|
  {
    if i + 1 == |fs| then [fs] else [fs[..i + 1], fs[i + 1..]]
  }

  lemma TwoBatches(rule: Rule, row: Option<Cell>, fs: seq<Field>, i: nat)
    requires i < |fs|
    ensures NonEmptyGroups(CutAfter(fs, i)) && Flat(CutAfter(fs, i)) == fs
    ensures
      var first := Written(rule, row, LastSet(fs[..i + 1]));
      InBatches(rule, row, CutAfter(fs, i)) ==
      Some(if i + 1 == |fs| then first else Written(rule, Some(first), LastSet(fs[i + 1..])))
  {
    if i + 1 == |fs| {
      assert fs[..i + 1] == fs;
      OneBatch(rule, row, fs);
    } else {
      BatchPair(rule, row, fs[..i + 1], fs[i + 1..]);
      assert fs[..i + 1] + fs[i + 1..] == fs;
    }
  }

  lemma BatchPair(rule: Rule, row: Option<Cell>, a: seq<Field>, b: seq<Field>)
    requires a != [] && b != []
    ensures NonEmptyGroups([a, b]) && Flat([a, b]) == a + b
    ensures InBatches(rule, row, [a, b]) == Some(Written(rule, Some(Written(rule, row, LastSet(a))), LastSet(b)))
  {
    OneBatch(rule, row, a);
    assert [a, b][..1] == [a];
    hide LastSet, Written;
  }

  /** A set property at `i` is what merging the updates up to `i` leaves. */
  lemma LastSetUpTo(fs: seq<Field>, i: nat)
    requires i < |fs| && fs[i].Set?
    ensures LastSet(fs[..i + 1]) == fs[i]
  {
    assert fs[..i + 1][..i] == fs[..i];
  }

  lemma AgreementAt(rule: Rule, fs: seq<Field>, i: nat)
    requires i < |fs| && CutsAgree(rule, fs)
    ensures InBatches(rule, None, CutAfter(fs, i)) == OneByOne(rule, None, fs)
  {
    TwoBatches(rule, None, fs, i);
  }

  lemma FirstDecides(rule: Rule, first: Field, next: Field)
    requires first.Set? && (rule == InsertOnly || (rule == KeepFirst && SetsValue(first)))
    ensures Written(rule, None, first) == first.cell && Written(rule, Some(first.cell), next) == first.cell
  {
  }

  /** Where the first of two writes decides, what is set at `i` is what writing one by one leaves. */
  lemma FirstWriteShows(rule: Rule, fs: seq<Field>, i: nat)
    requires i < |fs| && CutsAgree(rule, fs) && fs[i].Set?
    requires rule == InsertOnly || (rule == KeepFirst && SetsValue(fs[i]))
    ensures OneByOne(rule, None, fs) == Some(fs[i].cell)
  {
    hide *;
    AgreementAt(rule, fs, i);
    TwoBatches(rule, None, fs, i);
    LastSetUpTo(fs, i);
    FirstDecides(rule, fs[i], LastSet(fs[i + 1..]));
  }

  lemma InsertOnlyIsSteady(fs: seq<Field>)
    requires fs != [] && CutsAgree(InsertOnly, fs)
    ensures Steady(InsertOnly, fs)
  {
    InsertOnlyKeepsFirst(None, fs);
    hide OneByOne, CutsAgree;
    forall i | 0 <= i < |fs| && fs[i].Set?
      ensures fs[i].cell == Bound(fs[0])
    {
      FirstWriteShows(InsertOnly, fs, i);
    }
  }

  lemma KeepFirstIsSteady(fs: seq<Field>)
    requires fs != [] && CutsAgree(KeepFirst, fs) && OneByOne(KeepFirst, None, fs) == Some(Bound(LastSet(fs)))
    ensures Steady(KeepFirst, fs)
  {
    if !NoValue(fs) {
      KeepFirstFindsValue(fs);
      hide OneByOne, CutsAgree, LastSet;
      forall i | 0 <= i < |fs| && SetsValue(fs[i])
        ensures fs[i] == LastSet(fs)
      {
        FirstWriteShows(KeepFirst, fs, i);
      }
    }
  }

  lemma OneBatchShows(rule: Rule, fs: seq<Field>)
    requires fs != [] && CutsAgree(rule, fs)
    ensures OneByOne(rule, None, fs) == Some(Bound(LastSet(fs)))
  {
    OneBatch(rule, None, fs);
    hide OneByOne, LastSet;
  }

  lemma OnlySteadyAgrees(rule: Rule, fs: seq<Field>)
    requires fs != [] && CutsAgree(rule, fs)
    requires rule == Greatest ==> NumericFields(fs)
    ensures Steady(rule, fs)
  {
    OneBatchShows(rule, fs);
    match rule
    case Overwrite =>
    case Greatest =>
      GreatestIsMaximum(None, fs);
      NumericLastSet(fs);
    case LatestNonNull =>
      LatestIsLastValue(None, fs);
    case InsertOnly =>
      InsertOnlyIsSteady(fs);
    case KeepFirst =>
      KeepFirstIsSteady(fs);
  }

  /**
   * Batching never shows in a column if and only if the column's updates are steady. Only `attempts` uses Greatest, and
   * every update sets it to a number.
   */
  lemma CutsAgreeIffSteady(rule: Rule, fs: seq<Field>)
    requires fs != []
    requires rule == Greatest ==> NumericFields(fs)
    ensures CutsAgree(rule, fs) <==> Steady(rule, fs)
  {
    if Steady(rule, fs) {
      forall row, groups | NonEmptyGroups(groups) && Flat(groups) == fs
        ensures InBatches(rule, row, groups) == OneByOne(rule, row, fs)
      {
        SteadyCut(rule, row, groups);
      }
    } else if CutsAgree(rule, fs) {
      OnlySteadyAgrees(rule, fs);
    }
  }

  // ---- whole rows ----

  type Row = map<Column, Cell>

  function CellOf(row: Option<Row>, c: Column): Option<Cell> {
    if row.Some? && c in row.value then Some(row.value[c]) else None
  }

  /** The row after one upsert. */
  function Upserted(row: Option<Row>, u: Update): Row {
    map c: Column | true :: Written(RuleOf(c), CellOf(row, c), FieldOf(u, c))
  }

  function MergeAll(us: seq<Update>): Update {
    if us == [] then map[] else Merged(MergeAll(us[..|us| - 1]), us[|us| - 1])
  }

  function RowOneByOne(row: Option<Row>, us: seq<Update>): Option<Row> {
    if us == [] then row else Some(Upserted(RowOneByOne(row, us[..|us| - 1]), us[|us| - 1]))
  }

  function RowInBatches(row: Option<Row>, groups: seq<seq<Update>>): Option<Row> {
    if groups == [] then row
    else Some(Upserted(RowInBatches(row, groups[..|groups| - 1]), MergeAll(groups[|groups| - 1])))
  }

  function ColumnOf(us: seq<Update>, c: Column): (fs: seq<Field>)
    ensures |fs| == |us| && forall i :: 0 <= i < |us| ==> fs[i] == FieldOf(us[i], c)
  {
    seq(|us|, i requires 0 <= i < |us| => FieldOf(us[i], c))
  }

  function ColumnsOf(groups: seq<seq<Update>>, c: Column): (r: seq<seq<Field>>)
    ensures |r| == |groups| && forall i :: 0 <= i < |groups| ==> r[i] == ColumnOf(groups[i], c)
  {
    seq(|groups|, i requires 0 <= i < |groups| => ColumnOf(groups[i], c))
  }

  lemma {:induction false} MergedColumn(us: seq<Update>, c: Column)
    ensures FieldOf(MergeAll(us), c) == LastSet(ColumnOf(us, c))
  {
    if us != [] {
      MergedColumn(us[..|us| - 1], c);
      assert ColumnOf(us, c)[..|us| - 1] == ColumnOf(us[..|us| - 1], c);
    }
  }

  lemma {:induction false} OneByOneColumn(row: Option<Row>, us: seq<Update>, c: Column)
    ensures CellOf(RowOneByOne(row, us), c) == OneByOne(RuleOf(c), CellOf(row, c), ColumnOf(us, c))
  {
    if us != [] {
      OneByOneColumn(row, us[..|us| - 1], c);
      assert ColumnOf(us, c)[..|us| - 1] == ColumnOf(us[..|us| - 1], c);
    }
  }

  lemma {:induction false} BatchedColumn(row: Option<Row>, groups: seq<seq<Update>>, c: Column)
    ensures CellOf(RowInBatches(row, groups), c) == InBatches(RuleOf(c), CellOf(row, c), ColumnsOf(groups, c))
  {
    if groups != [] {
      var n := |groups| - 1;
      BatchedColumn(row, groups[..n], c);
      MergedColumn(groups[n], c);
      assert ColumnsOf(groups, c)[..n] == ColumnsOf(groups[..n], c);
    }
  }

  lemma {:induction false} FlatColumns(groups: seq<seq<Update>>, c: Column)
    ensures Flat(ColumnsOf(groups, c)) == ColumnOf(Flat(groups), c)
  {
    if groups != [] {
      var n := |groups| - 1;
      FlatColumns(groups[..n], c);
      assert ColumnsOf(groups, c)[..n] == ColumnsOf(groups[..n], c);
    }
  }

  /** `us` cut into pieces as long as the groups of `cut`. */
  function LikeCut(us: seq<Update>, cut: seq<seq<Field>>): seq<seq<Update>>
    requires |Flat(cut)| == |us|
    decreases |cut|
  {
    if cut == [] then []
    else
      var n := |us| - |cut[|cut| - 1]|;
      LikeCut(us[..n], cut[..|cut| - 1]) + [us[n..]]
  }

  lemma ColumnSlices(us: seq<Update>, n: nat, c: Column)
    requires n <= |us|
    ensures ColumnOf(us[..n], c) == ColumnOf(us, c)[..n] && ColumnOf(us[n..], c) == ColumnOf(us, c)[n..]
  {
  }

  lemma AppendGroup(groups: seq<seq<Update>>, last: seq<Update>, c: Column)
    ensures Flat(groups + [last]) == Flat(groups) + last
    ensures ColumnsOf(groups + [last], c) == ColumnsOf(groups, c) + [ColumnOf(last, c)]
  {
    assert (groups + [last])[..|groups|] == groups;
  }

  lemma LastCut(us: seq<Update>, cut: seq<seq<Field>>)
    requires cut != [] && |Flat(cut)| == |us|
    ensures
      var k := |cut| - 1;
      var n := |us| - |cut[k]|;
      && n >= 0 && Flat(cut) == Flat(cut[..k]) + cut[k] && |Flat(cut[..k])| == n
      && LikeCut(us, cut) == LikeCut(us[..n], cut[..k]) + [us[n..]]
  {
  }

  lemma LastPiece(fs: seq<Field>, front: seq<Field>, last: seq<Field>)
    requires fs == front + last
    ensures front == fs[..|fs| - |last|] && last == fs[|fs| - |last|..]
  {
  }

  lemma {:induction false} LikeCutFits(us: seq<Update>, cut: seq<seq<Field>>, c: Column)
    requires Flat(cut) == ColumnOf(us, c)
    ensures Flat(LikeCut(us, cut)) == us && ColumnsOf(LikeCut(us, cut), c) == cut
    decreases |cut|
  {
    if cut != [] {
      hide ColumnOf, ColumnsOf, LikeCut, Flat;
      var k := |cut| - 1;
      var n := |us| - |cut[k]|;
      LastCut(us, cut);
      LastPiece(ColumnOf(us, c), Flat(cut[..k]), cut[k]);
      ColumnSlices(us, n, c);
      LikeCutFits(us[..n], cut[..k], c);
      AppendGroup(LikeCut(us[..n], cut[..k]), us[n..], c);
      assert us[..n] + us[n..] == us && cut[..k] + [cut[k]] == cut;
    }
  }

  /**
   * However an execution's updates are cut into flushes, the column ends as if every update had been written on its
   * own.
   */
  ghost predicate ColumnAgrees(us: seq<Update>, c: Column) {
    forall row, groups :: NonEmptyGroups(groups) && Flat(groups) == us ==>
      CellOf(RowInBatches(row, groups), c) == CellOf(RowOneByOne(row, us), c)
  }

  lemma AgreementLifts(us: seq<Update>, c: Column)
    requires CutsAgree(RuleOf(c), ColumnOf(us, c))
    ensures ColumnAgrees(us, c)
  {
    forall row, groups | NonEmptyGroups(groups) && Flat(groups) == us
      ensures CellOf(RowInBatches(row, groups), c) == CellOf(RowOneByOne(row, us), c)
    {
      BatchedColumn(row, groups, c);
      OneByOneColumn(row, us, c);
      FlatColumns(groups, c);
      assert NonEmptyGroups(ColumnsOf(groups, c));
    }
  }

  lemma AgreementDrops(us: seq<Update>, c: Column)
    requires ColumnAgrees(us, c)
    ensures CutsAgree(RuleOf(c), ColumnOf(us, c))
  {
    var fs := ColumnOf(us, c);
    forall cell: Option<Cell>, cut | NonEmptyGroups(cut) && Flat(cut) == fs
      ensures InBatches(RuleOf(c), cell, cut) == OneByOne(RuleOf(c), cell, fs)
    {
      var row: Option<Row> := if cell == None then None else Some(map[c := cell.value]);
      assert CellOf(row, c) == cell;
      LikeCutFits(us, cut, c);
      var groups := LikeCut(us, cut);
      assert NonEmptyGroups(groups) by {
        forall i | 0 <= i < |groups|
          ensures |groups[i]| > 0
        {
          assert |ColumnsOf(groups, c)[i]| == |groups[i]|;
        }
      }
      BatchedColumn(row, groups, c);
      OneByOneColumn(row, us, c);
    }
  }

  /** Every update sets `attempts` to a number. */
  ghost predicate CountsAttempts(us: seq<Update>) {
    NumericFields(ColumnOf(us, Attempts))
  }

  /** The stored column never shows how updates were batched if and only if the updates are steady in it. */
  lemma ColumnAgreesIffSteady(us: seq<Update>, c: Column)
    requires us != [] && CountsAttempts(us)
    ensures ColumnAgrees(us, c) <==> Steady(RuleOf(c), ColumnOf(us, c))
  {
    CutsAgreeIffSteady(RuleOf(c), ColumnOf(us, c));
    if ColumnAgrees(us, c) {
      AgreementDrops(us, c);
    }
    if CutsAgree(RuleOf(c), ColumnOf(us, c)) {
      AgreementLifts(us, c);
    }
  }

  // ---- what the worker records (workers/automation.worker.ts) ----

  datatype Event =
    | Started(startedAt: real, queueLatencyMs: Option<real>)
    | Succeeded(finishedAt: real, executionDurationMs: real, totalLatencyMs: real, outboundStartLatencyMs: Option<real>)
    | Failed(status: string, finishedAt: real, error: string)

  datatype Report = Report(jobId: string, attempt: nat, event: Event)

  datatype Execution = Execution(
    workflowId: string, workflowVersion: real, endpointId: string, eventId: string, eventType: string,
    requestId: string, receivedAt: real, enqueuedAt: real, payload: Option<string>)

  function Optional(ms: Option<real>): Field {
    if ms == None then Undefined else Set(Num(ms.value))
  }

  function ReportField(x: Execution, r: Report, c: Column): Field {
    match c
    case WorkflowId => Set(Text(x.workflowId))
    case WorkflowVersion => Set(Num(x.workflowVersion))
    case EndpointId => Set(Text(x.endpointId))
    case EventId => Set(Text(x.eventId))
    case EventType => Set(Text(x.eventType))
    case JobId => Set(Text(r.jobId))
    case ReceivedAt => Set(Num(x.receivedAt))
    case EnqueuedAt => Set(Num(x.enqueuedAt))
    case RequestId => Set(Text(x.requestId))
    case Attempts => Set(Num(r.attempt as real))
    case TriggerPayload => if r.event.Started? && x.payload.Some? then Set(Text(x.payload.value)) else Undefined
    case RowStatus =>
      Set(Text(if r.event.Started? then "RUNNING" else if r.event.Succeeded? then "SUCCEEDED" else r.event.status))
    case RowError =>
      if r.event.Started? then Undefined else if r.event.Failed? then Set(Text(r.event.error)) else Set(Null)
    case StartedAt => if r.event.Started? then Set(Num(r.event.startedAt)) else Undefined
    case QueueLatencyMs => if r.event.Started? then Optional(r.event.queueLatencyMs) else Undefined
    case FinishedAt => if r.event.Started? then Undefined else Set(Num(r.event.finishedAt))
    case OutboundStartLatencyMs => if r.event.Succeeded? then Optional(r.event.outboundStartLatencyMs) else Undefined
    case ExecutionDurationMs => if r.event.Succeeded? then Set(Num(r.event.executionDurationMs)) else Undefined
    case TotalLatencyMs => if r.event.Succeeded? then Set(Num(r.event.totalLatencyMs)) else Undefined
  }

  function UpdateOf(x: Execution, r: Report): Update {
    map c: Column | true :: ReportField(x, r, c)
  }

  function UpdatesOf(x: Execution, reports: seq<Report>): (us: seq<Update>)
    ensures |us| == |reports| && forall i :: 0 <= i < |reports| ==> us[i] == UpdateOf(x, reports[i])
  {
    seq(|reports|, i requires 0 <= i < |reports| => UpdateOf(x, reports[i]))
  }

  /** Where no update sets NULL, the last set property is a value if there is any. */
  lemma NeverNullIsSteady(fs: seq<Field>)
    requires fs != [] && forall i :: 0 <= i < |fs| ==> fs[i] != Set(Null)
    ensures Steady(LatestNonNull, fs)
  {
    LastSetIsOneOf(fs);
  }

  /** The last report that ended an attempt ended it with an error. */
  predicate LastOutcomeFailed(reports: seq<Report>) {
    reports != [] &&
    (reports[|reports| - 1].event.Failed? ||
     (reports[|reports| - 1].event.Started? && LastOutcomeFailed(reports[..|reports| - 1])))
  }

  lemma OneMoreReport(x: Execution, reports: seq<Report>, c: Column)
    requires reports != []
    ensures
      var front, last := reports[..|reports| - 1], reports[|reports| - 1];
      LastSet(ColumnOf(UpdatesOf(x, reports), c)) ==
        Over(LastSet(ColumnOf(UpdatesOf(x, front), c)), ReportField(x, last, c))
  {
    var n := |reports| - 1;
    hide ReportField;
    assert ColumnOf(UpdatesOf(x, reports), c)[..n] == ColumnOf(UpdatesOf(x, reports[..n]), c);
  }

  lemma {:induction false} LastErrorIsLastOutcome(x: Execution, reports: seq<Report>)
    ensures SetsValue(LastSet(ColumnOf(UpdatesOf(x, reports), RowError))) <==> LastOutcomeFailed(reports)
  {
    if reports != [] {
      hide LastSet, ColumnOf, UpdatesOf;
      LastErrorIsLastOutcome(x, reports[..|reports| - 1]);
      OneMoreReport(x, reports, RowError);
    }
  }

  /** The reports whose row cannot depend on batching in column `c`. */
  predicate HidesBatching(reports: seq<Report>, c: Column)
    requires reports != []
  {
    match c
    case Attempts => forall i :: 0 <= i < |reports| ==> reports[i].attempt <= reports[|reports| - 1].attempt
    case JobId => forall i :: 0 <= i < |reports| ==> reports[i].jobId == reports[0].jobId
    case RowError => !reports[|reports| - 1].event.Started? || !LastOutcomeFailed(reports)
    case _ => true
  }

  lemma ReportColumn(x: Execution, reports: seq<Report>, c: Column)
    ensures |ColumnOf(UpdatesOf(x, reports), c)| == |reports|
    ensures forall i :: 0 <= i < |reports| ==> ColumnOf(UpdatesOf(x, reports), c)[i] == ReportField(x, reports[i], c)
  {
  }

  lemma LatestColumns(x: Execution, reports: seq<Report>, c: Column)
    requires reports != [] && RuleOf(c) == LatestNonNull
    ensures Steady(RuleOf(c), ColumnOf(UpdatesOf(x, reports), c)) && HidesBatching(reports, c)
  {
    ReportColumn(x, reports, c);
    hide ColumnOf, UpdatesOf;
    NeverNullIsSteady(ColumnOf(UpdatesOf(x, reports), c));
  }

  lemma KeptColumns(x: Execution, reports: seq<Report>, c: Column)
    requires reports != [] && RuleOf(c) == KeepFirst
    ensures Steady(RuleOf(c), ColumnOf(UpdatesOf(x, reports), c)) && HidesBatching(reports, c)
  {
    ReportColumn(x, reports, c);
    hide ColumnOf, UpdatesOf;
    LastSetIsOneOf(ColumnOf(UpdatesOf(x, reports), c));
  }

  lemma InsertedColumns(x: Execution, reports: seq<Report>, c: Column)
    requires reports != [] && RuleOf(c) == InsertOnly
    ensures Steady(RuleOf(c), ColumnOf(UpdatesOf(x, reports), c)) <==> HidesBatching(reports, c)
  {
    var fs := ColumnOf(UpdatesOf(x, reports), c);
    ReportColumn(x, reports, c);
    hide ColumnOf, UpdatesOf;
    if c == JobId {
      assert forall i :: 0 <= i < |fs| ==> fs[i].cell == Text(reports[i].jobId);
    }
  }

  lemma OverwrittenColumns(x: Execution, reports: seq<Report>, c: Column)
    requires reports != [] && RuleOf(c) == Overwrite
    ensures Steady(RuleOf(c), ColumnOf(UpdatesOf(x, reports), c)) <==> HidesBatching(reports, c)
  {
    ReportColumn(x, reports, c);
    if c == RowError {
      LastErrorIsLastOutcome(x, reports);
    }
    hide ColumnOf, UpdatesOf, LastSet, LastOutcomeFailed;
  }

  lemma GreatestColumn(x: Execution, reports: seq<Report>)
    requires reports != []
    ensures CountsAttempts(UpdatesOf(x, reports))
    ensures Steady(Greatest, ColumnOf(UpdatesOf(x, reports), Attempts)) <==> HidesBatching(reports, Attempts)
  {
    var fs := ColumnOf(UpdatesOf(x, reports), Attempts);
    ReportColumn(x, reports, Attempts);
    hide ColumnOf, UpdatesOf;
    assert forall i :: 0 <= i < |fs| ==> Bound(fs[i]) == Num(reports[i].attempt as real);
  }

  /**
   * The exact cases in which a worker's row depends on batching: an execution whose last report is not of its highest
   * attempt (a requeued dead letter counts from 1 again), one that changed its job id, and a RUNNING report after an
   * error.
   */
  lemma WorkerRowsDoNotDependOnBatching(x: Execution, reports: seq<Report>, c: Column)
    requires reports != []
    ensures ColumnAgrees(UpdatesOf(x, reports), c) <==> HidesBatching(reports, c)
  {
    hide ColumnOf, UpdatesOf, Steady, HidesBatching, ColumnAgrees;
    GreatestColumn(x, reports);
    ColumnAgreesIffSteady(UpdatesOf(x, reports), c);
    match RuleOf(c)
    case LatestNonNull => LatestColumns(x, reports, c);
    case KeepFirst => KeptColumns(x, reports, c);
    case InsertOnly => InsertedColumns(x, reports, c);
    case Overwrite => OverwrittenColumns(x, reports, c);
    case Greatest =>
  }
}
