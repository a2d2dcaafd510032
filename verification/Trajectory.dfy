/** Duplicate-call marking and the aggregates of a session (webui/src/trajectory/model.ts). */
module Trajectory {
  import opened Text

  datatype Kind = System | User | Context | Assistant | Compacted | Tool | Subtool | Hook

  datatype HookInfo = HookInfo(plugin: string, event: string, blocked: bool)
  datatype Block = Block(source: string, reason: string, savedTokens: int)

  datatype Record = Record(id: string, kind: Kind, turn: int, text: string, durationMs: int, tokens: int,
                           hook: Option<HookInfo>, block: Option<Block>)

  predicate IsCall(r: Record) { r.kind.Tool? || r.kind.Subtool? }

  // ----- duplicate calls -----

  /** How many of the records are calls with this text. */
  function Calls(records: seq<Record>, text: string): nat {
    if records == [] then 0
    else
      var (front, r) := (records[..|records| - 1], records[|records| - 1]);
      Calls(front, text) + if IsCall(r) && r.text == text then 1 else 0
  }

  /** The call has at least two identical calls before it and nothing blocked it. */
  predicate Skipped(records: seq<Record>, i: nat)
    requires i < |records|
  {
    IsCall(records[i]) && Calls(records[..i], records[i].text) >= 2 && records[i].block.None?
  }

  function Mark(r: Record, earlier: nat): Record {
    r.(block := Some(Block("system · duplicate-call breaker",
                           "Identical call already ran " + Decimal(earlier) + " times this session.", r.tokens)))
  }

  function Marked(records: seq<Record>): (r: seq<Record>)
    ensures |r| == |records|
    ensures forall i :: 0 <= i < |r| ==>
      r[i] == if Skipped(records, i) then Mark(records[i], Calls(records[..i], records[i].text)) else records[i]
  {
    seq(|records|, i requires 0 <= i < |records| =>
      if Skipped(records, i) then Mark(records[i], Calls(records[..i], records[i].text)) else records[i])
  }

  method MarkSystemSkips(records: seq<Record>) returns (marked: seq<Record>)
    ensures marked == Marked(records)
  {
    var seen: map<string, nat> := map[];
    marked := [];
    for i := 0 to |records|
      invariant forall text :: (if text in seen then seen[text] else 0) == Calls(records[..i], text)
      invariant marked == Marked(records)[..i]
    {
      var r := records[i];
      assert records[..i + 1][..i] == records[..i];
      if !IsCall(r) {
        marked := marked + [r];
        continue;
      }
      var n := (if r.text in seen then seen[r.text] else 0) + 1;
      seen := seen[r.text := n];
      if n < 3 || r.block.Some? {
        marked := marked + [r];
      } else {
        marked := marked + [Mark(r, n - 1)];
      }
    }
  }

  /** Marking looks at kinds and texts only, and these it keeps. */
  lemma {:induction false} CallsKept(a: seq<Record>, b: seq<Record>, text: string)
    requires |a| == |b| && forall i :: 0 <= i < |a| ==> a[i].kind == b[i].kind && a[i].text == b[i].text
    ensures Calls(a, text) == Calls(b, text)
  {
    if a != [] {
      CallsKept(a[..|a| - 1], b[..|b| - 1], text);
    }
  }

  /** Marking a marked session changes nothing. */
  lemma MarkingIsIdempotent(records: seq<Record>)
    ensures Marked(Marked(records)) == Marked(records)
  {
    var once := Marked(records);
    forall i | 0 <= i < |once| ensures !Skipped(once, i) {
      CallsKept(once[..i], records[..i], records[i].text);
    }
  }

  // ----- totals -----

  datatype Totals = Totals(turns: int, steps: nat, llmMs: int, toolMs: int, hookTokens: int, inputTokens: int,
                           outputTokens: int, blockedCalls: nat, savedTokens: int)

  const ZERO := Totals(0, 0, 0, 0, 0, 0, 0, 0, 0)

  function Max(a: int, b: int): int { if a < b then b else a }

  function AddRecord(t: Totals, r: Record): Totals {
    Totals(Max(t.turns, r.turn), t.steps + 1,
           t.llmMs + (if r.kind.Assistant? then r.durationMs else 0),
           t.toolMs + (if IsCall(r) then r.durationMs else 0),
           t.hookTokens + (if r.kind.Hook? then r.tokens else 0),
           t.inputTokens + (if r.kind.Assistant? || IsCall(r) then 0 else r.tokens),
           t.outputTokens + (if r.kind.Assistant? then r.tokens else 0),
           t.blockedCalls + (if r.block.Some? then 1 else 0),
           t.savedTokens + (if r.block.Some? then r.block.value.savedTokens else 0))
  }

  function TotalsOf(records: seq<Record>): Totals {
    if records == [] then ZERO else AddRecord(TotalsOf(records[..|records| - 1]), records[|records| - 1])
  }

  method ComputeTotals(records: seq<Record>) returns (t: Totals)
    ensures t == TotalsOf(records)
  {
    t := ZERO;
    for i := 0 to |records|
      invariant t == TotalsOf(records[..i])
    {
      assert records[..i + 1][..i] == records[..i];
      var r := records[i];
      t := t.(turns := Max(t.turns, r.turn));
      t := t.(steps := t.steps + 1);
      if r.kind.Assistant? {
        t := t.(llmMs := t.llmMs + r.durationMs, outputTokens := t.outputTokens + r.tokens);
      } else if r.kind.Tool? || r.kind.Subtool? {
        t := t.(toolMs := t.toolMs + r.durationMs);
      } else {
        t := t.(inputTokens := t.inputTokens + r.tokens);
      }
      if r.kind.Hook? { t := t.(hookTokens := t.hookTokens + r.tokens); }
      if r.block.Some? { t := t.(blockedCalls := t.blockedCalls + 1, savedTokens := t.savedTokens + r.block.value.savedTokens); }
    }
    assert records[..|records|] == records;
  }

  /** The calls that marking turns into skips, up to a position: how many, and their tokens. */
  function SkippedBefore(records: seq<Record>, n: nat): (nat, int)
    requires n <= |records|
  {
    if n == 0 then (0, 0)
    else
      var (count, tokens) := SkippedBefore(records, n - 1);
      if Skipped(records, n - 1) then (count + 1, tokens + records[n - 1].tokens) else (count, tokens)
  }

  /** Marking changes the totals only by the number of skipped calls and by their tokens. */
  lemma MarkingChangesTotals(records: seq<Record>)
    ensures
      var (count, tokens) := SkippedBefore(records, |records|);
      var t := TotalsOf(records);
      TotalsOf(Marked(records)) == t.(blockedCalls := t.blockedCalls + count, savedTokens := t.savedTokens + tokens)
  {
    hide *;
    MarkingChangesPrefix(records, |records|);
    assert records[..|records|] == records && Marked(records)[..|records|] == Marked(records);
  }

  lemma {:induction false} MarkingChangesPrefix(records: seq<Record>, n: nat)
    requires n <= |records|
    ensures
      var (count, tokens) := SkippedBefore(records, n);
      var t := TotalsOf(records[..n]);
      TotalsOf(Marked(records)[..n]) == t.(blockedCalls := t.blockedCalls + count, savedTokens := t.savedTokens + tokens)
  {
    if n > 0 {
      MarkingChangesPrefix(records, n - 1);
      assert records[..n][..n - 1] == records[..n - 1] && Marked(records)[..n][..n - 1] == Marked(records)[..n - 1];
      assert records[..n][n - 1] == records[n - 1] && Marked(records)[..n][n - 1] == Marked(records)[n - 1];
      hide Skipped, Decimal;
    }
  }

  function Sum(records: seq<Record>, counts: Record -> bool): int {
    if records == [] then 0
    else Sum(records[..|records| - 1], counts) + if counts(records[|records| - 1]) then records[|records| - 1].tokens else 0
  }

  /** Input, output and call tokens make up all tokens; the hook tokens are the part of the input that hooks added. */
  lemma {:induction false} TokensPartitioned(records: seq<Record>)
    ensures
      var t := TotalsOf(records);
      && t.inputTokens + t.outputTokens + Sum(records, (r: Record) => IsCall(r)) == Sum(records, (r: Record) => true)
      && t.inputTokens - t.hookTokens == Sum(records, (r: Record) => !r.kind.Assistant? && !IsCall(r) && !r.kind.Hook?)
  {
    if records != [] { TokensPartitioned(records[..|records| - 1]); }
  }

  lemma {:induction false} SumNonNegative(records: seq<Record>, counts: Record -> bool)
    requires forall r <- records :: r.tokens >= 0
    ensures Sum(records, counts) >= 0
  {
    if records != [] {
      SumNonNegative(records[..|records| - 1], counts);
      assert records[|records| - 1] in records;
    }
  }

  lemma HookTokensWithinInput(records: seq<Record>)
    requires forall r <- records :: r.tokens >= 0
    ensures 0 <= TotalsOf(records).hookTokens <= TotalsOf(records).inputTokens
  {
    TokensPartitioned(records);
    SumNonNegative(records, (r: Record) => !r.kind.Assistant? && !IsCall(r) && !r.kind.Hook?);
    HookTokensAre(records);
    SumNonNegative(records, (r: Record) => r.kind.Hook?);
  }

  lemma {:induction false} HookTokensAre(records: seq<Record>)
    ensures TotalsOf(records).hookTokens == Sum(records, (r: Record) => r.kind.Hook?)
  {
    if records != [] { HookTokensAre(records[..|records| - 1]); }
  }

  // ----- the per-plugin table -----

  datatype Row = Row(plugin: string, fires: nat, tokens: int, blocked: nat, events: seq<string>)

  predicate Fires(r: Record) { r.kind.Hook? && r.hook.Some? }

  function AddFire(row: Row, r: Record): Row
    requires Fires(r)
  {
    Row(row.plugin, row.fires + 1, row.tokens + r.tokens, row.blocked + (if r.hook.value.blocked then 1 else 0),
        if r.hook.value.event in row.events then row.events else row.events + [r.hook.value.event])
  }

  /** One plugin's row, from its own hook records alone. */
  function RowOf(records: seq<Record>, plugin: string): Row {
    if records == [] then Row(plugin, 0, 0, 0, [])
    else
      var (row, r) := (RowOf(records[..|records| - 1], plugin), records[|records| - 1]);
      if Fires(r) && r.hook.value.plugin == plugin then AddFire(row, r) else row
  }

  /** The plugins that fired, in order of their first fire. */
  function Plugins(records: seq<Record>): (plugins: seq<string>)
    ensures forall i, j :: 0 <= i < j < |plugins| ==> plugins[i] != plugins[j]
  {
    if records == [] then []
    else
      var (plugins, r) := (Plugins(records[..|records| - 1]), records[|records| - 1]);
      if Fires(r) && r.hook.value.plugin !in plugins then plugins + [r.hook.value.plugin] else plugins
  }

  function Rows(records: seq<Record>, plugins: seq<string>): (rows: seq<Row>)
    ensures |rows| == |plugins| && forall i :: 0 <= i < |rows| ==> rows[i] == RowOf(records, plugins[i])
  {
    seq(|plugins|, i requires 0 <= i < |plugins| => RowOf(records, plugins[i]))
  }

  /** The comparator of the table: more tokens first, then more fires. */
  predicate Precedes(a: Row, b: Row) {
    a.tokens > b.tokens || (a.tokens == b.tokens && a.fires >= b.fires)
  }

  predicate SortedRows(rows: seq<Row>) {
    forall i, j :: 0 <= i < j < |rows| ==> Precedes(rows[i], rows[j])
  }

  /** A stable insertion: before the first row that it strictly precedes. */
  function Insert(rows: seq<Row>, row: Row): seq<Row> {
    if rows == [] then [row]
    else if Precedes(rows[|rows| - 1], row) then rows + [row]
    else Insert(rows[..|rows| - 1], row) + [rows[|rows| - 1]]
  }

  function StableSort(rows: seq<Row>): seq<Row> {
    if rows == [] then [] else Insert(StableSort(rows[..|rows| - 1]), rows[|rows| - 1])
  }

  lemma {:induction false} InsertElements(rows: seq<Row>, row: Row)
    ensures multiset(Insert(rows, row)) == multiset(rows) + multiset{row}
  {
    hide Precedes;
    if rows != [] {
      InsertElements(rows[..|rows| - 1], row);
      assert rows == rows[..|rows| - 1] + [rows[|rows| - 1]];
    }
  }

  lemma {:induction false} SortElements(rows: seq<Row>)
    ensures multiset(StableSort(rows)) == multiset(rows)
  {
    hide Insert;
    if rows != [] {
      SortElements(rows[..|rows| - 1]);
      InsertElements(StableSort(rows[..|rows| - 1]), rows[|rows| - 1]);
      assert rows == rows[..|rows| - 1] + [rows[|rows| - 1]];
    }
  }

  lemma {:induction false} InsertKeepsBound(rows: seq<Row>, row: Row, last: Row)
    requires (forall r <- rows :: Precedes(r, last)) && Precedes(row, last)
    ensures forall r <- Insert(rows, row) :: Precedes(r, last)
  {
    hide Precedes;
    if rows != [] {
      InsertKeepsBound(rows[..|rows| - 1], row, last);
      assert rows[|rows| - 1] in rows;
    }
  }

  lemma SortedSnoc(rows: seq<Row>, last: Row)
    requires SortedRows(rows) && forall r <- rows :: Precedes(r, last)
    ensures SortedRows(rows + [last])
  {
    hide Precedes;
    var all := rows + [last];
    forall i, j | 0 <= i < j < |all| ensures Precedes(all[i], all[j]) {
      assert all[i] in rows;
    }
  }

  lemma {:induction false} InsertSorts(rows: seq<Row>, row: Row)
    requires SortedRows(rows)
    ensures SortedRows(Insert(rows, row))
  {
    if rows != [] {
      var (front, last) := (rows[..|rows| - 1], rows[|rows| - 1]);
      assert forall r <- front :: Precedes(r, last);
      if Precedes(last, row) {
        forall r | r in rows ensures Precedes(r, row) {
          if r != last { assert r in front; }
        }
        SortedSnoc(rows, row);
      } else {
        InsertSorts(front, row);
        InsertKeepsBound(front, row, last);
        SortedSnoc(Insert(front, row), last);
      }
    }
  }

  lemma {:induction false} SortSorts(rows: seq<Row>)
    ensures SortedRows(StableSort(rows))
  {
    hide Insert;
    if rows != [] {
      SortSorts(rows[..|rows| - 1]);
      InsertSorts(StableSort(rows[..|rows| - 1]), rows[|rows| - 1]);
    }
  }

  /** Equal tokens and equal fires: the sort leaves such rows in the order they had. */
  function Ties(rows: seq<Row>, tokens: int, fires: nat): seq<Row> {
    if rows == [] then []
    else
      var (front, row) := (rows[..|rows| - 1], rows[|rows| - 1]);
      Ties(front, tokens, fires) + if row.tokens == tokens && row.fires == fires then [row] else []
  }

  lemma TiesSnoc(rows: seq<Row>, row: Row, tokens: int, fires: nat)
    ensures Ties(rows + [row], tokens, fires) == Ties(rows, tokens, fires) + if row.tokens == tokens && row.fires == fires then [row] else []
  {
    assert (rows + [row])[..|rows|] == rows;
  }

  lemma InsertUnfolds(front: seq<Row>, last: Row, row: Row)
    ensures Insert(front + [last], row) ==
      if Precedes(last, row) then front + [last] + [row] else Insert(front, row) + [last]
    ensures Insert([], row) == [row]
  {
    hide Precedes;
    assert (front + [last])[..|front|] == front;
  }

  lemma {:induction false} InsertTies(rows: seq<Row>, row: Row, tokens: int, fires: nat)
    ensures Ties(Insert(rows, row), tokens, fires) == Ties(rows + [row], tokens, fires)
  {
    hide Ties, Insert;
    if rows == [] {
      InsertUnfolds([], row, row);
      assert rows + [row] == [row];
    } else {
      var (front, last) := (rows[..|rows| - 1], rows[|rows| - 1]);
      assert rows == front + [last];
      InsertUnfolds(front, last, row);
      if !Precedes(last, row) {
        InsertTies(front, row, tokens, fires);
        TiesSnoc(front, row, tokens, fires);
        TiesSnoc(Insert(front, row), last, tokens, fires);
        TiesSnoc(front, last, tokens, fires);
        TiesSnoc(rows, row, tokens, fires);
      }
    }
  }

  lemma {:induction false} SortIsStable(rows: seq<Row>, tokens: int, fires: nat)
    ensures Ties(StableSort(rows), tokens, fires) == Ties(rows, tokens, fires)
  {
    hide Insert;
    if rows != [] {
      var (front, last) := (rows[..|rows| - 1], rows[|rows| - 1]);
      SortIsStable(front, tokens, fires);
      InsertTies(StableSort(front), last, tokens, fires);
      TiesSnoc(StableSort(front), last, tokens, fires);
    }
  }

  /** The plugin has a row once it has fired, and until then an empty one. */
  lemma {:induction false} UnfiredRow(records: seq<Record>, plugin: string)
    requires plugin !in Plugins(records)
    ensures RowOf(records, plugin) == Row(plugin, 0, 0, 0, [])
  {
    if records != [] { UnfiredRow(records[..|records| - 1], plugin); }
  }

  /** The table: one pass that fills the rows, then the stable sort. */
  method HookRows(records: seq<Record>) returns (rows: seq<Row>)
    ensures rows == StableSort(Rows(records, Plugins(records)))
  {
    hide AddFire, StableSort;
    var order: seq<string> := [];
    var rowOf: map<string, Row> := map[];
    for i := 0 to |records|
      invariant order == Plugins(records[..i])
      invariant forall p :: p in rowOf <==> p in order
      invariant forall p <- rowOf :: rowOf[p] == RowOf(records[..i], p)
    {
      var r := records[i];
      assert records[..i + 1][..i] == records[..i];
      if !r.kind.Hook? || r.hook.None? { continue; }
      var plugin := r.hook.value.plugin;
      if plugin !in rowOf { UnfiredRow(records[..i], plugin); }
      var row := if plugin in rowOf then rowOf[plugin] else Row(plugin, 0, 0, 0, []);
      if plugin !in rowOf { order := order + [plugin]; }
      rowOf := rowOf[plugin := AddFire(row, r)];
    }
    assert records[..|records|] == records;
    var unsorted := seq(|order|, i requires 0 <= i < |order| && order[i] in rowOf => rowOf[order[i]]);
    assert unsorted == Rows(records, order);
    rows := SortRows(unsorted);
  }

  method SortRows(unsorted: seq<Row>) returns (rows: seq<Row>)
    ensures rows == StableSort(unsorted)
  {
    hide Insert;
    rows := [];
    for i := 0 to |unsorted|
      invariant rows == StableSort(unsorted[..i])
    {
      assert unsorted[..i + 1][..i] == unsorted[..i];
      rows := Insert(rows, unsorted[i]);
    }
    assert unsorted[..|unsorted|] == unsorted;
  }

  // ----- what the table conserves -----

  function FiresOf(rows: seq<Row>): nat {
    if rows == [] then 0 else FiresOf(rows[..|rows| - 1]) + rows[|rows| - 1].fires
  }

  function TokensOf(rows: seq<Row>): int {
    if rows == [] then 0 else TokensOf(rows[..|rows| - 1]) + rows[|rows| - 1].tokens
  }

  function FireCount(records: seq<Record>): nat {
    if records == [] then 0 else FireCount(records[..|records| - 1]) + if Fires(records[|records| - 1]) then 1 else 0
  }

  lemma {:induction false} InsertConserves(rows: seq<Row>, row: Row)
    ensures FiresOf(Insert(rows, row)) == FiresOf(rows) + row.fires && TokensOf(Insert(rows, row)) == TokensOf(rows) + row.tokens
  {
    hide Precedes;
    if rows == [] {
      RowsSnoc([], row);
    } else {
      var (front, last) := (rows[..|rows| - 1], rows[|rows| - 1]);
      InsertConserves(front, row);
      RowsSnoc(rows, row);
      RowsSnoc(Insert(front, row), last);
    }
  }

  lemma RowsSnoc(rows: seq<Row>, row: Row)
    ensures FiresOf(rows + [row]) == FiresOf(rows) + row.fires && TokensOf(rows + [row]) == TokensOf(rows) + row.tokens
  {
    assert (rows + [row])[..|rows|] == rows;
  }

  lemma {:induction false} SortConserves(rows: seq<Row>)
    ensures FiresOf(StableSort(rows)) == FiresOf(rows) && TokensOf(StableSort(rows)) == TokensOf(rows)
  {
    hide Insert;
    if rows != [] {
      SortConserves(rows[..|rows| - 1]);
      InsertConserves(StableSort(rows[..|rows| - 1]), rows[|rows| - 1]);
    }
  }

  /** Adding one record adds its fire to the row of its plugin, if it is among these plugins, and to no other. */
  lemma {:induction false} RowsNext(front: seq<Record>, r: Record, plugins: seq<string>)
    requires forall i, j :: 0 <= i < j < |plugins| ==> plugins[i] != plugins[j]
    ensures
      var (before, after) := (Rows(front, plugins), Rows(front + [r], plugins));
      var hit := Fires(r) && r.hook.value.plugin in plugins;
      && FiresOf(after) == FiresOf(before) + (if hit then 1 else 0)
      && TokensOf(after) == TokensOf(before) + if hit then r.tokens else 0
    decreases |plugins|
  {
    hide RowOf, AddFire;
    if plugins != [] {
      var (ps, p) := (plugins[..|plugins| - 1], plugins[|plugins| - 1]);
      RowsNext(front, r, ps);
      assert Rows(front, plugins) == Rows(front, ps) + [RowOf(front, p)];
      assert Rows(front + [r], plugins) == Rows(front + [r], ps) + [RowOf(front + [r], p)];
      RowsSnoc(Rows(front, ps), RowOf(front, p));
      RowsSnoc(Rows(front + [r], ps), RowOf(front + [r], p));
      RowNext(front, r, p);
      hide Rows;
      assert plugins == ps + [p];
    }
  }

  lemma RowNext(front: seq<Record>, r: Record, plugin: string)
    ensures RowOf(front + [r], plugin) ==
      if Fires(r) && r.hook.value.plugin == plugin then AddFire(RowOf(front, plugin), r) else RowOf(front, plugin)
    ensures Fires(r) ==>
      AddFire(RowOf(front, plugin), r).fires == RowOf(front, plugin).fires + 1
      && AddFire(RowOf(front, plugin), r).tokens == RowOf(front, plugin).tokens + r.tokens
  {
    assert (front + [r])[..|front|] == front;
  }

  lemma PluginsNext(front: seq<Record>, r: Record)
    ensures Plugins(front + [r]) ==
      if Fires(r) && r.hook.value.plugin !in Plugins(front) then Plugins(front) + [r.hook.value.plugin] else Plugins(front)
    ensures FireCount(front + [r]) == FireCount(front) + if Fires(r) then 1 else 0
    ensures Sum(front + [r], (x: Record) => Fires(x)) == Sum(front, (x: Record) => Fires(x)) + if Fires(r) then r.tokens else 0
  {
    assert (front + [r])[..|front|] == front;
  }

  lemma {:induction false} RowsConserve(records: seq<Record>)
    ensures FiresOf(Rows(records, Plugins(records))) == FireCount(records)
    ensures TokensOf(Rows(records, Plugins(records))) == Sum(records, (r: Record) => Fires(r))
  {
    if records != [] {
      var (front, r) := (records[..|records| - 1], records[|records| - 1]);
      assert records == front + [r];
      RowsConserve(front);
      PluginsNext(front, r);
      RowsNext(front, r, Plugins(front));
      hide Plugins, FireCount, Sum, RowOf, FiresOf, TokensOf;
      if Fires(r) && r.hook.value.plugin !in Plugins(front) {
        var p := r.hook.value.plugin;
        UnfiredRow(front, p);
        RowNext(front, r, p);
        assert Rows(records, Plugins(records)) == Rows(records, Plugins(front)) + [RowOf(records, p)];
        RowsSnoc(Rows(records, Plugins(front)), RowOf(records, p));
      }
    }
  }

  /**
   * The table has one row for each plugin that fired, is sorted by tokens and then by fires, keeps rows
   * that tie in the order of their first fire, and accounts for every fire and every token of a hook
   * record that names a plugin.
   */
  lemma TableAccountsForHooks(records: seq<Record>)
    ensures
      var (unsorted, rows) := (Rows(records, Plugins(records)), StableSort(Rows(records, Plugins(records))));
      && SortedRows(rows) && multiset(rows) == multiset(unsorted)
      && (forall tokens: int, fires: nat :: Ties(rows, tokens, fires) == Ties(unsorted, tokens, fires))
      && FiresOf(rows) == FireCount(records)
      && TokensOf(rows) == Sum(records, (r: Record) => Fires(r))
  {
    hide *;
    var unsorted := Rows(records, Plugins(records));
    SortSorts(unsorted);
    SortElements(unsorted);
    SortConserves(unsorted);
    RowsConserve(records);
    forall tokens: int, fires: nat ensures Ties(StableSort(unsorted), tokens, fires) == Ties(unsorted, tokens, fires) {
      SortIsStable(unsorted, tokens, fires);
    }
  }
}
