/** The startup check of the dispatch table against the client-side command registry. */
module DispatchValidation {
  import opened Wire

  /** A table row, and whether it names a handler. */
  datatype TableRow = TableRow(spec: DispatchSpec, handled: bool)

  ghost predicate HasRow(rows: seq<TableRow>, ty: MessageType) {
    exists k :: 0 <= k < |rows| && rows[k].spec.ty == ty
  }

  ghost predicate Registered(commands: seq<seq<MessageType>>, ty: MessageType) {
    exists c :: 0 <= c < |commands| && ty in commands[c]
  }

  /** The four conditions the daemon refuses to start without. */
  ghost predicate Consistent(rows: seq<TableRow>, commands: seq<seq<MessageType>>) {
    && (forall c :: 0 <= c < |commands| ==> AllHaveRows(rows, commands[c]))
    && (forall k :: 0 <= k < |rows| ==> Registered(commands, rows[k].spec.ty))
    && (forall i, j :: 0 <= i < j < |rows| ==> rows[i].spec.ty != rows[j].spec.ty)
    && (forall k :: 0 <= k < |rows| ==> (rows[k].handled <==> rows[k].spec.dispatch.AdapterCall?))
  }

  ghost predicate AllHaveRows(rows: seq<TableRow>, types: seq<MessageType>) {
    forall t :: 0 <= t < |types| ==> HasRow(rows, types[t])
  }

  method FindRow(rows: seq<TableRow>, ty: MessageType) returns (found: bool)
    ensures found <==> HasRow(rows, ty)
  {
    for i := 0 to |rows|
      invariant forall k :: 0 <= k < i ==> rows[k].spec.ty != ty
    {
      if rows[i].spec.ty == ty {
        return true;
      }
    }
    return false;
  }

  method FindCommand(commands: seq<seq<MessageType>>, ty: MessageType) returns (found: bool)
    ensures found <==> Registered(commands, ty)
  {
    for i := 0 to |commands|
      invariant forall c :: 0 <= c < i ==> ty !in commands[c]
    {
      if ty in commands[i] {
        return true;
      }
    }
    return false;
  }

  method CheckTypes(rows: seq<TableRow>, types: seq<MessageType>) returns (ok: bool)
    ensures ok <==> AllHaveRows(rows, types)
  {
    ok := true;
    for t := 0 to |types|
      invariant ok <==> forall u :: 0 <= u < t ==> HasRow(rows, types[u])
    {
      var found := FindRow(rows, types[t]);
      ok := ok && found;
    }
  }

  method CheckDuplicates(rows: seq<TableRow>) returns (ok: bool)
    ensures ok <==> forall i, j :: 0 <= i < j < |rows| ==> rows[i].spec.ty != rows[j].spec.ty
  {
    ok := true;
    for i := 0 to |rows|
      invariant ok <==> forall a, b :: 0 <= a < i && a < b < |rows| ==> rows[a].spec.ty != rows[b].spec.ty
    {
      for j := i + 1 to |rows|
        invariant ok <==>
          && (forall a, b :: 0 <= a < i && a < b < |rows| ==> rows[a].spec.ty != rows[b].spec.ty)
          && (forall b :: i < b < j ==> rows[i].spec.ty != rows[b].spec.ty)
      {
        if rows[i].spec.ty == rows[j].spec.ty {
          ok := false;
        }
      }
    }
  }

  /** Every violation is looked for; one is enough to refuse. */
  method ValidateDispatchTable(rows: seq<TableRow>, commands: seq<seq<MessageType>>) returns (ok: bool)
    ensures ok <==> Consistent(rows, commands)
  {
    ok := true;
    for c := 0 to |commands|
      invariant ok <==> forall d :: 0 <= d < c ==> AllHaveRows(rows, commands[d])
    {
      var covered := CheckTypes(rows, commands[c]);
      ok := ok && covered;
    }
    ghost var covered := ok;
    for k := 0 to |rows|
      invariant ok <==> covered && forall i :: 0 <= i < k ==> Registered(commands, rows[i].spec.ty)
    {
      var found := FindCommand(commands, rows[k].spec.ty);
      ok := ok && found;
    }
    var distinct := CheckDuplicates(rows);
    ok := ok && distinct;
    ghost var before := ok;
    for k := 0 to |rows|
      invariant ok <==> before && forall i :: 0 <= i < k ==> (rows[i].handled <==> rows[i].spec.dispatch.AdapterCall?)
    {
      if (rows[k].spec.dispatch == AdapterCall) != rows[k].handled {
        ok := false;
      }
    }
  }

  /** In a consistent table the scan for a type finds its only row, wherever it stands. */
  lemma ConsistentScan(rows: seq<TableRow>, commands: seq<seq<MessageType>>, k: nat)
    requires Consistent(rows, commands) && k < |rows|
    ensures
      var specs := seq(|rows|, i requires 0 <= i < |rows| => rows[i].spec);
      Lookup(specs, rows[k].spec.ty) == Some(rows[k].spec)
  {
    var specs := seq(|rows|, i requires 0 <= i < |rows| => rows[i].spec);
    LookupAt(specs, k);
  }

  /** The types of the client-side registry. */
  const COMMANDS: seq<seq<MessageType>> := [
    [CMD_POWER_ON, CMD_POWER_OFF], [CMD_VOLUME_UP, CMD_VOLUME_DOWN, CMD_VOLUME_MUTE],
    [CMD_CHANGE_SOURCE], [CMD_KEY], [CMD_AUTO_STANDBY], [CMD_RESTART_ADAPTER], [CMD_SUSPEND], [CMD_RESUME]]

  function DaemonRow(k: nat): TableRow {
    TableRow(Row(k), Row(k).dispatch.AdapterCall?)
  }

  function DaemonTable(): seq<TableRow> {
    seq(ROWS, (k: nat) => DaemonRow(k))
  }

  lemma CommandOf(k: nat) returns (c: nat)
    requires k < ROWS
    ensures c < |COMMANDS| && Row(k).ty in COMMANDS[c]
  {
    c := if k <= 1 then 0 else if k <= 4 then 1 else if k == 5 then 2 else if k == 6 then 3
         else if k == 7 then 5 else if k == 8 then 4 else if k == 9 then 6 else 7;
    assert Row(k).ty in COMMANDS[c];
  }

  lemma RowTypesDiffer(i: nat, j: nat)
    requires i < j < ROWS
    ensures Row(i).ty != Row(j).ty
  {
  }

  lemma RowFor(ty: MessageType)
    requires ty !in {RESP_SUCCESS, RESP_ERROR}
    ensures HasRow(DaemonTable(), ty)
  {
    hide DispatchOf;
    TableClassifies(ty);
    var row := DispatchOf(ty).value;
    FoundInTable(ty);
    var k: nat :| k < ROWS && Table()[k] == row;
    RowAt(k);
  }

  lemma RowAt(k: nat)
    requires k < ROWS
    ensures Table()[k] == Row(k) && DaemonTable()[k] == DaemonRow(k)
  {
    hide Row;
  }

  lemma FoundInTable(ty: MessageType)
    requires DispatchOf(ty).Some?
    ensures DispatchOf(ty).value in Table() && DispatchOf(ty).value.ty == ty
  {
    hide Row;
  }

  lemma EveryCommandHasARow(c: nat)
    requires c < |COMMANDS|
    ensures AllHaveRows(DaemonTable(), COMMANDS[c])
  {
    hide HasRow, DaemonTable;
    forall t | 0 <= t < |COMMANDS[c]| ensures HasRow(DaemonTable(), COMMANDS[c][t]) {
      RowFor(COMMANDS[c][t]);
    }
  }

  /** The daemon's own table passes, so startup is never refused for it. */
  lemma DaemonTableIsConsistent()
    ensures Consistent(DaemonTable(), COMMANDS)
  {
    hide Row, AllHaveRows, COMMANDS;
    var rows := DaemonTable();
    forall k | 0 <= k < ROWS ensures Registered(COMMANDS, rows[k].spec.ty) {
      var c := CommandOf(k);
    }
    forall c | 0 <= c < |COMMANDS| ensures AllHaveRows(rows, COMMANDS[c]) {
      EveryCommandHasARow(c);
    }
    forall i, j | 0 <= i < j < ROWS ensures rows[i].spec.ty != rows[j].spec.ty {
      RowTypesDiffer(i, j);
    }
  }
}
