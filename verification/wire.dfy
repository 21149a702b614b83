/** Wire messages and the daemon-side dispatch table. */
module Wire {

  datatype Option<+T> = None | Some(value: T)

  datatype MessageType =
    | CMD_VOLUME_UP | CMD_VOLUME_DOWN | CMD_VOLUME_MUTE
    | CMD_POWER_ON | CMD_POWER_OFF | CMD_CHANGE_SOURCE
    | CMD_RESTART_ADAPTER | CMD_SUSPEND | CMD_RESUME
    | CMD_AUTO_STANDBY | CMD_KEY
    | RESP_SUCCESS | RESP_ERROR

  datatype Message = Message(ty: MessageType, deviceId: bv8, data: seq<bv8>)

  /** The two answers a request can receive. */
  datatype Response = Success | Error

  datatype DispatchClass = SupervisorIntercepted | StateOnly | AdapterCall

  datatype DispatchSpec = DispatchSpec(
    ty: MessageType, dispatch: DispatchClass, queueable: bool, requiresConnection: bool)

  const ROWS := 11

  /** Row `k` of the table. */
  function Row(k: nat): DispatchSpec {
    if k == 0 then DispatchSpec(CMD_POWER_ON, AdapterCall, true, true)
    else if k == 1 then DispatchSpec(CMD_POWER_OFF, AdapterCall, true, true)
    else if k == 2 then DispatchSpec(CMD_VOLUME_UP, AdapterCall, true, true)
    else if k == 3 then DispatchSpec(CMD_VOLUME_DOWN, AdapterCall, true, true)
    else if k == 4 then DispatchSpec(CMD_VOLUME_MUTE, AdapterCall, true, true)
    else if k == 5 then DispatchSpec(CMD_CHANGE_SOURCE, AdapterCall, false, true)
    else if k == 6 then DispatchSpec(CMD_KEY, AdapterCall, false, true)
    else if k == 7 then DispatchSpec(CMD_RESTART_ADAPTER, AdapterCall, false, false)
    else if k == 8 then DispatchSpec(CMD_AUTO_STANDBY, StateOnly, false, false)
    else if k == 9 then DispatchSpec(CMD_SUSPEND, SupervisorIntercepted, false, false)
    else DispatchSpec(CMD_RESUME, SupervisorIntercepted, false, false)
  }

  function Table(): seq<DispatchSpec> {
    seq(ROWS, (k: nat) => Row(k))
  }

  /** The first row of `rows` for `ty`. */
  function Lookup(rows: seq<DispatchSpec>, ty: MessageType): (r: Option<DispatchSpec>)
    ensures r.Some? ==> r.value in rows && r.value.ty == ty
    ensures r.None? ==> forall row :: row in rows ==> row.ty != ty
  {
    if rows == [] then None
    else if rows[0].ty == ty then Some(rows[0])
    else Lookup(rows[1..], ty)
  }

  function DispatchOf(ty: MessageType): Option<DispatchSpec> {
    Lookup(Table(), ty)
  }

  /** The linear scan of the table. */
  method FindDispatchByType(ty: MessageType) returns (r: Option<DispatchSpec>)
    ensures r == DispatchOf(ty)
  {
    var i := 0;
    while i < ROWS
      invariant 0 <= i <= ROWS
      invariant DispatchOf(ty) == Lookup(Table()[i..], ty)
    {
      if Table()[i].ty == ty {
        return Some(Table()[i]);
      }
      assert Table()[i..][1..] == Table()[i + 1..];
      i := i + 1;
    }
    return None;
  }

  /** The scan finds row `k` when no earlier row has its type. */
  lemma {:induction false} LookupAt(rows: seq<DispatchSpec>, k: nat)
    requires k < |rows|
    requires forall j :: 0 <= j < k ==> rows[j].ty != rows[k].ty
    ensures Lookup(rows, rows[k].ty) == Some(rows[k])
  {
    if k > 0 {
      assert rows[0].ty != rows[k].ty;
      LookupAt(rows[1..], k - 1);
    }
  }

  /**
   * What the table says of each command, independently of row order: response
   * codes have no row, only adapter calls may be parked, and only the restart
   * command runs on a closed adapter.
   */
  lemma TableClassifies(ty: MessageType)
    ensures DispatchOf(ty).None? <==> ty in {RESP_SUCCESS, RESP_ERROR}
    ensures DispatchOf(ty).Some? ==>
              var row := DispatchOf(ty).value;
              && (row.dispatch.SupervisorIntercepted? <==> ty in {CMD_SUSPEND, CMD_RESUME})
              && (row.dispatch.StateOnly? <==> ty == CMD_AUTO_STANDBY)
              && (row.queueable <==>
                    ty in {CMD_POWER_ON, CMD_POWER_OFF, CMD_VOLUME_UP, CMD_VOLUME_DOWN, CMD_VOLUME_MUTE})
              && (row.queueable ==> row.dispatch.AdapterCall?)
              && (row.dispatch.AdapterCall? ==> (row.requiresConnection <==> ty != CMD_RESTART_ADAPTER))
  {
    forall k: nat | k < ROWS && Table()[k].ty == ty
      ensures DispatchOf(ty) == Some(Row(k))
    {
      LookupAt(Table(), k);
    }
    var k: nat := match ty
      case CMD_POWER_ON => 0
      case CMD_POWER_OFF => 1
      case CMD_VOLUME_UP => 2
      case CMD_VOLUME_DOWN => 3
      case CMD_VOLUME_MUTE => 4
      case CMD_CHANGE_SOURCE => 5
      case CMD_KEY => 6
      case CMD_RESTART_ADAPTER => 7
      case CMD_AUTO_STANDBY => 8
      case CMD_SUSPEND => 9
      case _ => 10;
    assert ty !in {RESP_SUCCESS, RESP_ERROR} ==> Table()[k].ty == ty;
  }
}
