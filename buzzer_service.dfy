/** The custom GATT buzzer service (src/gatt/buzzer_service.c): one
    write-only characteristic taking a one-byte command, 0x00 for off and
    0x01 for on, passed to the application's registered callback. */
module GattBuzzerService {
  import opened CTypes

  // ATT error codes (Core Specification, Vol 3 Part F, section 3.4.1.1)
  const ATT_ERR_INVALID_OFFSET: nat := 0x07
  const ATT_ERR_INVALID_ATTRIBUTE_LEN: nat := 0x0D
  const ATT_ERR_VALUE_NOT_ALLOWED: nat := 0x13

  /** BT_GATT_ERR: a write handler reports an ATT error as its negation. */
  function GattErr(att: nat): int
  {
    -(att as int)
  }

  /** An application callback, identified by the function it points to. */
  type CallbackId = nat

  /** struct gatt_buzzer_service_cb; None is a NULL function pointer. */
  datatype ServiceCallbacks = ServiceCallbacks(intermittentCb: Option<CallbackId>)

  /** What a write does: the value returned to the stack and, when the
      callback was invoked, the boolean it was invoked with. */
  datatype WriteOutcome = WriteOutcome(ret: int, command: Option<bool>)

  /** write_buzzer_intermittent: length first, then offset, then (only with
      a callback registered) the value. A write that is accepted returns its
      length. */
  function WriteBuzzerIntermittent(buf: seq<uint8>, offset: uint16, cbRegistered: bool): (o: WriteOutcome)
    requires |buf| < 0x1_0000
    ensures |buf| != 1 ==> o == WriteOutcome(GattErr(ATT_ERR_INVALID_ATTRIBUTE_LEN), None)
    ensures |buf| == 1 && offset != 0 ==> o == WriteOutcome(GattErr(ATT_ERR_INVALID_OFFSET), None)
    ensures |buf| == 1 && offset == 0 && cbRegistered && buf[0] > 1 ==>
      o == WriteOutcome(GattErr(ATT_ERR_VALUE_NOT_ALLOWED), None)
    ensures |buf| == 1 && offset == 0 && cbRegistered && buf[0] <= 1 ==>
      o == WriteOutcome(1, Some(buf[0] == 1))
    ensures |buf| == 1 && offset == 0 && !cbRegistered ==> o == WriteOutcome(1, None)
    ensures o.command.Some? ==> cbRegistered
    ensures o.ret >= 0 <==> o.ret == |buf|
  {
    if |buf| != 1 then WriteOutcome(GattErr(ATT_ERR_INVALID_ATTRIBUTE_LEN), None)
    else if offset != 0 then WriteOutcome(GattErr(ATT_ERR_INVALID_OFFSET), None)
    else if cbRegistered then
      var val := buf[0];
      if val == 0x00 || val == 0x01 then WriteOutcome(|buf|, Some(val != 0))
      else WriteOutcome(GattErr(ATT_ERR_VALUE_NOT_ALLOWED), None)
    else WriteOutcome(|buf|, None)
  }

  /** The write a client sends to switch the intermittent buzzer on or off. */
  function EncodeCommand(on: bool): (buf: seq<uint8>)
    ensures |buf| == 1 && buf[0] <= 1
  {
    [if on then 0x01 else 0x00]
  }

  /** Decoding inverts encoding: a registered callback receives exactly the
      command the client sent, and exactly the writes that invoke it are
      encoded commands at offset 0. */
  lemma CommandRoundTrip(on: bool, buf: seq<uint8>, offset: uint16)
    requires |buf| < 0x1_0000
    ensures WriteBuzzerIntermittent(EncodeCommand(on), 0, true) == WriteOutcome(1, Some(on))
    ensures WriteBuzzerIntermittent(buf, offset, true).command == Some(on) <==>
      buf == EncodeCommand(on) && offset == 0
  {
    if buf == EncodeCommand(on) && offset == 0 {
      assert buf[0] == (if on then 1 else 0);
    }
    if WriteBuzzerIntermittent(buf, offset, true).command == Some(on) {
      assert buf == [buf[0]];
    }
  }

  /** The write is rejected exactly when its length or offset is wrong or,
      with a callback registered, its value is neither 0x00 nor 0x01; a
      rejected write never reaches the callback. */
  lemma RejectedWrites(buf: seq<uint8>, offset: uint16, cbRegistered: bool)
    requires |buf| < 0x1_0000
    ensures WriteBuzzerIntermittent(buf, offset, cbRegistered).ret < 0 <==>
      |buf| != 1 || offset != 0 || (cbRegistered && buf[0] > 1)
    ensures WriteBuzzerIntermittent(buf, offset, cbRegistered).ret < 0 ==>
      WriteBuzzerIntermittent(buf, offset, cbRegistered).command == None
  {
  }

  /** The registered callbacks (the static buzzer_cb). */
  class BuzzerService {
    var intermittentCb: Option<CallbackId>

    constructor ()
      ensures intermittentCb == None
    {
      intermittentCb := None;
    }

    /** gatt_buzzer_service_init: a NULL table keeps the stored callback, any
        other table replaces it, even with a NULL entry. Always succeeds. */
    method Init(callbacks: Option<ServiceCallbacks>) returns (ret: int)
      modifies this
      ensures ret == 0
      ensures callbacks.None? ==> intermittentCb == old(intermittentCb)
      ensures callbacks.Some? ==> intermittentCb == callbacks.value.intermittentCb
    {
      if callbacks.Some? {
        intermittentCb := callbacks.value.intermittentCb;
      }
      ret := 0;
    }

    /** The write handler as the stack calls it, deciding with the stored
        callback: returns the value for the stack and the callback invoked,
        with its argument, if any. */
    method HandleWrite(buf: seq<uint8>, offset: uint16) returns (ret: int, invoked: Option<(CallbackId, bool)>)
      requires |buf| < 0x1_0000
      ensures ret == WriteBuzzerIntermittent(buf, offset, intermittentCb.Some?).ret
      ensures invoked.Some? <==> intermittentCb.Some? && |buf| == 1 && offset == 0 && buf[0] <= 1
      ensures invoked.Some? ==> invoked.value == (intermittentCb.value, buf[0] == 1)
    {
      var o := WriteBuzzerIntermittent(buf, offset, intermittentCb.Some?);
      ret := o.ret;
      invoked := if o.command.Some? then Some((intermittentCb.value, o.command.value)) else None;
    }
  }
}
