/** The OBD-II request encoder: a single-frame service $01 request for one
    parameter id, sent on the functional broadcast identifier. */
module Request {
  import opened FixedWidth
  import opened Options

  /** The functional request identifier of ISO 15765-4. */
  const OBD_REQUEST_ID: u16 := 0x7DF

  /** A CAN identifier: 11-bit standard or 29-bit extended. */
  datatype CanId = Standard(standard: u11) | Extended(extended: u29)

  /** A CAN frame as the bus delivers it: a data frame with its payload,
      a remote frame, or an error frame. */
  datatype CanFrame = Data(id: CanId, data: seq<u8>) | Remote(remoteId: CanId) | ErrorFrame

  /** The socket library's standard-id constructor: it refuses a raw value
      that does not fit 11 bits. */
  function StandardIdNew(raw: u16): (r: Option<u11>)
    ensures r.Some? <==> raw < 0x800
    ensures r.Some? ==> r.value == raw
  {
    if raw <= 0x7FF then Some(raw) else None
  }

  /** The socket library's data-frame constructor: a classic CAN frame
      carries at most eight data bytes. */
  function CanFrameNew(id: CanId, data: seq<u8>): (r: Option<CanFrame>)
    ensures r.Some? <==> |data| <= 8
    ensures r.Some? ==> r.value == Data(id, data)
  {
    if |data| <= 8 then Some(Data(id, data)) else None
  }

  /** The request payload: ISO 15765-2 single-frame length 2, service $01,
      the parameter id, and five bytes of padding. */
  function RequestPayload(pid: u8): (r: seq<u8>)
    ensures |r| == 8
    ensures RequestedPid(r) == Some(pid)
  {
    [0x02, 0x01, pid, 0, 0, 0, 0, 0]
  }

  /** The parameter id a payload requests, when it is a padded single-frame
      service $01 request. */
  function RequestedPid(payload: seq<u8>): Option<u8>
  {
    if |payload| == 8 && payload[0] == 0x02 && payload[1] == 0x01 && payload[3..] == [0, 0, 0, 0, 0]
    then Some(payload[2])
    else None
  }

  /** What sending one request comes to. `Sent` carries the frame handed to
      the socket and whether the write succeeded; `InvalidCanId` is the
      error returned when the identifier does not fit; `Panicked` is the
      abort on a frame that cannot be built. */
  datatype SendOutcome = Sent(frame: CanFrame, writeOk: bool) | InvalidCanId | Panicked

  /** Builds the request frame for `pid` and hands it to the socket, whose
      answer is `writeOk`. */
  function SendObdRequest(pid: u8, writeOk: bool): (r: SendOutcome)
    ensures r.Sent? && r.writeOk == writeOk
    ensures r.frame.Data? && r.frame.id == Standard(OBD_REQUEST_ID)
    ensures RequestedPid(r.frame.data) == Some(pid)
  {
    match StandardIdNew(OBD_REQUEST_ID)
    case None => InvalidCanId
    case Some(id) =>
      match CanFrameNew(Standard(id), RequestPayload(pid))
      case None => Panicked
      case Some(frame) => Sent(frame, writeOk)
  }

  /** A payload read as a request for `pid` is exactly the one built for it. */
  lemma RequestedPidInverse(payload: seq<u8>)
    ensures RequestedPid(payload).Some? ==> RequestPayload(RequestedPid(payload).value) == payload
  {
    if RequestedPid(payload).Some? {
      var built := RequestPayload(payload[2]);
      assert built[3..] == payload[3..];
      assert forall i :: 0 <= i < 8 ==> built[i] == payload[i] by {
        forall i | 3 <= i < 8 ensures built[i] == payload[i] {
          assert built[i] == built[3..][i - 3];
        }
      }
    }
  }

  /** The payload is eight bytes, fits a classic frame, and carries the id
      at offset 2, the offset the response decoder dispatches on. */
  lemma RequestLayout(pid: u8)
    ensures |RequestPayload(pid)| == 8
    ensures CanFrameNew(Standard(OBD_REQUEST_ID), RequestPayload(pid)).Some?
    ensures RequestPayload(pid)[2] == pid
  {
  }

  /** The request identifier is a valid standard id, so the error branch is
      never taken. */
  lemma RequestIdIsStandard()
    ensures StandardIdNew(OBD_REQUEST_ID) == Some(0x7DF)
  {
  }
}
