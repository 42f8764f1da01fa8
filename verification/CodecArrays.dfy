/** The adapters' array entry points: r101_submit_transfer in C, C++ and Rust,
    r101_get_transfer_statuses in C++ and Rust, and the Python side of both. */
module CodecArrays {
  import opened Codec
  import opened Options

  // ----- valid_array and array_len ---------------------------------------------------------

  predicate ValidArray(address: nat, count: nat, size: nat, alignment: nat)
    requires size > 0 && alignment > 0
  {
    address != 0 && count > 0 && count <= PTRDIFF_MAX / size && address % alignment == 0
  }

  function ArrayLen(address: nat, count: nat, size: nat, alignment: nat): Option<nat>
    requires size > 0 && alignment > 0
  {
    if address == 0 || count == 0 || count > PTRDIFF_MAX / size || address % alignment != 0 then None
    else Some(count)
  }

  /** The division bounds the byte length without multiplying. */
  lemma ArrayBound(address: nat, count: nat, size: nat, alignment: nat)
    requires size > 0 && alignment > 0
    ensures ValidArray(address, count, size, alignment) <==>
            address != 0 && count > 0 && address % alignment == 0 && count * size <= PTRDIFF_MAX
    ensures ArrayLen(address, count, size, alignment) ==
            if ValidArray(address, count, size, alignment) then Some(count) else None
  {
    var limit := PTRDIFF_MAX / size;
    assert limit * size <= PTRDIFF_MAX < (limit + 1) * size;
    if count <= limit {
      Monotone(count, limit, size);
    } else {
      Monotone(limit + 1, count, size);
    }
  }

  lemma Monotone(a: nat, b: nat, size: nat)
    requires a <= b
    ensures a * size <= b * size
  {
  }

  // ----- Submission ------------------------------------------------------------------------

  datatype Code =
    | Ok | Unimplemented | Invalid | Busy | IoError | Timeout | Unsupported | NoMemory | InvalidState | Canceled

  class Cell {
    var value: nat
    constructor (value: nat)
      ensures this.value == value
    {
      this.value := value;
    }
  }

  /** The caller's memory at `address`: `count` elements whenever that array is valid. */
  ghost predicate Readable(address: nat, elements: seq<Raw>, count: nat) {
    ValidArray(address, count, REQUEST_SIZE, REQUEST_ALIGNMENT) ==> |elements| == count
  }

  /** What a native engine answers to the call it gets. */
  datatype Submission = Submission(code: Code, batch: nat)

  ghost predicate AllLegal(elements: seq<Raw>) {
    forall raw <- elements :: Legal(raw)
  }

  /** The request array reaches the engine exactly when all of it decodes; the batch output is 0
      unless the engine accepted it. `out` is what the batch output holds afterwards. */
  ghost predicate AllOrNothing(engine: bool, address: nat, elements: seq<Raw>, count: nat, hasBatch: bool,
                               allocates: bool, answer: Submission, result: Code, submitted: Option<seq<Request>>, out: nat)
  {
    var valid := hasBatch && engine && ValidArray(address, count, REQUEST_SIZE, REQUEST_ALIGNMENT);
    && (submitted.Some? <==> valid && allocates && AllLegal(elements))
    && (submitted.Some? ==>
          && |submitted.value| == count == |elements|
          && (forall i :: 0 <= i < count ==> DecodeCpp(elements[i]) == Some(submitted.value[i])))
    && result == (if submitted.Some? then answer.code else if valid && !allocates then NoMemory else Invalid)
    && (hasBatch ==> out == if submitted.Some? && answer.code == Ok then answer.batch else 0)
  }

  method SubmitC(engine: bool, address: nat, elements: seq<Raw>, count: nat, batch: Cell?) returns (result: Code)
    requires Readable(address, elements, count)
    modifies batch
    ensures batch != null ==> batch.value == 0
    ensures result == if batch != null && engine && ValidArray(address, count, REQUEST_SIZE, REQUEST_ALIGNMENT) && AllLegal(elements)
                      then Unimplemented else Invalid
  {
    if batch == null {
      return Invalid;
    }
    batch.value := 0;
    if !engine || !ValidArray(address, count, REQUEST_SIZE, REQUEST_ALIGNMENT) {
      return Invalid;
    }
    var i := 0;
    while i < count
      invariant i <= count && batch.value == 0
      invariant forall j :: 0 <= j < i ==> Legal(elements[j])
    {
      var request := elements[i];
      OneLanguage(request);
      if !AcceptedByC(request) {
        return Invalid;
      }
      i := i + 1;
    }
    result := Unimplemented;
  }

  method SubmitCpp(engine: bool, address: nat, elements: seq<Raw>, count: nat, batch: Cell?, allocates: bool, answer: Submission)
    returns (result: Code, submitted: Option<seq<Request>>)
    requires Readable(address, elements, count)
    modifies batch
    ensures AllOrNothing(engine, address, elements, count, batch != null, allocates, answer, result, submitted,
                         if batch == null then 0 else batch.value)
  {
    submitted := None;
    if batch == null {
      return Invalid, None;
    }
    batch.value := 0;
    if !engine || !ValidArray(address, count, REQUEST_SIZE, REQUEST_ALIGNMENT) {
      return Invalid, None;
    }
    if !allocates {
      return NoMemory, None;
    }
    var native := new Request[count](_ => Request(0, 0, 0, Recv));
    var i := 0;
    while i < count
      invariant i <= count && batch.value == 0
      invariant forall j :: 0 <= j < i ==> Legal(elements[j]) && DecodeCpp(elements[j]) == Some(native[j])
    {
      OneLanguage(elements[i]);
      var decoded := DecodeCpp(elements[i]);
      if decoded.None? {
        return Invalid, None;
      }
      native[i] := decoded.value;
      i := i + 1;
    }
    submitted := Some(native[..]);
    if answer.code == Ok {
      batch.value := answer.batch;
    }
    result := answer.code;
  }

  method SubmitRust(engine: bool, address: nat, elements: seq<Raw>, count: nat, batch: Cell?, allocates: bool, answer: Submission)
    returns (result: Code, submitted: Option<seq<Request>>)
    requires Readable(address, elements, count)
    modifies batch
    ensures AllOrNothing(engine, address, elements, count, batch != null, allocates, answer, result, submitted,
                         if batch == null then 0 else batch.value)
  {
    submitted := None;
    if batch == null {
      return Invalid, None;
    }
    batch.value := 0;
    ArrayBound(address, count, REQUEST_SIZE, REQUEST_ALIGNMENT);
    var len := ArrayLen(address, count, REQUEST_SIZE, REQUEST_ALIGNMENT);
    if len.None? || !engine {
      return Invalid, None;
    }
    if !allocates {
      return NoMemory, None;
    }
    var native := [];
    for i := 0 to len.value
      invariant |native| == i && batch.value == 0
      invariant forall j :: 0 <= j < i ==> Legal(elements[j]) && DecodeCpp(elements[j]) == Some(native[j])
    {
      OneLanguage(elements[i]);
      var decoded := DecodeRust(elements[i]);
      if decoded.None? {
        return Invalid, None;
      }
      native := native + [decoded.value];
    }
    submitted := Some(native);
    if answer.code == Ok {
      batch.value := answer.batch;
    }
    result := answer.code;
  }

  // ----- Submission from Python ------------------------------------------------------------

  function EncodeAll(requests: seq<Request>): (r: Option<seq<Raw>>)
  {
    if requests == [] then Some([])
    else
      var init := EncodeAll(requests[..|requests| - 1]);
      var last := Encode(requests[|requests| - 1]);
      if init.None? || last.None? then None else Some(init.value + [last.value])
  }

  lemma {:induction false} EncodedAll(requests: seq<Request>)
    ensures EncodeAll(requests).Some? <==> forall r <- requests :: InRange(r)
    ensures EncodeAll(requests).Some? ==>
              var raws := EncodeAll(requests).value;
              && |raws| == |requests|
              && forall i :: 0 <= i < |raws| ==> Encode(requests[i]) == Some(raws[i])
  {
    hide Encode, InRange;
    if requests != [] {
      var init, last := requests[..|requests| - 1], requests[|requests| - 1];
      EncodedAll(init);
      RequestRoundTrip(last);
      assert requests == init + [last];
    }
  }

  /** What Python submits is what the native engine receives: every encodable array is legal, and
      decodes to the submitted requests with their addresses reduced to 64 bits. */
  lemma SubmissionRoundTrip(requests: seq<Request>)
    requires forall r <- requests :: InRange(r)
    ensures EncodeAll(requests).Some? && |EncodeAll(requests).value| == |requests|
    ensures var raws := EncodeAll(requests).value;
            && AllLegal(raws)
            && forall i :: 0 <= i < |raws| ==> DecodeCpp(raws[i]) == DecodeRust(raws[i]) == Some(OutOfWire(requests[i]))
  {
    hide Encode, InRange, DecodeCpp, DecodeRust, Legal;
    EncodedAll(requests);
    var raws := EncodeAll(requests).value;
    forall i | 0 <= i < |raws|
      ensures Legal(raws[i]) && DecodeCpp(raws[i]) == DecodeRust(raws[i]) == Some(OutOfWire(requests[i]))
    {
      assert requests[i] in requests && Encode(requests[i]) == Some(raws[i]);
      RequestRoundTrip(requests[i]);
      OneLanguage(raws[i]);
    }
  }

  // ----- Statuses --------------------------------------------------------------------------

  datatype Receive = Message(length: nat) | WriteNotice(immediate: nat)

  datatype Status = Pending | Failed(error: Code) | Completed(receive: Option<Receive>)

  /** An r101_transfer_status: numbers, of which only some combinations mean anything. */
  datatype RawStatus = RawStatus(state: int, error: int, kind: int, immediate: nat, length: nat)

  const STATUS_SIZE := 24
  const STATUS_ALIGNMENT := 8

  function EncodeCode(c: Code): int {
    match c
    case Ok => 0
    case Unimplemented => -1
    case Invalid => -2
    case Busy => -3
    case IoError => -4
    case Timeout => -5
    case Unsupported => -6
    case NoMemory => -7
    case InvalidState => -8
    case Canceled => -9
  }

  /** Python's _error_code: a table of the nine failures. */
  function ErrorCode(value: int): Option<Code> {
    match value
    case -1 => Some(Unimplemented)
    case -2 => Some(Invalid)
    case -3 => Some(Busy)
    case -4 => Some(IoError)
    case -5 => Some(Timeout)
    case -6 => Some(Unsupported)
    case -7 => Some(NoMemory)
    case -8 => Some(InvalidState)
    case -9 => Some(Canceled)
    case _ => None
  }

  /** ffi.rs, encode_status: start from zero and set what the status has. */
  function EncodeStatus(s: Status): RawStatus {
    var output := RawStatus(0, 0, 0, 0, 0);
    match s
    case Pending => output
    case Failed(error) => output.(state := 2, error := EncodeCode(error))
    case Completed(Some(Message(length))) => output.(state := 1, kind := 1, length := length)
    case Completed(Some(WriteNotice(immediate))) => output.(state := 1, kind := 2, immediate := immediate)
    case Completed(None) => output.(state := 1)
  }

  /** ffi.cpp, encode_status. A failure without an error code aborts the process: None. */
  function EncodeStatusCpp(s: Status): Option<RawStatus> {
    var output := RawStatus(0, 0, 0, 0, 0);
    if s.Failed? then
      if s.error == Ok then None else Some(output.(state := 2, error := EncodeCode(s.error)))
    else if s.Completed? then
      var completed := output.(state := 1);
      if s.receive.None? then Some(completed)
      else if s.receive.value.Message? then Some(completed.(kind := 1, length := s.receive.value.length))
      else Some(completed.(kind := 2, immediate := s.receive.value.immediate))
    else Some(output)
  }

  /** One turn of the decoding loop in native_engine.py; None stands for a RuntimeError. */
  function DecodeStatus(raw: RawStatus, opcode: nat): Option<Status> {
    if raw.state == 2 then
      (match ErrorCode(raw.error)
       case Some(error) => Some(Failed(error))
       case None => None)
    else if raw.error != 0 then None
    else if raw.state == 0 then Some(Pending)
    else if raw.state != 1 then None
    else if opcode != RECV then Some(Completed(None))
    else if raw.kind == 1 then (if raw.immediate != 0 then None else Some(Completed(Some(Message(raw.length)))))
    else if raw.kind == 2 then (if raw.length != 0 then None else Some(Completed(Some(WriteNotice(raw.immediate)))))
    else None
  }

  /** What transfer_engine.h lets an engine report for a request: an error exactly when it failed,
      and a receive result exactly for a completed RECV. */
  predicate WellFormed(s: Status, opcode: nat) {
    match s
    case Pending => true
    case Failed(error) => error != Ok
    case Completed(receive) => receive.Some? <==> opcode == RECV
  }

  /** Either encoder followed by the Python decoder gives the status back exactly when it is well
      formed; the C++ encoder aborts just on a failure without an error. */
  lemma StatusRoundTrip(s: Status, opcode: nat)
    ensures DecodeStatus(EncodeStatus(s), opcode) == Some(s) <==> WellFormed(s, opcode)
    ensures EncodeStatusCpp(s) == if s == Failed(Ok) then None else Some(EncodeStatus(s))
  {
  }

  /** The failures in the order of their numbers in transfer_engine.h, -1 to -9. */
  const FAILURES: seq<Code> :=
    [Unimplemented, Invalid, Busy, IoError, Timeout, Unsupported, NoMemory, InvalidState, Canceled]

  predicate IsNumberOf(value: int, error: Code) {
    -9 <= value <= -1 && FAILURES[-1 - value] == error
  }

  /** What a raw status means by transfer_engine.h: the error of a failed task only counts there, and the
      receive fields only for a completed RECV, where the one that does not belong to its kind is zero. */
  predicate Means(raw: RawStatus, opcode: nat, s: Status) {
    match s
    case Failed(error) => raw.state == 2 && IsNumberOf(raw.error, error)
    case Pending => raw.state == 0 && raw.error == 0
    case Completed(None) => raw.state == 1 && raw.error == 0 && opcode != RECV
    case Completed(Some(Message(length))) =>
      raw.state == 1 && raw.error == 0 && opcode == RECV && raw.kind == 1 && raw.immediate == 0 && raw.length == length
    case Completed(Some(WriteNotice(immediate))) =>
      raw.state == 1 && raw.error == 0 && opcode == RECV && raw.kind == 2 && raw.length == 0 && raw.immediate == immediate
  }

  ghost predicate Meaningful(raw: RawStatus, opcode: nat) {
    exists s :: Means(raw, opcode, s)
  }

  /** For any raw status at all, whoever wrote it: decoding gives exactly the status it means, and an error
      exactly when it means none. */
  lemma StatusDecoding(raw: RawStatus, opcode: nat)
    ensures forall s :: DecodeStatus(raw, opcode) == Some(s) <==> Means(raw, opcode, s)
    ensures DecodeStatus(raw, opcode).Some? <==> Meaningful(raw, opcode)
  {
    forall s
      ensures DecodeStatus(raw, opcode) == Some(s) <==> Means(raw, opcode, s)
    {
      StatusMeans(raw, opcode, s);
    }
    assert DecodeStatus(raw, opcode).Some? ==> Means(raw, opcode, DecodeStatus(raw, opcode).value);
  }

  lemma StatusMeans(raw: RawStatus, opcode: nat, s: Status)
    ensures DecodeStatus(raw, opcode) == Some(s) <==> Means(raw, opcode, s)
  {
  }

  /** The numbers the adapters write for the failures are the header's. */
  lemma ErrorNumbers(error: Code)
    ensures EncodeCode(error) == 0 <==> error == Ok
    ensures error != Ok ==> IsNumberOf(EncodeCode(error), error)
  {
  }

  /** The Python decoding loop: all statuses in submission order, or an error. */
  method DecodeStatuses(raws: seq<RawStatus>, opcodes: seq<nat>) returns (results: Option<seq<Status>>)
    requires |raws| == |opcodes|
    ensures results.Some? <==> forall i :: 0 <= i < |raws| ==> Meaningful(raws[i], opcodes[i])
    ensures results.Some? ==>
              && |results.value| == |raws|
              && forall i :: 0 <= i < |raws| ==> Means(raws[i], opcodes[i], results.value[i])
  {
    hide DecodeStatus, Means, Meaningful;
    var decoded := [];
    for i := 0 to |raws|
      invariant |decoded| == i && forall j :: 0 <= j < i ==> Meaningful(raws[j], opcodes[j])
      invariant forall j :: 0 <= j < i ==> Means(raws[j], opcodes[j], decoded[j])
    {
      var status := DecodeStatus(raws[i], opcodes[i]);
      StatusDecoding(raws[i], opcodes[i]);
      if status.None? {
        return None;
      }
      decoded := decoded + [status.value];
    }
    results := Some(decoded);
  }

  /** What a query returns before any status is written. */
  function Refusal(engine: bool, batch: nat, address: nat, count: nat, allocates: bool, code: Code): Code {
    if !engine || batch == 0 || !ValidArray(address, count, STATUS_SIZE, STATUS_ALIGNMENT) then Invalid
    else if !allocates then NoMemory
    else code
  }

  /** ffi.rs, r101_get_transfer_statuses: the engine answers `code` and, on success, one status for each
      entry; only then is caller storage written. */
  method GetStatuses(engine: bool, batch: nat, address: nat, statuses: array<RawStatus>, count: nat,
                     allocates: bool, code: Code, native: seq<Status>)
    returns (result: Code)
    requires ValidArray(address, count, STATUS_SIZE, STATUS_ALIGNMENT) ==> count <= statuses.Length
    requires code == Ok ==> |native| == count
    modifies statuses
    ensures result == Refusal(engine, batch, address, count, allocates, code)
    ensures result != Ok ==> statuses[..] == old(statuses[..])
    ensures result == Ok ==>
              && count <= statuses.Length
              && (forall i :: 0 <= i < count ==> statuses[i] == EncodeStatus(native[i]))
              && (forall i :: count <= i < statuses.Length ==> statuses[i] == old(statuses[i]))
  {
    hide EncodeStatus;
    ArrayBound(address, count, STATUS_SIZE, STATUS_ALIGNMENT);
    if batch == 0 {
      return Invalid;
    }
    var len := ArrayLen(address, count, STATUS_SIZE, STATUS_ALIGNMENT);
    if len.None? || !engine {
      return Invalid;
    }
    if !allocates {
      return NoMemory;
    }
    if code != Ok {
      return code;
    }
    for i := 0 to count
      invariant forall j :: 0 <= j < i ==> statuses[j] == EncodeStatus(native[j])
      invariant forall j :: i <= j < statuses.Length ==> statuses[j] == old(statuses[j])
    {
      statuses[i] := EncodeStatus(native[i]);
    }
    result := Ok;
  }

  /** ffi.cpp, the same entry point. None: the process aborts on a failure without an error. */
  method GetStatusesCpp(engine: bool, batch: nat, address: nat, statuses: array<RawStatus>, count: nat,
                        allocates: bool, code: Code, native: seq<Status>)
    returns (result: Option<Code>)
    requires ValidArray(address, count, STATUS_SIZE, STATUS_ALIGNMENT) ==> count <= statuses.Length
    requires code == Ok ==> |native| == count
    modifies statuses
    ensures result.None? <==> Refusal(engine, batch, address, count, allocates, code) == Ok && Failed(Ok) in native
    ensures result.Some? ==> result.value == Refusal(engine, batch, address, count, allocates, code)
    ensures result.Some? && result.value != Ok ==> statuses[..] == old(statuses[..])
    ensures result == Some(Ok) ==>
              && count <= statuses.Length
              && (forall i :: 0 <= i < count ==> statuses[i] == EncodeStatus(native[i]))
              && (forall i :: count <= i < statuses.Length ==> statuses[i] == old(statuses[i]))
  {
    hide EncodeStatus, EncodeStatusCpp;
    if !engine || batch == 0 || !ValidArray(address, count, STATUS_SIZE, STATUS_ALIGNMENT) {
      return Some(Invalid);
    }
    if !allocates {
      return Some(NoMemory);
    }
    if code != Ok {
      return Some(code);
    }
    for i := 0 to count
      invariant forall j :: 0 <= j < i ==> native[j] != Failed(Ok) && statuses[j] == EncodeStatus(native[j])
      invariant forall j :: i <= j < statuses.Length ==> statuses[j] == old(statuses[j])
    {
      StatusRoundTrip(native[i], 0);
      var encoded := EncodeStatusCpp(native[i]);
      if encoded.None? {
        return None;
      }
      statuses[i] := encoded.value;
    }
    result := Some(Ok);
  }

  lemma FailureNeedsError(native: seq<Status>, opcodes: seq<nat>)
    requires Failed(Ok) in native && |native| == |opcodes|
    ensures exists i :: 0 <= i < |native| && !WellFormed(native[i], opcodes[i])
    ensures exists i :: 0 <= i < |native| && !Meaningful(EncodeStatus(native[i]), opcodes[i])
  {
    var i :| 0 <= i < |native| && native[i] == Failed(Ok);
    assert !WellFormed(native[i], opcodes[i]);
    assert !Meaningful(EncodeStatus(native[i]), opcodes[i]);
  }

  /** A whole query, either adapter and Python together: with the batch's operation types retained, the
      statuses come back equal and in submission order exactly when the engine's are well formed;
      and a query the engine refuses leaves the storage as it was. */
  method QueryRoundTrip(cpp: bool, batch: nat, address: nat, storage: array<RawStatus>, opcodes: seq<nat>, code: Code,
                        native: seq<Status>)
    returns (results: Option<seq<Status>>)
    requires batch != 0 && |opcodes| == storage.Length
    requires ValidArray(address, |opcodes|, STATUS_SIZE, STATUS_ALIGNMENT)
    requires code == Ok ==> |native| == |opcodes|
    modifies storage
    ensures code == Ok ==>
              (results == Some(native) <==> forall i :: 0 <= i < |native| ==> WellFormed(native[i], opcodes[i]))
    ensures code == Ok ==>
              && (results.Some? <==> forall i :: 0 <= i < |native| ==> Meaningful(EncodeStatus(native[i]), opcodes[i]))
              && (results.Some? ==>
                    && |results.value| == |native|
                    && forall i :: 0 <= i < |native| ==> Means(EncodeStatus(native[i]), opcodes[i], results.value[i]))
    ensures code != Ok ==> results == None && storage[..] == old(storage[..])
  {
    hide EncodeStatus, DecodeStatus, WellFormed, Means, Meaningful;
    if cpp {
      var result := GetStatusesCpp(true, batch, address, storage, |opcodes|, true, code, native);
      if result != Some(Ok) {
        if code == Ok {
          FailureNeedsError(native, opcodes);
        }
        return None;
      }
    } else {
      var result := GetStatuses(true, batch, address, storage, |opcodes|, true, code, native);
      if result != Ok {
        return None;
      }
    }
    results := DecodeStatuses(storage[..], opcodes);
    forall i | 0 <= i < |native|
      ensures Means(EncodeStatus(native[i]), opcodes[i], native[i]) <==> WellFormed(native[i], opcodes[i])
      ensures WellFormed(native[i], opcodes[i]) ==> Meaningful(storage[..][i], opcodes[i])
      ensures results.Some? ==> (results.value[i] == native[i] <==> WellFormed(native[i], opcodes[i]))
    {
      StatusRoundTrip(native[i], opcodes[i]);
      StatusDecoding(EncodeStatus(native[i]), opcodes[i]);
      assert storage[..][i] == EncodeStatus(native[i]);
    }
    assert forall i :: 0 <= i < |native| ==> storage[..][i] == EncodeStatus(native[i]);
    assert results.Some? ==> (results.value == native <==> forall i :: 0 <= i < |native| ==> results.value[i] == native[i]);
  }

  // ----- Access flags ----------------------------------------------------------------------

  const LOCAL_WRITE: bv32 := 1
  const REMOTE_WRITE: bv32 := 2
  const REMOTE_READ: bv32 := 4
  const REMOTE_ATOMIC: bv32 := 8

  function KnownFlags(): bv32 {
    LOCAL_WRITE | REMOTE_WRITE | REMOTE_READ | REMOTE_ATOMIC
  }

  /** ffi.cpp, decode_access: one test for each flag. */
  method DecodeAccessCpp(flags: bv32) returns (access: Option<bv32>)
    ensures access == if flags < 0x10 then Some(flags) else None
  {
    if flags & !KnownFlags() != 0 {
      return None;
    }
    var native: bv32 := 0;
    if flags & LOCAL_WRITE != 0 { native := native | LOCAL_WRITE; }
    if flags & REMOTE_WRITE != 0 { native := native | REMOTE_WRITE; }
    if flags & REMOTE_READ != 0 { native := native | REMOTE_READ; }
    if flags & REMOTE_ATOMIC != 0 { native := native | REMOTE_ATOMIC; }
    access := Some(native);
  }

  /** ffi.rs, decode_access: a loop over the four flags. */
  method DecodeAccessRust(flags: bv32) returns (access: Option<bv32>)
    ensures access == if flags < 0x10 then Some(flags) else None
  {
    if flags & !KnownFlags() != 0 {
      return None;
    }
    var known := [LOCAL_WRITE, REMOTE_WRITE, REMOTE_READ, REMOTE_ATOMIC];
    var native: bv32 := 0;
    for i := 0 to 4
      invariant native == flags & (if i == 0 then 0 else if i == 1 then 1 else if i == 2 then 3 else if i == 3 then 7 else 15)
    {
      if flags & known[i] != 0 {
        native := native | known[i];
      }
    }
    access := Some(native);
  }
}
