/** The C layout of requests and statuses: the Python encoder, the three request decoders, the two
    status encoders and the Python status decoder, each in its own shape. */
module Codec {
  import opened Options

  // ----- Little-endian fields --------------------------------------------------------------

  type Byte = b: nat | b < 0x100

  const UINT32_LIMIT := 0x1_0000_0000
  const UINT64_LIMIT := 0x1_0000_0000_0000_0000
  const PTRDIFF_MAX := 0x7fff_ffff_ffff_ffff

  function Limit(width: nat): (n: nat)
    ensures n > 0
  {
    if width == 0 then 1 else 0x100 * Limit(width - 1)
  }

  lemma Limits()
    ensures Limit(4) == UINT32_LIMIT && Limit(8) == UINT64_LIMIT
  {
    assert Limit(2) == 0x1_0000;
    assert Limit(4) == 0x1_0000_0000;
    assert Limit(6) == 0x1_0000_0000_0000;
  }

  function Store(n: nat, width: nat): (bytes: seq<Byte>)
    ensures |bytes| == width
  {
    if width == 0 then [] else [n % 0x100] + Store(n / 0x100, width - 1)
  }

  function Load(bytes: seq<Byte>): nat {
    if bytes == [] then 0 else bytes[0] + 0x100 * Load(bytes[1..])
  }

  lemma {:induction false} LoadStore(n: nat, width: nat)
    requires n < Limit(width)
    ensures Load(Store(n, width)) == n
  {
    if width > 0 {
      LoadStore(n / 0x100, width - 1);
      assert Store(n, width)[1..] == Store(n / 0x100, width - 1);
    }
  }

  // ----- Requests --------------------------------------------------------------------------

  const WRITE := 1
  const READ := 2
  const SEND := 3
  const RECV := 4
  const WRITE_IMM := 5
  const COMPARE_SWAP := 6
  const FETCH_ADD := 7

  const INLINE := 1

  datatype Operation =
    | Write(writeTo: int, inlineWrite: bool)
    | Read(readFrom: int)
    | Send(inlineSend: bool)
    | Recv
    | WriteImm(notifyTo: int, immediate: int, inlineNotify: bool)
    | CompareSwap(swapAt: int, compare: int, swap: int)
    | FetchAdd(addAt: int, increment: int)

  datatype Request = Request(peer: int, localAddress: int, length: int, operation: Operation)

  const REQUEST_SIZE := 56
  const REQUEST_ALIGNMENT := 8
  const ARGS := 32  // offset of the union

  /** An r101_request in memory. The members of `args` overlap in its last 24 bytes. */
  type Raw = raw: seq<Byte> | |raw| == REQUEST_SIZE witness Store(0, 56)

  function U32(raw: Raw, offset: nat): nat
    requires offset + 4 <= REQUEST_SIZE
  {
    Load(raw[offset..offset + 4])
  }

  function U64(raw: Raw, offset: nat): nat
    requires offset + 8 <= REQUEST_SIZE
  {
    Load(raw[offset..offset + 8])
  }

  function Peer(raw: Raw): nat { U64(raw, 0) }
  function Opcode(raw: Raw): nat { U32(raw, 8) }
  function Flags(raw: Raw): nat { U32(raw, 12) }
  function LocalAddress(raw: Raw): nat { U64(raw, 16) }
  function Length(raw: Raw): nat { U64(raw, 24) }

  // ----- The Python encoder ----------------------------------------------------------------

  predicate Fits32(n: int) { 0 <= n < UINT32_LIMIT }

  predicate Fits64(n: int) { 0 <= n < UINT64_LIMIT }

  function OpcodeOf(o: Operation): nat {
    match o
    case Write(_, _) => WRITE
    case Read(_) => READ
    case Send(_) => SEND
    case Recv => RECV
    case WriteImm(_, _, _) => WRITE_IMM
    case CompareSwap(_, _, _) => COMPARE_SWAP
    case FetchAdd(_, _) => FETCH_ADD
  }

  function InlineOf(o: Operation): bool {
    (o.Write? && o.inlineWrite) || (o.Send? && o.inlineSend) || (o.WriteImm? && o.inlineNotify)
  }

  /** The union as CFFI fills it: the selected member, zero elsewhere; an integer outside its field
      raises OverflowError. */
  function EncodeArgs(o: Operation): (args: Option<seq<Byte>>)
    ensures args.Some? ==> |args.value| == REQUEST_SIZE - ARGS
  {
    match o
    case Write(a, _) => if Fits64(a) then Some(Store(a, 8) + Store(0, 16)) else None
    case Read(a) => if Fits64(a) then Some(Store(a, 8) + Store(0, 16)) else None
    case WriteImm(a, i, _) =>
      if Fits64(a) && Fits32(i) then Some(Store(a, 8) + Store(i, 4) + Store(0, 12)) else None
    case CompareSwap(a, c, v) =>
      if Fits64(a) && Fits64(c) && Fits64(v) then Some(Store(a, 8) + Store(c, 8) + Store(v, 8)) else None
    case FetchAdd(a, v) =>
      if Fits64(a) && Fits64(v) then Some(Store(a, 8) + Store(0, 8) + Store(v, 8)) else None
    case _ => Some(Store(0, 24))
  }

  /** `ffi.cast` to a pointer keeps the low 64 bits of the address; the other fields must fit. */
  function Encode(r: Request): Option<Raw> {
    var args := EncodeArgs(r.operation);
    if args.None? || !Fits64(r.peer) || !Fits64(r.length) then None
    else
      Some(Store(r.peer, 8) + Store(OpcodeOf(r.operation), 4) + Store(if InlineOf(r.operation) then INLINE else 0, 4)
           + Store(r.localAddress % UINT64_LIMIT, 8) + Store(r.length, 8) + args.value)
  }

  // ----- The three decoders ----------------------------------------------------------------

  /** engine.c: the checks of one turn of the validation loop. */
  predicate AcceptedByC(raw: Raw) {
    if Flags(raw) != 0 && Flags(raw) != INLINE then false
    else if Flags(raw) == INLINE && Opcode(raw) != WRITE && Opcode(raw) != SEND && Opcode(raw) != WRITE_IMM then false
    else Opcode(raw) in {WRITE, READ, SEND, RECV, WRITE_IMM, COMPARE_SWAP, FETCH_ADD}
  }

  /** ffi.cpp, decode_request. */
  function DecodeCpp(raw: Raw): Option<Request> {
    if Flags(raw) != 0 && Flags(raw) != INLINE then None
    else
      var inlineData := Flags(raw) == INLINE;
      var supportsInline := Opcode(raw) == WRITE || Opcode(raw) == SEND || Opcode(raw) == WRITE_IMM;
      if inlineData && !supportsInline then None
      else
        var operation :=
          if Opcode(raw) == WRITE then Some(Write(U64(raw, ARGS), inlineData))
          else if Opcode(raw) == READ then Some(Read(U64(raw, ARGS)))
          else if Opcode(raw) == SEND then Some(Send(inlineData))
          else if Opcode(raw) == RECV then Some(Recv)
          else if Opcode(raw) == WRITE_IMM then Some(WriteImm(U64(raw, ARGS), U32(raw, ARGS + 8), inlineData))
          else if Opcode(raw) == COMPARE_SWAP then Some(CompareSwap(U64(raw, ARGS), U64(raw, ARGS + 8), U64(raw, ARGS + 16)))
          else if Opcode(raw) == FETCH_ADD then Some(FetchAdd(U64(raw, ARGS), U64(raw, ARGS + 16)))
          else None;
        if operation.None? then None
        else Some(Request(Peer(raw), LocalAddress(raw), Length(raw), operation.value))
  }

  /** ffi.rs, decode_request. */
  function DecodeRust(raw: Raw): Option<Request> {
    var flags, opcode := Flags(raw), Opcode(raw);
    if flags != 0 && flags != INLINE then None
    else if flags == INLINE && opcode !in {WRITE, SEND, WRITE_IMM} then None
    else
      match opcode
      case 1 => Some(Request(Peer(raw), LocalAddress(raw), Length(raw), Write(U64(raw, ARGS), flags == INLINE)))
      case 2 => Some(Request(Peer(raw), LocalAddress(raw), Length(raw), Read(U64(raw, ARGS))))
      case 3 => Some(Request(Peer(raw), LocalAddress(raw), Length(raw), Send(flags == INLINE)))
      case 4 => Some(Request(Peer(raw), LocalAddress(raw), Length(raw), Recv))
      case 5 =>
        Some(Request(Peer(raw), LocalAddress(raw), Length(raw),
                     WriteImm(U64(raw, ARGS), U32(raw, ARGS + 8), flags == INLINE)))
      case 6 =>
        Some(Request(Peer(raw), LocalAddress(raw), Length(raw),
                     CompareSwap(U64(raw, ARGS), U64(raw, ARGS + 8), U64(raw, ARGS + 16))))
      case 7 => Some(Request(Peer(raw), LocalAddress(raw), Length(raw), FetchAdd(U64(raw, ARGS), U64(raw, ARGS + 16))))
      case _ => None
  }

  // ----- Round trip ------------------------------------------------------------------------

  function OutOfWire(r: Request): Request {
    r.(localAddress := r.localAddress % UINT64_LIMIT)
  }

  /** Every integer but the local address fits its field. */
  predicate InRange(r: Request) {
    && Fits64(r.peer) && Fits64(r.length)
    && match r.operation
       case Write(a, _) => Fits64(a)
       case Read(a) => Fits64(a)
       case WriteImm(a, i, _) => Fits64(a) && Fits32(i)
       case CompareSwap(a, c, v) => Fits64(a) && Fits64(c) && Fits64(v)
       case FetchAdd(a, v) => Fits64(a) && Fits64(v)
       case _ => true
  }

  lemma FieldsOf(r: Request, raw: Raw)
    requires Encode(r) == Some(raw)
    ensures Peer(raw) == r.peer && Length(raw) == r.length && LocalAddress(raw) == r.localAddress % UINT64_LIMIT
    ensures Opcode(raw) == OpcodeOf(r.operation) && Flags(raw) == if InlineOf(r.operation) then INLINE else 0
    ensures raw[ARGS..] == EncodeArgs(r.operation).value
  {
    hide Store, Load, Limit, EncodeArgs;
    Limits();
    var flags := if InlineOf(r.operation) then INLINE else 0;
    LoadStore(r.peer, 8);
    LoadStore(OpcodeOf(r.operation), 4);
    LoadStore(flags, 4);
    LoadStore(r.localAddress % UINT64_LIMIT, 8);
    LoadStore(r.length, 8);
    assert raw[0..8] == Store(r.peer, 8);
    assert raw[8..12] == Store(OpcodeOf(r.operation), 4);
    assert raw[12..16] == Store(flags, 4);
    assert raw[16..24] == Store(r.localAddress % UINT64_LIMIT, 8);
    assert raw[24..32] == Store(r.length, 8);
  }

  lemma Inner(bytes: seq<Byte>, offset: nat, from: nat, to: nat)
    requires from <= to && offset + to <= |bytes|
    ensures bytes[offset..][from..to] == bytes[offset + from..offset + to]
  {
  }

  lemma ArgsOf(r: Request, raw: Raw)
    requires Encode(r) == Some(raw)
    ensures match r.operation
            case Write(a, _) => U64(raw, ARGS) == a
            case Read(a) => U64(raw, ARGS) == a
            case WriteImm(a, i, _) => U64(raw, ARGS) == a && U32(raw, ARGS + 8) == i
            case CompareSwap(a, c, v) => U64(raw, ARGS) == a && U64(raw, ARGS + 8) == c && U64(raw, ARGS + 16) == v
            case FetchAdd(a, v) => U64(raw, ARGS) == a && U64(raw, ARGS + 16) == v
            case _ => true
  {
    hide Encode, Store, Load, Limit;
    EncodeDefined(r);
    FieldsOf(r, raw);
    Limits();
    var args := raw[ARGS..];
    Inner(raw, ARGS, 0, 8);
    Inner(raw, ARGS, 8, 16);
    Inner(raw, ARGS, 16, 24);
    Inner(raw, ARGS, 8, 12);
    match r.operation
    case Write(a, _) => LoadStore(a, 8); assert args[0..8] == Store(a, 8);
    case Read(a) => LoadStore(a, 8); assert args[0..8] == Store(a, 8);
    case WriteImm(a, i, _) =>
      LoadStore(a, 8);
      LoadStore(i, 4);
      assert args[0..8] == Store(a, 8) && args[8..12] == Store(i, 4);
    case CompareSwap(a, c, v) =>
      LoadStore(a, 8);
      LoadStore(c, 8);
      LoadStore(v, 8);
      assert args[0..8] == Store(a, 8) && args[8..16] == Store(c, 8) && args[16..24] == Store(v, 8);
    case FetchAdd(a, v) =>
      LoadStore(a, 8);
      LoadStore(v, 8);
      assert args[0..8] == Store(a, 8) && args[16..24] == Store(v, 8);
    case _ =>
  }

  lemma EncodeDefined(r: Request)
    ensures Encode(r).Some? <==> InRange(r)
  {
    hide Store;
  }

  /** Decoding the Python encoding gives back the request, its address reduced to 64 bits, in both
      adapters. */
  lemma RequestRoundTrip(r: Request)
    ensures Encode(r).Some? <==> InRange(r)
    ensures InRange(r) ==> DecodeCpp(Encode(r).value) == DecodeRust(Encode(r).value) == Some(OutOfWire(r))
    ensures InRange(r) ==> (DecodeCpp(Encode(r).value) == Some(r) <==> Fits64(r.localAddress))
  {
    hide Encode, EncodeArgs, U64, U32, Peer, Length, LocalAddress, Opcode, Flags;
    EncodeDefined(r);
    if InRange(r) {
      var raw := Encode(r).value;
      FieldsOf(r, raw);
      ArgsOf(r, raw);
    }
  }

  /** So different requests with addresses in range have different encodings. */
  lemma EncodingIsInjective(r: Request, s: Request)
    requires InRange(r) && InRange(s) && Fits64(r.localAddress) && Fits64(s.localAddress)
    requires Encode(r) == Encode(s)
    ensures r == s
  {
    hide Encode, DecodeCpp, DecodeRust;
    RequestRoundTrip(r);
    RequestRoundTrip(s);
  }

  /** The language of the decoders, in terms of the two header fields alone. */
  predicate Legal(raw: Raw) {
    && 1 <= Opcode(raw) <= 7
    && (Flags(raw) == 0 || (Flags(raw) == 1 && Opcode(raw) in {1, 3, 5}))
  }

  lemma OneLanguage(raw: Raw)
    ensures AcceptedByC(raw) <==> Legal(raw)
    ensures DecodeCpp(raw).Some? <==> Legal(raw)
    ensures DecodeRust(raw) == DecodeCpp(raw)
  {
    hide U64, U32, Opcode, Flags;
  }

  lemma {:induction false} LoadFits(bytes: seq<Byte>)
    ensures Load(bytes) < Limit(|bytes|)
  {
    if bytes != [] {
      LoadFits(bytes[1..]);
    }
  }

  lemma FieldsFit(raw: Raw)
    ensures forall offset: nat :: offset + 8 <= REQUEST_SIZE ==> Fits64(U64(raw, offset))
    ensures forall offset: nat :: offset + 4 <= REQUEST_SIZE ==> Fits32(U32(raw, offset))
  {
    Limits();
    forall offset: nat | offset + 8 <= REQUEST_SIZE
      ensures Fits64(U64(raw, offset))
    {
      LoadFits(raw[offset..offset + 8]);
    }
    forall offset: nat | offset + 4 <= REQUEST_SIZE
      ensures Fits32(U32(raw, offset))
    {
      LoadFits(raw[offset..offset + 4]);
    }
  }

  /** Every request any decoder produces is one the encoder can express, whatever bytes the unused
      part of the union held. */
  lemma DecodedIsEncodable(raw: Raw)
    requires Legal(raw)
    ensures DecodeCpp(raw).Some?
    ensures var r := DecodeCpp(raw).value;
            InRange(r) && Fits64(r.localAddress) && DecodeCpp(Encode(r).value) == Some(r)
  {
    FieldsFit(raw);
    hide Store, Load, Encode, U64, U32;
    var r := DecodeCpp(raw).value;
    assert InRange(r);
    RequestRoundTrip(r);
  }

  // ----- The bytes -------------------------------------------------------------------------

  /** The i-th byte of a number, counted from the least significant. */
  function ByteOf(n: nat, i: nat): Byte {
    if i == 0 then n % 0x100 else ByteOf(n / 0x100, i - 1)
  }

  /** The field of `width` bytes at `offset` holds `n`, least significant byte first. */
  predicate FieldAt(raw: Raw, offset: nat, width: nat, n: nat)
    requires offset + width <= REQUEST_SIZE
  {
    forall i :: 0 <= i < width ==> raw[offset + i] == ByteOf(n, i)
  }

  lemma {:induction false} StoredByte(n: nat, width: nat, i: nat)
    requires i < width
    ensures Store(n, width)[i] == ByteOf(n, i)
  {
    if i > 0 {
      StoredByte(n / 0x100, width - 1, i - 1);
    }
  }

  lemma StoredField(raw: Raw, offset: nat, width: nat, n: nat)
    requires offset + width <= REQUEST_SIZE && raw[offset..offset + width] == Store(n, width)
    ensures FieldAt(raw, offset, width, n)
  {
    forall i | 0 <= i < width
      ensures raw[offset + i] == ByteOf(n, i)
    {
      StoredByte(n, width, i);
      assert raw[offset..offset + width][i] == raw[offset + i];
    }
  }

  /** transfer_engine.h, r101_opcode. */
  function HeaderOpcode(o: Operation): nat {
    if o.Write? then 1 else if o.Read? then 2 else if o.Send? then 3 else if o.Recv? then 4
    else if o.WriteImm? then 5 else if o.CompareSwap? then 6 else 7
  }

  predicate ArgsAt(raw: Raw, o: Operation) {
    match o
    case Write(a, _) => FieldAt(raw, 32, 8, Nat(a)) && FieldAt(raw, 40, 16, 0)
    case Read(a) => FieldAt(raw, 32, 8, Nat(a)) && FieldAt(raw, 40, 16, 0)
    case WriteImm(a, i, _) => FieldAt(raw, 32, 8, Nat(a)) && FieldAt(raw, 40, 4, Nat(i)) && FieldAt(raw, 44, 12, 0)
    case CompareSwap(a, c, v) =>
      FieldAt(raw, 32, 8, Nat(a)) && FieldAt(raw, 40, 8, Nat(c)) && FieldAt(raw, 48, 8, Nat(v))
    case FetchAdd(a, v) => FieldAt(raw, 32, 8, Nat(a)) && FieldAt(raw, 40, 8, 0) && FieldAt(raw, 48, 8, Nat(v))
    case _ => FieldAt(raw, 32, 24, 0)
  }

  function Nat(n: int): nat { if n < 0 then 0 else n }

  /** Byte by byte, an encoded request is the header's struct with its numbers. */
  lemma EncodedLayout(r: Request, raw: Raw)
    requires Encode(r) == Some(raw)
    ensures FieldAt(raw, 0, 8, Nat(r.peer)) && FieldAt(raw, 8, 4, HeaderOpcode(r.operation))
    ensures FieldAt(raw, 12, 4, if InlineOf(r.operation) then 1 else 0)
    ensures FieldAt(raw, 16, 8, r.localAddress % UINT64_LIMIT) && FieldAt(raw, 24, 8, Nat(r.length))
    ensures ArgsAt(raw, r.operation)
  {
    hide Store, Limit, EncodeArgs;
    var flags := if InlineOf(r.operation) then INLINE else 0;
    assert raw[0..8] == Store(r.peer, 8);
    StoredField(raw, 0, 8, r.peer);
    assert raw[8..12] == Store(OpcodeOf(r.operation), 4);
    StoredField(raw, 8, 4, OpcodeOf(r.operation));
    assert raw[12..16] == Store(flags, 4);
    StoredField(raw, 12, 4, flags);
    assert raw[16..24] == Store(r.localAddress % UINT64_LIMIT, 8);
    StoredField(raw, 16, 8, r.localAddress % UINT64_LIMIT);
    assert raw[24..32] == Store(r.length, 8);
    StoredField(raw, 24, 8, r.length);
    hide FieldAt;
    EncodedArgs(r, raw);
  }

  /** Three parts of the union, one after the other. */
  lemma Parts(raw: Raw, x: nat, wx: nat, y: nat, wy: nat, z: nat, wz: nat)
    requires wx + wy + wz == REQUEST_SIZE - ARGS && raw[ARGS..] == Store(x, wx) + Store(y, wy) + Store(z, wz)
    ensures FieldAt(raw, ARGS, wx, x) && FieldAt(raw, ARGS + wx, wy, y) && FieldAt(raw, ARGS + wx + wy, wz, z)
  {
    hide Store, FieldAt;
    var args := raw[ARGS..];
    assert raw[ARGS..ARGS + wx] == args[..wx] == Store(x, wx);
    assert raw[ARGS + wx..ARGS + wx + wy] == args[wx..wx + wy] == Store(y, wy);
    assert raw[ARGS + wx + wy..ARGS + wx + wy + wz] == args[wx + wy..] == Store(z, wz);
    StoredField(raw, ARGS, wx, x);
    StoredField(raw, ARGS + wx, wy, y);
    StoredField(raw, ARGS + wx + wy, wz, z);
  }

  lemma EncodedArgs(r: Request, raw: Raw)
    requires Encode(r) == Some(raw)
    ensures ArgsAt(raw, r.operation)
  {
    FieldsOf(r, raw);
    EncodeDefined(r);
    hide Encode, Store, FieldAt;
    match r.operation
    case Write(a, _) => NoThird(a, 8, 0, 16); Parts(raw, a, 8, 0, 16, 0, 0);
    case Read(a) => NoThird(a, 8, 0, 16); Parts(raw, a, 8, 0, 16, 0, 0);
    case WriteImm(a, i, _) => Parts(raw, a, 8, i, 4, 0, 12);
    case CompareSwap(a, c, v) => Parts(raw, a, 8, c, 8, v, 8);
    case FetchAdd(a, v) => Parts(raw, a, 8, 0, 8, v, 8);
    case _ => NoThird(0, 24, 0, 0); Parts(raw, 0, 24, 0, 0, 0, 0);
  }

  lemma NoThird(x: nat, wx: nat, y: nat, wy: nat)
    ensures Store(x, wx) + Store(y, wy) == Store(x, wx) + Store(y, wy) + Store(0, 0)
    ensures wy == 0 ==> Store(x, wx) == Store(x, wx) + Store(y, wy)
  {
  }
}
