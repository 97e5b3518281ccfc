/**
 The wire messages as values, each with what its Marshal writes and its Unmarshal reads. Strings
 are byte strings. A message fits when every length in it does; Marshal panics on any other.
 */
module Messages {
  import opened Base
  import opened Wire

  predicate Short(s: Bytes) {
    |s| <= MAX_LENGTH
  }

  // ---------------------------------------------------------------- ClientMessage

  datatype ClientMessage = ClientMessage(
    typ: byte,
    id: uint32,
    op: uint16,
    token: Bytes,
    channel: Bytes,
    payload: Bytes)

  predicate ClientMessageFits(m: ClientMessage) {
    Short(m.token) && Short(m.channel) && Short(m.payload)
  }

  function PutClientMessage(m: ClientMessage, rest: Bytes): (bytes: Bytes) {
    PutU8(m.typ, PutU32(m.id, PutU16(m.op, PutStr(m.token, PutStr(m.channel, PutStr(m.payload, rest))))))
  }

  function GetClientMessage(d: Bytes): (parsed: Parsed<ClientMessage>) {
    var (typ, d) :- GetU8(d);
    var (id, d) :- GetU32(d);
    var (op, d) :- GetU16(d);
    var (token, d) :- GetStr(d);
    var (channel, d) :- GetStr(d);
    var (payload, d) :- GetStr(d);
    Got(ClientMessage(typ, id, op, token, channel, payload), d)
  }

  function ClientMessageFormat(): (format: Format<ClientMessage>) {
    Format(PutClientMessage, GetClientMessage, ClientMessageFits)
  }

  lemma ClientMessageRoundTrip(m: ClientMessage, rest: Bytes)
    requires ClientMessageFits(m)
    ensures GetClientMessage(PutClientMessage(m, rest)) == Got(m, rest)
  {
    var d6 := PutStr(m.payload, rest);
    var d5 := PutStr(m.channel, d6);
    var d4 := PutStr(m.token, d5);
    var d3 := PutU16(m.op, d4);
    var d2 := PutU32(m.id, d3);
    U8RoundTrip(m.typ, d2);
    U32RoundTrip(m.id, d3);
    U16RoundTrip(m.op, d4);
    StrRoundTrip(m.token, d5);
    StrRoundTrip(m.channel, d6);
    StrRoundTrip(m.payload, rest);
  }

  lemma ClientMessageIsPut(d: Bytes)
    requires GetClientMessage(d).Got?
    ensures var Got(m, rest) := GetClientMessage(d);
            ClientMessageFits(m) && d == PutClientMessage(m, rest)
  {
    var d2 := GetU8(d).rest;
    var d3 := GetU32(d2).rest;
    var d4 := GetU16(d3).rest;
    var d5 := GetStr(d4).rest;
    var d6 := GetStr(d5).rest;
    U8IsPut(d);
    U32IsPut(d2);
    U16IsPut(d3);
    StrIsPut(d4);
    StrIsPut(d5);
    StrIsPut(d6);
  }

  lemma ClientMessageAppends(m: ClientMessage, a: Bytes, b: Bytes)
    ensures PutClientMessage(m, a + b) == PutClientMessage(m, a) + b
  {
    StrAppends(m.payload, a, b);
    var d6 := PutStr(m.payload, a);
    StrAppends(m.channel, d6, b);
    var d5 := PutStr(m.channel, d6);
    StrAppends(m.token, d5, b);
    var d4 := PutStr(m.token, d5);
    U16Appends(m.op, d4, b);
    var d3 := PutU16(m.op, d4);
    U32Appends(m.id, d3, b);
  }

  lemma ClientMessageExact()
    ensures Exact(ClientMessageFormat()) && Appends(ClientMessageFormat())
  {
    forall m, rest | ClientMessageFits(m) ensures GetClientMessage(PutClientMessage(m, rest)) == Got(m, rest) {
      ClientMessageRoundTrip(m, rest);
    }
    forall d | GetClientMessage(d).Got?
      ensures var Got(m, rest) := GetClientMessage(d); ClientMessageFits(m) && d == PutClientMessage(m, rest)
    {
      ClientMessageIsPut(d);
    }
    forall m, a, b ensures PutClientMessage(m, a + b) == PutClientMessage(m, a) + b {
      ClientMessageAppends(m, a, b);
    }
  }

  /** How both messages end: two strings and the payload. */
  datatype Tail = Tail(first: Bytes, second: Bytes, payload: Bytes)

  function GetTail(d: Bytes): (parsed: Parsed<Tail>) {
    var (first, d) :- GetStr(d);
    var (second, d) :- GetStr(d);
    var (payload, d) :- GetStr(d);
    Got(Tail(first, second, payload), d)
  }

  function ClientMessageWith(typ: byte, id: uint32, op: uint16, t: Parsed<Tail>): (parsed: Parsed<ClientMessage>) {
    if t.Bad? then Bad
    else Got(ClientMessage(typ, id, op, t.value.first, t.value.second, t.value.payload), t.rest)
  }

  lemma ClientMessageHeader(d: Bytes, typ: byte, d1: Bytes, id: uint32, d2: Bytes, op: uint16, d3: Bytes)
    requires GetU8(d) == Got(typ, d1) && GetU32(d1) == Got(id, d2) && GetU16(d2) == Got(op, d3)
    ensures GetClientMessage(d) == ClientMessageWith(typ, id, op, GetTail(d3))
  {}

  // ---------------------------------------------------------------- ServerMessage

  datatype ServerMessage = ServerMessage(
    typ: byte,
    id: uint32,
    code: uint16,
    op: uint16,
    channel: Bytes,
    error: Bytes,
    payload: Bytes)

  predicate ServerMessageFits(m: ServerMessage) {
    Short(m.channel) && Short(m.error) && Short(m.payload)
  }

  function PutServerMessage(m: ServerMessage, rest: Bytes): (bytes: Bytes) {
    PutU8(m.typ, PutU32(m.id, PutU16(m.code, PutU16(m.op,
      PutStr(m.channel, PutStr(m.error, PutStr(m.payload, rest)))))))
  }

  function GetServerMessage(d: Bytes): (parsed: Parsed<ServerMessage>) {
    var (typ, d) :- GetU8(d);
    var (id, d) :- GetU32(d);
    var (code, d) :- GetU16(d);
    var (op, d) :- GetU16(d);
    var (channel, d) :- GetStr(d);
    var (error, d) :- GetStr(d);
    var (payload, d) :- GetStr(d);
    Got(ServerMessage(typ, id, code, op, channel, error, payload), d)
  }

  function ServerMessageFormat(): (format: Format<ServerMessage>) {
    Format(PutServerMessage, GetServerMessage, ServerMessageFits)
  }

  lemma ServerMessageRoundTrip(m: ServerMessage, rest: Bytes)
    requires ServerMessageFits(m)
    ensures GetServerMessage(PutServerMessage(m, rest)) == Got(m, rest)
  {
    var d7 := PutStr(m.payload, rest);
    var d6 := PutStr(m.error, d7);
    var d5 := PutStr(m.channel, d6);
    var d4 := PutU16(m.op, d5);
    var d3 := PutU16(m.code, d4);
    var d2 := PutU32(m.id, d3);
    U8RoundTrip(m.typ, d2);
    U32RoundTrip(m.id, d3);
    U16RoundTrip(m.code, d4);
    U16RoundTrip(m.op, d5);
    StrRoundTrip(m.channel, d6);
    StrRoundTrip(m.error, d7);
    StrRoundTrip(m.payload, rest);
  }

  lemma ServerMessageIsPut(d: Bytes)
    requires GetServerMessage(d).Got?
    ensures var Got(m, rest) := GetServerMessage(d);
            ServerMessageFits(m) && d == PutServerMessage(m, rest)
  {
    var d2 := GetU8(d).rest;
    var d3 := GetU32(d2).rest;
    var d4 := GetU16(d3).rest;
    var d5 := GetU16(d4).rest;
    var d6 := GetStr(d5).rest;
    var d7 := GetStr(d6).rest;
    U8IsPut(d);
    U32IsPut(d2);
    U16IsPut(d3);
    U16IsPut(d4);
    StrIsPut(d5);
    StrIsPut(d6);
    StrIsPut(d7);
  }

  lemma ServerMessageAppends(m: ServerMessage, a: Bytes, b: Bytes)
    ensures PutServerMessage(m, a + b) == PutServerMessage(m, a) + b
  {
    StrAppends(m.payload, a, b);
    var d7 := PutStr(m.payload, a);
    StrAppends(m.error, d7, b);
    var d6 := PutStr(m.error, d7);
    StrAppends(m.channel, d6, b);
    var d5 := PutStr(m.channel, d6);
    U16Appends(m.op, d5, b);
    var d4 := PutU16(m.op, d5);
    U16Appends(m.code, d4, b);
    var d3 := PutU16(m.code, d4);
    U32Appends(m.id, d3, b);
  }

  lemma ServerMessageExact()
    ensures Exact(ServerMessageFormat()) && Appends(ServerMessageFormat())
  {
    forall m, rest | ServerMessageFits(m) ensures GetServerMessage(PutServerMessage(m, rest)) == Got(m, rest) {
      ServerMessageRoundTrip(m, rest);
    }
    forall d | GetServerMessage(d).Got?
      ensures var Got(m, rest) := GetServerMessage(d); ServerMessageFits(m) && d == PutServerMessage(m, rest)
    {
      ServerMessageIsPut(d);
    }
    forall m, a, b ensures PutServerMessage(m, a + b) == PutServerMessage(m, a) + b {
      ServerMessageAppends(m, a, b);
    }
  }

  function ServerMessageWith(typ: byte, id: uint32, code: uint16, op: uint16,
                             t: Parsed<Tail>): (parsed: Parsed<ServerMessage>) {
    if t.Bad? then Bad
    else Got(ServerMessage(typ, id, code, op, t.value.first, t.value.second, t.value.payload), t.rest)
  }

  lemma ServerMessageHeader(d: Bytes, typ: byte, d1: Bytes, id: uint32, d2: Bytes,
                            code: uint16, d3: Bytes, op: uint16, d4: Bytes)
    requires GetU8(d) == Got(typ, d1) && GetU32(d1) == Got(id, d2)
    requires GetU16(d2) == Got(code, d3) && GetU16(d3) == Got(op, d4)
    ensures GetServerMessage(d) == ServerMessageWith(typ, id, code, op, GetTail(d4))
  {}

  // ---------------------------------------------------------------- CreateOption

  datatype CreateOption = CreateOption(key: Bytes, value: Bytes)

  predicate CreateOptionFits(m: CreateOption) {
    Short(m.key) && Short(m.value)
  }

  function PutCreateOption(m: CreateOption, rest: Bytes): (bytes: Bytes) {
    PutStr(m.key, PutStr(m.value, rest))
  }

  function GetCreateOption(d: Bytes): (parsed: Parsed<CreateOption>) {
    var (key, d) :- GetStr(d);
    var (value, d) :- GetStr(d);
    Got(CreateOption(key, value), d)
  }

  function CreateOptionFormat(): (format: Format<CreateOption>) {
    Format(PutCreateOption, GetCreateOption, CreateOptionFits)
  }

  lemma CreateOptionRoundTrip(m: CreateOption, rest: Bytes)
    requires CreateOptionFits(m)
    ensures GetCreateOption(PutCreateOption(m, rest)) == Got(m, rest)
  {
    var d2 := PutStr(m.value, rest);
    StrRoundTrip(m.key, d2);
    StrRoundTrip(m.value, rest);
  }

  lemma CreateOptionIsPut(d: Bytes)
    requires GetCreateOption(d).Got?
    ensures var Got(m, rest) := GetCreateOption(d);
            CreateOptionFits(m) && d == PutCreateOption(m, rest)
  {
    var d2 := GetStr(d).rest;
    StrIsPut(d);
    StrIsPut(d2);
  }

  lemma CreateOptionAppends(m: CreateOption, a: Bytes, b: Bytes)
    ensures PutCreateOption(m, a + b) == PutCreateOption(m, a) + b
  {
    StrAppends(m.value, a, b);
    var d2 := PutStr(m.value, a);
    StrAppends(m.key, d2, b);
  }

  lemma CreateOptionExact()
    ensures Exact(CreateOptionFormat()) && Appends(CreateOptionFormat())
  {
    forall m, rest | CreateOptionFits(m) ensures GetCreateOption(PutCreateOption(m, rest)) == Got(m, rest) {
      CreateOptionRoundTrip(m, rest);
    }
    forall d | GetCreateOption(d).Got?
      ensures var Got(m, rest) := GetCreateOption(d); CreateOptionFits(m) && d == PutCreateOption(m, rest)
    {
      CreateOptionIsPut(d);
    }
    forall m, a, b ensures PutCreateOption(m, a + b) == PutCreateOption(m, a) + b {
      CreateOptionAppends(m, a, b);
    }
  }

  // ---------------------------------------------------------------- CreateRoomRequest

  datatype CreateRoomRequest = CreateRoomRequest(
    name: Bytes,
    typ: Bytes,
    maxPlayers: uint16,
    mode: byte,
    options: seq<CreateOption>)

  predicate CreateRoomRequestFits(m: CreateRoomRequest) {
    Short(m.name) && Short(m.typ) && ListFits(CreateOptionFormat(), m.options)
  }

  function PutCreateRoomRequest(m: CreateRoomRequest, rest: Bytes): (bytes: Bytes) {
    PutStr(m.name, PutStr(m.typ, PutU16(m.maxPlayers, PutU8(m.mode, PutList(CreateOptionFormat(), m.options, rest)))))
  }

  function GetCreateRoomRequest(d: Bytes): (parsed: Parsed<CreateRoomRequest>) {
    var (name, d) :- GetStr(d);
    var (typ, d) :- GetStr(d);
    var (maxPlayers, d) :- GetU16(d);
    var (mode, d) :- GetU8(d);
    var (options, d) :- GetList(CreateOptionFormat(), d);
    Got(CreateRoomRequest(name, typ, maxPlayers, mode, options), d)
  }

  function CreateRoomRequestFormat(): (format: Format<CreateRoomRequest>) {
    Format(PutCreateRoomRequest, GetCreateRoomRequest, CreateRoomRequestFits)
  }

  lemma CreateRoomRequestRoundTrip(m: CreateRoomRequest, rest: Bytes)
    requires CreateRoomRequestFits(m)
    ensures GetCreateRoomRequest(PutCreateRoomRequest(m, rest)) == Got(m, rest)
  {
    var d5 := PutList(CreateOptionFormat(), m.options, rest);
    var d4 := PutU8(m.mode, d5);
    var d3 := PutU16(m.maxPlayers, d4);
    var d2 := PutStr(m.typ, d3);
    StrRoundTrip(m.name, d2);
    StrRoundTrip(m.typ, d3);
    U16RoundTrip(m.maxPlayers, d4);
    U8RoundTrip(m.mode, d5);
    CreateOptionExact();
    ListRoundTrip(CreateOptionFormat(), m.options, rest);
  }

  lemma CreateRoomRequestIsPut(d: Bytes)
    requires GetCreateRoomRequest(d).Got?
    ensures var Got(m, rest) := GetCreateRoomRequest(d);
            CreateRoomRequestFits(m) && d == PutCreateRoomRequest(m, rest)
  {
    var d2 := GetStr(d).rest;
    var d3 := GetStr(d2).rest;
    var d4 := GetU16(d3).rest;
    var d5 := GetU8(d4).rest;
    StrIsPut(d);
    StrIsPut(d2);
    U16IsPut(d3);
    U8IsPut(d4);
    CreateOptionExact();
    ListIsPut(CreateOptionFormat(), d5);
  }

  lemma CreateRoomRequestAppends(m: CreateRoomRequest, a: Bytes, b: Bytes)
    ensures PutCreateRoomRequest(m, a + b) == PutCreateRoomRequest(m, a) + b
  {
    CreateOptionExact();
    ListAppends(CreateOptionFormat(), m.options, a, b);
    var d5 := PutList(CreateOptionFormat(), m.options, a);
    var d4 := PutU8(m.mode, d5);
    U16Appends(m.maxPlayers, d4, b);
    var d3 := PutU16(m.maxPlayers, d4);
    StrAppends(m.typ, d3, b);
    var d2 := PutStr(m.typ, d3);
    StrAppends(m.name, d2, b);
  }

  lemma CreateRoomRequestExact()
    ensures Exact(CreateRoomRequestFormat()) && Appends(CreateRoomRequestFormat())
  {
    forall m, rest | CreateRoomRequestFits(m)
      ensures GetCreateRoomRequest(PutCreateRoomRequest(m, rest)) == Got(m, rest)
    {
      CreateRoomRequestRoundTrip(m, rest);
    }
    forall d | GetCreateRoomRequest(d).Got?
      ensures var Got(m, rest) := GetCreateRoomRequest(d);
              CreateRoomRequestFits(m) && d == PutCreateRoomRequest(m, rest)
    {
      CreateRoomRequestIsPut(d);
    }
    forall m, a, b ensures PutCreateRoomRequest(m, a + b) == PutCreateRoomRequest(m, a) + b {
      CreateRoomRequestAppends(m, a, b);
    }
  }

  function CreateRoomRequestWith(name: Bytes, typ: Bytes, maxPlayers: uint16, mode: byte,
                                 options: Parsed<seq<CreateOption>>): (parsed: Parsed<CreateRoomRequest>) {
    if options.Bad? then Bad
    else Got(CreateRoomRequest(name, typ, maxPlayers, mode, options.value), options.rest)
  }

  lemma CreateRoomRequestHeader(d: Bytes, name: Bytes, d1: Bytes, typ: Bytes, d2: Bytes,
                                maxPlayers: uint16, d3: Bytes, mode: byte, d4: Bytes)
    requires GetStr(d) == Got(name, d1) && GetStr(d1) == Got(typ, d2)
    requires GetU16(d2) == Got(maxPlayers, d3) && GetU8(d3) == Got(mode, d4)
    ensures GetCreateRoomRequest(d)
            == CreateRoomRequestWith(name, typ, maxPlayers, mode, GetList(CreateOptionFormat(), d4))
  {}

  // ---------------------------------------------------------------- RoomRecord

  /** A RoomInfo as it lies on the wire: the open flag is the low bit of a byte of its own. */
  datatype RoomRecord = RoomRecord(
    id: Bytes,
    name: Bytes,
    typ: Bytes,
    maxPlayers: uint16,
    playerCount: uint16,
    flags: byte,
    mode: byte)

  predicate RoomRecordFits(m: RoomRecord) {
    Short(m.id) && Short(m.name) && Short(m.typ)
  }

  function PutRoomRecord(m: RoomRecord, rest: Bytes): (bytes: Bytes) {
    PutStr(m.id, PutStr(m.name, PutStr(m.typ,
      PutU16(m.maxPlayers, PutU16(m.playerCount, PutU8(m.flags, PutU8(m.mode, rest)))))))
  }

  function GetRoomRecord(d: Bytes): (parsed: Parsed<RoomRecord>) {
    var (id, d) :- GetStr(d);
    var (name, d) :- GetStr(d);
    var (typ, d) :- GetStr(d);
    var (maxPlayers, d) :- GetU16(d);
    var (playerCount, d) :- GetU16(d);
    var (flags, d) :- GetU8(d);
    var (mode, d) :- GetU8(d);
    Got(RoomRecord(id, name, typ, maxPlayers, playerCount, flags, mode), d)
  }

  function RoomRecordFormat(): (format: Format<RoomRecord>) {
    Format(PutRoomRecord, GetRoomRecord, RoomRecordFits)
  }

  lemma RoomRecordRoundTrip(m: RoomRecord, rest: Bytes)
    requires RoomRecordFits(m)
    ensures GetRoomRecord(PutRoomRecord(m, rest)) == Got(m, rest)
  {
    var d7 := PutU8(m.mode, rest);
    var d6 := PutU8(m.flags, d7);
    var d5 := PutU16(m.playerCount, d6);
    var d4 := PutU16(m.maxPlayers, d5);
    var d3 := PutStr(m.typ, d4);
    var d2 := PutStr(m.name, d3);
    StrRoundTrip(m.id, d2);
    StrRoundTrip(m.name, d3);
    StrRoundTrip(m.typ, d4);
    U16RoundTrip(m.maxPlayers, d5);
    U16RoundTrip(m.playerCount, d6);
    U8RoundTrip(m.flags, d7);
    U8RoundTrip(m.mode, rest);
  }

  lemma RoomRecordIsPut(d: Bytes)
    requires GetRoomRecord(d).Got?
    ensures var Got(m, rest) := GetRoomRecord(d);
            RoomRecordFits(m) && d == PutRoomRecord(m, rest)
  {
    var d2 := GetStr(d).rest;
    var d3 := GetStr(d2).rest;
    var d4 := GetStr(d3).rest;
    var d5 := GetU16(d4).rest;
    var d6 := GetU16(d5).rest;
    var d7 := GetU8(d6).rest;
    StrIsPut(d);
    StrIsPut(d2);
    StrIsPut(d3);
    U16IsPut(d4);
    U16IsPut(d5);
    U8IsPut(d6);
    U8IsPut(d7);
  }

  lemma RoomRecordAppends(m: RoomRecord, a: Bytes, b: Bytes)
    ensures PutRoomRecord(m, a + b) == PutRoomRecord(m, a) + b
  {
    var d7 := PutU8(m.mode, a);
    var d6 := PutU8(m.flags, d7);
    U16Appends(m.playerCount, d6, b);
    var d5 := PutU16(m.playerCount, d6);
    U16Appends(m.maxPlayers, d5, b);
    var d4 := PutU16(m.maxPlayers, d5);
    StrAppends(m.typ, d4, b);
    var d3 := PutStr(m.typ, d4);
    StrAppends(m.name, d3, b);
    var d2 := PutStr(m.name, d3);
    StrAppends(m.id, d2, b);
  }

  lemma RoomRecordExact()
    ensures Exact(RoomRecordFormat()) && Appends(RoomRecordFormat())
  {
    forall m, rest | RoomRecordFits(m) ensures GetRoomRecord(PutRoomRecord(m, rest)) == Got(m, rest) {
      RoomRecordRoundTrip(m, rest);
    }
    forall d | GetRoomRecord(d).Got?
      ensures var Got(m, rest) := GetRoomRecord(d); RoomRecordFits(m) && d == PutRoomRecord(m, rest)
    {
      RoomRecordIsPut(d);
    }
    forall m, a, b ensures PutRoomRecord(m, a + b) == PutRoomRecord(m, a) + b {
      RoomRecordAppends(m, a, b);
    }
  }

  // ---------------------------------------------------------------- RoomInfo and RoomList

  datatype RoomInfo = RoomInfo(
    id: Bytes,
    name: Bytes,
    typ: Bytes,
    maxPlayers: uint16,
    playerCount: uint16,
    isOpen: bool,
    mode: byte)

  /** Marshal writes the flag byte with its seven unused bits clear; Unmarshal ignores them. */
  function Record(m: RoomInfo): (r: RoomRecord) {
    RoomRecord(m.id, m.name, m.typ, m.maxPlayers, m.playerCount, if m.isOpen then 1 else 0, m.mode)
  }

  function ClearUnused(r: RoomRecord): (result: RoomRecord) {
    r.(flags := r.flags % 2)
  }

  function Info(r: RoomRecord): (result: RoomInfo) {
    RoomInfo(r.id, r.name, r.typ, r.maxPlayers, r.playerCount, r.flags % 2 == 1, r.mode)
  }

  predicate RoomInfoFits(m: RoomInfo) {
    RoomRecordFits(Record(m))
  }

  function PutRoomInfo(m: RoomInfo, rest: Bytes): (bytes: Bytes) {
    PutRoomRecord(Record(m), rest)
  }

  function GetRoomInfo(d: Bytes): (parsed: Parsed<RoomInfo>) {
    var (r, d) :- GetRoomRecord(d);
    Got(Info(r), d)
  }

  function RoomInfoFormat(): (format: Format<RoomInfo>) {
    Format(PutRoomInfo, GetRoomInfo, RoomInfoFits)
  }

  function PutRoomList(ms: seq<RoomInfo>, rest: Bytes): (bytes: Bytes) {
    PutList(RoomInfoFormat(), ms, rest)
  }

  function GetRoomList(d: Bytes): (parsed: Parsed<seq<RoomInfo>>) {
    GetList(RoomInfoFormat(), d)
  }

  predicate RoomListFits(ms: seq<RoomInfo>) {
    ListFits(RoomInfoFormat(), ms)
  }

  function RoomListFormat(): (format: Format<seq<RoomInfo>>) {
    Format(PutRoomList, GetRoomList, RoomListFits)
  }

  lemma InfoOfRecord(m: RoomInfo)
    ensures Info(Record(m)) == m
  {}

  lemma RecordOfInfo(r: RoomRecord)
    ensures Record(Info(r)) == ClearUnused(r)
    ensures Record(Info(r)) == r <==> r.flags < 2
  {}

  lemma RoomRecordPutInjective(r: RoomRecord, r': RoomRecord, rest: Bytes)
    requires RoomRecordFits(r) && RoomRecordFits(r') && PutRoomRecord(r, rest) == PutRoomRecord(r', rest)
    ensures r == r'
  {
    RoomRecordRoundTrip(r, rest);
    RoomRecordRoundTrip(r', rest);
  }

  lemma RoomInfoRestores()
    ensures Restores(RoomInfoFormat()) && Appends(RoomInfoFormat())
  {
    forall m, rest | RoomInfoFits(m) ensures GetRoomInfo(PutRoomInfo(m, rest)) == Got(m, rest) {
      RoomRecordRoundTrip(Record(m), rest);
      InfoOfRecord(m);
    }
    forall m, a, b ensures PutRoomInfo(m, a + b) == PutRoomInfo(m, a) + b {
      RoomRecordAppends(Record(m), a, b);
    }
  }

  lemma RoomListRestores()
    ensures Restores(RoomListFormat()) && Appends(RoomListFormat())
  {
    RoomInfoRestores();
    forall ms, rest | RoomListFits(ms) ensures GetRoomList(PutRoomList(ms, rest)) == Got(ms, rest) {
      ListRoundTrip(RoomInfoFormat(), ms, rest);
    }
    forall ms, a, b ensures PutRoomList(ms, a + b) == PutRoomList(ms, a) + b {
      ListAppends(RoomInfoFormat(), ms, a, b);
    }
  }

  /**
   Reading a room is reading its record. Writing it again gives back the bytes it was read from
   if and only if the seven unused bits were clear, and otherwise differs in that byte alone.
   */
  lemma RoomInfoUpToUnusedBits(d: Bytes)
    ensures GetRoomInfo(d).Got? <==> GetRoomRecord(d).Got?
    ensures GetRoomInfo(d).Got? ==>
              var Got(m, rest) := GetRoomInfo(d);
              var r := GetRoomRecord(d).value;
              && RoomInfoFits(m) && d == PutRoomRecord(r, rest)
              && PutRoomInfo(m, rest) == PutRoomRecord(ClearUnused(r), rest)
              && (PutRoomInfo(m, rest) == d <==> r.flags < 2)
  {
    if GetRoomRecord(d).Got? {
      var Got(r, rest) := GetRoomRecord(d);
      RoomRecordIsPut(d);
      RecordOfInfo(r);
      if PutRoomInfo(Info(r), rest) == d {
        RoomRecordPutInjective(Record(Info(r)), r, rest);
      }
    }
  }

  lemma RoomInfoIsARecord()
    ensures Through(RoomInfoFormat(), RoomRecordFormat(), Info, Record)
  {}

  /**
   A room list reads exactly when it starts with a list of records, as the rooms they stand for;
   writing it again writes the same records with their unused bits cleared.
   */
  lemma RoomListUpToUnusedBits(d: Bytes)
    ensures GetRoomList(d).Got? <==> GetList(RoomRecordFormat(), d).Got?
    ensures GetRoomList(d).Got? ==>
              var Got(ms, rest) := GetRoomList(d);
              var rs := GetList(RoomRecordFormat(), d).value;
              && ms == Map(rs, Info) && d == PutList(RoomRecordFormat(), rs, rest)
              && PutRoomList(ms, rest) == PutList(RoomRecordFormat(), Map(rs, ClearUnused), rest)
  {
    RoomInfoIsARecord();
    if GetU16(d).Got? {
      GetEachThrough(RoomInfoFormat(), RoomRecordFormat(), Info, Record, GetU16(d).value, GetU16(d).rest);
    }
    if GetRoomList(d).Got? {
      RoomRecordExact();
      ListIsPut(RoomRecordFormat(), d);
      var Got(ms, rest) := GetRoomList(d);
      var rs := GetList(RoomRecordFormat(), d).value;
      PutEachThrough(RoomInfoFormat(), RoomRecordFormat(), Info, Record, ms, rest);
      assert Map(ms, Record) == Map(rs, ClearUnused) by {
        forall i | 0 <= i < |rs| ensures Record(Info(rs[i])) == ClearUnused(rs[i]) {
          RecordOfInfo(rs[i]);
        }
      }
    }
  }

  // ---------------------------------------------------------------- the messages in a buffer

  lemma ClientMessageInContext(prefix: Bytes, m: ClientMessage, trailing: Bytes)
    requires ClientMessageFits(m)
    ensures GetClientMessage((prefix + PutClientMessage(m, []) + trailing)[|prefix|..]) == Got(m, trailing)
  {
    ClientMessageExact();
    RoundTripInContext(ClientMessageFormat(), prefix, m, trailing);
  }

  lemma ClientMessageReads(d: Bytes)
    ensures GetClientMessage(d).Got? <==> exists m :: ClientMessageFits(m) && PutClientMessage(m, []) <= d
    ensures var r := GetClientMessage(d); r.Got? ==> d == PutClientMessage(r.value, []) + r.rest
  {
    ClientMessageExact();
    ReadsExactlyTheEncodings(ClientMessageFormat(), d);
  }

  lemma ClientMessagePrefixFree(m: ClientMessage, m': ClientMessage)
    requires ClientMessageFits(m) && ClientMessageFits(m') && PutClientMessage(m, []) <= PutClientMessage(m', [])
    ensures m == m'
  {
    ClientMessageExact();
    PrefixFree(ClientMessageFormat(), m, m');
  }

  lemma ServerMessageInContext(prefix: Bytes, m: ServerMessage, trailing: Bytes)
    requires ServerMessageFits(m)
    ensures GetServerMessage((prefix + PutServerMessage(m, []) + trailing)[|prefix|..]) == Got(m, trailing)
  {
    ServerMessageExact();
    RoundTripInContext(ServerMessageFormat(), prefix, m, trailing);
  }

  lemma ServerMessageReads(d: Bytes)
    ensures GetServerMessage(d).Got? <==> exists m :: ServerMessageFits(m) && PutServerMessage(m, []) <= d
    ensures var r := GetServerMessage(d); r.Got? ==> d == PutServerMessage(r.value, []) + r.rest
  {
    ServerMessageExact();
    ReadsExactlyTheEncodings(ServerMessageFormat(), d);
  }

  lemma ServerMessagePrefixFree(m: ServerMessage, m': ServerMessage)
    requires ServerMessageFits(m) && ServerMessageFits(m') && PutServerMessage(m, []) <= PutServerMessage(m', [])
    ensures m == m'
  {
    ServerMessageExact();
    PrefixFree(ServerMessageFormat(), m, m');
  }

  lemma CreateRoomRequestInContext(prefix: Bytes, m: CreateRoomRequest, trailing: Bytes)
    requires CreateRoomRequestFits(m)
    ensures GetCreateRoomRequest((prefix + PutCreateRoomRequest(m, []) + trailing)[|prefix|..]) == Got(m, trailing)
  {
    CreateRoomRequestExact();
    RoundTripInContext(CreateRoomRequestFormat(), prefix, m, trailing);
  }

  lemma CreateRoomRequestReads(d: Bytes)
    ensures GetCreateRoomRequest(d).Got? <==> exists m :: CreateRoomRequestFits(m) && PutCreateRoomRequest(m, []) <= d
    ensures var r := GetCreateRoomRequest(d); r.Got? ==> d == PutCreateRoomRequest(r.value, []) + r.rest
  {
    CreateRoomRequestExact();
    ReadsExactlyTheEncodings(CreateRoomRequestFormat(), d);
  }

  lemma CreateRoomRequestPrefixFree(m: CreateRoomRequest, m': CreateRoomRequest)
    requires CreateRoomRequestFits(m) && CreateRoomRequestFits(m')
    requires PutCreateRoomRequest(m, []) <= PutCreateRoomRequest(m', [])
    ensures m == m'
  {
    CreateRoomRequestExact();
    PrefixFree(CreateRoomRequestFormat(), m, m');
  }

  lemma RoomListInContext(prefix: Bytes, ms: seq<RoomInfo>, trailing: Bytes)
    requires RoomListFits(ms)
    ensures GetRoomList((prefix + PutRoomList(ms, []) + trailing)[|prefix|..]) == Got(ms, trailing)
  {
    RoomListRestores();
    RoundTripInContext(RoomListFormat(), prefix, ms, trailing);
  }

  function PutRecordList(rs: seq<RoomRecord>, rest: Bytes): (d: Bytes) {
    PutList(RoomRecordFormat(), rs, rest)
  }

  function GetRecordList(d: Bytes): (r: Parsed<seq<RoomRecord>>) {
    GetList(RoomRecordFormat(), d)
  }

  predicate RecordListFits(rs: seq<RoomRecord>) {
    ListFits(RoomRecordFormat(), rs)
  }

  function RecordListFormat(): (f: Format<seq<RoomRecord>>) {
    Format(PutRecordList, GetRecordList, RecordListFits)
  }

  lemma RecordListExact()
    ensures Exact(RecordListFormat()) && Appends(RecordListFormat())
  {
    RoomRecordExact();
    forall rs, rest | RecordListFits(rs) ensures GetRecordList(PutRecordList(rs, rest)) == Got(rs, rest) {
      ListRoundTrip(RoomRecordFormat(), rs, rest);
    }
    forall d | GetRecordList(d).Got?
      ensures var Got(rs, rest) := GetRecordList(d); RecordListFits(rs) && d == PutRecordList(rs, rest)
    {
      ListIsPut(RoomRecordFormat(), d);
    }
    forall rs, a, b ensures PutRecordList(rs, a + b) == PutRecordList(rs, a) + b {
      ListAppends(RoomRecordFormat(), rs, a, b);
    }
  }

  /** A list reads exactly on the data that starts with a list of records, whatever their unused bits. */
  lemma RoomListReads(d: Bytes)
    ensures GetRoomList(d).Got? <==> exists rs :: RecordListFits(rs) && PutRecordList(rs, []) <= d
  {
    RecordListExact();
    ReadsExactlyTheEncodings(RecordListFormat(), d);
    assert GetRoomList(d).Got? <==> GetRecordList(d).Got? by {
      RoomListUpToUnusedBits(d);
    }
  }

  lemma RoomListPrefixFree(ms: seq<RoomInfo>, ms': seq<RoomInfo>)
    requires RoomListFits(ms) && RoomListFits(ms') && PutRoomList(ms, []) <= PutRoomList(ms', [])
    ensures ms == ms'
  {
    RoomListRestores();
    PrefixFree(RoomListFormat(), ms, ms');
  }

  // ---------------------------------------------------------------- lists, element by element

  /** What a list writes from each element on, after its length. */
  lemma OptionsInTurn(ms: seq<CreateOption>) returns (ts: seq<Bytes>)
    requires |ms| <= MAX_LENGTH
    ensures |ts| == |ms| + 1 && ts[|ms|] == []
    ensures forall k :: 0 <= k < |ms| ==> ts[k] == PutCreateOption(ms[k], ts[k + 1])
    ensures PutU16(|ms|, ts[0]) == PutList(CreateOptionFormat(), ms, [])
    ensures ListFits(CreateOptionFormat(), ms) <==> forall k :: 0 <= k < |ms| ==> CreateOptionFits(ms[k])
  {
    ts := WriteInTurn(CreateOptionFormat(), ms);
  }

  lemma RoomsInTurn(ms: seq<RoomInfo>) returns (ts: seq<Bytes>)
    requires |ms| <= MAX_LENGTH
    ensures |ts| == |ms| + 1 && ts[|ms|] == []
    ensures forall k :: 0 <= k < |ms| ==> ts[k] == PutRoomInfo(ms[k], ts[k + 1])
    ensures PutU16(|ms|, ts[0]) == PutRoomList(ms, [])
    ensures RoomListFits(ms) <==> forall k :: 0 <= k < |ms| ==> RoomInfoFits(ms[k])
  {
    ts := WriteInTurn(RoomInfoFormat(), ms);
  }

  // ---------------------------------------------------------------- minimum lengths

  lemma ClientMessageMinimum(d: Bytes)
    ensures GetClientMessage(d).Got? ==> |d| >= 13
  {
    if GetClientMessage(d).Got? {
      var d4 := GetU16(GetU32(GetU8(d).rest).rest).rest;
      assert |d| == 7 + |d4|;
    }
  }

  lemma ServerMessageMinimum(d: Bytes)
    ensures GetServerMessage(d).Got? ==> |d| >= 15
  {
    if GetServerMessage(d).Got? {
      var d5 := GetU16(GetU16(GetU32(GetU8(d).rest).rest).rest).rest;
      assert |d| == 9 + |d5|;
    }
  }

  lemma RoomInfoMinimum(d: Bytes)
    ensures GetRoomInfo(d).Got? ==> |d| >= 12
  {
    if GetRoomInfo(d).Got? {
      var d4 := GetStr(GetStr(GetStr(d).rest).rest).rest;
      assert |d| >= 6 + |d4|;
      var d7 := GetU8(GetU16(GetU16(d4).rest).rest).rest;
      assert |d4| == 5 + |d7|;
    }
  }

  lemma RequestMinimum(d: Bytes)
    ensures GetCreateRoomRequest(d).Got? ==> |d| >= 9
    ensures GetCreateOption(d).Got? ==> |d| >= 4
    ensures GetRoomList(d).Got? ==> |d| >= 2
  {}

  /** The length checks made before a message is read refuse nothing that could be read. */
  lemma MinimumLengths(d: Bytes)
    ensures GetClientMessage(d).Got? ==> |d| >= 13
    ensures GetServerMessage(d).Got? ==> |d| >= 15
    ensures GetCreateRoomRequest(d).Got? ==> |d| >= 9
    ensures GetCreateOption(d).Got? ==> |d| >= 4
    ensures GetRoomInfo(d).Got? ==> |d| >= 12
    ensures GetRoomList(d).Got? ==> |d| >= 2
  {
    ClientMessageMinimum(d);
    ServerMessageMinimum(d);
    RequestMinimum(d);
    RoomInfoMinimum(d);
  }
}
