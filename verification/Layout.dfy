/**
 Where each field of a message lies in its bytes, spelled out from the bytes of the integers up,
 apart from the functions that write and read them.
 */
module Layout {
  import opened Base
  import opened Wire
  import opened Messages

  /** A length, which fits in every message that is written. */
  function Length(n: nat): (b: Bytes)
    ensures |b| == 2 && (n <= 65535 ==> b[0] == n % 0x100 && b[1] == n / 0x100)
  {
    U16Bytes(Narrow(n));
    U16(Narrow(n))
  }

  /** A string or byte slice behind its length. */
  function Text(s: Bytes): (b: Bytes)
    ensures |b| == 2 + |s| && b[..2] == Length(|s|) && b[2..] == s
  {
    Length(|s|) + s
  }

  /** The elements of a list one after the other. */
  function Joined<T>(layout: T -> Bytes, xs: seq<T>): (b: Bytes) {
    if xs == [] then [] else layout(xs[0]) + Joined(layout, xs[1..])
  }

  lemma {:induction false} PutEachIsJoined<T(!new)>(f: Format<T>, layout: T -> Bytes, xs: seq<T>, rest: Bytes)
    requires forall x, d :: f.put(x, d) == layout(x) + d
    ensures PutEach(f, xs, rest) == Joined(layout, xs) + rest
  {
    if xs == [] {
      assert Joined(layout, xs) + rest == rest;
    } else {
      PutEachIsJoined(f, layout, xs[1..], rest);
      assert layout(xs[0]) + (Joined(layout, xs[1..]) + rest) == layout(xs[0]) + Joined(layout, xs[1..]) + rest;
    }
  }

  lemma PutStrIsText(s: Bytes, rest: Bytes)
    ensures PutStr(s, rest) == Text(s) + rest
  {
    Assoc(Length(|s|), s, rest);
  }

  lemma Assoc(a: Bytes, b: Bytes, c: Bytes)
    ensures a + (b + c) == a + b + c
  {}

  lemma Nest4(a: Bytes, b: Bytes, c: Bytes, d: Bytes, rest: Bytes)
    ensures a + (b + (c + (d + rest))) == a + b + c + d + rest
  {
    Assoc(a, b, c + (d + rest));
    Assoc(a + b, c, d + rest);
    Assoc(a + b + c, d, rest);
  }

  lemma Nest6(a: Bytes, b: Bytes, c: Bytes, d: Bytes, e: Bytes, f: Bytes, rest: Bytes)
    ensures a + (b + (c + (d + (e + (f + rest))))) == a + b + c + d + e + f + rest
  {
    Nest4(a, b, c, d, e + (f + rest));
    Assoc(a + b + c + d, e, f + rest);
    Assoc(a + b + c + d + e, f, rest);
  }

  lemma Nest7(a: Bytes, b: Bytes, c: Bytes, d: Bytes, e: Bytes, f: Bytes, g: Bytes, rest: Bytes)
    ensures a + (b + (c + (d + (e + (f + (g + rest)))))) == a + b + c + d + e + f + g + rest
  {
    Nest6(a, b, c, d, e, f, g + rest);
    Assoc(a + b + c + d + e + f, g, rest);
  }

  lemma TakenFromFront(d: Bytes, front: Bytes, n: nat)
    requires n <= |d| && d == front + d[n..]
    ensures d[..n] == front
  {
    assert |front| == n;
  }

  // ---------------------------------------------------------------- the messages

  lemma ClientMessageLayout(m: ClientMessage, rest: Bytes)
    ensures PutClientMessage(m, rest)
            == [m.typ] + U32(m.id) + U16(m.op) + Text(m.token) + Text(m.channel) + Text(m.payload) + rest
  {
    var d6 := PutStr(m.payload, rest);
    var d5 := PutStr(m.channel, d6);
    PutStrIsText(m.token, d5);
    PutStrIsText(m.channel, d6);
    PutStrIsText(m.payload, rest);
    Nest6([m.typ], U32(m.id), U16(m.op), Text(m.token), Text(m.channel), Text(m.payload), rest);
  }

  lemma ServerMessageLayout(m: ServerMessage, rest: Bytes)
    ensures PutServerMessage(m, rest)
            == [m.typ] + U32(m.id) + U16(m.code) + U16(m.op)
               + Text(m.channel) + Text(m.error) + Text(m.payload) + rest
  {
    var d7 := PutStr(m.payload, rest);
    var d6 := PutStr(m.error, d7);
    PutStrIsText(m.channel, d6);
    PutStrIsText(m.error, d7);
    PutStrIsText(m.payload, rest);
    Nest7([m.typ], U32(m.id), U16(m.code), U16(m.op), Text(m.channel), Text(m.error), Text(m.payload), rest);
  }

  function OptionBytes(m: CreateOption): (b: Bytes)
  {
    Text(m.key) + Text(m.value)
  }

  lemma CreateOptionLayout(m: CreateOption, rest: Bytes)
    ensures PutCreateOption(m, rest) == Text(m.key) + Text(m.value) + rest
  {
    PutStrIsText(m.key, PutStr(m.value, rest));
    PutStrIsText(m.value, rest);
    Assoc(Text(m.key), Text(m.value), rest);
  }

  lemma OptionFormatLayout()
    ensures forall m, d :: CreateOptionFormat().put(m, d) == OptionBytes(m) + d
  {
    forall m, d ensures CreateOptionFormat().put(m, d) == OptionBytes(m) + d {
      CreateOptionLayout(m, d);
    }
  }

  lemma OptionsLayout(ms: seq<CreateOption>, rest: Bytes)
    ensures PutList(CreateOptionFormat(), ms, rest) == Length(|ms|) + Joined(OptionBytes, ms) + rest
  {
    OptionFormatLayout();
    PutEachIsJoined(CreateOptionFormat(), OptionBytes, ms, rest);
    Assoc(Length(|ms|), Joined(OptionBytes, ms), rest);
  }

  lemma CreateRoomRequestLayout(m: CreateRoomRequest, rest: Bytes)
    ensures PutCreateRoomRequest(m, rest)
            == Text(m.name) + Text(m.typ) + U16(m.maxPlayers) + [m.mode]
               + Length(|m.options|) + Joined(OptionBytes, m.options) + rest
  {
    var d5 := PutList(CreateOptionFormat(), m.options, rest);
    var d3 := PutU16(m.maxPlayers, PutU8(m.mode, d5));
    OptionsLayout(m.options, rest);
    PutStrIsText(m.name, PutStr(m.typ, d3));
    PutStrIsText(m.typ, d3);
    var options := Joined(OptionBytes, m.options);
    Nest4(Text(m.name), Text(m.typ), U16(m.maxPlayers), [m.mode], Length(|m.options|) + options + rest);
    var front := Text(m.name) + Text(m.typ) + U16(m.maxPlayers) + [m.mode];
    Assoc(front, Length(|m.options|) + options, rest);
    Assoc(front, Length(|m.options|), options);
  }

  /** A room on the wire; the flag byte is its own, with the open flag in the low bit. */
  function RecordBytes(m: RoomRecord): (b: Bytes)
  {
    Text(m.id) + Text(m.name) + Text(m.typ) + U16(m.maxPlayers) + U16(m.playerCount) + [m.flags] + [m.mode]
  }

  function RoomBytes(m: RoomInfo): (b: Bytes)
  {
    Text(m.id) + Text(m.name) + Text(m.typ) + U16(m.maxPlayers) + U16(m.playerCount)
    + [if m.isOpen then 1 else 0] + [m.mode]
  }

  lemma RoomRecordLayout(m: RoomRecord, rest: Bytes)
    ensures PutRoomRecord(m, rest) == RecordBytes(m) + rest
  {
    var d4 := PutU16(m.maxPlayers, PutU16(m.playerCount, PutU8(m.flags, PutU8(m.mode, rest))));
    var d3 := PutStr(m.typ, d4);
    PutStrIsText(m.id, PutStr(m.name, d3));
    PutStrIsText(m.name, d3);
    PutStrIsText(m.typ, d4);
    Nest7(
      Text(m.id), Text(m.name), Text(m.typ), U16(m.maxPlayers), U16(m.playerCount), [m.flags], [m.mode], rest);
  }

  lemma RoomFormatLayout()
    ensures forall m, d :: RoomInfoFormat().put(m, d) == RoomBytes(m) + d
  {
    forall m, d ensures RoomInfoFormat().put(m, d) == RoomBytes(m) + d {
      RoomRecordLayout(Record(m), d);
    }
  }

  lemma RoomListLayout(ms: seq<RoomInfo>, rest: Bytes)
    ensures PutRoomList(ms, rest) == Length(|ms|) + Joined(RoomBytes, ms) + rest
  {
    RoomFormatLayout();
    PutEachIsJoined(RoomInfoFormat(), RoomBytes, ms, rest);
    Assoc(Length(|ms|), Joined(RoomBytes, ms), rest);
  }

  lemma RecordFormatLayout()
    ensures forall m, d :: RoomRecordFormat().put(m, d) == RecordBytes(m) + d
  {
    forall m, d ensures RoomRecordFormat().put(m, d) == RecordBytes(m) + d {
      RoomRecordLayout(m, d);
    }
  }

  lemma RecordsLayout(rs: seq<RoomRecord>, rest: Bytes)
    ensures PutRecordList(rs, rest) == Length(|rs|) + Joined(RecordBytes, rs) + rest
  {
    RecordFormatLayout();
    PutEachIsJoined(RoomRecordFormat(), RecordBytes, rs, rest);
    Assoc(Length(|rs|), Joined(RecordBytes, rs), rest);
  }

  /** The room is the record's, open exactly when the flag byte is odd. */
  predicate Shows(m: RoomInfo, r: RoomRecord) {
    && m.id == r.id && m.name == r.name && m.typ == r.typ && m.mode == r.mode
    && m.maxPlayers == r.maxPlayers && m.playerCount == r.playerCount
    && (m.isOpen <==> r.flags % 2 == 1)
  }

  lemma InfoShows(rs: seq<RoomRecord>)
    ensures forall i :: 0 <= i < |rs| ==> Shows(Map(rs, Info)[i], rs[i])
  {
    forall i | 0 <= i < |rs| ensures Shows(Map(rs, Info)[i], rs[i]) {
      assert Map(rs, Info)[i] == Info(rs[i]);
    }
  }

  lemma RoomListIsOfRecords(d: Bytes)
    requires GetRoomList(d).Got?
    ensures GetRecordList(d).Got? && GetRoomList(d).value == Map(GetRecordList(d).value, Info)
    ensures d == PutRecordList(GetRecordList(d).value, GetRoomList(d).rest)
  {
    RoomListUpToUnusedBits(d);
  }

  /** What a room list was read from. */
  lemma RoomListReadLayout(d: Bytes) returns (rs: seq<RoomRecord>)
    requires GetRoomList(d).Got?
    ensures |rs| == |GetRoomList(d).value| && forall i :: 0 <= i < |rs| ==> Shows(GetRoomList(d).value[i], rs[i])
    ensures d == Length(|rs|) + Joined(RecordBytes, rs) + GetRoomList(d).rest
  {
    RoomListIsOfRecords(d);
    rs := GetRecordList(d).value;
    InfoShows(rs);
    RecordsLayout(rs, GetRoomList(d).rest);
  }

  // ---------------------------------------------------------------- the bytes a message was read from

  lemma ClientMessageReadLayout(d: Bytes, m: ClientMessage, n: nat)
    requires n <= |d| && GetClientMessage(d) == Got(m, d[n..])
    ensures d[..n] == [m.typ] + U32(m.id) + U16(m.op) + Text(m.token) + Text(m.channel) + Text(m.payload)
  {
    ClientMessageIsPut(d);
    ClientMessageLayout(m, d[n..]);
    TakenFromFront(d, [m.typ] + U32(m.id) + U16(m.op) + Text(m.token) + Text(m.channel) + Text(m.payload), n);
  }

  lemma ServerMessageReadLayout(d: Bytes, m: ServerMessage, n: nat)
    requires n <= |d| && GetServerMessage(d) == Got(m, d[n..])
    ensures d[..n]
            == [m.typ] + U32(m.id) + U16(m.code) + U16(m.op) + Text(m.channel) + Text(m.error) + Text(m.payload)
  {
    ServerMessageIsPut(d);
    ServerMessageLayout(m, d[n..]);
    TakenFromFront(
      d, [m.typ] + U32(m.id) + U16(m.code) + U16(m.op) + Text(m.channel) + Text(m.error) + Text(m.payload), n);
  }

  lemma CreateRoomRequestReadLayout(d: Bytes, m: CreateRoomRequest, n: nat)
    requires n <= |d| && GetCreateRoomRequest(d) == Got(m, d[n..])
    ensures d[..n]
            == Text(m.name) + Text(m.typ) + U16(m.maxPlayers) + [m.mode]
               + Length(|m.options|) + Joined(OptionBytes, m.options)
  {
    CreateRoomRequestIsPut(d);
    CreateRoomRequestLayout(m, d[n..]);
    TakenFromFront(
      d,
      Text(m.name) + Text(m.typ) + U16(m.maxPlayers) + [m.mode] + Length(|m.options|) + Joined(OptionBytes, m.options),
      n);
  }

  /** The list is that of the rooms of these records. */
  ghost predicate ReadFrom(ms: seq<RoomInfo>, rs: seq<RoomRecord>, d: Bytes) {
    && |rs| == |ms| && (forall i :: 0 <= i < |ms| ==> Shows(ms[i], rs[i]))
    && d == Length(|rs|) + Joined(RecordBytes, rs)
  }

  lemma RoomListReadAt(d: Bytes, ms: seq<RoomInfo>, n: nat)
    requires n <= |d| && GetRoomList(d) == Got(ms, d[n..])
    ensures exists rs :: ReadFrom(ms, rs, d[..n])
  {
    var rs := RoomListReadLayout(d);
    TakenFromFront(d, Length(|rs|) + Joined(RecordBytes, rs), n);
    assert ReadFrom(ms, rs, d[..n]);
  }
}
