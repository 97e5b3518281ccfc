/**
 The generated codec as it runs: Marshal appends to a buffer, Unmarshal advances an offset and
 overwrites a receiver that may hold an older message, reusing its strings and slices. A slice is
 a backing array, as long as its capacity, and a length.
 */
module Codec {
  import opened Base
  import opened Wire
  import opened Layout
  import M = Messages

  // ---------------------------------------------------------------- appending

  lemma Assoc(a: Bytes, b: Bytes, c: Bytes)
    ensures a + b + c == a + (b + c)
  {}

  /** None stands for the panic on a length that does not fit. */
  method EnsureUint16Length(length: nat) returns (r: Option<uint16>)
    ensures r == if length <= 65535 then Some(length) else None
  {
    if length > 65535 {
      return None;
    }
    return Some(Narrow(length));
  }

  /** In each of these, rest is whatever is appended afterwards. */
  method AppendUint16(buf: Bytes, x: uint16, ghost rest: Bytes) returns (out: Bytes)
    ensures out + rest == buf + PutU16(x, rest)
  {
    out := buf + U16(x);
    Assoc(buf, U16(x), rest);
  }

  method AppendUint32(buf: Bytes, x: uint32, ghost rest: Bytes) returns (out: Bytes)
    ensures out + rest == buf + PutU32(x, rest)
  {
    out := buf + U32(x);
    Assoc(buf, U32(x), rest);
  }

  method AppendUint8(buf: Bytes, x: byte, ghost rest: Bytes) returns (out: Bytes)
    ensures out + rest == buf + PutU8(x, rest)
  {
    out := buf + [x];
    Assoc(buf, [x], rest);
  }

  method AppendString(buf: Bytes, s: Bytes, ghost rest: Bytes) returns (out: Option<Bytes>)
    ensures out.Some? <==> M.Short(s)
    ensures out.Some? ==> out.value + rest == buf + PutStr(s, rest)
  {
    var n := EnsureUint16Length(|s|);
    if n.None? {
      return None;
    }
    var b := AppendUint16(buf, n.value, s + rest);
    Assoc(b, s, rest);
    out := Some(b + s);
  }

  /** A byte slice is appended element by element. */
  method AppendPayload(buf: Bytes, payload: array<byte>, n: nat, ghost rest: Bytes) returns (out: Option<Bytes>)
    requires n <= payload.Length
    ensures out.Some? <==> M.Short(payload[..n])
    ensures out.Some? ==> out.value + rest == buf + PutStr(payload[..n], rest)
  {
    var l := EnsureUint16Length(n);
    if l.None? {
      return None;
    }
    var b := AppendUint16(buf, l.value, payload[..n] + rest);
    ghost var b0 := b;
    for i := 0 to n
      invariant b == b0 + payload[..i]
    {
      b := b + [payload[i]];
      Assoc(b0, payload[..i], [payload[i]]);
      assert payload[..i + 1] == payload[..i] + [payload[i]];
    }
    Assoc(b0, payload[..n], rest);
    out := Some(b);
  }

  // ---------------------------------------------------------------- taking

  method StringEqualBytes(s: Bytes, data: Bytes) returns (eq: bool)
    ensures eq <==> s == data
  {
    if |s| != |data| {
      return false;
    }
    for i := 0 to |s|
      invariant s[..i] == data[..i]
    {
      if s[i] != data[i] {
        return false;
      }
    }
    return true;
  }

  /** Each Take reads at an offset; next is the offset after it, or none if the data is too short. */
  method TakeUint8(data: Bytes, offset: nat) returns (x: byte, next: Option<nat>)
    requires offset <= |data|
    ensures next.Some? <==> |data| >= offset + 1
    ensures next.Some? ==> next.value == offset + 1 && GetU8(data[offset..]) == Got(x, data[next.value..])
    ensures next.Some? ==> x == data[offset]
  {
    if |data| < offset + 1 {
      return 0, None;
    }
    return data[offset], Some(offset + 1);
  }

  method TakeUint16(data: Bytes, offset: nat) returns (x: uint16, next: Option<nat>)
    requires offset <= |data|
    ensures next.Some? <==> |data| >= offset + 2
    ensures next.Some? ==> next.value == offset + 2 && GetU16(data[offset..]) == Got(x, data[next.value..])
    ensures next.Some? ==> x % 0x100 == data[offset] && x / 0x100 == data[offset + 1]
  {
    if |data| < offset + 2 {
      return 0, None;
    }
    return ValueOfU16(data[offset], data[offset + 1]), Some(offset + 2);
  }

  method TakeUint32(data: Bytes, offset: nat) returns (x: uint32, next: Option<nat>)
    requires offset <= |data|
    ensures next.Some? <==> |data| >= offset + 4
    ensures next.Some? ==> next.value == offset + 4 && GetU32(data[offset..]) == Got(x, data[next.value..])
    ensures next.Some? ==>
              && x % 0x100 == data[offset] && x / 0x100 % 0x100 == data[offset + 1]
              && x / 0x1_0000 % 0x100 == data[offset + 2] && x / 0x100_0000 == data[offset + 3]
  {
    if |data| < offset + 4 {
      return 0, None;
    }
    var b0: int, b1: int, b2: int, b3: int := data[offset], data[offset + 1], data[offset + 2], data[offset + 3];
    x := b0 + 0x100 * b1 + 0x1_0000 * b2 + 0x100_0000 * b3;
    next := Some(offset + 4);
    assert data[offset..][2..][2..] == data[offset + 4..];
  }

  /** prev is the receiver's string, kept when it has the same bytes. */
  method TakeString(prev: Bytes, data: Bytes, offset: nat) returns (s: Bytes, next: Option<nat>)
    requires offset <= |data|
    ensures next.Some? <==> GetStr(data[offset..]).Got?
    ensures next.Some? ==> next.value <= |data| && GetStr(data[offset..]) == Got(s, data[next.value..])
    ensures next.None? ==> s == prev
  {
    var n, after := TakeUint16(data, offset);
    if after.None? || |data| < after.value + n {
      return prev, None;
    }
    var start := after.value;
    var bytes := data[start..start + n];
    var same := StringEqualBytes(prev, bytes);
    s, next := if same then prev else bytes, Some(start + n);
    assert data[start..][..n] == bytes && data[start..][n..] == data[start + n..];
  }

  /** Two strings in a row, as every message but the room list has them. */
  method TakeStrings(prev1: Bytes, prev2: Bytes, data: Bytes, offset: nat)
    returns (s1: Bytes, s2: Bytes, next: Option<nat>, ghost between: Bytes)
    requires offset <= |data|
    ensures next.Some? <==> GetStr(data[offset..]).Got? && GetStr(GetStr(data[offset..]).rest).Got?
    ensures next.Some? ==> next.value <= |data|
    ensures next.Some? ==> GetStr(data[offset..]) == Got(s1, between) && GetStr(between) == Got(s2, data[next.value..])
  {
    s2, between := prev2, [];
    s1, next := TakeString(prev1, data, offset);
    if next.Some? {
      between := data[next.value..];
      s2, next := TakeString(prev2, data, next.value);
    }
  }

  /** The receiver's backing array is kept when it is large enough, whatever it holds. */
  method TakePayload(prev: array<byte>, prevLen: nat, data: Bytes, offset: nat)
    returns (payload: array<byte>, n: nat, next: Option<nat>)
    requires offset <= |data| && prevLen <= prev.Length
    modifies prev
    ensures n <= payload.Length && (payload == prev || fresh(payload))
    ensures next.Some? <==> GetStr(data[offset..]).Got?
    ensures next.Some? ==> next.value <= |data| && GetStr(data[offset..]) == Got(payload[..n], data[next.value..])
    ensures next.Some? && n <= prev.Length ==> payload == prev
  {
    var l, after := TakeUint16(data, offset);
    if after.None? {
      return prev, prevLen, None;
    }
    n := l;
    if prev.Length < n {
      payload := new byte[n](_ => 0);
    } else {
      payload := prev;
    }
    var o := after.value;
    ghost var start := o;
    if o > |data| || n > |data| - o {
      return payload, n, None;
    }
    for i := 0 to n
      invariant o == start + i
      invariant payload[..i] == data[start..o]
    {
      ghost var before := payload[..i];
      payload[i] := data[o];
      o := o + 1;
      assert payload[..i + 1] == before + [data[o - 1]] && data[start..o] == data[start..o - 1] + [data[o - 1]];
    }
    next := Some(o);
    assert data[start..][..n] == payload[..n] && data[start..][n..] == data[o..];
  }

  /** How both messages end: two strings and the payload. What was read before an error stays read. */
  method TakeTail(prev1: Bytes, prev2: Bytes, prev3: array<byte>, prevLen: nat, data: Bytes, offset: nat)
    returns (s1: Bytes, s2: Bytes, payload: array<byte>, n: nat, next: Option<nat>)
    requires offset <= |data| && prevLen <= prev3.Length
    modifies prev3
    ensures n <= payload.Length && (payload == prev3 || fresh(payload))
    ensures next.Some? <==> M.GetTail(data[offset..]).Got?
    ensures next.Some? ==> next.value <= |data|
    ensures next.Some? ==> M.GetTail(data[offset..]) == Got(M.Tail(s1, s2, payload[..n]), data[next.value..])
  {
    payload, n := prev3, prevLen;
    ghost var d1;
    s1, s2, next, d1 := TakeStrings(prev1, prev2, data, offset);
    if next.Some? {
      payload, n, next := TakePayload(prev3, prevLen, data, next.value);
    }
  }

  // ---------------------------------------------------------------- ClientMessage

  class ClientMessage {
    var typ: byte
    var id: uint32
    var op: uint16
    var token: Bytes
    var channel: Bytes
    var payload: array<byte>
    var payloadLen: nat

    ghost predicate Valid()
      reads this
    {
      payloadLen <= payload.Length
    }

    ghost function View(): (r: M.ClientMessage)
      requires Valid()
      reads this, payload
    {
      M.ClientMessage(typ, id, op, token, channel, payload[..payloadLen])
    }

    /** The zero receiver. */
    constructor ()
      ensures Valid() && fresh(payload) && View() == M.ClientMessage(0, 0, 0, [], [], [])
    {
      typ, id, op, token, channel := 0, 0, 0, [], [];
      payload := new byte[0];
      payloadLen := 0;
    }

    method Marshal(buf: Bytes) returns (out: Option<Bytes>)
      requires Valid()
      ensures out == if M.ClientMessageFits(View()) then Some(buf + Encode(M.ClientMessageFormat(), View())) else None
      ensures out.Some? ==>
                out.value
                == buf + ([typ] + U32(id) + U16(op) + Text(token) + Text(channel) + Text(payload[..payloadLen]))
    {
      ClientMessageLayout(View(), []);
      ghost var t6 := PutStr(payload[..payloadLen], []);
      ghost var t5 := PutStr(channel, t6);
      ghost var t4 := PutStr(token, t5);
      ghost var t3 := PutU16(op, t4);
      var b := AppendUint8(buf, typ, PutU32(id, t3));
      b := AppendUint32(b, id, t3);
      b := AppendUint16(b, op, t4);
      var r := AppendString(b, token, t5);
      if r.None? {
        return None;
      }
      r := AppendString(r.value, channel, t6);
      if r.None? {
        return None;
      }
      out := AppendPayload(r.value, payload, payloadLen, []);
      if out.Some? {
        assert out.value == out.value + [];
      }
    }

    /** The fixed fields at the front, within the minimum length. */
    method UnmarshalHeader(data: Bytes) returns (next: nat)
      requires |data| >= 13
      modifies `typ, `id, `op
      ensures next <= |data|
      ensures M.GetClientMessage(data) == M.ClientMessageWith(typ, id, op, M.GetTail(data[next..]))
    {
      assert data[0..] == data;
      var o1, o2, o3;
      typ, o1 := TakeUint8(data, 0);
      id, o2 := TakeUint32(data, o1.value);
      op, o3 := TakeUint16(data, o2.value);
      next := o3.value;
      M.ClientMessageHeader(data, typ, data[o1.value..], id, data[o2.value..], op, data[next..]);
    }

    /**
     The value and the length are those of the message the data starts with, whatever the receiver
     held before; the data is refused exactly when it starts with none.
     */
    method Unmarshal(data: Bytes) returns (n: Option<nat>)
      requires Valid()
      modifies this, payload
      ensures Valid() && (payload == old(payload) || fresh(payload))
      ensures n.Some? <==> M.GetClientMessage(data).Got?
      ensures n.Some? ==> n.value <= |data| && M.GetClientMessage(data) == Got(View(), data[n.value..])
      ensures n.Some? ==>
                data[..n.value]
                == [typ] + U32(id) + U16(op) + Text(token) + Text(channel) + Text(payload[..payloadLen])
    {
      if |data| < 13 {
        M.ClientMessageMinimum(data);
        return None;
      }
      var start := UnmarshalHeader(data);
      token, channel, payload, payloadLen, n := TakeTail(token, channel, payload, payloadLen, data, start);
      if n.Some? {
        ClientMessageReadLayout(data, View(), n.value);
      }
    }
  }

  // ---------------------------------------------------------------- ServerMessage

  class ServerMessage {
    var typ: byte
    var id: uint32
    var code: uint16
    var op: uint16
    var channel: Bytes
    var error: Bytes
    var payload: array<byte>
    var payloadLen: nat

    ghost predicate Valid()
      reads this
    {
      payloadLen <= payload.Length
    }

    ghost function View(): (r: M.ServerMessage)
      requires Valid()
      reads this, payload
    {
      M.ServerMessage(typ, id, code, op, channel, error, payload[..payloadLen])
    }

    constructor ()
      ensures Valid() && fresh(payload) && View() == M.ServerMessage(0, 0, 0, 0, [], [], [])
    {
      typ, id, code, op, channel, error := 0, 0, 0, 0, [], [];
      payload := new byte[0];
      payloadLen := 0;
    }

    method Marshal(buf: Bytes) returns (out: Option<Bytes>)
      requires Valid()
      ensures out == if M.ServerMessageFits(View()) then Some(buf + Encode(M.ServerMessageFormat(), View())) else None
      ensures out.Some? ==>
                out.value
                == buf + ([typ] + U32(id) + U16(code) + U16(op)
                          + Text(channel) + Text(error) + Text(payload[..payloadLen]))
    {
      ServerMessageLayout(View(), []);
      ghost var t7 := PutStr(payload[..payloadLen], []);
      ghost var t6 := PutStr(error, t7);
      ghost var t5 := PutStr(channel, t6);
      ghost var t4 := PutU16(op, t5);
      ghost var t3 := PutU16(code, t4);
      var b := AppendUint8(buf, typ, PutU32(id, t3));
      b := AppendUint32(b, id, t3);
      b := AppendUint16(b, code, t4);
      b := AppendUint16(b, op, t5);
      var r := AppendString(b, channel, t6);
      if r.None? {
        return None;
      }
      r := AppendString(r.value, error, t7);
      if r.None? {
        return None;
      }
      out := AppendPayload(r.value, payload, payloadLen, []);
      if out.Some? {
        assert out.value == out.value + [];
      }
    }

    /** The fixed fields at the front, within the minimum length. */
    method UnmarshalHeader(data: Bytes) returns (next: nat)
      requires |data| >= 15
      modifies `typ, `id, `code, `op
      ensures next <= |data|
      ensures M.GetServerMessage(data) == M.ServerMessageWith(typ, id, code, op, M.GetTail(data[next..]))
    {
      assert data[0..] == data;
      var o1, o2, o3, o4;
      typ, o1 := TakeUint8(data, 0);
      id, o2 := TakeUint32(data, o1.value);
      code, o3 := TakeUint16(data, o2.value);
      op, o4 := TakeUint16(data, o3.value);
      next := o4.value;
      M.ServerMessageHeader(
        data, typ, data[o1.value..], id, data[o2.value..], code, data[o3.value..], op, data[next..]);
    }

    method Unmarshal(data: Bytes) returns (n: Option<nat>)
      requires Valid()
      modifies this, payload
      ensures Valid() && (payload == old(payload) || fresh(payload))
      ensures n.Some? <==> M.GetServerMessage(data).Got?
      ensures n.Some? ==> n.value <= |data| && M.GetServerMessage(data) == Got(View(), data[n.value..])
      ensures n.Some? ==>
                data[..n.value]
                == [typ] + U32(id) + U16(code) + U16(op) + Text(channel) + Text(error) + Text(payload[..payloadLen])
    {
      if |data| < 15 {
        M.ServerMessageMinimum(data);
        return None;
      }
      var start := UnmarshalHeader(data);
      channel, error, payload, payloadLen, n := TakeTail(channel, error, payload, payloadLen, data, start);
      if n.Some? {
        ServerMessageReadLayout(data, View(), n.value);
      }
    }
  }

  // ---------------------------------------------------------------- elements of lists

  /** The elements of a list are stored in its array by value; slot is what the element held before. */
  method MarshalOption(m: M.CreateOption, buf: Bytes, ghost rest: Bytes) returns (out: Option<Bytes>)
    ensures out.Some? <==> M.CreateOptionFits(m)
    ensures out.Some? ==> out.value + rest == buf + M.PutCreateOption(m, rest)
  {
    out := AppendString(buf, m.key, PutStr(m.value, rest));
    if out.Some? {
      out := AppendString(out.value, m.value, rest);
    }
  }

  method UnmarshalOption(slot: M.CreateOption, data: Bytes, start: nat) returns (m: M.CreateOption, next: Option<nat>)
    requires start <= |data|
    ensures next.Some? <==> M.GetCreateOption(data[start..]).Got?
    ensures next.Some? ==> next.value <= |data| && M.GetCreateOption(data[start..]) == Got(m, data[next.value..])
  {
    m := slot;
    M.RequestMinimum(data[start..]);
    if |data| - start < 4 {
      return m, None;
    }
    var s: Bytes;
    s, next := TakeString(m.key, data, start);
    m := m.(key := s);
    if next.Some? {
      s, next := TakeString(m.value, data, next.value);
      m := m.(value := s);
    }
  }

  method MarshalRoom(m: M.RoomInfo, buf: Bytes, ghost rest: Bytes) returns (out: Option<Bytes>)
    ensures out.Some? <==> M.RoomInfoFits(m)
    ensures out.Some? ==> out.value + rest == buf + M.PutRoomInfo(m, rest)
  {
    var flags: byte := if m.isOpen then 1 else 0;
    ghost var t7 := PutU8(m.mode, rest);
    ghost var t6 := PutU8(flags, t7);
    ghost var t5 := PutU16(m.playerCount, t6);
    ghost var t4 := PutU16(m.maxPlayers, t5);
    ghost var t3 := PutStr(m.typ, t4);
    var r := AppendString(buf, m.id, PutStr(m.name, t3));
    if r.None? {
      return None;
    }
    r := AppendString(r.value, m.name, t3);
    if r.None? {
      return None;
    }
    r := AppendString(r.value, m.typ, t4);
    if r.None? {
      return None;
    }
    var b := AppendUint16(r.value, m.maxPlayers, t5);
    b := AppendUint16(b, m.playerCount, t6);
    b := AppendUint8(b, flags, t7);
    b := AppendUint8(b, m.mode, rest);
    out := Some(b);
  }

  /** The three strings of a room, taken in turn. */
  method UnmarshalRoom(slot: M.RoomInfo, data: Bytes, start: nat) returns (m: M.RoomInfo, next: Option<nat>)
    requires start <= |data|
    ensures next.Some? <==> M.GetRoomInfo(data[start..]).Got?
    ensures next.Some? ==> next.value <= |data| && M.GetRoomInfo(data[start..]) == Got(m, data[next.value..])
  {
    m := slot;
    M.RoomInfoMinimum(data[start..]);
    if |data| - start < 12 {
      return m, None;
    }
    var s: Bytes;
    s, next := TakeString(m.id, data, start);
    if next.None? {
      return;
    }
    m := m.(id := s);
    s, next := TakeString(m.name, data, next.value);
    if next.None? {
      return;
    }
    m := m.(name := s);
    s, next := TakeString(m.typ, data, next.value);
    if next.None? {
      return;
    }
    m := m.(typ := s);
    var x: uint16, b: byte;
    x, next := TakeUint16(data, next.value);
    if next.None? {
      return;
    }
    m := m.(maxPlayers := x);
    x, next := TakeUint16(data, next.value);
    if next.None? {
      return;
    }
    m := m.(playerCount := x);
    b, next := TakeUint8(data, next.value);
    if next.None? {
      return;
    }
    m := m.(isOpen := b % 2 == 1);
    b, next := TakeUint8(data, next.value);
    if next.None? {
      return;
    }
    m := m.(mode := b);
  }

  /** A slice for n elements: the receiver's array if it is large enough, with the part past n cleared. */
  method Resize<T>(slice: array<T>, n: nat, zero: T) returns (out: array<T>)
    modifies slice
    ensures if slice.Length < n then fresh(out) && out.Length == n else out == slice
    ensures forall i :: n <= i < out.Length ==> out[i] == zero
    ensures slice.Length >= n ==> out[..n] == old(slice[..n])
  {
    if slice.Length < n {
      out := new T[n](_ => zero);
    } else {
      out := slice;
      for i := n to out.Length
        invariant forall j :: n <= j < i ==> out[j] == zero
        invariant out[..n] == old(slice[..n])
      {
        out[i] := zero;
      }
    }
  }

  // ---------------------------------------------------------------- CreateRoomRequest

  const NO_OPTION: M.CreateOption := M.CreateOption([], [])

  /** The elements read so far, each from where the one before it ended. */
  ghost predicate OptionsRead(ms: seq<M.CreateOption>, ds: seq<Bytes>) {
    |ds| == |ms| + 1 && forall k :: 0 <= k < |ms| ==> M.GetCreateOption(ds[k]) == Got(ms[k], ds[k + 1])
  }

  /** The slots of a list of options, overwritten one by one. */
  method FillOptions(slots: array<M.CreateOption>, n: nat, data: Bytes, start: nat)
    returns (next: Option<nat>, ghost done: nat, ghost ds: seq<Bytes>)
    requires start <= |data| && n <= slots.Length
    modifies slots
    ensures slots[n..] == old(slots[n..])
    ensures done <= n && OptionsRead(slots[..done], ds) && ds[0] == data[start..]
    ensures next.None? ==> done < n && M.GetCreateOption(ds[done]).Bad?
    ensures next.Some? ==> done == n && next.value <= |data| && ds[n] == data[next.value..]
  {
    var offset: nat := start;
    ds, done := [data[start..]], 0;
    for i := 0 to n
      invariant done == i && offset <= |data| && slots[n..] == old(slots[n..])
      invariant OptionsRead(slots[..i], ds) && ds[0] == data[start..] && ds[i] == data[offset..]
    {
      ghost var before := slots[..i];
      var m, after := UnmarshalOption(slots[i], data, offset);
      if after.None? {
        return None, i, ds;
      }
      slots[i], offset := m, after.value;
      assert slots[..i + 1] == before + [m];
      ds, done := ds + [data[offset..]], i + 1;
    }
    next := Some(offset);
  }

  /** The list of options: its slots are the receiver's if it has enough, those left over cleared. */
  method TakeOptions(prev: array<M.CreateOption>, prevLen: nat, data: Bytes, offset: nat)
    returns (slots: array<M.CreateOption>, n: nat, next: Option<nat>)
    requires offset <= |data| && prevLen <= prev.Length
    modifies prev
    ensures n <= slots.Length && (slots == prev || fresh(slots))
    ensures next.Some? <==> GetList(M.CreateOptionFormat(), data[offset..]).Got?
    ensures next.Some? ==> next.value <= |data|
    ensures next.Some? ==> GetList(M.CreateOptionFormat(), data[offset..]) == Got(slots[..n], data[next.value..])
    ensures next.Some? ==> forall i :: n <= i < slots.Length ==> slots[i] == NO_OPTION
  {
    var l, after := TakeUint16(data, offset);
    if after.None? {
      return prev, prevLen, None;
    }
    n := l;
    slots := Resize(prev, n, NO_OPTION);
    ghost var tail := slots[n..];
    ghost var done, ds;
    next, done, ds := FillOptions(slots, n, data, after.value);
    assert forall i :: n <= i < slots.Length ==> slots[i] == slots[n..][i - n] == tail[i - n];
    ReadInTurn(M.CreateOptionFormat(), slots[..done], ds, n);
  }

  class CreateRoomRequest {
    var name: Bytes
    var typ: Bytes
    var maxPlayers: uint16
    var mode: byte
    var options: array<M.CreateOption>
    var optionsLen: nat

    ghost predicate Valid()
      reads this
    {
      optionsLen <= options.Length
    }

    ghost function View(): (r: M.CreateRoomRequest)
      requires Valid()
      reads this, options
    {
      M.CreateRoomRequest(name, typ, maxPlayers, mode, options[..optionsLen])
    }

    constructor ()
      ensures Valid() && fresh(options) && View() == M.CreateRoomRequest([], [], 0, 0, [])
    {
      name, typ, maxPlayers, mode := [], [], 0, 0;
      options := new M.CreateOption[0];
      optionsLen := 0;
    }

    /** The options one after the other; ts is what is written from each on. */
    method AppendOptions(buf: Bytes, ghost ts: seq<Bytes>) returns (out: Option<Bytes>)
      requires Valid() && |ts| == optionsLen + 1 && ts[optionsLen] == []
      requires forall k :: 0 <= k < optionsLen ==> ts[k] == M.PutCreateOption(options[k], ts[k + 1])
      ensures out.Some? <==> forall k :: 0 <= k < optionsLen ==> M.CreateOptionFits(options[k])
      ensures out.Some? ==> out.value == buf + ts[0]
    {
      var b := buf;
      for i := 0 to optionsLen
        invariant forall k :: 0 <= k < i ==> M.CreateOptionFits(options[k])
        invariant b + ts[i] == buf + ts[0]
      {
        var r := MarshalOption(options[i], b, ts[i + 1]);
        if r.None? {
          return None;
        }
        b := r.value;
      }
      assert b + [] == b;
      out := Some(b);
    }

    method MarshalOptions(buf: Bytes) returns (out: Option<Bytes>)
      requires Valid()
      ensures out.Some? <==> ListFits(M.CreateOptionFormat(), options[..optionsLen])
      ensures out.Some? ==> out.value == buf + PutList(M.CreateOptionFormat(), options[..optionsLen], [])
    {
      var l := EnsureUint16Length(optionsLen);
      if l.None? {
        return None;
      }
      ghost var ms := options[..optionsLen];
      ghost var ts := M.OptionsInTurn(ms);
      assert forall k :: 0 <= k < optionsLen ==> options[k] == ms[k];
      var b := AppendUint16(buf, l.value, ts[0]);
      out := AppendOptions(b, ts);
    }

    method Marshal(buf: Bytes) returns (out: Option<Bytes>)
      requires Valid()
      ensures out == if M.CreateRoomRequestFits(View())
                     then Some(buf + Encode(M.CreateRoomRequestFormat(), View())) else None
      ensures out.Some? ==>
                out.value
                == buf + (Text(name) + Text(typ) + U16(maxPlayers) + [mode]
                          + Length(optionsLen) + Joined(OptionBytes, options[..optionsLen]))
    {
      CreateRoomRequestLayout(View(), []);
      ghost var t5 := PutList(M.CreateOptionFormat(), options[..optionsLen], []);
      ghost var t4 := PutU8(mode, t5);
      ghost var t3 := PutU16(maxPlayers, t4);
      var r := AppendString(buf, name, PutStr(typ, t3));
      if r.None? {
        return None;
      }
      r := AppendString(r.value, typ, t3);
      if r.None? {
        return None;
      }
      var b := AppendUint16(r.value, maxPlayers, t4);
      b := AppendUint8(b, mode, t5);
      out := MarshalOptions(b);
    }

    static method TakeLimits(prevMax: uint16, prevMode: byte, data: Bytes, offset: nat)
      returns (maxPlayers: uint16, mode: byte, next: Option<nat>, ghost between: Bytes)
      requires offset <= |data|
      ensures next.Some? <==> GetU16(data[offset..]).Got? && GetU8(GetU16(data[offset..]).rest).Got?
      ensures next.Some? ==> next.value <= |data|
      ensures next.Some? ==>
                && GetU16(data[offset..]) == Got(maxPlayers, between)
                && GetU8(between) == Got(mode, data[next.value..])
    {
      maxPlayers, mode, between := prevMax, prevMode, [];
      var x, after := TakeUint16(data, offset);
      if after.None? {
        return maxPlayers, mode, None, [];
      }
      maxPlayers, between := x, data[after.value..];
      var b, end := TakeUint8(data, after.value);
      next := end;
      if end.Some? {
        mode := b;
      }
    }

    /** The fields before the list. */
    method UnmarshalHeader(data: Bytes) returns (next: Option<nat>)
      modifies `name, `typ, `maxPlayers, `mode
      ensures next.None? ==> M.GetCreateRoomRequest(data).Bad?
      ensures next.Some? ==> next.value <= |data|
      ensures next.Some? ==>
                M.GetCreateRoomRequest(data)
                == M.CreateRoomRequestWith(
                     name, typ, maxPlayers, mode, GetList(M.CreateOptionFormat(), data[next.value..]))
    {
      assert data[0..] == data;
      ghost var d1, d3;
      var o2;
      name, typ, o2, d1 := TakeStrings(name, typ, data, 0);
      if o2.None? {
        return None;
      }
      maxPlayers, mode, next, d3 := TakeLimits(maxPlayers, mode, data, o2.value);
      if next.Some? {
        M.CreateRoomRequestHeader(data, name, d1, typ, data[o2.value..], maxPlayers, d3, mode, data[next.value..]);
      }
    }

    /** As for the messages above, and the slots past the list hold nothing of an older, longer one. */
    method Unmarshal(data: Bytes) returns (n: Option<nat>)
      requires Valid()
      modifies this, options
      ensures Valid() && (options == old(options) || fresh(options))
      ensures n.Some? <==> M.GetCreateRoomRequest(data).Got?
      ensures n.Some? ==> n.value <= |data| && M.GetCreateRoomRequest(data) == Got(View(), data[n.value..])
      ensures n.Some? ==>
                data[..n.value]
                == Text(name) + Text(typ) + U16(maxPlayers) + [mode]
                   + Length(optionsLen) + Joined(OptionBytes, options[..optionsLen])
      ensures n.Some? ==> forall i :: optionsLen <= i < options.Length ==> options[i] == NO_OPTION
    {
      if |data| < 9 {
        M.RequestMinimum(data);
        return None;
      }
      var start := UnmarshalHeader(data);
      if start.None? {
        return None;
      }
      options, optionsLen, n := TakeOptions(options, optionsLen, data, start.value);
      if n.Some? {
        CreateRoomRequestReadLayout(data, View(), n.value);
      }
    }
  }

  // ---------------------------------------------------------------- RoomList

  const NO_ROOM: M.RoomInfo := M.RoomInfo([], [], [], 0, 0, false, 0)

  ghost predicate RoomsRead(ms: seq<M.RoomInfo>, ds: seq<Bytes>) {
    |ds| == |ms| + 1 && forall k :: 0 <= k < |ms| ==> M.GetRoomInfo(ds[k]) == Got(ms[k], ds[k + 1])
  }

  /** The slots of a list of rooms, overwritten one by one. */
  method FillRooms(slots: array<M.RoomInfo>, n: nat, data: Bytes, start: nat)
    returns (next: Option<nat>, ghost done: nat, ghost ds: seq<Bytes>)
    requires start <= |data| && n <= slots.Length
    modifies slots
    ensures slots[n..] == old(slots[n..])
    ensures done <= n && RoomsRead(slots[..done], ds) && ds[0] == data[start..]
    ensures next.None? ==> done < n && M.GetRoomInfo(ds[done]).Bad?
    ensures next.Some? ==> done == n && next.value <= |data| && ds[n] == data[next.value..]
  {
    var offset: nat := start;
    ds, done := [data[start..]], 0;
    for i := 0 to n
      invariant done == i && offset <= |data| && slots[n..] == old(slots[n..])
      invariant RoomsRead(slots[..i], ds) && ds[0] == data[start..] && ds[i] == data[offset..]
    {
      ghost var before := slots[..i];
      var m, after := UnmarshalRoom(slots[i], data, offset);
      if after.None? {
        return None, i, ds;
      }
      slots[i], offset := m, after.value;
      assert slots[..i + 1] == before + [m];
      ds, done := ds + [data[offset..]], i + 1;
    }
    next := Some(offset);
  }

  class RoomList {
    var rooms: array<M.RoomInfo>
    var roomsLen: nat

    ghost predicate Valid()
      reads this
    {
      roomsLen <= rooms.Length
    }

    ghost function View(): (r: seq<M.RoomInfo>)
      requires Valid()
      reads this, rooms
    {
      rooms[..roomsLen]
    }

    constructor ()
      ensures Valid() && fresh(rooms) && View() == []
    {
      rooms := new M.RoomInfo[0];
      roomsLen := 0;
    }

    method AppendRooms(buf: Bytes, ghost ts: seq<Bytes>) returns (out: Option<Bytes>)
      requires Valid() && |ts| == roomsLen + 1 && ts[roomsLen] == []
      requires forall k :: 0 <= k < roomsLen ==> ts[k] == M.PutRoomInfo(rooms[k], ts[k + 1])
      ensures out.Some? <==> forall k :: 0 <= k < roomsLen ==> M.RoomInfoFits(rooms[k])
      ensures out.Some? ==> out.value == buf + ts[0]
    {
      var b := buf;
      for i := 0 to roomsLen
        invariant forall k :: 0 <= k < i ==> M.RoomInfoFits(rooms[k])
        invariant b + ts[i] == buf + ts[0]
      {
        var r := MarshalRoom(rooms[i], b, ts[i + 1]);
        if r.None? {
          return None;
        }
        b := r.value;
      }
      assert b + [] == b;
      out := Some(b);
    }

    method Marshal(buf: Bytes) returns (out: Option<Bytes>)
      requires Valid()
      ensures out == if M.RoomListFits(View()) then Some(buf + Encode(M.RoomListFormat(), View())) else None
      ensures out.Some? ==> out.value == buf + (Length(roomsLen) + Joined(RoomBytes, rooms[..roomsLen]))
    {
      RoomListLayout(View(), []);
      var l := EnsureUint16Length(roomsLen);
      if l.None? {
        return None;
      }
      ghost var ms := View();
      ghost var ts := M.RoomsInTurn(ms);
      assert forall k :: 0 <= k < roomsLen ==> rooms[k] == ms[k];
      var b := AppendUint16(buf, l.value, ts[0]);
      out := AppendRooms(b, ts);
    }

    method Unmarshal(data: Bytes) returns (n: Option<nat>)
      requires Valid()
      modifies this, rooms
      ensures Valid() && (rooms == old(rooms) || fresh(rooms))
      ensures n.Some? <==> M.GetRoomList(data).Got?
      ensures n.Some? ==> n.value <= |data| && M.GetRoomList(data) == Got(View(), data[n.value..])
      ensures n.Some? ==> exists rs :: ReadFrom(View(), rs, data[..n.value])
      ensures n.Some? ==> forall i :: roomsLen <= i < rooms.Length ==> rooms[i] == NO_ROOM
    {
      assert data[0..] == data;
      var l, after := TakeUint16(data, 0);
      if after.None? {
        return None;
      }
      rooms := Resize(rooms, l, NO_ROOM);
      roomsLen := l;
      ghost var tail := rooms[l..];
      ghost var done, ds;
      n, done, ds := FillRooms(rooms, l, data, after.value);
      assert forall i :: l <= i < rooms.Length ==> rooms[i] == rooms[l..][i - l] == tail[i - l];
      ReadInTurn(M.RoomInfoFormat(), rooms[..done], ds, l);
      if n.Some? {
        RoomListReadAt(data, View(), n.value);
      }
    }
  }
}
