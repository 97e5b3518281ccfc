/**
 The singleton records: user -> room type -> (room, client), with the three ways the manager
 edits them and the decision it takes under its lock before a join.
 */
module SessionTable {
  import opened Base
  import opened RoomModel

  datatype Session = Session(room: RoomId, client: ClientId)

  type Sessions = map<UserId, map<RoomType, Session>>

  function Lookup(ss: Sessions, u: UserId, t: RoomType): (r: Option<Session>) {
    if u in ss && t in ss[u] then Some(ss[u][t]) else None
  }

  /** No user keeps an empty inner map. */
  ghost predicate NoEmptyInner(ss: Sessions) {
    forall u :: u in ss ==> ss[u] != map[]
  }

  function Record(ss: Sessions, u: UserId, t: RoomType, x: Session): (r: Sessions)
    ensures forall v, w :: Lookup(r, v, w) == if v == u && w == t then Some(x) else Lookup(ss, v, w)
    ensures NoEmptyInner(ss) ==> NoEmptyInner(r)
  {
    var inner := if u in ss then ss[u] else map[];
    assert t in inner[t := x];
    ss[u := inner[t := x]]
  }

  /** Delete one record, and the user's inner map with its last one. */
  function Unrecord(ss: Sessions, u: UserId, t: RoomType): (r: Sessions)
    ensures forall v, w :: Lookup(r, v, w) == if v == u && w == t then None else Lookup(ss, v, w)
    ensures NoEmptyInner(ss) ==> NoEmptyInner(r)
  {
    if u in ss && t in ss[u] then
      var inner := ss[u] - {t};
      assert forall w :: w in ss[u] && w != t ==> w in inner;
      if inner == map[] then ss - {u} else ss[u := inner]
    else ss
  }

  /** One user's inner map after the records of room rid, of type t, are dropped. */
  function WithoutRoom(inner: map<RoomType, Session>, t: RoomType, rid: RoomId): (r: map<RoomType, Session>)
    ensures forall w :: w in r <==> w in inner && !(w == t && inner[w].room == rid)
    ensures forall w :: w in r ==> r[w] == inner[w]
  {
    if t in inner && inner[t].room == rid then inner - {t} else inner
  }

  /** One user's part of a cleanup. */
  function CleanupUser(ss: Sessions, u: UserId, t: RoomType, rid: RoomId): (after: Sessions) {
    if u !in ss || WithoutRoom(ss[u], t, rid) == ss[u] then ss
    else if WithoutRoom(ss[u], t, rid) == map[] then ss - {u}
    else ss[u := WithoutRoom(ss[u], t, rid)]
  }

  /** Drop every record that points to room rid of type t. */
  function Cleanup(ss: Sessions, t: RoomType, rid: RoomId): (r: Sessions)
    ensures forall v, w ::
              Lookup(r, v, w) ==
              if w == t && Lookup(ss, v, w).Some? && Lookup(ss, v, w).value.room == rid then None else Lookup(ss, v, w)
    ensures NoEmptyInner(ss) ==> NoEmptyInner(r)
  {
    map u | u in ss && (WithoutRoom(ss[u], t, rid) == ss[u] || WithoutRoom(ss[u], t, rid) != map[]) ::
      WithoutRoom(ss[u], t, rid)
  }

  ghost predicate SameAt(a: Sessions, b: Sessions, u: UserId) {
    (u in a <==> u in b) && (u in a ==> a[u] == b[u])
  }

  /** Cleaning user u up brings u, and nobody else, to where the whole cleanup leaves it. */
  lemma CleanupByUser(ss: Sessions, ss0: Sessions, u: UserId, t: RoomType, rid: RoomId)
    requires u in ss && SameAt(ss, ss0, u)
    ensures SameAt(CleanupUser(ss, u, t, rid), Cleanup(ss0, t, rid), u)
    ensures forall v :: v != u ==> SameAt(CleanupUser(ss, u, t, rid), ss, v)
  {}

  /** One user's part is at most one deletion. */
  lemma CleanupUserIsUnrecord(ss: Sessions, u: UserId, t: RoomType, rid: RoomId)
    requires u in ss
    ensures CleanupUser(ss, u, t, rid) == if t in ss[u] && ss[u][t].room == rid then Unrecord(ss, u, t) else ss
  {
    if t in ss[u] && ss[u][t].room == rid {
      assert WithoutRoom(ss[u], t, rid) == ss[u] - {t};
      assert t !in ss[u] - {t};
    }
  }

  /** All users but these are as the whole cleanup leaves them, and these as they were. */
  ghost predicate HalfClean(ss: Sessions, ss0: Sessions, t: RoomType, rid: RoomId, users: set<UserId>) {
    && users <= ss0.Keys && ss.Keys <= ss0.Keys
    && (forall u :: u in ss0 ==> SameAt(ss, if u in users then ss0 else Cleanup(ss0, t, rid), u))
  }

  lemma HalfCleanStep(ss: Sessions, ss0: Sessions, t: RoomType, rid: RoomId, users: set<UserId>, u: UserId)
    requires HalfClean(ss, ss0, t, rid, users) && u in users
    ensures u in ss && HalfClean(CleanupUser(ss, u, t, rid), ss0, t, rid, users - {u})
  {
    assert SameAt(ss, ss0, u);
    CleanupByUser(ss, ss0, u, t, rid);
    var ss' := CleanupUser(ss, u, t, rid);
    forall v | v in ss0 ensures SameAt(ss', if v in users - {u} then ss0 else Cleanup(ss0, t, rid), v) {
      assert SameAt(ss, if v in users then ss0 else Cleanup(ss0, t, rid), v);
    }
  }

  lemma AllClean(ss: Sessions, ss0: Sessions, t: RoomType, rid: RoomId)
    requires HalfClean(ss, ss0, t, rid, {})
    ensures ss == Cleanup(ss0, t, rid)
  {
    assert forall u :: u in ss0 ==> SameAt(ss, Cleanup(ss0, t, rid), u);
  }

  /** The decision under the manager's lock: refused, or admitted with the session to take over. */
  datatype Admission = Rejected | Admitted(sessions: Sessions, replaced: Option<Session>)

  function Admit(ss: Sessions, u: UserId, c: ClientId, rid: RoomId, config: Config): (admission: Admission) {
    if config.mode == Allow then Admitted(ss, None)
    else
      var current := Lookup(ss, u, config.typ);
      var differs := current.Some? && current.value != Session(rid, c);
      if differs && config.mode == Reject then Rejected
      else Admitted(Record(ss, u, config.typ, Session(rid, c)),
                    if differs && config.mode == Replace then current else None)
  }

  /** The rollback of a failed join: only the client is compared, not the room. */
  function Rollback(ss: Sessions, u: UserId, c: ClientId, t: RoomType): (after: Sessions) {
    var current := Lookup(ss, u, t);
    if current.Some? && current.value.client == c then Unrecord(ss, u, t) else ss
  }

  /** The locked phase of a leave. */
  function Release(ss: Sessions, u: UserId, c: ClientId, rid: RoomId, config: Config): (after: Sessions) {
    if config.mode != Allow && Lookup(ss, u, config.typ) == Some(Session(rid, c))
    then Unrecord(ss, u, config.typ)
    else ss
  }
}
