/**
 A room as its actor sees it: the fields the closures change, and the methods that submit them.
 Here a submitted closure runs at once, or not at all when the room is shut down. What a method
 announces on the room's topic is handed back in order.
 */
module RoomActor {
  import opened Base
  import opened RoomModel
  import opened News
  import ManagerModel

  class Room {
    const id: RoomId
    const config: Config

    var players: map<ClientId, UserId>
    var isOpen: bool
    var keepOnEmpty: bool
    var emptyTimer: Timer
    /** Started timer callbacks that have not run their closure, and unserved onEmpty calls. */
    var callbacks: nat
    var requests: nat
    /** The context is canceled: `do` reports false from now on. */
    var down: bool

    ghost function View(): (view: RoomState)
      reads this
    {
      RoomState(config, players, isOpen, keepOnEmpty, emptyTimer, callbacks, requests)
    }

    constructor (id: RoomId, config: Config, keep: bool)
      ensures this.id == id && this.config == config && !down
      ensures View() == NewRoom(config, keep)
      ensures players == map[] && isOpen && keepOnEmpty == keep && emptyTimer == NoTimer
    {
      this.id, this.config := id, config;
      players, isOpen, keepOnEmpty, emptyTimer := map[], true, keep, NoTimer;
      callbacks, requests, down := 0, 0, false;
    }

    method CancelRemoval()
      modifies `emptyTimer
      ensures View() == CancelEmptyRemoval(old(View())) && emptyTimer == NoTimer
    {
      if emptyTimer != NoTimer {
        emptyTimer := NoTimer;
      }
    }

    method ScheduleRemoval()
      modifies `emptyTimer, `requests
      ensures View() == ScheduleEmptyRemoval(old(View()))
      ensures keepOnEmpty ==> emptyTimer == old(emptyTimer) && requests == old(requests)
      ensures !keepOnEmpty && config.grace <= 0 ==> emptyTimer == NoTimer && requests == old(requests) + 1
      ensures !keepOnEmpty && config.grace > 0 ==> emptyTimer == Armed && requests == old(requests)
    {
      if keepOnEmpty {
        return;
      }
      CancelRemoval();
      if config.grace <= 0 {
        requests := requests + 1;
        return;
      }
      emptyTimer := Armed;
    }

    method SetKeep(keep: bool)
      modifies `keepOnEmpty, `emptyTimer, `requests
      ensures View() == SetKeepOnEmpty(old(View()), keep)
      ensures keepOnEmpty == keep
      ensures keep ==> emptyTimer == NoTimer && requests == old(requests)
      ensures !keep && (!old(keepOnEmpty) || players != map[]) ==>
                emptyTimer == old(emptyTimer) && requests == old(requests)
      ensures !keep && old(keepOnEmpty) && players == map[] ==>
                if config.grace <= 0 then emptyTimer == NoTimer && requests == old(requests) + 1
                else emptyTimer == Armed && requests == old(requests)
    {
      var wasKept := keepOnEmpty;
      keepOnEmpty := keep;
      if keep {
        CancelRemoval();
        return;
      }
      if wasKept && |players| == 0 {
        ScheduleRemoval();
      }
    }

    /** A module hook, as the SetKeepOnEmpty calls it makes. */
    method Hook(calls: seq<bool>)
      modifies `keepOnEmpty, `emptyTimer, `requests
      ensures View() == RunHook(old(View()), calls)
    {
      for i := 0 to |calls|
        invariant RunHook(View(), calls[i..]) == RunHook(old(View()), calls)
      {
        assert calls[i..][0] == calls[i] && calls[i..][1..] == calls[i + 1..];
        SetKeep(calls[i]);
      }
    }

    predicate IsFull()
      reads this
    {
      config.maxPlayers > 0 && Narrow(|players|) >= config.maxPlayers
    }

    /** A player is put in, and what the join hook does. */
    method SeatPlayer(c: ClientId, u: UserId, onJoin: seq<bool>)
      modifies `players, `keepOnEmpty, `emptyTimer, `requests
      ensures View() == Seat(old(View()), c, u, onJoin) && players == old(players)[c := u]
    {
      players := players[c := u];
      CancelRemoval();
      Hook(onJoin);
    }

    /** A player is taken out, and what the leave hook does; nothing if it is not there. */
    method DropPlayer(c: ClientId, onLeave: seq<bool>)
      modifies `players, `keepOnEmpty, `emptyTimer, `requests
      ensures View() == DropOld(old(View()), c, onLeave) && players == old(players) - {c}
    {
      if c in players {
        players := players - {c};
        Hook(onLeave);
      }
    }

    method Join(c: ClientId, u: UserId, onJoin: seq<bool>) returns (err: Option<Error>, notices: seq<Notice>)
      modifies this
      ensures down == old(down)
      ensures down ==> err == Some(RoomClosed) && notices == [] && View() == old(View())
      ensures !down ==>
                var a := DoJoin(c, u, onJoin);
                && View() == ManagerModel.RoomAfterJoin(old(View()), a)
                && err == ErrorOf(OutcomeOf(old(View()), a))
                && notices == Announced(old(View()), a)
      ensures err == if down || !old(isOpen) then Some(RoomClosed)
                     else if config.maxPlayers > 0 && |old(players)| % 0x1_0000 >= config.maxPlayers then Some(RoomFull)
                     else None
      ensures c in old(players) || err.Some? ==> notices == [] && View() == old(View())
      ensures c !in old(players) && err.None? ==>
                notices == [PlayerJoined(c, u)] && players == old(players)[c := u] && isOpen
    {
      var joined := false;
      err, notices := None, [];
      if down {
        err := Some(RoomClosed);
      } else if !isOpen {
        err := Some(RoomClosed);
      } else if IsFull() {
        err := Some(RoomFull);
      } else if c in players {
      } else {
        SeatPlayer(c, u, onJoin);
        joined := true;
      }
      if joined {
        notices := [PlayerJoined(c, u)];
      }
    }

    /** The closure of a swap, and what it reports. */
    method Swap(prev: ClientId, c: ClientId, u: UserId, onLeave: seq<bool>, onJoin: seq<bool>)
      returns (outcome: Outcome)
      modifies `players, `keepOnEmpty, `emptyTimer, `requests
      ensures (View(), outcome) == ReplaceBody(old(View()), prev, c, u, onLeave, onJoin)
      ensures outcome.Seated? ==> players == (old(players) - {prev})[c := u] && isOpen
      ensures outcome.Refused? ==> outcome.error == if isOpen then RoomFull else RoomClosed
    {
      if !isOpen {
        return Refused(RoomClosed, false);
      }
      DropPlayer(prev, onLeave);
      if IsFull() {
        return Refused(RoomFull, |players| == 0 && !keepOnEmpty);
      }
      SeatPlayer(c, u, onJoin);
      return Seated(true);
    }

    method JoinReplace(prev: ClientId, c: ClientId, u: UserId, onLeave: seq<bool>, onJoin: seq<bool>)
      returns (err: Option<Error>, notices: seq<Notice>)
      modifies this
      ensures down == old(down)
      ensures down ==> err == Some(RoomClosed) && notices == [] && View() == old(View())
      ensures !down ==>
                var a := DoReplace(prev, c, u, onLeave, onJoin);
                && View() == ManagerModel.RoomAfterJoin(old(View()), a)
                && err == ErrorOf(OutcomeOf(old(View()), a))
                && notices == Announced(old(View()), a)
      ensures err == Some(RoomClosed) <==> down || !old(isOpen)
      ensures notices == if err.None? then [PlayerLeft(prev), PlayerJoined(c, u)] else []
      ensures err.None? ==> players == (old(players) - {prev})[c := u] && isOpen
    {
      if down {
        return Some(RoomClosed), [];
      }
      var outcome := Swap(prev, c, u, onLeave, onJoin);
      if outcome.Refused? {
        if outcome.becameEmpty {
          requests := requests + 1;
        }
        return Some(outcome.error), [];
      }
      return None, [PlayerLeft(prev), PlayerJoined(c, u)];
    }

    method Leave(c: ClientId, onLeave: seq<bool>) returns (notices: seq<Notice>)
      modifies this
      ensures down == old(down)
      ensures down ==> notices == [] && View() == old(View())
      ensures !down ==>
                && View() == ManagerModel.LeaveInRoom(old(View()), c, onLeave)
                && notices == Announced(old(View()), DoLeave(c, onLeave))
      ensures notices == if !down && c in old(players) then [PlayerLeft(c)] else []
      ensures !down ==> players == old(players) - {c} && isOpen == old(isOpen)
      ensures c !in old(players) ==> View() == old(View())
    {
      if down || c !in players {
        return [];
      }
      DropPlayer(c, onLeave);
      if |players| == 0 {
        ScheduleRemoval();
      }
      return [PlayerLeft(c)];
    }

    /** The closure of a started grace callback. */
    method TimerCallback()
      requires callbacks > 0
      modifies this
      ensures down == old(down)
      ensures View() == if down then old(View()).(callbacks := old(callbacks) - 1) else CallbackBody(old(View()))
      ensures callbacks == old(callbacks) - 1
      ensures requests == old(requests) + if !down && !keepOnEmpty && players == map[] then 1 else 0
    {
      callbacks := callbacks - 1;
      if !down && !keepOnEmpty && |players| == 0 {
        requests := requests + 1;
      }
    }

    /** The PlayerCount of a room snapshot: the true count, exact for capped rooms within capacity. */
    method PlayerCount() returns (count: uint16)
      ensures count == |players| % 0x1_0000
      ensures WithinCapacity(View()) && config.maxPlayers > 0 ==> count == |players| <= config.maxPlayers
    {
      count := Narrow(|players|);
    }

    method Shutdown()
      modifies this
      ensures down && View() == CancelEmptyRemoval(old(View())) && emptyTimer == NoTimer
    {
      down := true;
      CancelRemoval();
    }
  }
}
