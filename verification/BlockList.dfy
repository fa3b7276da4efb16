/**
 * The block list of access keys: a session for each listed key, each with a
 * timer that takes the key off the list when it fires.
 */
module BlockList {
  import opened BlockListHistory

  datatype State = NoState | ValidationInProgress | UnderBlockList

  datatype AkSessionInfo = AkSessionInfo(state: State, validateCounter: int, clearTimer: nat)

  /** A running timer; when it fires it deletes the key from the list. */
  datatype Timer = Timer(ak: string, deadline: int)

  datatype Entry = Entry(ak: string, event: Event)

  /** The requests of one key. */
  function Of(log: seq<Entry>, ak: string): History {
    if |log| == 0 then []
    else
      var e := log[|log| - 1];
      Of(log[..|log| - 1], ak) + if e.ak == ak then [e.event] else []
  }

  ghost predicate InOrder(log: seq<Entry>, now: int) {
    && (forall i :: 0 <= i < |log| ==> log[i].event.time <= now)
    && forall i, j :: 0 <= i < j < |log| ==> log[i].event.time <= log[j].event.time
  }

  lemma {:induction false} OfIsOrdered(log: seq<Entry>, ak: string, now: int)
    requires InOrder(log, now)
    ensures Ordered(Of(log, ak)) && forall i :: 0 <= i < |Of(log, ak)| ==> Of(log, ak)[i].time <= now
  {
    if |log| > 0 {
      var front, e := log[..|log| - 1], log[|log| - 1];
      OfIsOrdered(front, ak, e.event.time);
    }
  }

  lemma {:induction false} AfterPrefix(h: History, e: Event, n: nat)
    requires n <= |h|
    ensures After(h + [e], n) == After(h, n)
  {
    if n > 0 {
      AfterPrefix(h, e, n - 1);
    }
  }

  lemma AfterOneMore(h: History, e: Event)
    ensures After(h + [e], |h| + 1) == Request(Expire(After(h, |h|), e.time), e)
  {
    AfterPrefix(h, e, |h|);
  }

  type Sessions = map<string, AkSessionInfo>
  type Timers = map<nat, Timer>

  /** The session of a key in the terms of its history. */
  function SessionOf(list: Sessions, timers: Timers, ak: string): Session {
    if ak !in list || list[ak].clearTimer !in timers then Unlisted
    else if list[ak].state == UnderBlockList then Blocked(timers[list[ak].clearTimer].deadline)
    else Validating(list[ak].validateCounter, timers[list[ak].clearTimer].deadline)
  }

  predicate Consistent(info: AkSessionInfo) {
    match info.state
    case NoState => false
    case ValidationInProgress => 1 <= info.validateCounter < LIMIT
    case UnderBlockList => info.validateCounter == 0
  }

  /** A listed key has one running timer of its own and a counter that matches its state; no other timer runs. */
  ghost predicate OneTimerEach(list: Sessions, timers: Timers, made: nat, now: int) {
    && (forall id :: id in timers ==> id < made && now < timers[id].deadline)
    && (forall id :: id in timers ==> timers[id].ak in list && list[timers[id].ak].clearTimer == id)
    && (forall ak :: ak in list ==> list[ak].clearTimer in timers && timers[list[ak].clearTimer].ak == ak)
    && (forall ak :: ak in list ==> Consistent(list[ak]))
  }

  ghost predicate SameSessions(list: Sessions, timers: Timers, list': Sessions, timers': Timers, except: string) {
    forall ak :: ak != except ==> SessionOf(list', timers', ak) == SessionOf(list, timers, ak)
  }

  /** A key goes off the list together with its timer. */
  lemma Unlisting(list: Sessions, timers: Timers, made: nat, now: int, ak: string)
    requires OneTimerEach(list, timers, made, now) && ak in list
    ensures OneTimerEach(list - {ak}, timers - {list[ak].clearTimer}, made, now)
    ensures SameSessions(list, timers, list - {ak}, timers - {list[ak].clearTimer}, ak)
  {
  }

  /** A key goes on the list, or moves to another state, with a new timer in place of its old one. */
  lemma Relisting(list: Sessions, timers: Timers, made: nat, now: int, ak: string, info: AkSessionInfo, deadline: int)
    requires OneTimerEach(list, timers, made, now)
    requires Consistent(info) && info.clearTimer == made && now < deadline
    ensures var timers' := (if ak in list then timers - {list[ak].clearTimer} else timers)[made := Timer(ak, deadline)];
      && OneTimerEach(list[ak := info], timers', made + 1, now)
      && SameSessions(list, timers, list[ak := info], timers', ak)
  {
  }

  lemma Counting(list: Sessions, timers: Timers, made: nat, now: int, ak: string, info: AkSessionInfo)
    requires OneTimerEach(list, timers, made, now) && ak in list && Consistent(info)
    requires info.clearTimer == list[ak].clearTimer
    ensures OneTimerEach(list[ak := info], timers, made, now)
    ensures SameSessions(list, timers, list[ak := info], timers, ak)
  {
  }

  lemma ListedHasTimer(list: Sessions, timers: Timers, made: nat, now: int, ak: string)
    requires OneTimerEach(list, timers, made, now) && ak in list
    ensures Consistent(list[ak]) && list[ak].clearTimer in timers && now < timers[list[ak].clearTimer].deadline
    ensures list[ak].clearTimer < made
  {
  }

  /** Every session is the one that the key's history describes. */
  ghost predicate Follows(list: Sessions, timers: Timers, log: seq<Entry>, now: int) {
    forall ak :: SessionOf(list, timers, ak) == Expire(After(Of(log, ak), |Of(log, ak)|), now)
  }

  lemma FollowsOneMore(list: Sessions, timers: Timers, list': Sessions, timers': Timers, log: seq<Entry>, ak: string,
                       e: Event)
    requires Follows(list, timers, log, e.time) && SameSessions(list, timers, list', timers', ak)
    requires SessionOf(list', timers', ak) == Request(SessionOf(list, timers, ak), e)
    ensures Follows(list', timers', log + [Entry(ak, e)], e.time)
  {
    hide SessionOf;
    var log' := log + [Entry(ak, e)];
    assert log'[..|log|] == log;
    var h := Of(log, ak);
    AfterOneMore(h, e);
    forall other | other != ak ensures Of(log', other) == Of(log, other) {
    }
  }

  ghost predicate SameLater(list: Sessions, timers: Timers, list': Sessions, timers': Timers, t: int) {
    forall ak :: Expire(SessionOf(list', timers', ak), t) == Expire(SessionOf(list, timers, ak), t)
  }

  /** A due timer fires: nothing changes for a clock that is already past it. */
  lemma Firing(list: Sessions, timers: Timers, made: nat, now: int, id: nat, t: int)
    requires OneTimerEach(list, timers, made, now) && id in timers && timers[id].deadline <= t
    ensures OneTimerEach(list - {timers[id].ak}, timers - {id}, made, now)
    ensures SameLater(list, timers, list - {timers[id].ak}, timers - {id}, t)
  {
  }

  lemma Settled(list: Sessions, timers: Timers, list': Sessions, timers': Timers, made: nat, log: seq<Entry>,
                now: int, t: int)
    requires Follows(list, timers, log, now) && SameLater(list, timers, list', timers', t) && now <= t
    requires OneTimerEach(list', timers', made, now) && forall id :: id in timers' ==> t < timers'[id].deadline
    ensures OneTimerEach(list', timers', made, t) && Follows(list', timers', log, t)
  {
  }

  class BlockList {
    var now: int
    var list: map<string, AkSessionInfo>
    var timers: map<nat, Timer>
    var made: nat
    ghost var log: seq<Entry>

    constructor (start: int)
      ensures Valid() && log == [] && now == start
    {
      now, list, timers, made, log := start, map[], map[], 0, [];
    }

    ghost function View(ak: string): Session
      reads this
    {
      SessionOf(list, timers, ak)
    }

    ghost predicate Sound()
      reads this
    {
      OneTimerEach(list, timers, made, now)
    }

    ghost predicate Valid()
      reads this
    {
      && Sound() && InOrder(log, now)
      && Follows(list, timers, log, now)
    }

    method StartTimer(ak: string, duration: int) returns (id: nat)
      modifies this`timers, this`made
      ensures id == old(made) && made == id + 1 && timers == old(timers)[id := Timer(ak, now + duration)]
    {
      id := made;
      made := made + 1;
      timers := timers[id := Timer(ak, now + duration)];
    }

    method StartValidatingAk(ak: string)
      modifies this`list, this`timers, this`made
      ensures made == old(made) + 1 && timers == old(timers)[old(made) := Timer(ak, now + WINDOW)]
      ensures list == old(list)[ak := AkSessionInfo(ValidationInProgress, 1, old(made))]
    {
      var id := StartTimer(ak, WINDOW);
      list := list[ak := AkSessionInfo(ValidationInProgress, 1, id)];
    }

    method StopValidatingAk(ak: string)
      modifies this`list, this`timers
      ensures ak !in old(list) ==> list == old(list) && timers == old(timers)
      ensures ak in old(list) ==> list == old(list)[ak := AkSessionInfo(NoState, 0, old(list[ak].clearTimer))]
      ensures ak in old(list) ==> timers == old(timers) - {old(list[ak].clearTimer)}
    {
      if ak in list {
        timers := timers - {list[ak].clearTimer};
        list := list[ak := list[ak].(state := NoState, validateCounter := 0)];
      }
    }

    method StartBlockListingAk(ak: string)
      modifies this`list, this`timers, this`made
      ensures ak !in old(list) ==> list == old(list) && timers == old(timers) && made == old(made)
      ensures ak in old(list) ==> made == old(made) + 1 && timers == old(timers)[old(made) := Timer(ak, now + LOCKOUT)]
      ensures ak in old(list) ==>
        list == old(list)[ak := AkSessionInfo(UnderBlockList, old(list[ak].validateCounter), old(made))]
    {
      if ak in list {
        var id := StartTimer(ak, LOCKOUT);
        list := list[ak := list[ak].(state := UnderBlockList, clearTimer := id)];
      }
    }

    method ProcessAkForBlockListing(ak: string)
      requires Sound() && !View(ak).Blocked?
      modifies this`list, this`timers, this`made
      ensures Sound() && View(ak) == Request(old(View(ak)), Event(now, Bad))
      ensures SameSessions(old(list), old(timers), list, timers, ak)
    {
      hide OneTimerEach, SameSessions;
      if ak in list {
        ListedHasTimer(list, timers, made, now, ak);
      }
      ghost var list0, timers0, made0 := list, timers, made;
      if ak in list && list[ak].state == ValidationInProgress {
        list := list[ak := list[ak].(validateCounter := list[ak].validateCounter + 1)];
        if list[ak].validateCounter >= LIMIT {
          StopValidatingAk(ak);
          StartBlockListingAk(ak);
          Relisting(list0, timers0, made0, now, ak, list[ak], now + LOCKOUT);
          assert list == list0[ak := list[ak]];
        } else {
          Counting(list0, timers0, made0, now, ak, list[ak]);
        }
      } else {
        StartValidatingAk(ak);
        Relisting(list0, timers0, made0, now, ak, list[ak], now + WINDOW);
      }
    }

    method ClearAkFromBlockListing(ak: string)
      requires Sound() && !View(ak).Blocked?
      modifies this`list, this`timers
      ensures Sound() && View(ak) == Unlisted
      ensures SameSessions(old(list), old(timers), list, timers, ak)
    {
      hide OneTimerEach;
      if ak in list {
        ListedHasTimer(list, timers, made, now, ak);
      }
      if ak in list && list[ak].state == ValidationInProgress {
        Unlisting(list, timers, made, now, ak);
        ghost var rest := list - {ak};
        StopValidatingAk(ak);
        list := list - {ak};
        assert list == rest;
      }
    }

    /** A token request, and whether it is refused because the key is blocked. */
    method GetToken(ak: string, verdict: Verdict) returns (refused: bool)
      requires Valid()
      modifies this
      ensures Valid() && now == old(now) && log == old(log) + [Entry(ak, Event(now, verdict))]
      ensures refused <==> Locked(Of(old(log), ak), |Of(old(log), ak)|, now)
    {
      hide OneTimerEach, SameSessions, Follows, Locked, Of;
      ghost var h, list0, timers0 := Of(log, ak), list, timers;
      OfIsOrdered(log, ak, now);
      RefusedIffLocked(h, |h|, now);
      FollowsAt(list, timers, log, now, ak);
      SameAsItself(list, timers, ak);
      if ak in list {
        ListedHasTimer(list, timers, made, now, ak);
      }
      refused := ak in list && list[ak].state == UnderBlockList;
      if !refused {
        if verdict == Bad {
          ProcessAkForBlockListing(ak);
        } else if verdict == Good {
          ClearAkFromBlockListing(ak);
        }
      }
      FollowsOneMore(list0, timers0, list, timers, log, ak, Event(now, verdict));
      log := log + [Entry(ak, Event(now, verdict))];
    }

    /** A due timer fires. */
    method Fire(id: nat)
      requires id in timers
      modifies this`list, this`timers
      ensures list == old(list) - {old(timers[id].ak)} && timers == old(timers) - {id}
    {
      list := list - {timers[id].ak};
      timers := timers - {id};
    }

    /** Time passes; the timers that come due fire, in any order. */
    method AdvanceTo(t: int)
      requires Valid() && now <= t
      modifies this
      ensures Valid() && now == t && log == old(log)
    {
      hide OneTimerEach, Follows;
      var due := set id | id in timers && timers[id].deadline <= t;
      while due != {}
        invariant Sound() && now == old(now) && log == old(log)
        invariant due == set id | id in timers && timers[id].deadline <= t
        invariant SameLater(old(list), old(timers), list, timers, t)
      {
        var id :| id in due;
        Firing(list, timers, made, now, id, t);
        Fire(id);
        due := due - {id};
      }
      assert forall id :: id in timers ==> id !in due;
      Settled(old(list), old(timers), list, timers, made, log, now, t);
      now := t;
    }
  }

  lemma FollowsAt(list: Sessions, timers: Timers, log: seq<Entry>, now: int, ak: string)
    requires Follows(list, timers, log, now)
    ensures SessionOf(list, timers, ak) == Expire(After(Of(log, ak), |Of(log, ak)|), now)
  {
  }

  lemma SameAsItself(list: Sessions, timers: Timers, ak: string)
    ensures SameSessions(list, timers, list, timers, ak)
  {
  }
}
