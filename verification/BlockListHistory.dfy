/**
 * When an access key is refused, read off its history of token requests. The
 * first three bad signatures of a validation window lock the key; the window
 * is opened by a bad signature and closed by time or by a good one.
 */
module BlockListHistory {

  const SECOND: int := 1_000_000_000
  const WINDOW: int := 300 * SECOND
  const LOCKOUT: int := 900 * SECOND
  const LIMIT: int := 3

  /** What a request's signature turned out to be; Unchecked when the check never gave a verdict. */
  datatype Verdict = Good | Bad | Unchecked

  datatype Event = Event(time: int, verdict: Verdict)

  type History = seq<Event>

  ghost predicate Ordered(h: History) {
    forall i, j :: 0 <= i < j < |h| ==> h[i].time <= h[j].time
  }

  // --- The state machine of one key ---

  datatype Session = Unlisted | Validating(count: int, deadline: int) | Blocked(deadline: int)

  function Expire(s: Session, now: int): Session {
    if !s.Unlisted? && s.deadline <= now then Unlisted else s
  }

  /** One request, once the timers that are due have fired. */
  function Request(s: Session, e: Event): Session {
    match s
    case Blocked(_) => s
    case Unlisted => if e.verdict == Bad then Validating(1, e.time + WINDOW) else s
    case Validating(count, deadline) =>
      if e.verdict == Good then Unlisted
      else if e.verdict == Unchecked then s
      else if count + 1 >= LIMIT then Blocked(e.time + LOCKOUT)
      else Validating(count + 1, deadline)
  }

  function After(h: History, n: nat): Session
    requires n <= |h|
  {
    if n == 0 then Unlisted else Request(Expire(After(h, n - 1), h[n - 1].time), h[n - 1])
  }

  // --- The reading of the history ---

  function BadCount(h: History, i: nat, j: nat): (c: nat)
    requires j <= |h|
    ensures c <= if i <= j then j - i else 0
    decreases j
  {
    if j <= i then 0 else BadCount(h, i, j - 1) + if h[j - 1].verdict == Bad then 1 else 0
  }

  ghost predicate NoGood(h: History, i: nat, j: nat)
    requires j <= |h|
  {
    forall v :: i <= v < j ==> h[v].verdict != Good
  }

  /** `k` is the third bad signature counted from `o`, within the window and with no good one between. */
  ghost predicate Locks(h: History, o: nat, k: nat) {
    && o < k < |h| && h[k].verdict == Bad && BadCount(h, o, k + 1) == LIMIT
    && NoGood(h, o, k + 1) && h[k].time < h[o].time + WINDOW
  }

  /** What the bad signature at `o` started is over at time `t`, as seen from the first `n` events. */
  ghost predicate Over(h: History, o: nat, n: nat, t: int)
    requires o < n <= |h|
  {
    if exists k: nat :: k < n && Locks(h, o, k)
    then forall k: nat :: k < n && Locks(h, o, k) ==> h[k].time + LOCKOUT <= t
    else h[o].time + WINDOW <= t || !NoGood(h, o, n)
  }

  /** The bad signature at `i` opens a window: whatever was opened before is over. */
  ghost predicate Opens(h: History, i: nat)
    requires i < |h|
    decreases i
  {
    h[i].verdict == Bad && forall o: nat :: o < i && Opens(h, o) ==> Over(h, o, i, h[i].time)
  }

  /** The key is locked at time `t`: the third bad signature of some window is less than a lockout ago. */
  ghost predicate Locked(h: History, n: nat, t: int)
    requires n <= |h|
  {
    exists o: nat, k: nat :: o < k < n && Opens(h, o) && Locks(h, o, k) && t < h[k].time + LOCKOUT
  }

  lemma {:induction false} BadCountGrows(h: History, o: nat, i: nat, j: nat)
    requires i <= j <= |h|
    ensures BadCount(h, o, i) <= BadCount(h, o, j)
    decreases j
  {
    if i < j {
      BadCountGrows(h, o, i, j - 1);
    }
  }

  /** A window has one third bad signature. */
  lemma ThirdIsUnique(h: History, o: nat, k: nat, k': nat)
    requires Locks(h, o, k) && Locks(h, o, k')
    ensures k == k'
  {
    if k < k' {
      BadCountGrows(h, o, k + 1, k');
    } else if k' < k {
      BadCountGrows(h, o, k' + 1, k);
    }
  }

  /** What is over stays over. */
  lemma OverStays(h: History, o: nat, n: nat, t: int, n': nat, t': int)
    requires Ordered(h) && o < n <= n' <= |h| && t <= t' && Over(h, o, n, t)
    requires n < n' ==> t <= h[n].time
    ensures Over(h, o, n', t')
  {
  }

  /** Everything opened so far, except at `x`, is over at time `t`. */
  ghost predicate OthersOver(h: History, n: nat, x: int, t: int)
    requires n <= |h|
  {
    forall o: nat :: o < n && o != x && Opens(h, o) ==> Over(h, o, n, t)
  }

  lemma OthersStay(h: History, n: nat, x: int, t: int)
    requires Ordered(h) && n < |h| && OthersOver(h, n, x, t) && t <= h[n].time && (x == n || !Opens(h, n))
    ensures OthersOver(h, n + 1, x, h[n].time)
  {
    forall o: nat | o < n + 1 && o != x && Opens(h, o) ensures Over(h, o, n + 1, h[n].time) {
      OverStays(h, o, n, t, n + 1, h[n].time);
    }
  }

  /** How the state of the machine shows in the history; `o` and `k` are the opening and the locking event. */
  ghost predicate Reads(h: History, n: nat, s: Session, o: int, k: int)
    requires n <= |h|
  {
    match s
    case Unlisted => o == -1
    case Validating(count, deadline) =>
      && 0 <= o < n && Opens(h, o) && NoGood(h, o, n) && BadCount(h, o, n) == count && 1 <= count < LIMIT
      && deadline == h[o].time + WINDOW && h[n - 1].time < deadline
    case Blocked(deadline) =>
      && 0 <= o < k < n && Opens(h, o) && Locks(h, o, k) && deadline == h[k].time + LOCKOUT && h[n - 1].time < deadline
  }

  lemma NotYetLocked(h: History, o: nat, n: nat)
    requires o < n <= |h| && BadCount(h, o, n) < LIMIT
    ensures forall k: nat :: k < n ==> !Locks(h, o, k)
  {
  }

  /** The opening that the session stands for is over exactly when its timer has fired. */
  lemma CurrentIsOver(h: History, n: nat, s: Session, o: nat, k: int, t: int)
    requires n <= |h| && Reads(h, n, s, o, k) && !s.Unlisted?
    ensures Over(h, o, n, t) <==> s.deadline <= t
  {
    if s.Validating? {
      NotYetLocked(h, o, n);
    } else {
      forall j: nat | j < n && Locks(h, o, j) ensures j == k {
        ThirdIsUnique(h, o, j, k);
      }
    }
  }

  /** At event `p` the key is out of every window exactly when no timer of it runs. */
  lemma OpensIff(h: History, p: nat, s: Session, o: int, k: int, t: int)
    requires Ordered(h) && p < |h| && Reads(h, p, s, o, k) && OthersOver(h, p, o, t) && t <= h[p].time
    ensures Opens(h, p) <==> h[p].verdict == Bad && Expire(s, h[p].time).Unlisted?
  {
    hide Over, Locks;
    if !s.Unlisted? {
      CurrentIsOver(h, p, s, o, k, h[p].time);
    }
    forall x: nat | x < p && x != o && Opens(h, x) ensures Over(h, x, p, h[p].time) {
      OverStays(h, x, p, t, p, h[p].time);
    }
  }

  /** One more event: a running session goes on, or ends. */
  lemma SessionGoesOn(h: History, p: nat, s: Session, o: nat, k: int, t: int) returns (o': int, k': int)
    requires Ordered(h) && p < |h| && Reads(h, p, s, o, k) && OthersOver(h, p, o, t) && t <= h[p].time
    requires !Expire(s, h[p].time).Unlisted?
    ensures Reads(h, p + 1, Request(s, h[p]), o', k')
    ensures OthersOver(h, p + 1, o', h[p].time)
  {
    hide Opens, Over, OthersOver;
    OpensIff(h, p, s, o, k, t);
    OthersStay(h, p, o, t);
    o', k' := o, k;
    if s.Validating? && h[p].verdict == Good {
      o' := -1;
      EndedByGood(h, p, s, o);
    } else if s.Validating? && h[p].verdict == Bad && s.count + 1 == LIMIT {
      k' := p;
    }
  }

  lemma EndedByGood(h: History, p: nat, s: Session, o: nat)
    requires p < |h| && Reads(h, p, s, o, 0) && s.Validating? && h[p].verdict == Good
    requires OthersOver(h, p + 1, o, h[p].time)
    ensures OthersOver(h, p + 1, -1, h[p].time)
  {
    hide Opens;
    NotYetLocked(h, o, p + 1);
    assert Over(h, o, p + 1, h[p].time);
  }

  /** One more event when no timer runs: a bad signature opens a window. */
  lemma SessionStarts(h: History, p: nat, s: Session, o: int, k: int, t: int) returns (o': int)
    requires Ordered(h) && p < |h| && Reads(h, p, s, o, k) && OthersOver(h, p, o, t) && t <= h[p].time
    requires Expire(s, h[p].time).Unlisted?
    ensures Reads(h, p + 1, Request(Unlisted, h[p]), o', 0)
    ensures OthersOver(h, p + 1, o', h[p].time)
  {
    hide Over, Opens, Locks;
    OpensIff(h, p, s, o, k, t);
    if !s.Unlisted? {
      CurrentIsOver(h, p, s, o, k, h[p].time);
    }
    forall x: nat | x < p && x != o && Opens(h, x) ensures Over(h, x, p, h[p].time) {
      OverStays(h, x, p, t, p, h[p].time);
    }
    o' := if h[p].verdict == Bad then p else -1;
    OthersStay(h, p, o', h[p].time);
    assert BadCount(h, p, p) == 0;
  }

  /** What the session after `n` events says of the history, by induction over the events. */
  lemma {:induction false} SessionReads(h: History, n: nat) returns (o: int, k: int)
    requires Ordered(h) && n <= |h|
    ensures Reads(h, n, After(h, n), o, k)
    ensures n > 0 ==> OthersOver(h, n, o, h[n - 1].time)
  {
    hide Opens, Over, Locks;
    if n == 0 {
      return -1, -1;
    }
    var p := n - 1;
    var s, t := After(h, p), if p == 0 then h[0].time else h[p - 1].time;
    o, k := SessionReads(h, p);
    if Expire(s, h[p].time).Unlisted? {
      o := SessionStarts(h, p, s, o, k, t);
      k := 0;
    } else {
      o, k := SessionGoesOn(h, p, s, o, k, t);
    }
  }

  /**
   * A key is refused at time `t` if and only if, in its history, the third bad
   * signature of a window came less than a lockout ago.
   */
  lemma RefusedIffLocked(h: History, n: nat, t: int)
    requires Ordered(h) && n <= |h| && (n > 0 ==> h[n - 1].time <= t)
    ensures Expire(After(h, n), t).Blocked? <==> Locked(h, n, t)
  {
    hide Opens;
    var s := After(h, n);
    var o, k := SessionReads(h, n);
    forall x: nat, y: nat | x < y < n && Opens(h, x) && Locks(h, x, y)
      ensures h[y].time + LOCKOUT <= t || Expire(s, t).Blocked?
    {
      if x != o {
        OverStays(h, x, n, h[n - 1].time, n, t);
      } else {
        CurrentIsOver(h, n, s, o, k, t);
        LockedIsBlocked(h, n, s, x, k, y);
      }
    }
  }

  lemma LockedIsBlocked(h: History, n: nat, s: Session, o: nat, k: int, y: nat)
    requires n <= |h| && Reads(h, n, s, o, k) && y < n && Locks(h, o, y)
    ensures s.Blocked? && k == y
  {
    if s.Validating? {
      NotYetLocked(h, o, n);
    } else if s.Blocked? {
      ThirdIsUnique(h, o, k, y);
    }
  }

  /** Three bad signatures in one window's length with no good one between. */
  ghost predicate ThreeBad(h: History, i: nat, j: nat, k: nat) {
    && i < j < k < |h| && h[i].verdict == Bad && h[j].verdict == Bad && h[k].verdict == Bad
    && h[k].time < h[i].time + WINDOW && NoGood(h, i, k + 1)
  }

  /** In particular, three bad signatures fell in one window with no good one between. */
  lemma LockedNeedsThree(h: History, n: nat, t: int)
    requires n <= |h| && Locked(h, n, t)
    ensures exists i: nat, j: nat, k: nat :: i < j < k < n && ThreeBad(h, i, j, k) && t < h[k].time + LOCKOUT
  {
    var o: nat, k: nat :| o < k < n && Opens(h, o) && Locks(h, o, k) && t < h[k].time + LOCKOUT;
    var j := BadBetween(h, o, k);
    assert ThreeBad(h, o, j, k);
  }

  lemma {:induction false} BadBetween(h: History, o: nat, k: nat) returns (j: nat)
    requires o < k < |h| && BadCount(h, o, k) >= 2
    ensures o < j < k && h[j].verdict == Bad
  {
    j := k - 1;
    if h[j].verdict != Bad || j == o {
      j := BadBetween(h, o, k - 1);
    }
  }

  /**
   * A key with three bad signatures to its name is locked exactly if the third
   * came less than 300 seconds after the first, and for 900 seconds from then
   * on. Two are not enough.
   */
  lemma LockoutInSeconds(a: int, b: int, c: int, t: int)
    requires a <= b <= c <= t
    ensures var h := [Event(a, Bad), Event(b, Bad), Event(c, Bad)];
      && (Locked(h, 3, t) <==> c < a + 300_000_000_000 && t < c + 900_000_000_000)
      && !Locked(h, 2, t)
  {
    var h := [Event(a, Bad), Event(b, Bad), Event(c, Bad)];
    assert After(h, 1) == Validating(1, a + WINDOW);
    assert After(h, 2) == if b < a + WINDOW then Validating(2, a + WINDOW) else Validating(1, b + WINDOW);
    RefusedIffLocked(h, 2, t);
    RefusedIffLocked(h, 3, t);
  }

  /**
   * The converse fails: windows do not slide. Of bad signatures at 0, 299, 301 and 310 s the last three do not lock.
   */
  lemma WindowsDoNotSlide()
    ensures var h := [Event(0, Bad), Event(299 * SECOND, Bad), Event(301 * SECOND, Bad), Event(310 * SECOND, Bad)];
      Ordered(h) && ThreeBad(h, 1, 2, 3) && !Locked(h, 4, 310 * SECOND)
  {
    var h := [Event(0, Bad), Event(299 * SECOND, Bad), Event(301 * SECOND, Bad), Event(310 * SECOND, Bad)];
    assert After(h, 1) == Validating(1, WINDOW);
    assert After(h, 2) == Validating(2, WINDOW);
    assert After(h, 3) == Validating(1, 601 * SECOND);
    assert After(h, 4) == Validating(2, 601 * SECOND);
    RefusedIffLocked(h, 4, 310 * SECOND);
  }
}
