/** The Redis lock: SET NX with an expiry, and a release that deletes the key only for its owner's token. */
module BidLock {
  import opened AuctionTypes

  const TTL := 3 * SECOND

  datatype Entry = Entry(token: int, expires: int)

  function LiveEntry(entry: Option<Entry>, now: int): Option<Entry> {
    if entry.Some? && entry.value.expires > now then entry else None
  }

  class RedisLocker {
    var entry: Option<Entry>

    constructor ()
      ensures entry == None
    {
      entry := None;
    }

    method Acquire(token: int, now: int) returns (locked: bool)
      modifies this
      ensures locked == LiveEntry(old(entry), now).None?
      ensures entry == if locked then Some(Entry(token, now + TTL)) else old(entry)
    {
      if entry.Some? && now < entry.value.expires {
        return false;
      }
      entry := Some(Entry(token, now + TTL));
      return true;
    }

    method Release(token: int, now: int)
      modifies this
      ensures entry == Released(old(entry), token, now)
    {
      if entry.Some? && now < entry.value.expires && entry.value.token == token {
        entry := None;
      }
    }
  }

  function Released(entry: Option<Entry>, token: int, now: int): Option<Entry> {
    var live := LiveEntry(entry, now);
    if live.Some? && live.value.token == token then None else entry
  }

  /** Any number of calls over one lock; a call that was locked remembers when its hold runs out. */
  datatype Sys = Sys(entry: Option<Entry>, clock: int, holds: map<nat, int>, spent: set<nat>)

  datatype Action = Tick(to: int) | Acquire(call: nat) | Release(call: nat)

  function Next(s: Sys, token: nat -> int, act: Action): Sys {
    match act
    case Tick(to) => if s.clock <= to then s.(clock := to) else s
    case Acquire(c) =>
      if c in s.spent then s
      else if LiveEntry(s.entry, s.clock).Some? then s.(spent := s.spent + {c})
      else s.(entry := Some(Entry(token(c), s.clock + TTL)), holds := s.holds[c := s.clock + TTL],
              spent := s.spent + {c})
    case Release(c) =>
      if c !in s.holds then s
      else s.(entry := Released(s.entry, token(c), s.clock), holds := s.holds - {c})
  }

  function Exec(s: Sys, token: nat -> int, acts: seq<Action>): Sys
    decreases |acts|
  {
    if acts == [] then s else Exec(Next(s, token, acts[0]), token, acts[1..])
  }

  predicate Holds(s: Sys, c: nat) {
    c in s.holds && s.holds[c] > s.clock
  }

  ghost predicate Distinct(token: nat -> int) {
    forall c, d :: token(c) == token(d) ==> c == d
  }

  /** Every unexpired hold is the stored entry. */
  ghost predicate Owned(s: Sys, token: nat -> int) {
    forall c | Holds(s, c) :: s.entry == Some(Entry(token(c), s.holds[c]))
  }

  lemma {:induction false} RunOwned(s: Sys, token: nat -> int, acts: seq<Action>)
    requires Distinct(token) && Owned(s, token)
    ensures Owned(Exec(s, token, acts), token)
    decreases |acts|
  {
    if acts != [] {
      var s' := Next(s, token, acts[0]);
      forall c | Holds(s', c)
        ensures s'.entry == Some(Entry(token(c), s'.holds[c]))
      {
        if acts[0] != Acquire(c) || c in s.spent {
          assert Holds(s, c);
        }
      }
      RunOwned(s', token, acts[1..]);
    }
  }

  /** With distinct request ids, at most one call holds the lock at any time of any run. */
  lemma MutualExclusion(clock: int, token: nat -> int, acts: seq<Action>, c: nat, d: nat)
    requires Distinct(token)
    requires var s := Exec(Sys(None, clock, map[], {}), token, acts); Holds(s, c) && Holds(s, d)
    ensures c == d
  {
    RunOwned(Sys(None, clock, map[], {}), token, acts);
  }

  /** Releasing, even after one's own expiry, takes the lock from another holder exactly if the two
      request ids are equal. */
  lemma ReleaseSparesOthers(s: Sys, token: nat -> int, c: nat, d: nat)
    requires Owned(s, token) && c in s.holds && Holds(s, d) && c != d
    ensures LiveEntry(Next(s, token, Release(c)).entry, s.clock) == Some(Entry(token(d), s.holds[d]))
       <==> token(c) != token(d)
  {
    assert s.entry == Some(Entry(token(d), s.holds[d]));
  }

  /** A call that gets the lock holds it for three seconds unless it releases it, and gets it exactly if no one else's
      three seconds are running. */
  lemma HoldsForThreeSeconds(s: Sys, token: nat -> int, c: nat, to: int)
    requires c !in s.spent && c !in s.holds && s.clock <= to
    ensures var s' := Next(s, token, Acquire(c));
            && (LiveEntry(s.entry, s.clock) == None <==> c in s'.holds)
            && (c in s'.holds ==> (Holds(Next(s', token, Tick(to)), c) <==> to - s.clock < 3_000_000_000))
            && (c in s'.holds ==> s'.entry == Some(Entry(token(c), s.clock + 3_000_000_000)))
            && c !in Next(s', token, Release(c)).holds
  {
  }

  ghost predicate AtMostOne(clock: int, token: nat -> int) {
    forall acts, c, d ::
      Holds(Exec(Sys(None, clock, map[], {}), token, acts), c)
      && Holds(Exec(Sys(None, clock, map[], {}), token, acts), d)
      ==> c == d
  }

  lemma FiveSteps(s: Sys, token: nat -> int, v: Action, w: Action, x: Action, y: Action, z: Action)
    ensures Exec(s, token, [v, w, x, y, z])
            == Next(Next(Next(Next(Next(s, token, v), token, w), token, x), token, y), token, z)
  {
    hide Next;
    assert [v, w, x, y, z][1..] == [w, x, y, z] && [w, x, y, z][1..] == [x, y, z] && [x, y, z][1..] == [y, z];
    assert [y, z][1..] == [z] && [z][1..] == [];
    var s2 := Next(Next(s, token, v), token, w);
    assert Exec(s2, token, [x, y, z]) == Exec(Next(s2, token, x), token, [y, z]);
    assert Exec(Next(s2, token, x), token, [y, z]) == Exec(Next(Next(s2, token, x), token, y), token, [z]);
  }

  /** Two calls under one request id: the late release of the first lets any third call in beside the second. */
  lemma SharedRequestId(clock: int, token: nat -> int, c: nat, d: nat, e: nat)
    requires c != d && e != c && e != d && token(c) == token(d)
    ensures var s := Exec(Sys(None, clock, map[], {}), token,
                          [Acquire(c), Tick(clock + TTL), Acquire(d), Release(c), Acquire(e)]);
            Holds(s, d) && Holds(s, e)
  {
    FiveSteps(Sys(None, clock, map[], {}), token, Acquire(c), Tick(clock + TTL), Acquire(d), Release(c), Acquire(e));
  }

  /** The lock excludes in every run exactly if no two calls share a request id. */
  lemma ExcludesIffDistinct(clock: int, token: nat -> int)
    ensures AtMostOne(clock, token) <==> Distinct(token)
  {
    if Distinct(token) {
      forall acts, c: nat, d: nat | Holds(Exec(Sys(None, clock, map[], {}), token, acts), c)
                                  && Holds(Exec(Sys(None, clock, map[], {}), token, acts), d)
        ensures c == d
      {
        MutualExclusion(clock, token, acts, c, d);
      }
    } else {
      var c: nat, d: nat :| token(c) == token(d) && c != d;
      SharedRequestId(clock, token, c, d, c + d + 1);
    }
  }
}
