/** The replay cache of the app-assertion verifier: a bounded, pruned, insertion-ordered record of
    accepted assertion ids, against the log of everything it ever accepted. */
module ReplayCache {

  const APP_ASSERTION_MAX_TTL_SECONDS: int := 300

  datatype Entry = Entry(id: string, expiresAt: int)

  /** One presentation of an assertion. The verifier reads its clock once for the freshness checks
      and once more for the cache; `valid` is the verdict of every check that reads neither. */
  datatype Attempt = Attempt(id: string, issuedAt: int, expiresAt: int, first: int, second: int, valid: bool)

  function EntryOf(a: Attempt): Entry {
    Entry(a.id, a.expiresAt)
  }

  /** The checks that come before the cache. */
  predicate Admissible(a: Attempt, skew: nat) {
    && a.valid
    && a.expiresAt > a.first
    && a.issuedAt <= a.first + skew
    && a.expiresAt - a.issuedAt <= APP_ASSERTION_MAX_TTL_SECONDS
  }

  // ---------------------------------------------------------------------------- the cache itself

  function Unexpired(seen: seq<Entry>, now: int): seq<Entry> {
    if seen == [] then []
    else (if seen[0].expiresAt > now then [seen[0]] else []) + Unexpired(seen[1..], now)
  }

  predicate Knows(seen: seq<Entry>, id: string) {
    exists k :: 0 <= k < |seen| && seen[k].id == id
  }

  /** The newest `limit` entries. */
  function Newest(seen: seq<Entry>, limit: nat): seq<Entry> {
    if |seen| > limit then seen[|seen| - limit..] else seen
  }

  predicate Rejects(seen: seq<Entry>, id: string, now: int) {
    Knows(Unexpired(seen, now), id)
  }

  function Remember(seen: seq<Entry>, entry: Entry, now: int, limit: nat): seq<Entry> {
    if Rejects(seen, entry.id, now) then Unexpired(seen, now)
    else Newest(Unexpired(seen, now) + [entry], limit)
  }

  ghost predicate UniqueIds(seen: seq<Entry>) {
    forall j, k :: 0 <= j < k < |seen| ==> seen[j].id != seen[k].id
  }

  /** The entries whose id is not listed in `dead`. */
  function Keep(seen: seq<Entry>, dead: seq<string>): seq<Entry> {
    if seen == [] then []
    else (if seen[0].id in dead then [] else [seen[0]]) + Keep(seen[1..], dead)
  }

  lemma {:induction false} KeepTwice(seen: seq<Entry>, dead: seq<string>, id: string)
    ensures Keep(Keep(seen, dead), [id]) == Keep(seen, dead + [id])
  {
    if seen != [] {
      KeepTwice(seen[1..], dead, id);
      if seen[0].id !in dead {
        assert Keep(seen, dead) == [seen[0]] + Keep(seen[1..], dead);
        assert Keep(seen, dead)[1..] == Keep(seen[1..], dead);
      } else {
        assert Keep(seen, dead) == Keep(seen[1..], dead);
      }
    }
  }

  lemma {:induction false} KeepAll(seen: seq<Entry>)
    ensures Keep(seen, []) == seen
  {
    if seen != [] {
      KeepAll(seen[1..]);
    }
  }

  /** With unique ids, dropping the ids of the expired entries drops exactly these entries. */
  lemma {:induction false} KeepIsUnexpired(seen: seq<Entry>, dead: seq<string>, now: int)
    requires forall k :: 0 <= k < |seen| ==> (seen[k].id in dead <==> seen[k].expiresAt <= now)
    ensures Keep(seen, dead) == Unexpired(seen, now)
  {
    if seen != [] {
      KeepIsUnexpired(seen[1..], dead, now);
    }
  }

  lemma {:induction false} UnexpiredMembers(seen: seq<Entry>, now: int, entry: Entry)
    ensures entry in Unexpired(seen, now) <==> entry in seen && entry.expiresAt > now
  {
    if seen != [] {
      UnexpiredMembers(seen[1..], now, entry);
      assert seen == [seen[0]] + seen[1..];
    }
  }

  lemma {:induction false} UnexpiredUnique(seen: seq<Entry>, now: int)
    requires UniqueIds(seen)
    ensures UniqueIds(Unexpired(seen, now))
  {
    if seen != [] {
      UnexpiredUnique(seen[1..], now);
      var rest := Unexpired(seen[1..], now);
      forall k | 0 <= k < |rest| ensures rest[k].id != seen[0].id {
        UnexpiredMembers(seen[1..], now, rest[k]);
      }
    }
  }

  class AppAssertionVerifier {
    const clockSkewSeconds: nat
    const seenLimit: nat
    var seen: seq<Entry>

    ghost predicate Valid()
      reads this
    {
      seenLimit >= 1 && UniqueIds(seen)
    }

    /** Settings below the minimum are raised to it. */
    constructor (clockSkewSeconds: int, seenLimit: int)
      ensures Valid() && seen == []
      ensures this.clockSkewSeconds == (if clockSkewSeconds > 0 then clockSkewSeconds else 0)
      ensures this.seenLimit == if seenLimit > 1 then seenLimit else 1
    {
      this.clockSkewSeconds := if clockSkewSeconds > 0 then clockSkewSeconds else 0;
      this.seenLimit := if seenLimit > 1 then seenLimit else 1;
      seen := [];
    }

    /** Collects the ids of the expired entries. */
    method StaleIds(current: int) returns (stale: seq<string>)
      requires Valid()
      ensures forall k :: 0 <= k < |seen| ==> (seen[k].id in stale <==> seen[k].expiresAt <= current)
    {
      stale := [];
      for k := 0 to |seen|
        invariant forall j :: 0 <= j < k ==> (seen[j].id in stale <==> seen[j].expiresAt <= current)
        invariant forall j :: k <= j < |seen| ==> seen[j].id !in stale
      {
        if seen[k].expiresAt <= current {
          stale := stale + [seen[k].id];
        }
      }
    }

    method Prune(current: int)
      requires Valid()
      modifies this
      ensures Valid() && seen == Unexpired(old(seen), current)
    {
      var stale := StaleIds(current);
      KeepIsUnexpired(seen, stale, current);
      UnexpiredUnique(seen, current);
      KeepAll(seen);
      for k := 0 to |stale|
        invariant seen == Keep(old(seen), stale[..k])
      {
        KeepTwice(old(seen), stale[..k], stale[k]);
        assert stale[..k] + [stale[k]] == stale[..k + 1];
        seen := Keep(seen, [stale[k]]);
      }
      assert stale[..|stale|] == stale;
    }

    method Evict()
      requires Valid()
      modifies this
      ensures Valid() && seen == Newest(old(seen), seenLimit)
    {
      while |seen| > seenLimit
        invariant |seen| <= |old(seen)| && seen == old(seen)[|old(seen)| - |seen|..]
        invariant |seen| == |old(seen)| || |seen| >= seenLimit
      {
        seen := seen[1..];
      }
    }

    /** Prunes, looks up, inserts and evicts. */
    method RejectReplay(current: int, id: string, expiresAt: int) returns (accepted: bool)
      requires Valid()
      modifies this
      ensures Valid()
      ensures accepted == !Rejects(old(seen), id, current)
      ensures seen == Remember(old(seen), Entry(id, expiresAt), current, seenLimit)
    {
      Prune(current);
      if k :| 0 <= k < |seen| && seen[k].id == id {
        return false;
      }
      seen := seen + [Entry(id, expiresAt)];
      Evict();
      return true;
    }

    /** `verify` on a parsed assertion: the checks, then the cache. */
    method Verify(a: Attempt) returns (accepted: bool)
      requires Valid()
      modifies this
      ensures Valid()
      ensures accepted == (Admissible(a, clockSkewSeconds) && !Rejects(old(seen), a.id, a.second))
      ensures seen == if Admissible(a, clockSkewSeconds)
                      then Remember(old(seen), EntryOf(a), a.second, seenLimit) else old(seen)
    {
      if a.expiresAt <= a.first || a.issuedAt > a.first + clockSkewSeconds
         || a.expiresAt - a.issuedAt > APP_ASSERTION_MAX_TTL_SECONDS || !a.valid {
        return false;
      }
      accepted := RejectReplay(a.second, a.id, a.expiresAt);
    }
  }

  // ------------------------------------------------------------------------ the cache over whole runs

  /** The cache together with the log of every presentation it accepted. */
  datatype State = State(seen: seq<Entry>, log: seq<Attempt>)

  datatype Settings = Settings(skew: nat, limit: nat)

  predicate Accepts(s: State, a: Attempt, c: Settings) {
    Admissible(a, c.skew) && !Rejects(s.seen, a.id, a.second)
  }

  function Step(s: State, a: Attempt, c: Settings): State {
    State(if Admissible(a, c.skew) then Remember(s.seen, EntryOf(a), a.second, c.limit) else s.seen,
          if Accepts(s, a, c) then s.log + [a] else s.log)
  }

  function Run(attempts: seq<Attempt>, c: Settings): State {
    if attempts == [] then State([], [])
    else Step(Run(attempts[..|attempts| - 1], c), attempts[|attempts| - 1], c)
  }

  /** The clock does not run backwards, within a presentation or between two. */
  ghost predicate InOrder(attempts: seq<Attempt>) {
    && (forall k :: 0 <= k < |attempts| ==> attempts[k].first <= attempts[k].second)
    && (forall j, k :: 0 <= j < k < |attempts| ==> attempts[j].second <= attempts[k].first)
  }

  /** `kept` are the log positions of the entries in the cache, oldest first. */
  ghost predicate Aligned(seen: seq<Entry>, kept: seq<nat>, log: seq<Attempt>) {
    && |kept| == |seen|
    && (forall k :: 0 <= k < |kept| ==> kept[k] < |log| && seen[k] == EntryOf(log[kept[k]]))
    && (forall j, k :: 0 <= j < k < |kept| ==> kept[j] < kept[k])
  }

  /** The acceptances between `x` and `y` that had not expired when `y` was accepted. */
  ghost function Between(log: seq<Attempt>, x: nat, y: nat): set<nat>
    requires y < |log|
  {
    set z: nat | x < z < y && log[z].expiresAt > log[y].second
  }

  /** Acceptance `x` has been pushed out: at some later acceptance, that one and the unexpired ones
      between the two made `limit`. */
  ghost predicate Forgotten(log: seq<Attempt>, x: nat, limit: nat) {
    exists y: nat :: x < y < |log| && |Between(log, x, y)| + 1 >= limit
  }

  /** Of the acceptances that have not expired, the cache holds exactly those not pushed out. */
  ghost predicate KeptExactly(kept: seq<nat>, log: seq<Attempt>, limit: nat, now: int) {
    forall x: nat :: x < |log| && log[x].expiresAt > now ==> (x in kept <==> !Forgotten(log, x, limit))
  }

  ghost predicate Tracks(s: State, kept: seq<nat>, limit: nat, now: int) {
    Aligned(s.seen, kept, s.log) && KeptExactly(kept, s.log, limit, now) && |s.seen| <= limit
  }

  lemma AlignedCons(k: nat, seen: seq<Entry>, kept: seq<nat>, log: seq<Attempt>)
    requires Aligned(seen, kept, log) && k < |log| && forall j :: 0 <= j < |kept| ==> k < kept[j]
    ensures Aligned([EntryOf(log[k])] + seen, [k] + kept, log)
  {
  }

  lemma AlignedTail(seen: seq<Entry>, kept: seq<nat>, log: seq<Attempt>)
    requires Aligned(seen, kept, log) && kept != []
    ensures Aligned(seen[1..], kept[1..], log) && kept[0] < |log| && seen[0] == EntryOf(log[kept[0]])
    ensures forall x :: x in kept[1..] ==> kept[0] < x
    ensures forall x :: x in kept <==> x == kept[0] || x in kept[1..]
  {
    assert kept == [kept[0]] + kept[1..];
  }

  lemma {:induction false} UnexpiredAligned(seen: seq<Entry>, kept: seq<nat>, log: seq<Attempt>, now: int)
    returns (live: seq<nat>)
    requires Aligned(seen, kept, log)
    ensures Aligned(Unexpired(seen, now), live, log) && |live| <= |kept|
    ensures forall x :: x in live <==> x in kept && log[x].expiresAt > now
  {
    if kept == [] {
      live := [];
    } else {
      AlignedTail(seen, kept, log);
      var rest := UnexpiredAligned(seen[1..], kept[1..], log, now);
      if log[kept[0]].expiresAt > now {
        assert forall k :: 0 <= k < |rest| ==> rest[k] in rest;
        AlignedCons(kept[0], Unexpired(seen[1..], now), rest, log);
        live := [kept[0]] + rest;
      } else {
        live := rest;
      }
    }
  }

  lemma {:induction false} SubsetSize(a: set<nat>, b: set<nat>)
    requires a <= b
    ensures |a| <= |b|
  {
    if a != {} {
      var x :| x in a;
      SubsetSize(a - {x}, b - {x});
    }
  }

  /** An increasing sequence is as long as the set of its members is large. */
  lemma {:induction false} IncreasingSize(s: seq<nat>, members: set<nat>)
    requires forall j, k :: 0 <= j < k < |s| ==> s[j] < s[k]
    requires forall x :: x in s <==> x in members
    ensures |s| == |members|
  {
    if s == [] {
      assert members == {};
    } else {
      var init, last := s[..|s| - 1], s[|s| - 1];
      assert s == init + [last];
      IncreasingSize(init, members - {last});
    }
  }

  /** What pushes out a newer acceptance has pushed out every older one. */
  lemma OlderForgotten(log: seq<Attempt>, x: nat, z: nat, limit: nat)
    requires x < z && Forgotten(log, z, limit)
    ensures Forgotten(log, x, limit)
  {
    var y: nat :| z < y < |log| && |Between(log, z, y)| + 1 >= limit;
    SubsetSize(Between(log, z, y), Between(log, x, y));
  }

  lemma {:induction false} SizeWithin(members: set<nat>, lo: nat, hi: nat)
    requires lo <= hi && forall z :: z in members ==> lo <= z < hi
    ensures |members| <= hi - lo
    decreases hi
  {
    if lo < hi {
      SizeWithin(members - {hi - 1}, lo, hi - 1);
    } else {
      assert members == {};
    }
  }

  /** An acceptance among the last `limit` has not been pushed out. */
  lemma RecentNotForgotten(log: seq<Attempt>, x: nat, limit: nat)
    requires limit >= 1 && |log| - limit <= x < |log|
    ensures !Forgotten(log, x, limit)
  {
    forall y: nat | x < y < |log| ensures |Between(log, x, y)| + 1 < limit {
      SizeWithin(Between(log, x, y), x + 1, y);
    }
  }

  /** One more acceptance pushes out what it leaves too little room for. */
  lemma ForgottenAppend(log: seq<Attempt>, a: Attempt, x: nat, limit: nat)
    requires x < |log|
    ensures Forgotten(log + [a], x, limit) <==> Forgotten(log, x, limit) || |Between(log + [a], x, |log|)| + 1 >= limit
  {
    var longer := log + [a];
    assert forall y: nat :: x < y < |log| ==> Between(longer, x, y) == Between(log, x, y);
  }

  lemma AppendAligned(live: seq<Entry>, kept: seq<nat>, log: seq<Attempt>, a: Attempt)
    requires Aligned(live, kept, log)
    ensures Aligned(live + [EntryOf(a)], kept + [|log|], log + [a])
  {
  }

  lemma NewestAligned(seen: seq<Entry>, kept: seq<nat>, log: seq<Attempt>, n: nat)
    requires Aligned(seen, kept, log) && n <= |seen|
    ensures Aligned(seen[n..], kept[n..], log)
  {
  }

  /** Behind position `k` of the live entries are exactly the unexpired acceptances after it. */
  lemma LiveBehind(live: seq<nat>, log: seq<Attempt>, a: Attempt, limit: nat, k: nat)
    requires k < |live| && (forall j, m :: 0 <= j < m < |live| ==> live[j] < live[m])
    requires forall j :: 0 <= j < |live| ==> live[j] < |log| && log[live[j]].expiresAt > a.second
    requires KeptExactly(live, log, limit, a.second)
    ensures |Between(log + [a], live[k], |log|)| == |live| - k - 1
  {
    var x := live[k];
    assert !Forgotten(log, x, limit);
    forall z: nat ensures z in live[k + 1..] <==> z in Between(log + [a], x, |log|) {
      if z in Between(log + [a], x, |log|) {
        if Forgotten(log, z, limit) {
          OlderForgotten(log, x, z, limit);
        }
        assert z in live;
        var j :| 0 <= j < |live| && live[j] == z;
        assert j > k && live[k + 1..][j - k - 1] == z;
      }
    }
    IncreasingSize(live[k + 1..], Between(log + [a], x, |log|));
  }

  /** The acceptance at position `x` survives the insertion exactly if it is not pushed out by it. */
  lemma InsertKeeps(live: seq<nat>, log: seq<Attempt>, a: Attempt, limit: nat, x: nat)
    requires limit >= 1 && |live| <= limit && (forall j, m :: 0 <= j < m < |live| ==> live[j] < live[m])
    requires forall j :: 0 <= j < |live| ==> live[j] < |log| && log[live[j]].expiresAt > a.second
    requires KeptExactly(live, log, limit, a.second) && x < |log| && log[x].expiresAt > a.second
    ensures var n := if |live| == limit then 1 else 0;
      x in (live + [|log|])[n..] <==> !Forgotten(log + [a], x, limit)
  {
    var n := if |live| == limit then 1 else 0;
    ForgottenAppend(log, a, x, limit);
    if x in live {
      var k :| 0 <= k < |live| && live[k] == x;
      LiveBehind(live, log, a, limit, k);
      assert k >= n ==> (live + [|log|])[n..][k - n] == x;
    }
  }

  /** Inserting the acceptance at the end of the log and evicting the oldest entry over the limit. */
  lemma InsertTracks(live: seq<Entry>, kept: seq<nat>, log: seq<Attempt>, a: Attempt, limit: nat) returns (kept': seq<nat>)
    requires limit >= 1 && Aligned(live, kept, log) && |live| <= limit && KeptExactly(kept, log, limit, a.second)
    requires forall j :: 0 <= j < |kept| ==> log[kept[j]].expiresAt > a.second
    ensures Tracks(State(Newest(live + [EntryOf(a)], limit), log + [a]), kept', limit, a.second)
  {
    var all := kept + [|log|];
    var n := if |live| == limit then 1 else 0;
    kept' := all[n..];
    AppendAligned(live, kept, log, a);
    NewestAligned(live + [EntryOf(a)], all, log + [a], n);
    forall x: nat | x < |log| + 1 && (log + [a])[x].expiresAt > a.second
      ensures x in kept' <==> !Forgotten(log + [a], x, limit)
    {
      if x < |log| {
        InsertKeeps(kept, log, a, limit, x);
      } else {
        assert kept'[|kept'| - 1] == x;
      }
    }
  }

  lemma StepTracks(s: State, kept: seq<nat>, a: Attempt, c: Settings, now: int) returns (kept': seq<nat>)
    requires c.limit >= 1 && Tracks(s, kept, c.limit, now) && now <= a.second
    ensures Tracks(Step(s, a, c), kept', c.limit, a.second)
  {
    if !Admissible(a, c.skew) {
      kept' := kept;
    } else {
      var live := UnexpiredAligned(s.seen, kept, s.log, a.second);
      if Rejects(s.seen, a.id, a.second) {
        kept' := live;
      } else {
        assert forall j :: 0 <= j < |live| ==> live[j] in live;
        kept' := InsertTracks(Unexpired(s.seen, a.second), live, s.log, a, c.limit);
      }
    }
  }

  /** The clock value up to which a run has been seen. */
  function ClockOf(attempts: seq<Attempt>): int {
    if attempts == [] then 0 else attempts[|attempts| - 1].second
  }

  lemma {:induction false} RunTracks(attempts: seq<Attempt>, c: Settings) returns (kept: seq<nat>)
    requires InOrder(attempts) && c.limit >= 1
    ensures Tracks(Run(attempts, c), kept, c.limit, ClockOf(attempts))
  {
    if attempts == [] {
      kept := [];
    } else {
      var init := attempts[..|attempts| - 1];
      var before := RunTracks(init, c);
      var now := if init == [] then attempts[0].second else ClockOf(init);
      assert Tracks(Run(init, c), before, c.limit, now);
      kept := StepTracks(Run(init, c), before, attempts[|attempts| - 1], c, now);
    }
  }

  // ------------------------------------------------------------------------------------- promises

  /** The cache never exceeds its limit. */
  lemma CacheIsBounded(attempts: seq<Attempt>, c: Settings)
    requires InOrder(attempts) && c.limit >= 1
    ensures |Run(attempts, c).seen| <= c.limit
  {
    var kept := RunTracks(attempts, c);
  }

  /** Nothing is rejected without cause: a rejection names an acceptance of this id that has neither
      expired nor been pushed out. */
  lemma RejectionHasCause(s: State, kept: seq<nat>, limit: nat, id: string, now: int, at: int)
    requires Tracks(s, kept, limit, now) && now <= at && Rejects(s.seen, id, at)
    ensures exists x: nat :: x < |s.log| && s.log[x].id == id && s.log[x].expiresAt > at && !Forgotten(s.log, x, limit)
  {
    var live := Unexpired(s.seen, at);
    var k :| 0 <= k < |live| && live[k].id == id;
    UnexpiredMembers(s.seen, at, live[k]);
    var j :| 0 <= j < |s.seen| && s.seen[j] == live[k];
    assert s.log[kept[j]].id == id && kept[j] in kept;
  }

  /** An acceptance that has neither expired nor been pushed out is recognised. */
  lemma KeptIsRejected(s: State, kept: seq<nat>, limit: nat, now: int, x: nat, at: int)
    requires Tracks(s, kept, limit, now) && now <= at
    requires x < |s.log| && s.log[x].expiresAt > at && !Forgotten(s.log, x, limit)
    ensures Rejects(s.seen, s.log[x].id, at)
  {
    assert x in kept;
    var k :| 0 <= k < |kept| && kept[k] == x;
    assert s.seen[k] == EntryOf(s.log[x]);
    UnexpiredMembers(s.seen, at, s.seen[k]);
    var live := Unexpired(s.seen, at);
    var j :| 0 <= j < |live| && live[j] == s.seen[k];
    assert Knows(live, s.log[x].id);
  }

  lemma PrefixInOrder(attempts: seq<Attempt>, a: Attempt)
    requires InOrder(attempts + [a])
    ensures InOrder(attempts) && (attempts != [] ==> ClockOf(attempts) <= a.second)
  {
    assert forall k :: 0 <= k < |attempts| ==> (attempts + [a])[k] == attempts[k];
    assert (attempts + [a])[|attempts|] == a;
  }

  /** Exactly what one verification accepts, by the entries of the cache. */
  lemma AcceptsIff(s: State, a: Attempt, c: Settings)
    ensures Accepts(s, a, c) <==>
            && a.valid && a.first < a.expiresAt && a.issuedAt <= a.first + c.skew && a.expiresAt - a.issuedAt <= 300
            && (forall k :: 0 <= k < |s.seen| && s.seen[k].id == a.id ==> s.seen[k].expiresAt <= a.second)
  {
    var live := Unexpired(s.seen, a.second);
    forall k | 0 <= k < |s.seen| ensures s.seen[k] in live <==> s.seen[k].expiresAt > a.second {
      UnexpiredMembers(s.seen, a.second, s.seen[k]);
    }
    if Knows(live, a.id) {
      var j :| 0 <= j < |live| && live[j].id == a.id;
      UnexpiredMembers(s.seen, a.second, live[j]);
      assert live[j] in s.seen;
    }
    forall k | 0 <= k < |s.seen| && s.seen[k].id == a.id && s.seen[k].expiresAt > a.second ensures Knows(live, a.id) {
      var j :| 0 <= j < |live| && live[j] == s.seen[k];
    }
  }

  /** Exactly what the cache accepts, at any rate: what passes the checks and whose every unexpired
      acceptance has been pushed out. */
  lemma DecidesExactly(attempts: seq<Attempt>, c: Settings, a: Attempt)
    requires InOrder(attempts + [a]) && c.limit >= 1
    ensures var log := Run(attempts, c).log;
      Accepts(Run(attempts, c), a, c) <==>
      Admissible(a, c.skew) &&
      forall x: nat :: x < |log| && log[x].id == a.id && log[x].expiresAt > a.second ==> Forgotten(log, x, c.limit)
  {
    PrefixInOrder(attempts, a);
    var s := Run(attempts, c);
    var kept := RunTracks(attempts, c);
    var now := if attempts == [] then a.second else ClockOf(attempts);
    if Rejects(s.seen, a.id, a.second) {
      RejectionHasCause(s, kept, c.limit, a.id, a.second, a.second);
    } else {
      forall x: nat | x < |s.log| && s.log[x].id == a.id && s.log[x].expiresAt > a.second
        ensures Forgotten(s.log, x, c.limit)
      {
        if !Forgotten(s.log, x, c.limit) {
          KeptIsRejected(s, kept, c.limit, now, x, a.second);
        }
      }
    }
  }

  lemma {:induction false} LogComesFromAttempts(attempts: seq<Attempt>, c: Settings)
    ensures forall x :: 0 <= x < |Run(attempts, c).log| ==>
              Run(attempts, c).log[x] in attempts && Admissible(Run(attempts, c).log[x], c.skew)
  {
    if attempts != [] {
      LogComesFromAttempts(attempts[..|attempts| - 1], c);
      assert attempts == attempts[..|attempts| - 1] + [attempts[|attempts| - 1]];
    }
  }

  /** Without any assumption on the rate: two acceptances of one id, the first unexpired when the
      cache looked for it, have at least `limit` other acceptances strictly between them. */
  lemma {:induction false} TwiceNeedsLimitBetween(attempts: seq<Attempt>, c: Settings, x: nat, y: nat)
    requires InOrder(attempts) && c.limit >= 1
    requires x < y < |Run(attempts, c).log|
    requires Run(attempts, c).log[x].id == Run(attempts, c).log[y].id
    requires Run(attempts, c).log[x].expiresAt > Run(attempts, c).log[y].second
    ensures y - x - 1 >= c.limit
  {
    var init := attempts[..|attempts| - 1];
    var last := attempts[|attempts| - 1];
    var s := Run(init, c);
    if y < |s.log| {
      TwiceNeedsLimitBetween(init, c, x, y);
    } else {
      var kept := RunTracks(init, c);
      if |s.log| - c.limit <= x {
        var now := if init == [] then last.second else ClockOf(init);
        RecentNotForgotten(s.log, x, c.limit);
        KeptIsRejected(s, kept, c.limit, now, x, last.second);
      }
    }
  }

  /** Any `limit + 1` consecutive acceptances take at least the longest life of an assertion plus
      the clock skew: no window of that length holds more than `limit` of them. */
  ghost predicate RateHolds(log: seq<Attempt>, c: Settings) {
    forall b :: c.limit <= b < |log| ==>
      log[b - c.limit].first + APP_ASSERTION_MAX_TTL_SECONDS + c.skew <= log[b].second
  }

  /** Some earlier acceptance of this id is still inside its lifetime: what an unbounded log would find. */
  ghost predicate LoggedAlive(log: seq<Attempt>, id: string, now: int) {
    exists x :: 0 <= x < |log| && log[x].id == id && log[x].expiresAt > now
  }

  /** Under the rate, an acceptance older than the last `limit` has expired. */
  lemma OldHasExpired(attempts: seq<Attempt>, c: Settings, x: nat, at: int)
    requires RateHolds(Run(attempts, c).log, c) && x < |Run(attempts, c).log| - c.limit
    requires forall k :: 0 <= k < |attempts| ==> attempts[k].second <= at
    ensures Run(attempts, c).log[x].expiresAt <= at
  {
    LogComesFromAttempts(attempts, c);
    var log := Run(attempts, c).log;
    assert Admissible(log[x], c.skew);
    assert log[x + c.limit] in attempts;
    assert log[x + c.limit - c.limit].first + APP_ASSERTION_MAX_TTL_SECONDS + c.skew <= log[x + c.limit].second;
  }

  /** At that rate the bounded cache decides as a verifier that never forgets. */
  lemma CacheDecidesLikeFullLog(attempts: seq<Attempt>, c: Settings, a: Attempt)
    requires InOrder(attempts + [a]) && c.limit >= 1 && RateHolds(Run(attempts, c).log, c)
    ensures Accepts(Run(attempts, c), a, c) <==>
            Admissible(a, c.skew) && !LoggedAlive(Run(attempts, c).log, a.id, a.second)
  {
    var log := Run(attempts, c).log;
    DecidesExactly(attempts, c, a);
    assert forall k :: 0 <= k < |attempts| ==> (attempts + [a])[k] == attempts[k];
    assert (attempts + [a])[|attempts|] == a;
    forall x: nat | x < |log| && log[x].expiresAt > a.second ensures !Forgotten(log, x, c.limit) {
      if x < |log| - c.limit {
        OldHasExpired(attempts, c, x, a.second);
      }
      RecentNotForgotten(log, x, c.limit);
    }
  }

  /** The log of a verifier that never forgets. */
  ghost function FullLog(attempts: seq<Attempt>, c: Settings): seq<Attempt> {
    if attempts == [] then []
    else
      var log, a := FullLog(attempts[..|attempts| - 1], c), attempts[|attempts| - 1];
      if Admissible(a, c.skew) && !LoggedAlive(log, a.id, a.second) then log + [a] else log
  }

  lemma RateBefore(log: seq<Attempt>, a: Attempt, c: Settings)
    requires RateHolds(log + [a], c)
    ensures RateHolds(log, c)
  {
    forall b | c.limit <= b < |log|
      ensures log[b - c.limit].first + APP_ASSERTION_MAX_TTL_SECONDS + c.skew <= log[b].second
    {
      assert (log + [a])[b - c.limit] == log[b - c.limit] && (log + [a])[b] == log[b];
    }
  }

  /** Whole runs: if a verifier that never forgets accepts at that rate, then the bounded one accepts
      exactly the same presentations. */
  lemma {:induction false} SameLog(attempts: seq<Attempt>, c: Settings)
    requires InOrder(attempts) && c.limit >= 1 && RateHolds(FullLog(attempts, c), c)
    ensures Run(attempts, c).log == FullLog(attempts, c)
  {
    if attempts != [] {
      var init, a := attempts[..|attempts| - 1], attempts[|attempts| - 1];
      assert attempts == init + [a];
      PrefixInOrder(init, a);
      if FullLog(attempts, c) != FullLog(init, c) {
        RateBefore(FullLog(init, c), a, c);
      }
      SameLog(init, c);
      CacheDecidesLikeFullLog(init, c, a);
    }
  }

  /** Exactly when an assertion accepted before is accepted again at that rate, if no other
      assertion shares its id: when its expiry falls between the two clock readings of the second
      verification, so that it passes as fresh and is then pruned from the cache. */
  lemma AcceptedAgainIff(attempts: seq<Attempt>, c: Settings, a: Attempt)
    requires InOrder(attempts + [a]) && c.limit >= 1 && RateHolds(Run(attempts, c).log, c)
    requires exists x :: 0 <= x < |Run(attempts, c).log| && Run(attempts, c).log[x].id == a.id
    requires forall x :: 0 <= x < |Run(attempts, c).log| && Run(attempts, c).log[x].id == a.id ==>
               Run(attempts, c).log[x].expiresAt == a.expiresAt
    ensures Accepts(Run(attempts, c), a, c) <==> Admissible(a, c.skew) && a.first < a.expiresAt <= a.second
  {
    CacheDecidesLikeFullLog(attempts, c, a);
  }

  /** A concrete pair: the same assertion, accepted at second 0 and again across second 10. */
  lemma AcceptedAcrossExpiry(c: Settings)
    requires c.limit >= 1
    ensures var attempts := [Attempt("id", 0, 10, 0, 0, true), Attempt("id", 0, 10, 9, 10, true)];
      InOrder(attempts) && Run(attempts, c).log == attempts
  {
    var a, b := Attempt("id", 0, 10, 0, 0, true), Attempt("id", 0, 10, 9, 10, true);
    assert [a, b][..1] == [a] && [a][..0] == [];
    assert Run([a], c) == Step(State([], []), a, c);
    assert Run([a], c).seen == Newest([EntryOf(a)], c.limit) == [EntryOf(a)];
    assert Run([a], c).log == [a];
    assert Unexpired([EntryOf(a)], 10) == Unexpired([EntryOf(a)][1..], 10) == [];
  }
}
