/**
 * The status registries of TurnManager.cs (PoisonedCharacterInfo, SickPlaguedCharacterInfo)
 * and the two poison passes of PartyManager.cs that run at a round boundary: the pruning
 * loop of CheckForPoisonedCharacter and the tick of PoisonCharacter.
 *
 * An entry refers to its character and to the character's party by reference in the source;
 * here it holds the character's id and the side whose roster that party is.
 */
module Registry {
  import opened Characters

  /** Which roster a list reference is: HeroPartyList or MonsterPartyList. */
  datatype Side = Heroes | Monsters
  {
    function Opponent(): (s: Side)
      ensures s != this
    {
      if this == Heroes then Monsters else Heroes
    }
  }

  /**
   * PoisonedCharacterInfo.  The one place that creates an entry passes three arguments, so
   * PoisonDamage keeps the default 0; no code reads it.
   */
  datatype PoisonEntry = PoisonEntry(id: CharacterId, side: Side, turnsPoisoned: int, poisonDamage: int)

  /** SickPlaguedCharacterInfo. */
  datatype SickEntry = SickEntry(id: CharacterId, side: Side, turnsSick: int)

  /** `List.Remove(x)`: drop the first element equal to `x`, if there is one. */
  function RemoveFirst<T(==)>(s: seq<T>, x: T): (r: seq<T>)
    ensures x !in s ==> r == s
    ensures x in s ==> |r| == |s| - 1
  {
    if s == [] then s
    else
      assert s == [s[0]] + s[1..];
      if s[0] == x then s[1..] else [s[0]] + RemoveFirst(s[1..], x)
  }

  lemma {:induction false} RemoveFirstMultiset(s: seq<PoisonEntry>, x: PoisonEntry)
    ensures multiset(RemoveFirst(s, x)) == multiset(s) - multiset{x}
  {
    if s != [] {
      assert s == [s[0]] + s[1..];
      if s[0] != x {
        RemoveFirstMultiset(s[1..], x);
      }
    }
  }

  /** Removing the first occurrence of `x` removes the position of the first occurrence. */
  lemma {:induction false} RemoveFirstAt(s: seq<PoisonEntry>, k: nat)
    requires k < |s|
    requires forall j :: 0 <= j < k ==> s[j] != s[k]
    ensures RemoveFirst(s, s[k]) == s[..k] + s[k + 1..]
  {
    if k > 0 {
      var x, t := s[k], s[1..];
      assert t[k - 1] == x;
      forall j | 0 <= j < k - 1 ensures t[j] != t[k - 1] {
        assert t[j] == s[j + 1];
      }
      RemoveFirstAt(t, k - 1);
      assert s[0] != x && s == [s[0]] + t;
      assert RemoveFirst(s, x) == [s[0]] + RemoveFirst(t, x);
      assert t[..k - 1] == s[1..k] && t[k..] == s[k + 1..];
      assert s[..k] == [s[0]] + s[1..k];
    }
  }

  predicate Expired(e: PoisonEntry) { e.turnsPoisoned == 0 }

  /** The entries that have turns left, in order. */
  function Live(s: seq<PoisonEntry>): (r: seq<PoisonEntry>)
    ensures forall e :: e in r ==> e in s && !Expired(e)
  {
    if s == [] then [] else (if Expired(s[0]) then [] else [s[0]]) + Live(s[1..])
  }

  lemma {:induction false} LiveAppend(a: seq<PoisonEntry>, b: seq<PoisonEntry>)
    ensures Live(a + b) == Live(a) + Live(b)
  {
    if a == [] {
      assert a + b == b;
    } else {
      assert (a + b)[1..] == a[1..] + b;
      LiveAppend(a[1..], b);
    }
  }

  /** Removing one expired entry leaves the entries with turns left as they were. */
  lemma {:induction false} LiveRemoveExpired(s: seq<PoisonEntry>, x: PoisonEntry)
    requires Expired(x)
    ensures Live(RemoveFirst(s, x)) == Live(s)
  {
    if s != [] && s[0] != x {
      LiveRemoveExpired(s[1..], x);
      assert ([s[0]] + RemoveFirst(s[1..], x))[1..] == RemoveFirst(s[1..], x);
    }
  }

  /**
   * The loop of CheckForPoisonedCharacter from position `i` on, as written: an expired entry
   * is removed with `Remove`, and the index still moves on, past the entry that took its place.
   */
  function PruneFrom(s: seq<PoisonEntry>, i: nat): seq<PoisonEntry>
    decreases |s| - i
  {
    if i >= |s| then s
    else if Expired(s[i]) then PruneFrom(RemoveFirst(s, s[i]), i + 1)
    else PruneFrom(s, i + 1)
  }

  function Prune(s: seq<PoisonEntry>): seq<PoisonEntry>
  {
    PruneFrom(s, 0)
  }

  /** Pruning removes expired entries only: the entries with turns left survive, in order. */
  lemma {:induction false} PruneFromKeepsLive(s: seq<PoisonEntry>, i: nat)
    ensures Live(PruneFrom(s, i)) == Live(s)
    ensures multiset(PruneFrom(s, i)) <= multiset(s)
    ensures |PruneFrom(s, i)| <= |s|
    decreases |s| - i
  {
    if i < |s| {
      if Expired(s[i]) {
        LiveRemoveExpired(s, s[i]);
        RemoveFirstMultiset(s, s[i]);
        PruneFromKeepsLive(RemoveFirst(s, s[i]), i + 1);
      } else {
        PruneFromKeepsLive(s, i + 1);
      }
    }
  }

  lemma PruneKeepsLive(s: seq<PoisonEntry>)
    ensures Live(Prune(s)) == Live(s)
    ensures multiset(Prune(s)) <= multiset(s)
    ensures |Prune(s)| <= |s|
  {
    PruneFromKeepsLive(s, 0);
  }

  /** No two neighbouring entries are both expired. */
  predicate NoAdjacentExpired(s: seq<PoisonEntry>)
  {
    forall k :: 0 <= k < |s| - 1 ==> !(Expired(s[k]) && Expired(s[k + 1]))
  }

  lemma NoAdjacentSuffix(s: seq<PoisonEntry>, d: nat)
    requires d <= |s|
    requires NoAdjacentExpired(s)
    ensures NoAdjacentExpired(s[d..])
  {
    var u := s[d..];
    forall k | 0 <= k < |u| - 1 ensures !(Expired(u[k]) && Expired(u[k + 1])) {
      assert u[k] == s[k + d] && u[k + 1] == s[k + 1 + d];
    }
  }

  /** The expired-entry step of PruneFromComplete: the entry at `i` goes, its neighbour stays. */
  lemma {:induction false} PruneFromCompleteExpired(s: seq<PoisonEntry>, i: nat)
    requires i < |s| && Expired(s[i])
    requires forall k :: 0 <= k < i ==> !Expired(s[k])
    requires NoAdjacentExpired(s[i..])
    ensures PruneFrom(s, i) == s[..i] + Live(s[i..])
    decreases |s| - i, 0
  {
    forall j | 0 <= j < i ensures s[j] != s[i] { }
    RemoveFirstAt(s, i);
    var t := s[..i] + s[i + 1..];
    assert PruneFrom(s, i) == PruneFrom(t, i + 1);
    var u := s[i..];
    assert u[0] == s[i] && u[1..] == s[i + 1..];
    assert Live(u) == Live(s[i + 1..]);
    if i + 1 == |s| {
      assert t == s[..i] && s[i + 1..] == [];
    } else {
      assert u[1] == s[i + 1];
      assert !Expired(s[i + 1]);
      assert t[..i + 1] == s[..i] + [s[i + 1]];
      assert t[i + 1..] == s[i + 2..] == u[2..];
      forall k | 0 <= k < i + 1 ensures !Expired(t[k]) {
        if k < i { assert t[k] == s[k]; }
      }
      NoAdjacentSuffix(u, 2);
      PruneFromComplete(t, i + 1);
      var v, w := s[i + 1..], s[i + 2..];
      assert v[0] == s[i + 1] && v[1..] == w;
      LiveCons(v);
      var lw := Live(w);
      assert Live(v) == [s[i + 1]] + lw;
      assert PruneFrom(t, i + 1) == (s[..i] + [s[i + 1]]) + lw;
      ConcatAssoc(s[..i], [s[i + 1]], lw);
    }
  }

  lemma ConcatAssoc(a: seq<PoisonEntry>, b: seq<PoisonEntry>, c: seq<PoisonEntry>)
    ensures (a + b) + c == a + (b + c)
  {
  }

  lemma LiveCons(s: seq<PoisonEntry>)
    requires s != []
    ensures Live(s) == (if Expired(s[0]) then [] else [s[0]]) + Live(s[1..])
  {
  }

  lemma {:induction false} PruneFromComplete(s: seq<PoisonEntry>, i: nat)
    requires i <= |s|
    requires forall k :: 0 <= k < i ==> !Expired(s[k])
    requires NoAdjacentExpired(s[i..])
    ensures PruneFrom(s, i) == s[..i] + Live(s[i..])
    decreases |s| - i, 1
  {
    if i == |s| {
      assert s[..i] == s && s[i..] == [];
    } else if Expired(s[i]) {
      PruneFromCompleteExpired(s, i);
    } else {
      var u := s[i..];
      NoAdjacentSuffix(u, 1);
      assert u[1..] == s[i + 1..];
      PruneFromComplete(s, i + 1);
      assert u == [s[i]] + s[i + 1..];
      assert s[..i + 1] == s[..i] + [s[i]];
    }
  }

  /** When expired entries never sit side by side, pruning removes all of them. */
  lemma PruneComplete(s: seq<PoisonEntry>)
    requires NoAdjacentExpired(s)
    ensures Prune(s) == Live(s)
  {
    assert s[0..] == s;
    PruneFromComplete(s, 0);
  }

  /** Two expired entries side by side: the loop removes the first and skips the second. */
  lemma PruneSkipsNeighbour(e: PoisonEntry)
    requires Expired(e)
    ensures Prune([e, e]) == [e]
  {
    var s := [e, e];
    assert RemoveFirst(s, s[0]) == s[1..] == [e];
    assert PruneFrom(s, 0) == PruneFrom([e], 1);
  }

  /** The entries after one PoisonCharacter pass: each has one turn fewer. */
  function Ticked(s: seq<PoisonEntry>): (r: seq<PoisonEntry>)
    ensures |r| == |s|
    ensures forall k :: 0 <= k < |s| ==> r[k] == s[k].(turnsPoisoned := s[k].turnsPoisoned - 1)
  {
    seq(|s|, k requires 0 <= k < |s| => s[k].(turnsPoisoned := s[k].turnsPoisoned - 1))
  }

  /** One poison hit on the characters of `roster` with the given id: `CurrentHP -= 1`, clamped. */
  function HitRoster(roster: seq<Character>, id: CharacterId): (r: seq<Character>)
    ensures |r| == |roster|
    ensures forall k :: 0 <= k < |roster| ==>
      r[k] == if roster[k].id == id then roster[k].TakeDamage(1) else roster[k]
  {
    seq(|roster|, k requires 0 <= k < |roster| =>
      if roster[k].id == id then roster[k].TakeDamage(1) else roster[k])
  }

  /** The entry's hit, on the roster of `side`: only entries registered on that side reach it. */
  function HitEntry(roster: seq<Character>, side: Side, e: PoisonEntry): seq<Character>
  {
    if e.side == side then HitRoster(roster, e.id) else roster
  }

  /** The roster of `side` after the hits of `entries`, taken in list order. */
  function PoisonRoster(roster: seq<Character>, side: Side, entries: seq<PoisonEntry>): seq<Character>
    decreases |entries|
  {
    if entries == [] then roster
    else HitEntry(PoisonRoster(roster, side, entries[..|entries| - 1]), side, entries[|entries| - 1])
  }

  /** Taking one more entry of the registry is one more hit. */
  lemma PoisonRosterSnoc(roster: seq<Character>, side: Side, entries: seq<PoisonEntry>, i: nat)
    requires i < |entries|
    ensures PoisonRoster(roster, side, entries[..i + 1])
      == HitEntry(PoisonRoster(roster, side, entries[..i]), side, entries[i])
  {
    assert entries[..i + 1][..i] == entries[..i];
  }

  /** Ticking entry `i` of a partly ticked registry extends the ticked prefix by one. */
  /** The loop of PoisonCharacter, once it has passed every entry. */
  lemma PoisonDone(roster: seq<Character>, side: Side, entries: seq<PoisonEntry>)
    ensures PoisonRoster(roster, side, entries[..|entries|]) == PoisonRoster(roster, side, entries)
    ensures Ticked(entries)[..|entries|] + entries[|entries|..] == Ticked(entries)
  {
    assert entries[..|entries|] == entries;
    assert Ticked(entries)[..|entries|] + entries[|entries|..] == Ticked(entries);
  }

  lemma TickedStep(entries: seq<PoisonEntry>, done: seq<PoisonEntry>, i: nat)
    requires i < |entries| && done == Ticked(entries)[..i] + entries[i..]
    ensures done[i := done[i].(turnsPoisoned := done[i].turnsPoisoned - 1)]
      == Ticked(entries)[..i + 1] + entries[i + 1..]
  {
  }

  /** How many entries of the registry point at the character `id` of `side`. */
  function Hits(entries: seq<PoisonEntry>, id: CharacterId, side: Side): (n: nat)
    ensures n <= |entries|
    decreases |entries|
  {
    if entries == [] then 0
    else
      var e := entries[|entries| - 1];
      Hits(entries[..|entries| - 1], id, side) + (if e.id == id && e.side == side then 1 else 0)
  }

  predicate AllInRange(roster: seq<Character>)
  {
    forall k :: 0 <= k < |roster| ==> roster[k].HealthInRange()
  }

  /**
   * A poison pass costs every character one health point per entry that points at it, and
   * health stops at 0; nothing else about a character changes.
   */
  lemma {:induction false} PoisonRosterAt(roster: seq<Character>, side: Side, entries: seq<PoisonEntry>)
    requires AllInRange(roster)
    ensures |PoisonRoster(roster, side, entries)| == |roster|
    ensures forall k :: 0 <= k < |roster| ==>
      PoisonRoster(roster, side, entries)[k]
        == roster[k].(currentHP := Max0(roster[k].currentHP - Hits(entries, roster[k].id, side)))
    decreases |entries|
  {
    if entries != [] {
      var init := entries[..|entries| - 1];
      var e := entries[|entries| - 1];
      PoisonRosterAt(roster, side, init);
      var before := PoisonRoster(roster, side, init);
      forall k | 0 <= k < |roster|
        ensures PoisonRoster(roster, side, entries)[k]
          == roster[k].(currentHP := Max0(roster[k].currentHP - Hits(entries, roster[k].id, side)))
      {
        assert before[k].id == roster[k].id;
        if e.side == side && e.id == roster[k].id {
          assert before[k].TakeDamage(1).currentHP == Clamp(before[k].currentHP - 1, 0, before[k].maxHP);
        }
      }
    }
  }

  function Max0(x: int): int { if x < 0 then 0 else x }

  /** Poisoning keeps every health value of the roster inside [0, MaxHP]. */
  lemma PoisonKeepsRange(roster: seq<Character>, side: Side, entries: seq<PoisonEntry>)
    requires AllInRange(roster)
    ensures AllInRange(PoisonRoster(roster, side, entries))
  {
    PoisonRosterAt(roster, side, entries);
  }
}
