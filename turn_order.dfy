/** Turn rotation: the player after a given one in turn order, wrapping from the last
    player back to the first. */
module TurnOrder {
  import opened Wrappers
  import opened Game
  import opened Registry

  /** The player whose turn follows `previous`'s: the next one in `ps` after the first
      player named `previous`, or the first one when that player is the last. */
  function Successor(ps: seq<Player>, previous: Name): (r: Option<Player>)
    ensures r.Some? <==> exists i :: 0 <= i < |ps| && ps[i].name == previous
    ensures r.Some? ==> exists i :: 0 <= i < |ps| && r.value == ps[i]
  {
    match IndexOfName(ps, previous)
    case None => None
    case Some(i) => Some(if i == |ps| - 1 then ps[0] else ps[i + 1])
  }

  /** The scan in `getNextPlayer`: it stops at the first player called `previous`. */
  method FindNextPlayer(players: seq<Player>, previous: Name) returns (next: Option<Player>)
    ensures next == Successor(players, previous)
  {
    var count := |players|;
    next := None;
    for i := 0 to count
      invariant forall j :: 0 <= j < i ==> players[j].name != previous
      invariant next == None
    {
      if previous == players[i].name {
        next := Some(if i == count - 1 then players[0] else players[i + 1]);
        break;
      }
    }
  }

  /** Index of the player after player i among n, as the scan computes it. */
  function NextIndex(i: nat, n: nat): (j: nat)
    requires i < n
    ensures j < n
  {
    if i == n - 1 then 0 else i + 1
  }

  /** With unique names, the turn after player i's goes to the player at NextIndex(i). */
  lemma SuccessorAt(ps: seq<Player>, i: nat)
    requires UniqueNames(ps) && i < |ps|
    ensures Successor(ps, ps[i].name) == Some(ps[NextIndex(i, |ps|)])
  {
  }

  /** The same, as modular arithmetic: player i is followed by player (i + 1) mod n. */
  lemma SuccessorWraps(ps: seq<Player>, i: nat)
    requires UniqueNames(ps) && i < |ps|
    ensures Successor(ps, ps[i].name) == Some(ps[(i + 1) % |ps|])
  {
    SuccessorAt(ps, i);
    NextIndexIsModular(i, |ps|);
  }

  /** The name of whoever plays k turns after `name`. */
  function TurnsAhead(ps: seq<Player>, name: Name, k: nat): Option<Name>
    decreases k
  {
    if k == 0 then Some(name)
    else match Successor(ps, name)
      case None => None
      case Some(p) => TurnsAhead(ps, p.name, k - 1)
  }

  /** The index reached from i after k steps of NextIndex. */
  function Rotated(i: nat, k: nat, n: nat): (j: nat)
    requires i < n
    ensures j < n
    decreases k
  {
    if k == 0 then i else Rotated(NextIndex(i, n), k - 1, n)
  }

  lemma {:induction false} TurnsAheadRotated(ps: seq<Player>, i: nat, k: nat)
    requires UniqueNames(ps) && i < |ps|
    ensures TurnsAhead(ps, ps[i].name, k) == Some(ps[Rotated(i, k, |ps|)].name)
    decreases k
  {
    if k > 0 {
      SuccessorAt(ps, i);
      TurnsAheadRotated(ps, NextIndex(i, |ps|), k - 1);
    }
  }

  /** k rotations from player i reach player (i + k) mod n. */
  lemma TurnsAheadModular(ps: seq<Player>, i: nat, k: nat)
    requires UniqueNames(ps) && i < |ps|
    ensures TurnsAhead(ps, ps[i].name, k) == Some(ps[(i + k) % |ps|].name)
  {
    TurnsAheadRotated(ps, i, k);
    RotatedIsModular(i, k, |ps|);
  }

  /** After one full round the turn is back with the same player. */
  lemma FullRoundReturns(ps: seq<Player>, i: nat)
    requires UniqueNames(ps) && i < |ps|
    ensures TurnsAhead(ps, ps[i].name, |ps|) == Some(ps[i].name)
  {
    TurnsAheadRotated(ps, i, |ps|);
    RotatedFullRound(i, |ps|);
  }

  /** Every player gets a turn within one round, whoever starts. */
  lemma EveryoneGetsATurn(ps: seq<Player>, i: nat, j: nat)
    requires UniqueNames(ps) && i < |ps| && j < |ps|
    ensures exists k :: 0 <= k < |ps| && TurnsAhead(ps, ps[i].name, k) == Some(ps[j].name)
  {
    var n := |ps|;
    var k: nat := if i <= j then j - i else n - i + j;
    assert (i + k) % n == j by {
      if i <= j {
        ModUnique(i + k, n, 0, j);
      } else {
        ModUnique(i + k, n, 1, j);
      }
    }
    TurnsAheadModular(ps, i, k);
  }

  // Arithmetic facts about Euclidean remainder used above.

  lemma MulAtLeast(d: int, n: int)
    ensures d >= 1 && n > 0 ==> d * n >= n
  {
  }

  lemma ModUnique(a: int, n: int, q: int, r: int)
    requires n > 0 && 0 <= r < n && a == q * n + r
    ensures a % n == r
  {
    var q0, r0 := a / n, a % n;
    assert (q - q0) * n == r0 - r;
    MulAtLeast(q - q0, n);
    MulAtLeast(q0 - q, n);
  }

  lemma NextIndexIsModular(i: nat, n: nat)
    requires i < n
    ensures NextIndex(i, n) == (i + 1) % n
  {
  }

  lemma {:induction false} RotatedIsModular(i: nat, k: nat, n: nat)
    requires i < n
    ensures Rotated(i, k, n) == (i + k) % n
    decreases k
  {
    if k == 0 {
      ModUnique(i, n, 0, i);
    } else {
      RotatedIsModular(NextIndex(i, n), k - 1, n);
      NextIndexIsModular(i, n);
      ModStep(i, k, n);
    }
  }

  lemma RotatedFullRound(i: nat, n: nat)
    requires i < n
    ensures Rotated(i, n, n) == i
  {
    RotatedIsModular(i, n, n);
    ModUnique(i + n, n, 1, i);
  }

  lemma ModStep(i: nat, k: nat, n: nat)
    requires i < n && k >= 1
    ensures ((i + 1) % n + (k - 1)) % n == (i + k) % n
  {
    if i + 1 < n {
      ModUnique(i + 1, n, 0, i + 1);
    } else {
      ModUnique(i + 1, n, 1, 0);
      ModAddN(k - 1, n);
    }
  }

  lemma ModAddN(a: int, n: int)
    requires n > 0
    ensures (a + n) % n == a % n
  {
    ModUnique(a + n, n, a / n + 1, a % n);
  }
}
