/** The players of one session: lookup by name, the balance and position updates
    keyed by name, and the total money the players hold. */
module Registry {
  import opened Wrappers
  import opened Game

  /** The player key is (session id, name), so names are unique within a session. */
  ghost predicate UniqueNames(ps: seq<Player>) {
    forall i, j :: 0 <= i < j < |ps| ==> ps[i].name != ps[j].name
  }

  /** Where the player called `name` sits in `ps`, if anywhere. */
  function IndexOfName(ps: seq<Player>, name: Name): (r: Option<nat>)
    ensures r.Some? ==> r.value < |ps| && ps[r.value].name == name
    ensures r.Some? ==> forall j :: 0 <= j < r.value ==> ps[j].name != name
    ensures r.None? <==> forall j :: 0 <= j < |ps| ==> ps[j].name != name
  {
    if |ps| == 0 then None
    else if ps[0].name == name then Some(0)
    else match IndexOfName(ps[1..], name)
      case None => None
      case Some(k) => Some(k + 1)
  }

  /** `updatePlayerBalance(balance, sessionId, name)`: every player with that name
      gets the new balance; nobody else changes. */
  function UpdateBalance(ps: seq<Player>, name: Name, balance: int): seq<Player> {
    seq(|ps|, i requires 0 <= i < |ps| => if ps[i].name == name then ps[i].(balance := balance) else ps[i])
  }

  /** `updatePlayerPosition(position, sessionId, name)`. */
  function UpdatePosition(ps: seq<Player>, name: Name, position: int): seq<Player> {
    seq(|ps|, i requires 0 <= i < |ps| => if ps[i].name == name then ps[i].(position := position) else ps[i])
  }

  /** The money all players of a session hold together. */
  function TotalBalance(ps: seq<Player>): int {
    if ps == [] then 0 else ps[0].balance + TotalBalance(ps[1..])
  }

  /** With unique names, an update by name is an update of the one index holding it. */
  lemma UpdateBalanceAt(ps: seq<Player>, i: nat, balance: int)
    requires UniqueNames(ps) && i < |ps|
    ensures UpdateBalance(ps, ps[i].name, balance) == ps[i := ps[i].(balance := balance)]
    ensures UniqueNames(UpdateBalance(ps, ps[i].name, balance))
  {
  }

  lemma UpdatePositionAt(ps: seq<Player>, i: nat, position: int)
    requires UniqueNames(ps) && i < |ps|
    ensures UpdatePosition(ps, ps[i].name, position) == ps[i := ps[i].(position := position)]
    ensures UniqueNames(UpdatePosition(ps, ps[i].name, position))
  {
  }

  /** Replacing one player changes the total by exactly the change in that player's balance. */
  lemma {:induction false} TotalBalanceReplace(ps: seq<Player>, i: nat, p: Player)
    requires i < |ps|
    ensures TotalBalance(ps[i := p]) == TotalBalance(ps) - ps[i].balance + p.balance
  {
    if i == 0 {
      assert ps[i := p][1..] == ps[1..];
    } else {
      assert ps[i := p][1..] == ps[1..][i - 1 := p];
      TotalBalanceReplace(ps[1..], i - 1, p);
    }
  }

  /** Setting one player's balance by name moves the total by the same amount. */
  lemma TotalAfterUpdateBalance(ps: seq<Player>, i: nat, balance: int)
    requires UniqueNames(ps) && i < |ps|
    ensures TotalBalance(UpdateBalance(ps, ps[i].name, balance)) == TotalBalance(ps) - ps[i].balance + balance
  {
    UpdateBalanceAt(ps, i, balance);
    TotalBalanceReplace(ps, i, ps[i].(balance := balance));
  }

  /** The rent payment in `payForCard`: both balances are read first, then the payer's
      is written and then the owner's, so when payer and owner are one player the
      second write is the one that stays. */
  function SettleRent(ps: seq<Player>, payer: nat, owner: nat, fine: int): seq<Player>
    requires payer < |ps| && owner < |ps|
  {
    var payerBalance := ps[payer].balance - fine;
    var ownerBalance := ps[owner].balance + fine;
    UpdateBalance(UpdateBalance(ps, ps[payer].name, payerBalance), ps[owner].name, ownerBalance)
  }

  /** With unique names the rent payment is two index updates, the owner's last. */
  lemma SettleRentAt(ps: seq<Player>, payer: nat, owner: nat, fine: int)
    requires UniqueNames(ps) && payer < |ps| && owner < |ps|
    ensures SettleRent(ps, payer, owner, fine)
         == ps[payer := ps[payer].(balance := ps[payer].balance - fine)][owner := ps[owner].(balance := ps[owner].balance + fine)]
  {
  }

  /** The rent payment keeps player names unique. */
  lemma SettleRentKeepsNames(ps: seq<Player>, payer: nat, owner: nat, fine: int)
    requires UniqueNames(ps) && payer < |ps| && owner < |ps|
    ensures UniqueNames(SettleRent(ps, payer, owner, fine))
  {
  }

  /** What the rent payment does to each player. */
  lemma SettleRentEffect(ps: seq<Player>, payer: nat, owner: nat, fine: int)
    requires UniqueNames(ps) && payer < |ps| && owner < |ps|
    ensures var r := SettleRent(ps, payer, owner, fine);
      && |r| == |ps|
      && (payer != owner ==> r[payer].balance == ps[payer].balance - fine)
      && (payer != owner ==> r[owner].balance == ps[owner].balance + fine)
      && (payer == owner ==> r[owner].balance == ps[owner].balance + fine)
      && (forall k :: 0 <= k < |ps| ==> r[k].name == ps[k].name && r[k].position == ps[k].position)
      && (forall k :: 0 <= k < |ps| && k != payer && k != owner ==> r[k] == ps[k])
  {
  }

  /** Rent between two different players only moves money: the total is unchanged. */
  lemma RentConservesMoney(ps: seq<Player>, payer: nat, owner: nat, fine: int)
    requires UniqueNames(ps) && payer < |ps| && owner < |ps| && payer != owner
    ensures TotalBalance(SettleRent(ps, payer, owner, fine)) == TotalBalance(ps)
  {
    SettleRentAt(ps, payer, owner, fine);
    var mid := ps[payer := ps[payer].(balance := ps[payer].balance - fine)];
    TotalBalanceReplace(ps, payer, mid[payer]);
    TotalBalanceReplace(mid, owner, ps[owner].(balance := ps[owner].balance + fine));
  }

  /** A player paying rent on their own card ends with the fine added: the total grows by it. */
  lemma SelfRentAddsFine(ps: seq<Player>, owner: nat, fine: int)
    requires UniqueNames(ps) && owner < |ps|
    ensures TotalBalance(SettleRent(ps, owner, owner, fine)) == TotalBalance(ps) + fine
  {
    SettleRentAt(ps, owner, owner, fine);
    var mid := ps[owner := ps[owner].(balance := ps[owner].balance - fine)];
    TotalBalanceReplace(ps, owner, mid[owner]);
    TotalBalanceReplace(mid, owner, ps[owner].(balance := ps[owner].balance + fine));
  }
}
