/** The user list the panel sends, and the limits it sets. */
module Accounts {

  /** adapter.User; `credential` stands for its UUID and password. */
  datatype User = User(id: int, speedLimit: nat, credential: string)

  /** The least of the limits that are set; none is set exactly if the result is 0. */
  function EffectiveLimit(a: nat, b: nat): (r: nat)
    ensures r == 0 <==> a == 0 && b == 0
    ensures r == a || r == b
    ensures (a != 0 ==> r <= a) && (b != 0 ==> r <= b)
  {
    if a == 0 || (b != 0 && b < a) then b else a
  }

  function Ids(users: seq<User>): (ids: seq<int>)
    ensures |ids| == |users| && forall k | 0 <= k < |ids| :: ids[k] == users[k].id
  {
    if users == [] then [] else Ids(users[..|users| - 1]) + [users[|users| - 1].id]
  }

  /** The limit in the last entry of a user. */
  function LastLimit(users: seq<User>, id: int): nat {
    if users == [] then 0
    else if users[|users| - 1].id == id then users[|users| - 1].speedLimit
    else LastLimit(users[..|users| - 1], id)
  }

  /** It is the limit of the entry after which the user has no other. */
  lemma {:induction false} LastLimitIs(users: seq<User>, k: nat)
    requires k < |users| && forall j | k < j < |users| :: users[j].id != users[k].id
    ensures LastLimit(users, users[k].id) == users[k].speedLimit
  {
    var n := |users| - 1;
    if k < n {
      LastLimitIs(users[..n], k);
    }
  }

  lemma IdsSnoc(users: seq<User>, user: User)
    ensures Ids(users + [user]) == Ids(users) + [user.id]
  {
    assert (users + [user])[..|users|] == users;
  }

  lemma LastLimitSnoc(users: seq<User>, user: User, id: int)
    ensures LastLimit(users + [user], id) == if id == user.id then user.speedLimit else LastLimit(users, id)
  {
    assert (users + [user])[..|users|] == users;
  }

  /** Who is served with which limit once update has applied a list: every ID of it, the last entry winning. */
  function Table(users: seq<User>, nodeSpeedLimit: nat): (t: map<int, nat>)
    ensures forall id :: id in t <==> id in Ids(users)
    ensures forall id | id in t :: t[id] == EffectiveLimit(nodeSpeedLimit, LastLimit(users, id))
  {
    map id | id in Ids(users) :: EffectiveLimit(nodeSpeedLimit, LastLimit(users, id))
  }
}
