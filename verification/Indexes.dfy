/** The user indexes over every run of AddUser, RenameUser and RemoveUser. */
module Indexes {
  import opened Prelude
  import opened CaseMap
  import opened State

  datatype UserOp = Add(u: UserState) | Rename(id: UserID, nick: string) | Remove(id: UserID)

  function Apply(w: WorldState, op: UserOp): WorldState {
    match op
    case Add(u) => w.AddUser(u)
    case Rename(id, nick) => w.RenameUser(id, nick)
    case Remove(id) => w.RemoveUser(id)
  }

  /** The user IDs given out by one operation. */
  function Issued(w: WorldState, op: UserOp): seq<UserID> {
    if op.Add? && w.CanAdd(op.u) then [w.lastId + 1] else []
  }

  function RunOps(w: WorldState, ops: seq<UserOp>): WorldState
    decreases |ops|
  {
    if ops == [] then w else RunOps(Apply(w, ops[0]), ops[1..])
  }

  function AllIssued(w: WorldState, ops: seq<UserOp>): seq<UserID>
    decreases |ops|
  {
    if ops == [] then [] else Issued(w, ops[0]) + AllIssued(Apply(w, ops[0]), ops[1..])
  }

  lemma ApplyValid(w: WorldState, op: UserOp)
    requires w.Valid()
    ensures Apply(w, op).Valid() && Apply(w, op).chans == w.chans
  {
    match op
    case Add(u) => AddUserKeeps(w, u);
    case Rename(id, nick) => RenameUserKeeps(w, id, nick);
    case Remove(id) => RemoveUserKeeps(w, id);
  }

  /** Equal under the case mapping, as FindByNick compares nicks. */
  predicate SameNick(m: CaseMapping, a: string, b: string) {
    Fold(m, a) == Fold(m, b)
  }

  lemma NicksDistinct(w: WorldState, a: UserID, b: UserID)
    requires w.Valid() && a in w.users && b in w.users && SameNick(w.mapping, w.users[a].nick, w.users[b].nick)
    ensures a == b
  {
    assert w.nicks[w.Key(w.users[a].nick)] == a;
    assert w.nicks[w.Key(w.users[b].nick)] == b;
  }

  /** After every run the indexes agree, no two users have nicks that fold alike, and FindByNick is the
      linear search. */
  lemma {:induction false} IndexesAgree(w: WorldState, ops: seq<UserOp>)
    requires w.Valid()
    ensures var end := RunOps(w, ops);
            && end.Valid() && end.mapping == w.mapping && end.chans == w.chans
            && (forall a, b :: a in end.users && b in end.users ==>
                  SameNick(w.mapping, end.users[a].nick, end.users[b].nick) ==> a == b)
            && (forall nick :: IsSearch(end, nick, end.FindByNick(nick)))
    decreases |ops|
  {
    if ops == [] {
      forall a, b | a in w.users && b in w.users && SameNick(w.mapping, w.users[a].nick, w.users[b].nick)
        ensures a == b
      {
        NicksDistinct(w, a, b);
      }
      forall nick ensures IsSearch(w, nick, w.FindByNick(nick)) {
        FindByNickIsSearch(w, nick);
      }
    } else {
      ApplyValid(w, ops[0]);
      IndexesAgree(Apply(w, ops[0]), ops[1..]);
    }
  }

  /** `found` is a user whose nick is equal to `nick`, or nothing when there is none. */
  ghost predicate IsSearch(w: WorldState, nick: string, found: Option<UserState>) {
    match found
    case Some(u) => u.id in w.users && w.users[u.id] == u && SameNick(w.mapping, u.nick, nick)
    case None => forall id :: id in w.users ==> !SameNick(w.mapping, w.users[id].nick, nick)
  }

  /** Each ID is above the one before it, the first above `after`. */
  predicate Increasing(ids: seq<UserID>, after: UserID) {
    ids == [] || (after < ids[0] && Increasing(ids[1..], ids[0]))
  }

  /** IDs are given out in increasing order, so none is given out twice, even after its user is gone;
      and every user has an ID from before the run or one given out in it. */
  lemma {:induction false} IDsAreFresh(w: WorldState, ops: seq<UserOp>)
    requires w.Valid()
    ensures Increasing(AllIssued(w, ops), w.lastId)
    ensures forall id :: id in RunOps(w, ops).users ==> id in w.users || id in AllIssued(w, ops)
    decreases |ops|
  {
    if ops != [] {
      var w' := Apply(w, ops[0]);
      ApplyValid(w, ops[0]);
      IDsAreFresh(w', ops[1..]);
      var rest := AllIssued(w', ops[1..]);
      if Issued(w, ops[0]) == [] {
        assert [] + rest == rest;
      } else {
        assert ([w.lastId + 1] + rest)[1..] == rest;
      }
    }
  }
}
