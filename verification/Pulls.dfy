/** The diff a pull answers with, and what applying it to a client's lists gives. */
module Pulls {
  import opened Edits
  import opened Histories

  datatype EditData = EditData(shouldBeCreatedEdits: seq<Edit>, shouldBeDeletedIds: seq<Uuid>)

  datatype PullData = PullData(current: EditData, undone: EditData)

  function ToSet(xs: seq<Uuid>): set<Uuid> {
    set id <- xs
  }

  function IdList(s: seq<Edit>): (ids: seq<Uuid>)
    ensures |ids| == |s| && forall i :: 0 <= i < |s| ==> ids[i] == s[i].id
  {
    if s == [] then [] else IdList(s[..|s| - 1]) + [s[|s| - 1].id]
  }

  /** The server's edits the client does not list, in the server's order. */
  function Missing(server: seq<Edit>, user: seq<Uuid>): seq<Edit> {
    if server == [] then []
    else
      var rest, last := Missing(server[..|server| - 1], user), server[|server| - 1];
      if last.id in user then rest else rest + [last]
  }

  /** The ids the client lists and the server does not. */
  function Extra(server: seq<Edit>, user: seq<Uuid>): set<Uuid> {
    ToSet(user) - Ids(server)
  }

  /** `data` is the diff of one list; the deleted ids come from a hash set, in some order. */
  ghost predicate IsDiff(data: EditData, server: seq<Edit>, user: seq<Uuid>) {
    && data.shouldBeCreatedEdits == Missing(server, user)
    && ToSet(data.shouldBeDeletedIds) == Extra(server, user)
    && forall i, j :: 0 <= i < j < |data.shouldBeDeletedIds| ==>
         data.shouldBeDeletedIds[i] != data.shouldBeDeletedIds[j]
  }

  ghost predicate IsPullOf(data: PullData, h: History, userCurrent: seq<Uuid>, userUndone: seq<Uuid>) {
    IsDiff(data.current, h.current, userCurrent) && IsDiff(data.undone, h.undone, userUndone)
  }

  // The computation at the end of Board::pull

  method SetToSeq(ids: set<Uuid>) returns (xs: seq<Uuid>)
    ensures ToSet(xs) == ids
    ensures forall i, j :: 0 <= i < j < |xs| ==> xs[i] != xs[j]
  {
    xs := [];
    var rest := ids;
    while rest != {}
      invariant rest <= ids
      invariant forall i :: 0 <= i < |xs| ==> xs[i] in ids && xs[i] !in rest
      invariant forall i, j :: 0 <= i < j < |xs| ==> xs[i] != xs[j]
      invariant forall id <- ids :: id in rest || id in xs
    {
      var id :| id in rest;
      xs := xs + [id];
      rest := rest - {id};
    }
  }

  method Diff(server: seq<Edit>, user: seq<Uuid>) returns (data: EditData)
    ensures IsDiff(data, server, user)
  {
    var serverIds := set e <- server :: e.id;
    var userIds := ToSet(user);
    var create := set id <- serverIds | id !in userIds;
    var delete := set id <- userIds | id !in serverIds;
    var edits: seq<Edit> := [];
    for k := 0 to |server|
      invariant edits == Missing(server[..k], user)
    {
      assert server[..k + 1][..k] == server[..k];
      if server[k].id in create {
        edits := edits + [server[k]];
      }
    }
    assert server[..|server|] == server;
    var ids := SetToSeq(delete);
    data := EditData(edits, ids);
  }

  // Applying the diff on the client

  /** The listed ids that survive the deletions. */
  function Kept(user: seq<Uuid>, delete: set<Uuid>): seq<Uuid> {
    if user == [] then []
    else
      var rest, last := Kept(user[..|user| - 1], delete), user[|user| - 1];
      if last in delete then rest else rest + [last]
  }

  /** Removes the listed deletions and appends the listed creations. */
  function ApplyDiff(user: seq<Uuid>, data: EditData): seq<Uuid> {
    Kept(user, ToSet(data.shouldBeDeletedIds)) + IdList(data.shouldBeCreatedEdits)
  }

  lemma {:induction false} KeptMembers(user: seq<Uuid>, delete: set<Uuid>)
    ensures forall id :: id in Kept(user, delete) <==> id in user && id !in delete
  {
    if user != [] {
      KeptMembers(user[..|user| - 1], delete);
      assert user == user[..|user| - 1] + [user[|user| - 1]];
    }
  }

  lemma {:induction false} MissingMembers(server: seq<Edit>, user: seq<Uuid>)
    ensures Ids(Missing(server, user)) == Ids(server) - ToSet(user)
  {
    if server != [] {
      var rest, last := server[..|server| - 1], server[|server| - 1];
      MissingMembers(rest, user);
      assert server == rest + [last];
      IdsOfAppend(rest, last);
      IdsOfAppend(Missing(rest, user), last);
    }
  }

  lemma {:induction false} IdListMembers(s: seq<Edit>)
    ensures forall id :: id in IdList(s) <==> id in Ids(s)
  {
    forall id | id in Ids(s) ensures id in IdList(s) {
      var e :| e in s && e.id == id;
      var i :| 0 <= i < |s| && s[i] == e;
      assert IdList(s)[i] == id;
    }
  }

  /** After the diff the client lists exactly the server's ids. */
  lemma {:induction false} DiffConverges(data: EditData, server: seq<Edit>, user: seq<Uuid>)
    requires IsDiff(data, server, user)
    ensures ToSet(ApplyDiff(user, data)) == Ids(server)
  {
    KeptMembers(user, Extra(server, user));
    MissingMembers(server, user);
    IdListMembers(data.shouldBeCreatedEdits);
  }

  lemma {:induction false} NothingMissing(server: seq<Edit>, user: seq<Uuid>)
    requires forall id <- Ids(server) :: id in user
    ensures Missing(server, user) == []
  {
    if server != [] {
      var rest, last := server[..|server| - 1], server[|server| - 1];
      assert server == rest + [last];
      IdsOfAppend(rest, last);
      NothingMissing(rest, user);
    }
  }

  lemma {:induction false} EmptySet(xs: seq<Uuid>)
    ensures ToSet(xs) == {} <==> xs == []
  {
    if xs != [] {
      assert xs[0] in ToSet(xs);
    }
  }

  /** A second pull with the updated lists asks for nothing. */
  lemma {:induction false} SecondDiffIsEmpty(data: EditData, again: EditData, server: seq<Edit>, user: seq<Uuid>)
    requires IsDiff(data, server, user) && IsDiff(again, server, ApplyDiff(user, data))
    ensures again == EditData([], [])
  {
    DiffConverges(data, server, user);
    var user' := ApplyDiff(user, data);
    forall id | id in Ids(server) ensures id in user' {
      assert id in ToSet(user');
    }
    NothingMissing(server, user');
    EmptySet(again.shouldBeDeletedIds);
  }

  lemma {:induction false} MissingSuffix(server: seq<Edit>, user: seq<Uuid>, k: nat)
    requires k <= |server|
    requires forall i :: 0 <= i < |server| ==> (server[i].id in user <==> i < k)
    ensures Missing(server, user) == server[k..]
  {
    if k < |server| {
      var rest := server[..|server| - 1];
      MissingSuffix(rest, user, k);
      assert server[k..] == rest[k..] + [server[|server| - 1]];
    } else {
      forall id | id in Ids(server) ensures id in user {
        var i := LastIndex(server, id);
      }
      NothingMissing(server, user);
    }
  }

  /** When the kept ids are the first ids of the server's list, the client lists just those of the server's ids. */
  lemma {:induction false} KeptPrefix(server: seq<Edit>, user: seq<Uuid>, i: nat)
    requires NoRepeat(server) && i < |server|
    requires Kept(user, Extra(server, user)) <= IdList(server)
    ensures server[i].id in user <==> i < |Kept(user, Extra(server, user))|
  {
    var kept := Kept(user, Extra(server, user));
    KeptMembers(user, Extra(server, user));
    assert server[i].id in Ids(server);
    assert server[i].id in user <==> server[i].id in kept;
    assert forall j :: 0 <= j < |kept| ==> kept[j] == IdList(server)[j];
  }

  /**
   * Order. With distinct server ids the updated list is the server's list in order exactly when the ids the
   * client keeps are a prefix of it.
   */
  lemma {:induction false} DiffOrderIff(data: EditData, server: seq<Edit>, user: seq<Uuid>)
    requires IsDiff(data, server, user) && NoRepeat(server)
    ensures ApplyDiff(user, data) == IdList(server) <==> Kept(user, Extra(server, user)) <= IdList(server)
  {
    hide NoRepeat, Kept, Extra, Missing, IdList, ToSet;
    var kept, ids := Kept(user, Extra(server, user)), IdList(server);
    assert ApplyDiff(user, data) == kept + IdList(Missing(server, user));
    if kept <= ids {
      PrefixCompletes(server, user);
      assert kept + ids[|kept|..] == ids;
    }
  }

  /** When the kept ids are a prefix of the server's, the missing edits are the rest. */
  lemma {:induction false} PrefixCompletes(server: seq<Edit>, user: seq<Uuid>)
    requires NoRepeat(server) && Kept(user, Extra(server, user)) <= IdList(server)
    ensures IdList(Missing(server, user)) == IdList(server)[|Kept(user, Extra(server, user))|..]
  {
    hide NoRepeat, Kept, Extra, Missing;
    var k := |Kept(user, Extra(server, user))|;
    forall i | 0 <= i < |server| ensures server[i].id in user <==> i < k {
      KeptPrefix(server, user, i);
    }
    MissingSuffix(server, user, k);
  }

  /** A client without any edits receives the two lists themselves. */
  lemma {:induction false} FirstPull(data: PullData, h: History)
    requires IsPullOf(data, h, [], [])
    ensures data == PullData(EditData(h.current, []), EditData(h.undone, []))
  {
    forall server: seq<Edit> ensures Missing(server, []) == server {
      MissingAll(server);
    }
    EmptySet(data.current.shouldBeDeletedIds);
    EmptySet(data.undone.shouldBeDeletedIds);
  }

  lemma {:induction false} MissingAll(server: seq<Edit>)
    ensures Missing(server, []) == server
  {
    if server != [] {
      MissingAll(server[..|server| - 1]);
    }
  }
}
