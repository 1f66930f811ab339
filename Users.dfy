/** The session registry: one record per connected client, with its
    capability grants and its authorization flag (src/modules/Users.module.ts). */
module Users {
  import opened Packets

  /** An opaque handle on a media stream (a wrtc MediaStream). */
  type StreamId = nat

  /** One connected client. The data-channel peer and the signalling socket
      are transport handles outside this model; `ip` is the address the
      socket's handshake reported. */
  datatype User = User(
    id: string,
    ip: string,
    permissions: map<string, bool>,
    stream: Option<StreamId>,
    isAuthorized: bool)

  /** A capability is granted when its key is present and true; a missing key
      reads as undefined, which is falsy. */
  predicate Granted(permissions: map<string, bool>, key: string) {
    key in permissions && permissions[key]
  }

  predicate Distinct(s: seq<string>) {
    forall i, j :: 0 <= i < j < |s| ==> s[i] != s[j]
  }

  /** `s` without `x`, keeping the order of the rest. */
  function Without(s: seq<string>, x: string): (r: seq<string>)
    ensures forall y :: y in r <==> y in s && y != x
    ensures Distinct(s) ==> Distinct(r)
    ensures |r| <= |s|
  {
    if s == [] then []
    else if s[0] == x then Without(s[1..], x)
    else
      var rest := Without(s[1..], x);
      assert forall y :: y in rest ==> y in s[1..];
      if Distinct(s) then assert s[0] !in s[1..]; DistinctCons(s[0], rest); [s[0]] + rest
      else [s[0]] + rest
  }

  /** The ids of authorized sessions, in registry order: the key order of the
      dictionary `getAuthorizedUsers` builds. */
  function AuthorizedIds(ids: seq<string>, users: map<string, User>): (r: seq<string>)
    ensures forall id :: id in r <==> id in ids && id in users && users[id].isAuthorized
    ensures Distinct(ids) ==> Distinct(r)
    ensures |r| <= |ids|
  {
    if ids == [] then []
    else
      var rest := AuthorizedIds(ids[1..], users);
      assert forall y :: y in rest ==> y in ids[1..];
      if ids[0] in users && users[ids[0]].isAuthorized then
        if Distinct(ids) then assert ids[0] !in ids[1..]; DistinctCons(ids[0], rest); [ids[0]] + rest
        else [ids[0]] + rest
      else rest
  }

  lemma DistinctCons(x: string, s: seq<string>)
    requires x !in s && Distinct(s)
    ensures Distinct([x] + s)
  {
    var t := [x] + s;
    forall i, j | 0 <= i < j < |t| ensures t[i] != t[j] {
      if i == 0 {
        assert t[j] == s[j - 1];
      } else {
        assert t[i] == s[i - 1] && t[j] == s[j - 1];
      }
    }
  }

  /** Taking one more id from the registry order extends the authorized list
      at its end. */
  lemma {:induction false} AuthorizedIdsSnoc(ids: seq<string>, x: string, users: map<string, User>)
    ensures AuthorizedIds(ids + [x], users)
         == AuthorizedIds(ids, users) + (if x in users && users[x].isAuthorized then [x] else [])
  {
    var t := ids + [x];
    if ids == [] {
      assert t[1..] == [];
    } else {
      assert t[0] == ids[0] && t[1..] == ids[1..] + [x];
      AuthorizedIdsSnoc(ids[1..], x, users);
    }
  }

  /** A sequence without repetitions has as many elements as its set. */
  lemma {:induction false} DistinctCard(s: seq<string>)
    requires Distinct(s)
    ensures |set x | x in s| == |s|
  {
    if s != [] {
      DistinctCard(s[1..]);
      assert (set x | x in s) == (set x | x in s[1..]) + {s[0]};
      assert s[0] !in s[1..];
    }
  }

  /** The records of the listed ids, in order. */
  function Records(order: seq<string>, all: map<string, User>): (r: seq<User>)
    requires forall id :: id in order ==> id in all
    ensures |r| == |order|
    ensures forall i :: 0 <= i < |r| ==> r[i] == all[order[i]]
  {
    seq(|order|, i requires 0 <= i < |order| => all[order[i]])
  }

  /** A registry whose keys are exactly its distinct ordered ids has as many
      records as ids. */
  lemma RegistrySize(ids: seq<string>, users: map<string, User>)
    requires Distinct(ids)
    requires forall id :: id in users <==> id in ids
    ensures |users| == |ids|
  {
    DistinctCard(ids);
    assert users.Keys == set x | x in ids;
  }

  /** Every record of a consistent registry appears among the listed ones. */
  lemma RecordsCover(ids: seq<string>, users: map<string, User>, r: seq<User>)
    requires forall id :: id in users <==> id in ids
    requires forall id :: id in users ==> users[id].id == id
    requires |r| == |ids| && forall i :: 0 <= i < |r| ==> r[i] == users[ids[i]]
    ensures forall id :: id in users <==> exists i :: 0 <= i < |r| && r[i].id == id
  {
    forall id | id in users ensures exists i :: 0 <= i < |r| && r[i].id == id {
      var i :| 0 <= i < |ids| && ids[i] == id;
      assert r[i].id == id;
    }
  }

  class Users {
    /** The dictionary's keys in insertion order: the order `Object.values`
        and `for…in` visit them in (socket ids are never integer-like keys). */
    var ids: seq<string>
    var users: map<string, User>

    ghost predicate Valid()
      reads this
    {
      && Distinct(ids)
      && (forall id :: id in users <==> id in ids)
      && (forall id :: id in users ==> users[id].id == id)
    }

    constructor ()
      ensures Valid() && ids == [] && users == map[]
    {
      ids := [];
      users := map[];
    }

    /** `create`: registers a session, replacing any record under the same id
        (which keeps its place in the order). */
    method Create(id: string, ip: string, permissions: map<string, bool>,
                  stream: Option<StreamId>, isAuthorized: bool := false)
      requires Valid()
      modifies this
      ensures Valid()
      ensures users == old(users)[id := User(id, ip, permissions, stream, isAuthorized)]
      ensures ids == if id in old(users) then old(ids) else old(ids) + [id]
    {
      if id !in users {
        ids := ids + [id];
      }
      users := users[id := User(id, ip, permissions, stream, isAuthorized)];
    }

    /** `delete`: removes the session; nothing else changes. */
    method Delete(id: string)
      requires Valid()
      modifies this
      ensures Valid()
      ensures users == old(users) - {id}
      ensures ids == Without(old(ids), id)
    {
      users := users - {id};
      ids := Without(ids, id);
    }

    /** `exists`: a registered record is always truthy. */
    method Exists(id: string) returns (b: bool)
      requires Valid()
      ensures b <==> id in ids
    {
      b := id in users;
    }

    /** `getIp`: optional chaining makes an unknown id read as undefined. */
    method GetIp(id: string) returns (ip: Option<string>)
      ensures ip.None? <==> id !in users
      ensures ip.Some? ==> ip.value == users[id].ip
    {
      ip := if id in users then Some(users[id].ip) else None;
    }

    /** `setIp`: the source dereferences the record, so the id must exist. */
    method SetIp(id: string, ip: string)
      requires Valid() && id in users
      modifies this
      ensures Valid() && ids == old(ids)
      ensures users == old(users)[id := old(users)[id].(ip := ip)]
    {
      users := users[id := users[id].(ip := ip)];
    }

    method GetStream(id: string) returns (s: Option<StreamId>)
      requires id in users
      ensures s == users[id].stream
    {
      s := users[id].stream;
    }

    method SetStream(id: string, s: StreamId)
      requires Valid() && id in users
      modifies this
      ensures Valid() && ids == old(ids)
      ensures users == old(users)[id := old(users)[id].(stream := Some(s))]
    {
      users := users[id := users[id].(stream := Some(s))];
    }

    /** `getPermissions`: null (None) for an unknown id instead of failing. */
    method GetPermissions(id: string) returns (p: Option<map<string, bool>>)
      ensures p.None? <==> id !in users
      ensures p.Some? ==> p.value == users[id].permissions
    {
      p := if id in users then Some(users[id].permissions) else None;
    }

    /** `getPermission`: undefined (None) for a key the set does not hold. */
    method GetPermission(id: string, key: string) returns (v: Option<bool>)
      requires id in users
      ensures v.None? <==> key !in users[id].permissions
      ensures v.Some? ==> v.value == users[id].permissions[key]
    {
      var p := users[id].permissions;
      v := if key in p then Some(p[key]) else None;
    }

    /** `setPermission`: one key of one session's set. */
    method SetPermission(id: string, key: string, value: bool)
      requires Valid() && id in users
      modifies this
      ensures Valid() && ids == old(ids)
      ensures users == old(users)[id := old(users)[id].(permissions := old(users)[id].permissions[key := value])]
    {
      var u := users[id];
      users := users[id := u.(permissions := u.permissions[key := value])];
    }

    /** `setPermissions`: replaces the whole set of one session. */
    method SetPermissions(id: string, permissions: map<string, bool>)
      requires Valid() && id in users
      modifies this
      ensures Valid() && ids == old(ids)
      ensures users == old(users)[id := old(users)[id].(permissions := permissions)]
    {
      users := users[id := users[id].(permissions := permissions)];
    }

    method SetAuthorized(id: string, value: bool)
      requires Valid() && id in users
      modifies this
      ensures Valid() && ids == old(ids)
      ensures users == old(users)[id := old(users)[id].(isAuthorized := value)]
    {
      users := users[id := users[id].(isAuthorized := value)];
    }

    /** `Object.values(getUsers())`: every registered session exactly once, in
        registry order. */
    function Values(): (r: seq<User>)
      reads this
      requires Valid()
      ensures |r| == |ids| == |users|
      ensures forall i :: 0 <= i < |r| ==> r[i] == users[ids[i]]
      ensures forall id :: id in users <==> exists i :: 0 <= i < |r| && r[i].id == id
    {
      RegistrySize(ids, users);
      var r := Records(ids, users);
      RecordsCover(ids, users, r);
      r
    }

    /** `getAuthorizedUsers`: a new dictionary holding exactly the authorized
        sessions' records, unchanged; `order` is its key order. */
    method GetAuthorizedUsers() returns (r: map<string, User>, order: seq<string>)
      requires Valid()
      ensures forall id :: id in r <==> id in users && users[id].isAuthorized
      ensures forall id :: id in r ==> r[id] == users[id]
      ensures order == AuthorizedIds(ids, users)
    {
      r, order := map[], [];
      var i := 0;
      while i < |ids|
        invariant 0 <= i <= |ids|
        invariant order == AuthorizedIds(ids[..i], users)
        invariant forall id :: id in r <==> id in order
        invariant forall id :: id in r ==> r[id] == users[id]
      {
        var id := ids[i];
        assert ids[..i + 1] == ids[..i] + [id];
        AuthorizedIdsSnoc(ids[..i], id, users);
        if users[id].isAuthorized {
          r := r[id := users[id]];
          order := order + [id];
        }
        i := i + 1;
      }
      assert ids[..i] == ids;
    }
  }
}
