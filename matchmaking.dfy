/** The matchmaking state of the chat server: a registry of connected users,
    a waiting queue and `partner` links between user records, updated in place
    by the socket event handlers. */
module Matchmaking {
  import opened Protocol
  import opened Seqs

  /** A user record as `users` stores it: `{ id, socket, gender, partner }`.
      The socket and the `id` (here `code`) are never reassigned; `set-code`
      replaces the whole record instead, so queue entries and partner links
      may keep pointing at a record that is no longer registered. */
  class User {
    const sid: SocketId
    const code: Code
    var gender: Option<string>
    var partner: User?

    constructor (sid: SocketId, code: Code)
      ensures this.sid == sid && this.code == code
      ensures gender == Some("") && partner == null
    {
      this.sid := sid;
      this.code := code;
      gender := Some("");
      partner := null;
    }
  }

  /** The records of `s` that belong to a socket other than `sid`: the only
      ones a search by `sid` looks into, since its filter rejects the others
      on their (immutable) socket id alone. */
  function Others(s: seq<User>, sid: SocketId): set<User>
  {
    set u | u in s && u.sid != sid
  }

  /** The filter of a partner search by socket `sid`: a record of another
      socket, without a partner, and carrying `code` when a code is given. */
  predicate Wanted(u: User, sid: SocketId, code: Option<Code>)
    reads if u.sid == sid then {} else {u}
  {
    u.sid != sid && u.partner == null && (code.None? || u.code == code.value)
  }

  /** `Array.prototype.find` with the search filter, as an index: the first
      record of `s` that the search wants, or -1. */
  function FirstWanted(s: seq<User>, sid: SocketId, code: Option<Code>): (r: int)
    reads Others(s, sid)
    ensures -1 <= r < |s|
    ensures 0 <= r ==> Wanted(s[r], sid, code) && forall j :: 0 <= j < r ==> !Wanted(s[j], sid, code)
    ensures r == -1 <==> forall j :: 0 <= j < |s| ==> !Wanted(s[j], sid, code)
  {
    if |s| == 0 then -1
    else if Wanted(s[0], sid, code) then 0
    else
      var k := FirstWanted(s[1..], sid, code);
      if k == -1 then -1 else k + 1
  }

  /** `Array.prototype.find` with the search filter, as a linear scan. */
  method Find(s: seq<User>, sid: SocketId, code: Option<Code>) returns (i: int)
    ensures i == FirstWanted(s, sid, code)
  {
    i := 0;
    while i < |s|
      invariant 0 <= i <= |s|
      invariant forall j :: 0 <= j < i ==> !Wanted(s[j], sid, code)
    {
      if Wanted(s[i], sid, code) {
        return;
      }
      i := i + 1;
    }
    i := -1;
  }

  /** The socket ids of a sequence of records. */
  function Sockets(s: seq<User>): (r: seq<SocketId>)
    ensures |r| == |s| && forall j :: 0 <= j < |s| ==> r[j] == s[j].sid
  {
    seq(|s|, j requires 0 <= j < |s| => s[j].sid)
  }

  /** `queue.findIndex((u) => u.socket.id === sid)`, as a linear scan. */
  method FindIndexOfSocket(q: seq<User>, sid: SocketId) returns (i: int)
    ensures i == IndexOf(Sockets(q), sid)
  {
    i := 0;
    while i < |q|
      invariant 0 <= i <= |q|
      invariant forall j :: 0 <= j < i ==> q[j].sid != sid
    {
      if q[i].sid == sid {
        return;
      }
      i := i + 1;
    }
    i := -1;
  }

  /** Splicing out the first entry of socket `sid` takes exactly one of that
      socket's entries out of the queue; any further entries of it stay. */
  lemma RemoveFirstOfSocket(q: seq<User>, sid: SocketId)
    requires IndexOf(Sockets(q), sid) >= 0
    ensures var k := IndexOf(Sockets(q), sid);
      multiset(Sockets(Without(q, k)))[sid] == multiset(Sockets(q))[sid] - 1
  {
    var k := IndexOf(Sockets(q), sid);
    assert Sockets(Without(q, k)) == Without(Sockets(q), k);
    WithoutMultiset(Sockets(q), k);
  }

  /** The two `partner-found` events of `matchUsers(a, b)`, each carrying the
      other side's socket id, gender and code. */
  function Introductions(a: User, b: User): Outbox
    reads a, b
  {
    [(a.sid, PartnerFound(b.sid, b.gender, b.code)), (b.sid, PartnerFound(a.sid, a.gender, a.code))]
  }

  /** `matchUsers` sends exactly one `partner-found` to each side, about the
      other side, and nothing to anybody else. */
  lemma IntroductionsReachBoth(out: Outbox, a: User, b: User, s: SocketId)
    requires a.sid != b.sid
    ensures SentTo(out + Introductions(a, b), s) == SentTo(out, s) +
      (if s == a.sid then [PartnerFound(b.sid, b.gender, b.code)]
       else if s == b.sid then [PartnerFound(a.sid, a.gender, a.code)]
       else [])
  {
    var i := Introductions(a, b);
    assert out + i == out + [i[0]] + [i[1]];
    SentToOne(out, i[0].0, i[0].1, s);
    SentToOne(out + [i[0]], i[1].0, i[1].1, s);
  }

  /** What `skip-partner` with a partner on socket `psid` sends: one
      `partner-disconnected` to the partner, one status to the skipper. */
  lemma SkipNotices(out: Outbox, psid: SocketId, sid: SocketId, s: SocketId)
    requires psid != sid
    ensures SentTo(out + [(psid, PartnerDisconnected), (sid, Status(SearchingAgainText))], s) == SentTo(out, s) +
      (if s == psid then [PartnerDisconnected]
       else if s == sid then [Status(SearchingAgainText)]
       else [])
  {
    assert out + [(psid, PartnerDisconnected), (sid, Status(SearchingAgainText))]
        == out + [(psid, PartnerDisconnected)] + [(sid, Status(SearchingAgainText))];
    SentToOne(out, psid, PartnerDisconnected, s);
    SentToOne(out + [(psid, PartnerDisconnected)], sid, Status(SearchingAgainText), s);
  }

  /** The branch `find-partner` takes. */
  datatype Choice = Direct(target: User) | FromQueue(index: nat) | Wait

  class Server {
    /** `users`: socket id to its current record. */
    var users: map<SocketId, User>
    /** The keys of `users` in the Map's insertion order. */
    var order: seq<SocketId>
    /** `queue`: records waiting for a partner, oldest first. */
    var queue: seq<User>
    /** Every event emitted so far. */
    var outbox: Outbox
    /** Every record the server has created. */
    ghost var Repr: set<User>

    ghost predicate Valid()
      reads this, Repr
    {
      && (forall s :: s in users ==> users[s] in Repr && users[s].sid == s)
      && NoDup(order)
      && (forall s :: s in order <==> s in users)
      && (forall i :: 0 <= i < |queue| ==> queue[i] in Repr)
      && (forall u {:trigger u.partner} :: u in Repr && u.partner != null ==> u.partner in Repr && u.partner.sid != u.sid)
    }

    constructor ()
      ensures Valid()
      ensures users == map[] && order == [] && queue == [] && outbox == [] && Repr == {}
    {
      users := map[];
      order := [];
      queue := [];
      outbox := [];
      Repr := {};
    }

    /** `Array.from(users.values())`: the current records in insertion order. */
    function Values(): (r: seq<User>)
      reads this
      requires forall s :: s in order ==> s in users
      ensures |r| == |order| && forall k :: 0 <= k < |r| ==> r[k] == users[order[k]]
      ensures forall u :: u in r ==> u in users.Values
    {
      var ids, m := order, users;
      seq(|ids|, k requires 0 <= k < |ids| && ids[k] in m => m[ids[k]])
    }

    /** Which way `find-partner` by socket `sid` goes in the current state: a
        direct match with the first registered record carrying `searchCode`, else
        a match with the first wanted queue entry, else waiting in the queue. */
    function Choose(sid: SocketId, searchCode: Option<Code>): (c: Choice)
      requires forall s :: s in order <==> s in users
      reads this, Others(Values(), sid), Others(queue, sid)
      ensures c.Direct? ==> Truthy(searchCode) && c.target in users.Values && Wanted(c.target, sid, searchCode)
      ensures !c.Direct? && Truthy(searchCode) ==> forall s :: s in users ==> !Wanted(users[s], sid, searchCode)
      ensures c.FromQueue? ==>
        && c.index < |queue| && Wanted(queue[c.index], sid, None)
        && forall j :: 0 <= j < c.index ==> !Wanted(queue[j], sid, None)
      ensures c.Wait? ==> forall j :: 0 <= j < |queue| ==> !Wanted(queue[j], sid, None)
    {
      var k := if Truthy(searchCode) then FirstWanted(Values(), sid, searchCode) else -1;
      if k >= 0 then Direct(Values()[k])
      else
        var i := FirstWanted(queue, sid, None);
        if i >= 0 then FromQueue(i) else Wait
    }

    /** Every registered record is among `Array.from(users.values())`. */
    lemma ValuesComplete()
      requires Valid()
      ensures forall s :: s in users ==> users[s] in Values()
    {
      forall s | s in users
        ensures users[s] in Values()
      {
        var k := IndexOf(order, s);
        assert Values()[k] == users[s];
      }
    }

    /** A direct match is with the earliest wanted record in the Map's
        insertion order. */
    lemma DirectIsFirstInOrder(sid: SocketId, searchCode: Option<Code>)
      requires Valid()
      ensures Choose(sid, searchCode).Direct? ==>
        exists k :: 0 <= k < |order| && users[order[k]] == Choose(sid, searchCode).target &&
          forall j :: 0 <= j < k ==> !Wanted(users[order[j]], sid, searchCode)
    {
      if Choose(sid, searchCode).Direct? {
        var vals := Values();
        var k := FirstWanted(vals, sid, searchCode);
        assert vals[k] == Choose(sid, searchCode).target;
        assert forall j :: 0 <= j < k ==> vals[j] == users[order[j]];
      }
    }

    /** Connection (with the fresh id as `code`) and `set-code`: store a new
        record for the socket with `users.set` and emit `your-code`. */
    method Register(sid: SocketId, code: Code) returns (u: User)
      requires Valid()
      modifies this
      ensures Valid() && fresh(u)
      ensures u.sid == sid && u.code == code && u.gender == Some("") && u.partner == null
      ensures users == old(users)[sid := u] && Repr == old(Repr) + {u}
      ensures order == if sid in old(users) then old(order) else old(order) + [sid]
      ensures queue == old(queue)
      ensures outbox == old(outbox) + [(sid, YourCode(code))]
    {
      u := new User(sid, code);
      if sid !in users {
        order := order + [sid];
      }
      users := users[sid := u];
      Repr := Repr + {u};
      outbox := outbox + [(sid, YourCode(code))];
    }

    /** `matchUsers`: link two records both ways and introduce them to each other. */
    method MatchUsers(u1: User, u2: User)
      requires Valid() && u1 in Repr && u2 in Repr && u1.sid != u2.sid
      modifies u1`partner, u2`partner, this`outbox
      ensures Valid()
      ensures u1.partner == u2 && u2.partner == u1
      ensures u1.gender == old(u1.gender) && u2.gender == old(u2.gender)
      ensures outbox == old(outbox) + Introductions(u1, u2)
    {
      u1.partner := u2;
      u2.partner := u1;
      outbox := outbox + [(u1.sid, PartnerFound(u2.sid, u2.gender, u2.code))];
      outbox := outbox + [(u2.sid, PartnerFound(u1.sid, u1.gender, u1.code))];
    }

    /** `find-partner`: record the gender, drop the requester's own link, then pair
        by code, else with the first free queue entry, else queue the requester.
        Which of the three happens is `Choose` of the state before the call. */
    method FindPartner(sid: SocketId, gender: Option<string>, searchCode: Option<Code>)
      requires Valid()
      modifies this, Repr
      ensures Valid() && Repr == old(Repr) && users == old(users) && order == old(order)
      ensures forall u :: u in Repr && !(sid in users && u == users[sid]) ==> u.gender == old(u.gender)
      ensures sid !in users ==>
        && queue == old(queue) && outbox == old(outbox)
        && forall u :: u in Repr ==> u.partner == old(u.partner)
      ensures sid in users ==> users[sid].gender == gender
      ensures sid in users ==>
        match old(Choose(sid, searchCode))
        case Direct(t) =>
          && queue == old(queue)
          && users[sid].partner == t && t.partner == users[sid]
          && outbox == old(outbox) + Introductions(users[sid], t)
          && (forall u :: u in Repr && u != users[sid] && u != t ==> u.partner == old(u.partner))
        case FromQueue(k) =>
          && k < |old(queue)|
          && var p := old(queue)[k];
          && queue == Without(old(queue), k)
          && users[sid].partner == p && p.partner == users[sid]
          && outbox == old(outbox) + Introductions(users[sid], p)
          && (forall u :: u in Repr && u != users[sid] && u != p ==> u.partner == old(u.partner))
        case Wait =>
          && queue == old(queue) + [users[sid]]
          && users[sid].partner == null
          && outbox == old(outbox) + [(users[sid].sid, Status(SearchingText))]
          && (forall u :: u in Repr && u != users[sid] ==> u.partner == old(u.partner))
    {
      if sid !in users {
        return;
      }
      var cur := users[sid];
      ResetRequester(cur, gender, searchCode);
      Pair(cur, searchCode, Choose(cur.sid, searchCode));
    }

    /** The first step of `find-partner`: store the requested gender and drop the
        requester's own partner link (the former partner's link is left as it is).
        No search by the requester's socket looks at its own record, so the
        choice `find-partner` makes is the same before and after. */
    method ResetRequester(cur: User, gender: Option<string>, ghost searchCode: Option<Code>)
      requires Valid() && cur.sid in users && users[cur.sid] == cur
      modifies cur`gender, cur`partner
      ensures Valid() && cur.gender == gender && cur.partner == null
      ensures Choose(cur.sid, searchCode) == old(Choose(cur.sid, searchCode))
    {
      ghost var vals := Values();
      cur.gender := gender;
      cur.partner := null;
      assert cur !in Others(vals, cur.sid) && cur !in Others(queue, cur.sid);
      assert FirstWanted(vals, cur.sid, searchCode) == old(FirstWanted(vals, cur.sid, searchCode));
      assert FirstWanted(queue, cur.sid, None) == old(FirstWanted(queue, cur.sid, None));
    }

    /** The search part of `find-partner`, for a requester whose link was just reset. */
    method Pair(cur: User, searchCode: Option<Code>, ghost c: Choice)
      requires Valid() && cur.sid in users && users[cur.sid] == cur && cur.partner == null
      requires c == Choose(cur.sid, searchCode)
      modifies this`queue, this`outbox, Repr`partner
      ensures Valid()
      ensures
        match c
        case Direct(t) =>
          && queue == old(queue)
          && cur.partner == t && t.partner == cur
          && outbox == old(outbox) + Introductions(cur, t)
          && (forall u :: u in Repr && u != cur && u != t ==> u.partner == old(u.partner))
        case FromQueue(k) =>
          && k < |old(queue)|
          && var p := old(queue)[k];
          && queue == Without(old(queue), k)
          && cur.partner == p && p.partner == cur
          && outbox == old(outbox) + Introductions(cur, p)
          && (forall u :: u in Repr && u != cur && u != p ==> u.partner == old(u.partner))
        case Wait =>
          && queue == old(queue) + [cur]
          && cur.partner == null
          && outbox == old(outbox) + [(cur.sid, Status(SearchingText))]
          && (forall u :: u in Repr && u != cur ==> u.partner == old(u.partner))
    {
      if Truthy(searchCode) {
        var vals := Values();
        var k := Find(vals, cur.sid, searchCode);
        assert k == old(FirstWanted(vals, cur.sid, searchCode));
        if k >= 0 {
          assert c == Direct(vals[k]);
          MatchUsers(cur, vals[k]);
          return;
        }
      }
      ghost var i := FirstWanted(queue, cur.sid, None);
      assert c == if i >= 0 then FromQueue(i) else Wait;
      MatchFromQueue(cur);
    }

    /** The random half of `find-partner`: splice out the first queue entry that is
        not of the requester's socket and has no partner, and pair with it; without
        one, append the requester to the queue and tell it that it is waiting. */
    method MatchFromQueue(cur: User)
      requires Valid() && cur.sid in users && users[cur.sid] == cur && cur.partner == null
      modifies this`queue, this`outbox, Repr`partner
      ensures Valid()
      ensures var k := old(FirstWanted(queue, cur.sid, None));
        0 <= k ==>
        var p := old(queue)[k];
        && queue == Without(old(queue), k)
        && cur.partner == p && p.partner == cur
        && outbox == old(outbox) + Introductions(cur, p)
        && forall u :: u in Repr && u != cur && u != p ==> u.partner == old(u.partner)
      ensures old(FirstWanted(queue, cur.sid, None)) < 0 ==>
        && queue == old(queue) + [cur]
        && outbox == old(outbox) + [(cur.sid, Status(SearchingText))]
        && forall u :: u in Repr ==> u.partner == old(u.partner)
    {
      var i := Find(queue, cur.sid, None);
      assert i == old(FirstWanted(queue, cur.sid, None));
      if i >= 0 {
        TakeFromQueue(cur, i);
      } else {
        Enqueue(cur);
      }
    }

    /** A partner was found at index `i` of the queue, ahead of any other
        occurrence of the same record: `queue.splice(queue.indexOf(partner), 1)`
        and pair the two. */
    method TakeFromQueue(cur: User, i: nat)
      requires Valid() && cur in Repr && i < |queue| && queue[i].sid != cur.sid
      requires forall j :: 0 <= j < i ==> queue[j] != queue[i]
      modifies this`queue, this`outbox, Repr`partner
      ensures Valid()
      ensures
        var p := old(queue)[i];
        && queue == Without(old(queue), i)
        && cur.partner == p && p.partner == cur
        && outbox == old(outbox) + Introductions(cur, p)
        && forall u :: u in Repr && u != cur && u != p ==> u.partner == old(u.partner)
    {
      var p := queue[i];
      var j := IndexOf(queue, p);
      Splice(j);
      MatchUsers(cur, p);
    }

    /** No partner available: `queue.push(currentUser)` and the `status` event. */
    method Enqueue(cur: User)
      requires Valid() && cur in Repr
      modifies this`queue, this`outbox
      ensures Valid()
      ensures queue == old(queue) + [cur]
      ensures outbox == old(outbox) + [(cur.sid, Status(SearchingText))]
    {
      queue := queue + [cur];
      outbox := outbox + [(cur.sid, Status(SearchingText))];
    }

    /** `queue.splice(i, 1)`. */
    method Splice(i: nat)
      requires Valid() && i < |queue|
      modifies this`queue
      ensures Valid() && queue == Without(old(queue), i)
    {
      queue := Without(queue, i);
    }

    /** The common guard of `send-message` and `typing`: forward `e` to the
        sender's partner, if the sender is registered and has one. */
    method ForwardToPartner(sid: SocketId, e: Event)
      requires Valid()
      modifies this`outbox
      ensures Valid()
      ensures sid in users && users[sid].partner != null ==>
        outbox == old(outbox) + [(users[sid].partner.sid, e)]
      ensures !(sid in users && users[sid].partner != null) ==> outbox == old(outbox)
    {
      if sid in users && users[sid].partner != null {
        outbox := outbox + [(users[sid].partner.sid, e)];
      }
    }

    /** `send-message`: relay the text to the partner only. */
    method SendMessage(sid: SocketId, msg: string)
      requires Valid()
      modifies this`outbox
      ensures Valid()
      ensures forall s :: SentTo(outbox, s) == old(SentTo(outbox, s)) +
                          (if sid in users && users[sid].partner != null && s == users[sid].partner.sid
                           then [ReceiveMessage(msg)] else [])
    {
      ghost var before := outbox;
      ForwardToPartner(sid, ReceiveMessage(msg));
      forall s
        ensures SentTo(outbox, s) == SentTo(before, s) +
          (if sid in users && users[sid].partner != null && s == users[sid].partner.sid then [ReceiveMessage(msg)] else [])
      {
        if sid in users && users[sid].partner != null {
          SentToOne(before, users[sid].partner.sid, ReceiveMessage(msg), s);
        }
      }
    }

    /** `typing`: relay the typing flag to the partner only. */
    method SetTyping(sid: SocketId, status: bool)
      requires Valid()
      modifies this`outbox
      ensures Valid()
      ensures forall s :: SentTo(outbox, s) == old(SentTo(outbox, s)) +
                          (if sid in users && users[sid].partner != null && s == users[sid].partner.sid
                           then [Typing(status)] else [])
    {
      ghost var before := outbox;
      ForwardToPartner(sid, Typing(status));
      forall s
        ensures SentTo(outbox, s) == SentTo(before, s) +
          (if sid in users && users[sid].partner != null && s == users[sid].partner.sid then [Typing(status)] else [])
      {
        if sid in users && users[sid].partner != null {
          SentToOne(before, users[sid].partner.sid, Typing(status), s);
        }
      }
    }

    /** `skip-partner`: unlink both sides (the former partner is told once),
        then queue the skipper unconditionally and tell it that it is searching again. */
    method SkipPartner(sid: SocketId)
      requires Valid() && sid in users
      modifies this`queue, this`outbox, Repr`partner
      ensures Valid()
      ensures var u := users[sid];
        var p := old(u.partner);
        && u.partner == null
        && queue == old(queue) + [u]
        && (p != null ==>
              && p.partner == null
              && outbox == old(outbox) + [(p.sid, PartnerDisconnected), (sid, Status(SearchingAgainText))])
        && (p == null ==> outbox == old(outbox) + [(sid, Status(SearchingAgainText))])
        && (forall w :: w in Repr && w != u && w != p ==> w.partner == old(w.partner))
        && (forall w :: w in Repr ==> w.gender == old(w.gender))
    {
      var u := users[sid];
      if u.partner != null {
        var p := u.partner;
        u.partner := null;
        p.partner := null;
        outbox := outbox + [(p.sid, PartnerDisconnected)];
      }
      queue := queue + [u];
      outbox := outbox + [(sid, Status(SearchingAgainText))];
    }

    /** `disconnect`: take the socket's first queue entry out, tell the partner
        and clear the partner's link, then delete the socket from `users`. */
    method Disconnect(sid: SocketId)
      requires Valid()
      modifies this, Repr`partner
      ensures Valid() && Repr == old(Repr)
      ensures forall w :: w in Repr ==> w.gender == old(w.gender)
      ensures sid !in old(users) ==>
        && users == old(users) && order == old(order) && queue == old(queue) && outbox == old(outbox)
        && forall w :: w in Repr ==> w.partner == old(w.partner)
      ensures sid in old(users) ==>
        && users == old(users) - {sid}
        && order == Without(old(order), IndexOf(old(order), sid))
      ensures sid in old(users) ==>
        var k := IndexOf(Sockets(old(queue)), sid);
        queue == if k < 0 then old(queue) else Without(old(queue), k)
      ensures sid in old(users) ==>
        var p := old(users[sid].partner);
        && (p != null ==> p.partner == null && outbox == old(outbox) + [(p.sid, PartnerDisconnected)])
        && (p == null ==> outbox == old(outbox))
        && (forall w :: w in Repr && w != p ==> w.partner == old(w.partner))
    {
      if sid !in users {
        return;
      }
      var u := users[sid];
      RemoveFirstEntry(sid);
      if u.partner != null {
        outbox := outbox + [(u.partner.sid, PartnerDisconnected)];
        u.partner.partner := null;
      }
      Unregister(sid);
    }

    /** `queue.splice(queue.findIndex(...), 1)` when the index is not -1. */
    method RemoveFirstEntry(sid: SocketId)
      requires Valid()
      modifies this`queue
      ensures Valid()
      ensures var k := IndexOf(Sockets(old(queue)), sid);
        queue == if k < 0 then old(queue) else Without(old(queue), k)
    {
      var index := FindIndexOfSocket(queue, sid);
      if index != -1 {
        Splice(index);
      }
    }

    /** `users.delete(sid)`: the key leaves the Map and its insertion order. */
    method Unregister(sid: SocketId)
      requires Valid() && sid in users
      modifies this`users, this`order
      ensures Valid()
      ensures users == old(users) - {sid}
      ensures order == Without(old(order), IndexOf(old(order), sid))
    {
      WithoutNoDup(order, IndexOf(order, sid));
      order := Without(order, IndexOf(order, sid));
      users := users - {sid};
    }
  }
}
