/** Event sequences over the matchmaking model: two sockets "X" and "Y"
    connect with the codes "alpha" and "beta" and then send events. Each step
    method calls the handler methods in turn and states what each socket has
    been sent so far; the scenario methods at the end state the outcome. */
module Scenarios {
  import opened Protocol
  import opened Seqs
  import opened Matchmaking

  /** `x` is a record of socket "X" with code "alpha", `y` one of socket "Y"
      with code "beta", and the server's invariant holds. */
  ghost predicate Base(srv: Server, x: User, y: User)
    reads srv, srv.Repr
  {
    && srv.Valid()
    && x.sid == "X" && x.code == "alpha" && y.sid == "Y" && y.code == "beta"
  }

  /** The registry holds exactly `x` and `y`, registered in that order. */
  ghost predicate TwoUsers(srv: Server, x: User, y: User)
    reads srv, srv.Repr
  {
    && Base(srv, x, y)
    && srv.Repr == {x, y}
    && srv.users == map["X" := x, "Y" := y] && srv.order == ["X", "Y"]
  }

  /** Socket "X" has been sent `toX` and socket "Y" has been sent `toY`. */
  ghost predicate Sent(srv: Server, toX: seq<Event>, toY: seq<Event>)
    reads srv
  {
    SentTo(srv.outbox, "X") == toX && SentTo(srv.outbox, "Y") == toY
  }

  /** The two socket ids differ (string literals are compared element-wise). */
  lemma XNotY()
    ensures "X" != "Y"
  {
    assert "X"[0] != "Y"[0];
  }

  /** Deleting "X" from the two-user registry leaves "Y" alone. */
  lemma LeaveX(x: User, y: User)
    ensures map["X" := x, "Y" := y] - {"X"} == map["Y" := y]
  {
    var m := map["X" := x, "Y" := y] - {"X"};
    XNotY();
    assert m.Keys == {"Y"};
  }

  /** Both sockets connect (their fresh ids are "alpha" and "beta"). */
  method Connected() returns (srv: Server, x: User, y: User)
    ensures fresh(srv) && fresh(x) && fresh(y) && TwoUsers(srv, x, y)
    ensures srv.queue == [] && x.partner == null && y.partner == null
    ensures x.gender == Some("") && y.gender == Some("")
    ensures Sent(srv, [YourCode("alpha")], [YourCode("beta")])
  {
    srv := new Server();
    x := srv.Register("X", "alpha");
    y := srv.Register("Y", "beta");
    XNotY();
    assert srv.outbox == [("X", YourCode("alpha")), ("Y", YourCode("beta"))];
  }

  /** Then "X" asks for a random partner: nobody is waiting, so it waits. */
  method XWaiting() returns (srv: Server, x: User, y: User)
    ensures fresh(srv) && fresh(x) && fresh(y) && TwoUsers(srv, x, y)
    ensures srv.queue == [x] && x.partner == null && y.partner == null
    ensures x.gender == Some("m") && y.gender == Some("")
    ensures Sent(srv, [YourCode("alpha"), Status(SearchingText)], [YourCode("beta")])
  {
    srv, x, y := Connected();
    ghost var before := srv.outbox;
    assert srv.Choose("X", None) == Wait;
    srv.FindPartner("X", Some("m"), None);
    XNotY();
    SentToOne(before, "X", Status(SearchingText), "X");
    SentToOne(before, "X", Status(SearchingText), "Y");
  }

  /** Then "Y" asks for a random partner and takes "X" out of the queue. */
  method RandomlyPaired() returns (srv: Server, x: User, y: User)
    ensures fresh(srv) && fresh(x) && fresh(y) && TwoUsers(srv, x, y)
    ensures srv.queue == [] && x.partner == y && y.partner == x
    ensures Sent(srv, [YourCode("alpha"), Status(SearchingText), PartnerFound("Y", Some("f"), "beta")],
                      [YourCode("beta"), PartnerFound("X", Some("m"), "alpha")])
  {
    srv, x, y := XWaiting();
    ghost var before := srv.outbox;
    assert srv.Choose("Y", None) == FromQueue(0);
    srv.FindPartner("Y", Some("f"), None);
    XNotY();
    IntroductionsReachBoth(before, y, x, "X");
    IntroductionsReachBoth(before, y, x, "Y");
  }

  /** Instead, "Y" asks for the code "alpha" while "X" waits in the queue: the
      direct match pairs them and leaves "X" in the queue. */
  method DirectlyPairedWhileQueued() returns (srv: Server, x: User, y: User)
    ensures fresh(srv) && fresh(x) && fresh(y) && TwoUsers(srv, x, y)
    ensures srv.queue == [x] && x.partner == y && y.partner == x
  {
    srv, x, y := XWaiting();
    assert srv.Values() == [x, y];
    assert srv.Choose("Y", Some("alpha")) == Direct(x);
    srv.FindPartner("Y", Some("f"), Some("alpha"));
  }

  /** Right after connecting, "X" asks for the code "beta" of the idle "Y". */
  method DirectlyPaired() returns (srv: Server, x: User, y: User)
    ensures fresh(srv) && fresh(x) && fresh(y) && TwoUsers(srv, x, y)
    ensures srv.queue == [] && x.partner == y && y.partner == x
    ensures Sent(srv, [YourCode("alpha"), PartnerFound("Y", Some(""), "beta")],
                      [YourCode("beta"), PartnerFound("X", Some("m"), "alpha")])
  {
    srv, x, y := Connected();
    ghost var before := srv.outbox;
    assert srv.Values() == [x, y];
    assert !Wanted(x, "X", Some("beta")) && Wanted(y, "X", Some("beta"));
    assert FirstWanted([x, y], "X", Some("beta")) == 1;
    assert srv.Choose("X", Some("beta")) == Direct(y);
    srv.FindPartner("X", Some("m"), Some("beta"));
    XNotY();
    IntroductionsReachBoth(before, x, y, "X");
    IntroductionsReachBoth(before, x, y, "Y");
  }

  /** Right after connecting, "X" asks for the code "ghost", which nobody has:
      the search falls through to the empty queue and "X" waits. */
  method UnknownCodeQueued() returns (srv: Server, x: User, y: User)
    ensures fresh(srv) && fresh(x) && fresh(y) && TwoUsers(srv, x, y)
    ensures srv.queue == [x] && x.partner == null && y.partner == null
    ensures Sent(srv, [YourCode("alpha"), Status(SearchingText)], [YourCode("beta")])
  {
    srv, x, y := Connected();
    ghost var before := srv.outbox;
    assert srv.Values() == [x, y];
    assert srv.Choose("X", Some("ghost")) == Wait;
    srv.FindPartner("X", Some("m"), Some("ghost"));
    XNotY();
    SentToOne(before, "X", Status(SearchingText), "X");
    SentToOne(before, "X", Status(SearchingText), "Y");
  }

  /** After the random pairing, "X" disconnects: "Y" is told and unlinked, and
      "X" leaves the registry. */
  method XLeftMidSession() returns (srv: Server, x: User, y: User)
    ensures fresh(srv) && fresh(x) && fresh(y) && Base(srv, x, y)
    ensures srv.users == map["Y" := y] && srv.order == ["Y"]
    ensures srv.queue == [] && y.partner == null
    ensures Sent(srv, [YourCode("alpha"), Status(SearchingText), PartnerFound("Y", Some("f"), "beta")],
                      [YourCode("beta"), PartnerFound("X", Some("m"), "alpha"), PartnerDisconnected])
  {
    srv, x, y := RandomlyPaired();
    ghost var before := srv.outbox;
    assert IndexOf(srv.order, "X") == 0 && IndexOf(Sockets(srv.queue), "X") == -1;
    assert Without(srv.order, 0) == ["Y"];
    LeaveX(x, y);
    srv.Disconnect("X");
    SentToOne(before, "Y", PartnerDisconnected, "X");
    SentToOne(before, "Y", PartnerDisconnected, "Y");
  }

  /** After the random pairing, "Y" skips: both links are cleared, "X" is told,
      and "Y" waits in the queue. */
  method YSkipped() returns (srv: Server, x: User, y: User)
    ensures fresh(srv) && fresh(x) && fresh(y) && TwoUsers(srv, x, y)
    ensures srv.queue == [y] && x.partner == null && y.partner == null
    ensures Sent(srv, [YourCode("alpha"), Status(SearchingText), PartnerFound("Y", Some("f"), "beta"),
                       PartnerDisconnected],
                      [YourCode("beta"), PartnerFound("X", Some("m"), "alpha"), Status(SearchingAgainText)])
  {
    srv, x, y := RandomlyPaired();
    ghost var before := srv.outbox;
    assert srv.users["Y"] == y && y.partner == x;
    srv.SkipPartner("Y");
    XNotY();
    SkipNotices(before, "X", "Y", "X");
    SkipNotices(before, "X", "Y", "Y");
  }

  /** While "X" waits, it sets the code "gamma": a new record `x2` replaces `x`
      in the registry, but the queue still holds `x`. */
  method Recoded() returns (srv: Server, x: User, y: User, x2: User)
    ensures fresh(srv) && fresh(x) && fresh(y) && fresh(x2) && Base(srv, x, y)
    ensures srv.Repr == {x, y, x2} && x2.sid == "X" && x2.code == "gamma"
    ensures srv.users == map["X" := x2, "Y" := y] && srv.order == ["X", "Y"]
    ensures srv.queue == [x] && x.partner == null && y.partner == null && x2.partner == null
    ensures x.gender == Some("m") && y.gender == Some("")
    ensures Sent(srv, [YourCode("alpha"), Status(SearchingText), YourCode("gamma")], [YourCode("beta")])
  {
    srv, x, y := XWaiting();
    ghost var before := srv.outbox;
    x2 := srv.Register("X", "gamma");
    assert srv.users == map["X" := x2, "Y" := y];
    XNotY();
    SentToOne(before, "X", YourCode("gamma"), "X");
    SentToOne(before, "X", YourCode("gamma"), "Y");
  }

  /** Then "Y" asks for a random partner: it is paired with the replaced record
      `x`, whose introduction still carries the old code. */
  method PairedWithReplaced() returns (srv: Server, x: User, y: User, x2: User)
    ensures fresh(srv) && fresh(x) && fresh(y) && fresh(x2) && Base(srv, x, y)
    ensures srv.users == map["X" := x2, "Y" := y]
    ensures srv.queue == [] && x.partner == y && y.partner == x && x2.partner == null
    ensures Sent(srv, [YourCode("alpha"), Status(SearchingText), YourCode("gamma"),
                       PartnerFound("Y", Some("f"), "beta")],
                      [YourCode("beta"), PartnerFound("X", Some("m"), "alpha")])
  {
    srv, x, y, x2 := Recoded();
    ghost var before := srv.outbox;
    assert srv.Choose("Y", None) == FromQueue(0);
    srv.FindPartner("Y", Some("f"), None);
    XNotY();
    IntroductionsReachBoth(before, y, x, "X");
    IntroductionsReachBoth(before, y, x, "Y");
  }

  /** Right after connecting, "X" skips twice without a partner: it is queued twice. */
  method XQueuedTwice() returns (srv: Server, x: User, y: User)
    ensures fresh(srv) && fresh(x) && fresh(y) && TwoUsers(srv, x, y)
    ensures srv.queue == [x, x] && x.partner == null && y.partner == null
    ensures x.gender == Some("") && y.gender == Some("")
    ensures SentTo(srv.outbox, "Y") == [YourCode("beta")]
  {
    srv, x, y := Connected();
    ghost var o0 := srv.outbox;
    srv.SkipPartner("X");
    ghost var o1 := srv.outbox;
    srv.SkipPartner("X");
    XNotY();
    SentToOne(o0, "X", Status(SearchingAgainText), "Y");
    SentToOne(o1, "X", Status(SearchingAgainText), "Y");
  }

  /** Then "X" disconnects: only its first queue entry goes. */
  method XLeftOnceQueued() returns (srv: Server, x: User, y: User)
    ensures fresh(srv) && fresh(x) && fresh(y) && Base(srv, x, y) && srv.Repr == {x, y}
    ensures srv.users == map["Y" := y] && srv.order == ["Y"]
    ensures srv.queue == [x] && x.partner == null && y.partner == null
    ensures x.gender == Some("") && y.gender == Some("")
    ensures SentTo(srv.outbox, "Y") == [YourCode("beta")]
  {
    srv, x, y := XQueuedTwice();
    assert IndexOf(srv.order, "X") == 0 && IndexOf(Sockets(srv.queue), "X") == 0;
    assert Without(srv.order, 0) == ["Y"] && Without(srv.queue, 0) == [x];
    LeaveX(x, y);
    srv.Disconnect("X");
  }

  /** Then "Y" asks for a random partner and is paired with the departed "X". */
  method PairedWithDeparted() returns (srv: Server, x: User, y: User)
    ensures fresh(srv) && fresh(x) && fresh(y) && Base(srv, x, y)
    ensures srv.users == map["Y" := y]
    ensures srv.queue == [] && x.partner == y && y.partner == x
    ensures SentTo(srv.outbox, "Y") == [YourCode("beta"), PartnerFound("X", Some(""), "alpha")]
  {
    srv, x, y := XLeftOnceQueued();
    ghost var before := srv.outbox;
    assert srv.Choose("Y", None) == FromQueue(0);
    srv.FindPartner("Y", Some("f"), None);
    XNotY();
    IntroductionsReachBoth(before, y, x, "Y");
  }

  /** Random pairing: "X" waits, then "Y" is paired with it, and each side is
      introduced to the other with its gender and code. */
  method RandomPairing() returns (toX: seq<Event>, toY: seq<Event>, waiting: nat)
    ensures toX == [YourCode("alpha"), Status(SearchingText), PartnerFound("Y", Some("f"), "beta")]
    ensures toY == [YourCode("beta"), PartnerFound("X", Some("m"), "alpha")]
    ensures waiting == 0
  {
    var srv, x, y := RandomlyPaired();
    toX, toY, waiting := SentTo(srv.outbox, "X"), SentTo(srv.outbox, "Y"), |srv.queue|;
  }

  /** Direct pairing by code with an idle user; the queue is not touched. */
  method DirectPairing() returns (toX: seq<Event>, toY: seq<Event>, waiting: nat)
    ensures toX == [YourCode("alpha"), PartnerFound("Y", Some(""), "beta")]
    ensures toY == [YourCode("beta"), PartnerFound("X", Some("m"), "alpha")]
    ensures waiting == 0
  {
    var srv, x, y := DirectlyPaired();
    toX, toY, waiting := SentTo(srv.outbox, "X"), SentTo(srv.outbox, "Y"), |srv.queue|;
  }

  /** A direct match does not take its target out of the queue: "X" is then
      both waiting and paired. */
  method DirectMatchKeepsTargetQueued() returns (queued: bool, paired: bool)
    ensures queued && paired
  {
    var srv, x, y := DirectlyPairedWhileQueued();
    queued, paired := x in srv.queue, x.partner != null;
  }

  /** A code nobody has: the search falls through to random matching, and with
      nobody waiting the requester is queued and told it is searching. */
  method UnknownCodeWaits() returns (toX: seq<Event>, waiting: nat)
    ensures toX == [YourCode("alpha"), Status(SearchingText)]
    ensures waiting == 1
  {
    var srv, x, y := UnknownCodeQueued();
    toX, waiting := SentTo(srv.outbox, "X"), |srv.queue|;
  }

  /** "X" disconnects mid-session: "Y" is told exactly once and only "Y" stays registered. */
  method DisconnectMidSession() returns (toY: seq<Event>, registered: set<SocketId>, linked: bool)
    ensures toY == [YourCode("beta"), PartnerFound("X", Some("m"), "alpha"), PartnerDisconnected]
    ensures registered == {"Y"} && !linked
  {
    var srv, x, y := XLeftMidSession();
    toY, registered, linked := SentTo(srv.outbox, "Y"), srv.users.Keys, y.partner != null;
  }

  /** "Y" skips: "X" is told exactly once, and "Y" is queued and told once
      that it is searching again. */
  method SkipMidSession() returns (toX: seq<Event>, toY: seq<Event>, waiting: nat)
    ensures toX == [YourCode("alpha"), Status(SearchingText), PartnerFound("Y", Some("f"), "beta"),
                    PartnerDisconnected]
    ensures toY == [YourCode("beta"), PartnerFound("X", Some("m"), "alpha"), Status(SearchingAgainText)]
    ensures waiting == 1
  {
    var srv, x, y := YSkipped();
    toX, toY, waiting := SentTo(srv.outbox, "X"), SentTo(srv.outbox, "Y"), |srv.queue|;
  }

  /** "Y" is paired with the record "X" replaced by `set-code`: "Y" sees the
      old code, and "X"'s current record has no partner, so a message from "X"
      goes nowhere while a message from "Y" still reaches socket "X". */
  method ReplacedRecordPaired() returns (toX: seq<Event>, toY: seq<Event>)
    ensures toX == [YourCode("alpha"), Status(SearchingText), YourCode("gamma"),
                    PartnerFound("Y", Some("f"), "beta"), ReceiveMessage("yo")]
    ensures toY == [YourCode("beta"), PartnerFound("X", Some("m"), "alpha")]
  {
    var srv, x, y, x2 := PairedWithReplaced();
    srv.SendMessage("X", "hi");
    srv.SendMessage("Y", "yo");
    XNotY();
    toX, toY := SentTo(srv.outbox, "X"), SentTo(srv.outbox, "Y");
  }

  /** A socket queued twice leaves one entry behind when it disconnects, and a
      later random search pairs with that departed socket. */
  method PairedWithDepartedSocket() returns (toY: seq<Event>, registered: set<SocketId>, partnerSocket: SocketId)
    ensures toY == [YourCode("beta"), PartnerFound("X", Some(""), "alpha")]
    ensures registered == {"Y"} && partnerSocket == "X" && partnerSocket !in registered
  {
    var srv, x, y := PairedWithDeparted();
    toY, registered, partnerSocket := SentTo(srv.outbox, "Y"), srv.users.Keys, y.partner.sid;
  }
}
