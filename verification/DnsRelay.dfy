/**
  The UDP side of the DNS relay (`serve_udp`, dashboard/provisioner/attached-dns-relay.py): one
  listener, one upstream socket per query in flight, and a selector that knows sockets only by
  descriptor number. Descriptors are reused once closed, so socket objects carry an identity of
  their own.
*/
module DnsRelay {
  import opened Common

  type Client = int
  type Bytes = seq<int>

  const MAX_DATAGRAM := 4096
  const MAX_INFLIGHT := 256
  const TIMEOUT := 5.0

  /** An upstream socket: the how-manieth one opened, and its descriptor. */
  datatype Socket = Socket(id: nat, fd: int)
  datatype Flight = Flight(client: Client, deadline: real)
  datatype Query = Query(client: Client, data: Bytes)
  datatype Reply = Reply(id: nat, client: Client, data: Bytes)

  /**
    What one ready descriptor yields. For the listener: a datagram and its sender, whether the bucket
    admits it, and whether connecting and sending works. For an upstream socket: the answer, and
    whether sending it on works. `None` is a failed read.
  */
  datatype Signal = Signal(fd: int, data: Option<Bytes>, client: Client, admitted: bool, works: bool, clock: real)

  /** One turn of the loop: the clock, and what `select` then finds. */
  datatype Turn = Turn(now: real, ready: seq<Signal>)

  /** `select` names a descriptor once. */
  predicate Distinct(ready: seq<Signal>) {
    forall i, j :: 0 <= i < j < |ready| ==> ready[i].fd != ready[j].fd
  }

  /**
    Every reply answers a query that was forwarded, goes to the client that asked it, and fits; no
    query is answered twice.
  */
  ghost predicate Answered(forwarded: seq<Query>, replies: seq<Reply>) {
    && (forall i :: 0 <= i < |replies| ==>
          && replies[i].id < |forwarded|
          && replies[i].client == forwarded[replies[i].id].client
          && |replies[i].data| <= 4096)
    && (forall i, j :: 0 <= i < j < |replies| ==> replies[i].id != replies[j].id)
  }

  /** A query in flight belongs to its client and has had no reply. */
  ghost predicate Waiting(s: Socket, f: Flight, forwarded: seq<Query>, replies: seq<Reply>) {
    && s.id < |forwarded| && f.client == forwarded[s.id].client
    && forall i :: 0 <= i < |replies| ==> replies[i].id != s.id
  }

  ghost predicate AllWaiting(inflight: map<Socket, Flight>, forwarded: seq<Query>, replies: seq<Reply>) {
    && (forall s :: s in inflight ==> Waiting(s, inflight[s], forwarded, replies))
    && (forall s, t :: s in inflight && t in inflight && s != t ==> s.id != t.id)
  }

  /** The selector holds exactly the listener and the sockets in flight, each under its own descriptor. */
  ghost predicate InStep(listener: int, inflight: map<Socket, Flight>, selector: map<int, Option<Socket>>) {
    && listener in selector && selector[listener] == None
    && (forall fd :: fd in selector && fd != listener ==>
          selector[fd].Some? && selector[fd].value.fd == fd && selector[fd].value in inflight)
    && (forall s :: s in inflight ==> s.fd != listener && s.fd in selector && selector[s.fd] == Some(s))
  }

  /** What holds at every point of the loop. */
  ghost predicate Sound(listener: int, inflight: map<Socket, Flight>, selector: map<int, Option<Socket>>,
                        forwarded: seq<Query>, replies: seq<Reply>)
  {
    && InStep(listener, inflight, selector) && |inflight| <= 256
    && Answered(forwarded, replies) && AllWaiting(inflight, forwarded, replies)
  }

  lemma ForgetKeepsStep(listener: int, inflight: map<Socket, Flight>, selector: map<int, Option<Socket>>, s: Socket)
    requires InStep(listener, inflight, selector) && s in inflight
    ensures InStep(listener, inflight - {s}, selector - {s.fd})
    ensures |inflight - {s}| == |inflight| - 1
  {
    assert (inflight - {s}).Keys == inflight.Keys - {s};
  }

  lemma ForgetKeeps(listener: int, inflight: map<Socket, Flight>, selector: map<int, Option<Socket>>,
                    forwarded: seq<Query>, replies: seq<Reply>, s: Socket)
    requires Sound(listener, inflight, selector, forwarded, replies) && s in inflight
    ensures Sound(listener, inflight - {s}, selector - {s.fd}, forwarded, replies)
  {
    ForgetKeepsStep(listener, inflight, selector, s);
  }

  lemma AddKeepsStep(listener: int, inflight: map<Socket, Flight>, selector: map<int, Option<Socket>>, s: Socket,
                     f: Flight)
    requires InStep(listener, inflight, selector) && s.fd !in selector
    ensures s !in inflight && InStep(listener, inflight[s := f], selector[s.fd := Some(s)])
    ensures |inflight[s := f]| == |inflight| + 1
  {
    assert inflight[s := f].Keys == inflight.Keys + {s};
  }

  lemma AddKeeps(listener: int, inflight: map<Socket, Flight>, selector: map<int, Option<Socket>>,
                 forwarded: seq<Query>, replies: seq<Reply>, s: Socket, f: Flight, data: Bytes)
    requires Sound(listener, inflight, selector, forwarded, replies) && |inflight| < MAX_INFLIGHT
    requires s.fd !in selector && s.id == |forwarded|
    ensures s !in inflight
    ensures Sound(listener, inflight[s := f], selector[s.fd := Some(s)], forwarded + [Query(f.client, data)], replies)
  {
    AddKeepsStep(listener, inflight, selector, s, f);
    var more := forwarded + [Query(f.client, data)];
    assert forall t :: t in inflight ==> Waiting(t, inflight[t], more, replies);
  }

  lemma ReplyKeeps(inflight: map<Socket, Flight>, forwarded: seq<Query>, replies: seq<Reply>, s: Socket, data: Bytes)
    requires Answered(forwarded, replies) && AllWaiting(inflight, forwarded, replies) && s in inflight
             && |data| <= MAX_DATAGRAM
    ensures var more := replies + [Reply(s.id, inflight[s].client, data)];
            Answered(forwarded, more) && AllWaiting(inflight - {s}, forwarded, more)
  {
    var more := replies + [Reply(s.id, inflight[s].client, data)];
    assert Waiting(s, inflight[s], forwarded, replies);
    forall t | t in inflight && t != s
      ensures Waiting(t, inflight[t], forwarded, more)
    {
      assert Waiting(t, inflight[t], forwarded, replies);
    }
  }

  /** The sockets still in flight once all but `left` have been looked at. */
  function Kept(was: map<Socket, Flight>, left: set<Socket>, now: real): map<Socket, Flight> {
    map s | s in was && (s in left || was[s].deadline >= now) :: was[s]
  }

  lemma KeptStep(was: map<Socket, Flight>, left: set<Socket>, now: real, s: Socket)
    requires s in left && s in was
    ensures Kept(was, left - {s}, now)
            == if was[s].deadline < now then Kept(was, left, now) - {s} else Kept(was, left, now)
  {
  }

  /** The keys from `i` on are the listener or sockets still in flight, no descriptor twice. */
  ghost predicate Pending(keys: seq<Option<Socket>>, signals: seq<Signal>, i: nat, inflight: map<Socket, Flight>) {
    && |keys| == |signals| && Distinct(signals)
    && (forall k, l :: 0 <= k < l < |keys| ==> keys[k].Some? || keys[l].Some?)
    && forall k :: i <= k < |keys| && keys[k].Some? ==> keys[k].value in inflight && keys[k].value.fd == signals[k].fd
  }

  predicate Passes(signal: Signal) {
    signal.data.Some? && |signal.data.value| <= 4096 && signal.works
  }

  ghost predicate Replied(replies: seq<Reply>, id: nat, data: Bytes) {
    exists j :: 0 <= j < |replies| && replies[j].id == id && replies[j].data == data
  }

  /**
    The first `i` keys are dealt with: sockets forgotten and their answers passed on, queries forwarded
    if there was room.
  */
  ghost predicate Done(keys: seq<Option<Socket>>, signals: seq<Signal>, i: nat, room: bool,
                       inflight: map<Socket, Flight>, forwarded: seq<Query>, replies: seq<Reply>)
    requires i <= |keys| == |signals|
  {
    forall k :: 0 <= k < i ==>
      match keys[k]
      case Some(s) =>
        s !in inflight && s.id < |forwarded| && (Passes(signals[k]) ==> Replied(replies, s.id, signals[k].data.value))
      case None =>
        room && Passes(signals[k]) && signals[k].admitted ==>
          Query(signals[k].client, signals[k].data.value) in forwarded
  }

  /** Every good answer that was ready on a socket of `live` has gone to its client. */
  ghost predicate Served(live: map<Socket, Flight>, ready: seq<Signal>, inflight: map<Socket, Flight>,
                         replies: seq<Reply>) {
    forall s, i :: s in live && 0 <= i < |ready| && ready[i].fd == s.fd && Passes(ready[i]) ==>
                     s !in inflight && Replied(replies, s.id, ready[i].data.value)
  }

  /** At most one query went upstream: the admitted datagram of the listener's key. */
  ghost predicate OneForwarded(keys: seq<Option<Socket>>, signals: seq<Signal>,
                               before: seq<Query>, forwarded: seq<Query>)
    requires |keys| == |signals|
  {
    forwarded == before || exists k :: 0 <= k < |keys| && keys[k] == None && Forwards(signals[k], before, forwarded)
  }

  predicate Forwards(signal: Signal, before: seq<Query>, forwarded: seq<Query>) {
    Passes(signal) && signal.admitted && forwarded == before + [Query(signal.client, signal.data.value)]
  }

  /** Only sockets whose keys came up have left, and only their good answers went to clients. */
  ghost predicate OnlyReady(keys: seq<Option<Socket>>, signals: seq<Signal>, was: map<Socket, Flight>,
                            inflight: map<Socket, Flight>, earlier: seq<Reply>, replies: seq<Reply>)
    requires |keys| == |signals|
  {
    && earlier <= replies
    && (forall s :: s in was && Some(s) !in keys ==> s in inflight && inflight[s] == was[s])
    && (forall i :: |earlier| <= i < |replies| ==>
          exists k :: 0 <= k < |keys| && Answers(keys[k], signals[k], replies[i]))
  }

  predicate Answers(key: Option<Socket>, signal: Signal, reply: Reply) {
    key.Some? && key.value.id == reply.id && Passes(signal) && reply.data == signal.data.value
  }

  /** Both, and before the listener's key comes up nothing went upstream. */
  ghost predicate SoFar(keys: seq<Option<Socket>>, signals: seq<Signal>, i: nat, was: map<Socket, Flight>,
                        inflight: map<Socket, Flight>, before: seq<Query>, forwarded: seq<Query>, earlier: seq<Reply>,
                        replies: seq<Reply>)
    requires i <= |keys| == |signals|
  {
    && OnlyReady(keys, signals, was, inflight, earlier, replies)
    && OneForwarded(keys, signals, before, forwarded)
    && ((forall k :: 0 <= k < i ==> keys[k].Some?) ==> forwarded == before)
  }

  lemma SoFarListens(keys: seq<Option<Socket>>, signals: seq<Signal>, i: nat, was: map<Socket, Flight>,
                     inflight: map<Socket, Flight>, now: map<Socket, Flight>, before: seq<Query>,
                     forwarded: seq<Query>, further: seq<Query>, earlier: seq<Reply>, replies: seq<Reply>)
    requires i < |keys| == |signals| && keys[i] == None
             && SoFar(keys, signals, i, was, inflight, before, forwarded, earlier, replies)
    requires forall k, l :: 0 <= k < l < |keys| ==> keys[k].Some? || keys[l].Some?
    requires forall s :: s in inflight ==> s in now && now[s] == inflight[s]
    requires further == forwarded || Forwards(signals[i], forwarded, further)
    ensures SoFar(keys, signals, i + 1, was, now, before, further, earlier, replies)
  {
    assert forwarded == before;
  }

  lemma SoFarAnswers(keys: seq<Option<Socket>>, signals: seq<Signal>, i: nat, was: map<Socket, Flight>,
                     inflight: map<Socket, Flight>, before: seq<Query>, forwarded: seq<Query>,
                     earlier: seq<Reply>, replies: seq<Reply>, further: seq<Reply>)
    requires i < |keys| == |signals| && keys[i].Some?
             && SoFar(keys, signals, i, was, inflight, before, forwarded, earlier, replies)
    requires further == replies || (|further| == |replies| + 1 && replies <= further
                                    && Answers(keys[i], signals[i], further[|replies|]))
    ensures SoFar(keys, signals, i + 1, was, inflight - {keys[i].value}, before, forwarded, earlier, further)
  {
    forall j | |earlier| <= j < |further|
      ensures exists k :: 0 <= k < |keys| && Answers(keys[k], signals[k], further[j])
    {
      if j < |replies| {
        var k :| 0 <= k < |keys| && Answers(keys[k], signals[k], replies[j]);
      }
    }
    forall s | s in was && Some(s) !in keys ensures s != keys[i].value {
    }
  }

  /** The same of a whole turn, by descriptors: `live` are the sockets in time when it began. */
  ghost predicate NothingElse(listener: int, live: map<Socket, Flight>, ready: seq<Signal>,
                              inflight: map<Socket, Flight>,
                              before: seq<Query>, forwarded: seq<Query>, earlier: seq<Reply>, replies: seq<Reply>) {
    && (forwarded == before || exists i :: 0 <= i < |ready| && ready[i].fd == listener
                                           && Forwards(ready[i], before, forwarded))
    && (forall s :: s in live && (forall i :: 0 <= i < |ready| ==> ready[i].fd != s.fd) ==>
          s in inflight && inflight[s] == live[s])
    && (forall j :: |earlier| <= j < |replies| ==> FromReady(live, ready, replies[j]))
  }

  /** The reply is the good answer of a ready socket. */
  ghost predicate FromReady(live: map<Socket, Flight>, ready: seq<Signal>, reply: Reply) {
    exists s, i :: s in live && 0 <= i < |ready| && ready[i].fd == s.fd && Answers(Some(s), ready[i], reply)
  }

  lemma DispatchedOnly(listener: int, live: map<Socket, Flight>, selector: map<int, Option<Socket>>, ready: seq<Signal>,
                       keys: seq<Option<Socket>>, signals: seq<Signal>, inflight: map<Socket, Flight>,
                       before: seq<Query>, forwarded: seq<Query>, earlier: seq<Reply>, replies: seq<Reply>)
    requires InStep(listener, live, selector) && Selects(selector, ready, keys, signals)
    requires OneForwarded(keys, signals, before, forwarded)
    requires OnlyReady(keys, signals, live, inflight, earlier, replies)
    ensures NothingElse(listener, live, ready, inflight, before, forwarded, earlier, replies)
  {
    if forwarded != before {
      var k :| 0 <= k < |keys| && keys[k] == None && Forwards(signals[k], before, forwarded);
      var i :| 0 <= i < |ready| && ready[i] == signals[k];
      assert ready[i].fd == listener;
    }
    forall s | s in live && (forall i :: 0 <= i < |ready| ==> ready[i].fd != s.fd) ensures Some(s) !in keys {
      forall k | 0 <= k < |keys| ensures keys[k] != Some(s) {
        assert signals[k] in ready;
      }
    }
    forall j | |earlier| <= j < |replies|
      ensures FromReady(live, ready, replies[j])
    {
      var k :| 0 <= k < |keys| && Answers(keys[k], signals[k], replies[j]);
      var i :| 0 <= i < |ready| && ready[i] == signals[k];
      var s := keys[k].value;
      assert s in live && ready[i].fd == s.fd && Answers(Some(s), ready[i], replies[j]);
    }
  }

  /** What `select` reports: the registered among the ready descriptors, with their sockets. */
  ghost predicate Selects(selector: map<int, Option<Socket>>, ready: seq<Signal>, keys: seq<Option<Socket>>,
                          signals: seq<Signal>) {
    && |keys| == |signals|
    && (forall i :: 0 <= i < |keys| ==> signals[i].fd in selector && keys[i] == selector[signals[i].fd])
    && (forall i :: 0 <= i < |ready| && ready[i].fd in selector ==> ready[i] in signals)
    && (forall i :: 0 <= i < |signals| ==> signals[i] in ready)
  }

  lemma DoneServes(listener: int, live: map<Socket, Flight>, selector: map<int, Option<Socket>>, ready: seq<Signal>,
                   keys: seq<Option<Socket>>, signals: seq<Signal>, room: bool,
                   inflight: map<Socket, Flight>, forwarded: seq<Query>, replies: seq<Reply>)
    requires InStep(listener, live, selector) && Selects(selector, ready, keys, signals)
    requires Done(keys, signals, |keys|, room, inflight, forwarded, replies)
    ensures Served(live, ready, inflight, replies)
  {
    forall s, i | s in live && 0 <= i < |ready| && ready[i].fd == s.fd && Passes(ready[i])
      ensures s !in inflight && Replied(replies, s.id, ready[i].data.value)
    {
      var k :| 0 <= k < |signals| && signals[k] == ready[i];
      assert keys[k] == Some(s);
    }
  }

  lemma PendingDrops(keys: seq<Option<Socket>>, signals: seq<Signal>, i: nat, inflight: map<Socket, Flight>)
    requires i < |keys| && Pending(keys, signals, i, inflight) && keys[i].Some?
    ensures Pending(keys, signals, i + 1, inflight - {keys[i].value})
  {
  }

  /** A socket's key: it is gone now, and its answer is the newest reply. */
  lemma DoneDrops(keys: seq<Option<Socket>>, signals: seq<Signal>, i: nat, room: bool, inflight: map<Socket, Flight>,
                  forwarded: seq<Query>, was: seq<Reply>, replies: seq<Reply>)
    requires i < |keys| == |signals| && keys[i].Some? && Done(keys, signals, i, room, inflight, forwarded, was)
    requires keys[i].value.id < |forwarded|
    requires was <= replies && (Passes(signals[i]) ==> Replied(replies, keys[i].value.id, signals[i].data.value))
    ensures Done(keys, signals, i + 1, room, inflight - {keys[i].value}, forwarded, replies)
  {
    forall id, data | Replied(was, id, data)
      ensures Replied(replies, id, data)
    {
      var j :| 0 <= j < |was| && was[j].id == id && was[j].data == data;
      assert replies[j] == was[j];
    }
  }

  /** The listener's key: sockets opened now are new, so none that was dealt with comes back. */
  lemma DoneGrows(keys: seq<Option<Socket>>, signals: seq<Signal>, i: nat, room: bool, was: map<Socket, Flight>,
                  inflight: map<Socket, Flight>, before: seq<Query>, forwarded: seq<Query>, replies: seq<Reply>)
    requires i < |keys| == |signals| && keys[i] == None && Done(keys, signals, i, room, was, before, replies)
    requires before <= forwarded && forall s :: s in inflight && s !in was ==> s.id >= |before|
    requires room && Passes(signals[i]) && signals[i].admitted ==>
             Query(signals[i].client, signals[i].data.value) in forwarded
    ensures Done(keys, signals, i + 1, room, inflight, forwarded, replies)
  {
  }

  lemma PendingGrows(keys: seq<Option<Socket>>, signals: seq<Signal>, i: nat, was: map<Socket, Flight>,
                     inflight: map<Socket, Flight>)
    requires Pending(keys, signals, i, was) && was.Keys <= inflight.Keys
    ensures Pending(keys, signals, i + 1, inflight)
  {
  }

  /** A new socket gets a descriptor that no open one has (the lowest free one). */
  method FreeDescriptor(used: set<int>) returns (fd: int)
    ensures fd !in used
  {
    fd := 0;
    ghost var tried: set<int> := {};
    while fd in used
      invariant tried <= used && forall x :: x in tried ==> x < fd
      decreases |used - tried|
    {
      assert used - tried - {fd} == used - (tried + {fd});
      tried := tried + {fd};
      fd := fd + 1;
    }
  }

  /** One new socket, the how-manieth one opened, is in flight. */
  ghost predicate Opened(was: map<Socket, Flight>, inflight: map<Socket, Flight>, id: nat, flight: Flight) {
    exists s: Socket :: s.id == id && s !in was && inflight == was[s := flight]
  }

  class Relay {
    const listener: int
    var inflight: map<Socket, Flight>
    var selector: map<int, Option<Socket>>
    /** What went upstream and what went back to clients, in order. */
    var forwarded: seq<Query>
    var replies: seq<Reply>

    ghost predicate Valid()
      reads this
    {
      Sound(listener, inflight, selector, forwarded, replies)
    }

    constructor (listener: int)
      ensures Valid() && inflight == map[] && forwarded == [] && replies == []
    {
      this.listener, inflight, selector := listener, map[], map[listener := None];
      forwarded, replies := [], [];
    }

    /** Unregister and close an upstream socket, and take it out of the table. */
    method Forget(s: Socket)
      requires Valid() && s in inflight
      modifies this`inflight, this`selector
      ensures Valid() && inflight == old(inflight) - {s}
    {
      ForgetKeeps(listener, inflight, selector, forwarded, replies, s);
      selector := selector - {s.fd};
      inflight := inflight - {s};
    }

    /** Drop every query whose deadline has passed, and no other. */
    method Expire(now: real)
      requires Valid()
      modifies this`inflight, this`selector
      ensures Valid()
      ensures inflight == Kept(old(inflight), {}, now)
    {
      ghost var was := inflight;
      var left := inflight.Keys;
      while left != {}
        invariant Valid()
        invariant left <= was.Keys && inflight == Kept(was, left, now)
        decreases |left|
      {
        var s :| s in left;
        KeptStep(was, left, now, s);
        if inflight[s].deadline < now {
          Forget(s);
        }
        left := left - {s};
      }
    }

    /** The listener is readable: forward the datagram on a socket of its own, or drop it. */
    method Receive(signal: Signal)
      requires Valid()
      modifies this
      ensures Valid() && replies == old(replies)
      ensures old(inflight).Keys <= inflight.Keys
      ensures var taken := Passes(signal) && |old(inflight)| < 256 && signal.admitted;
              && forwarded == old(forwarded) + (if taken then [Query(signal.client, signal.data.value)] else [])
              && (!taken ==> inflight == old(inflight))
              && (taken ==>
                    Opened(old(inflight), inflight, |old(forwarded)|, Flight(signal.client, signal.clock + 5.0)))
    {
      if signal.data == None {
        return;
      }
      var query := signal.data.value;
      if |query| > MAX_DATAGRAM || |inflight| >= MAX_INFLIGHT || !signal.admitted {
        return;
      }
      var fd := FreeDescriptor(selector.Keys);
      if !signal.works {
        return;
      }
      Track(Socket(|forwarded|, fd), Flight(signal.client, signal.clock + TIMEOUT), query);
    }

    /** The query went upstream: remember who asked, and wait for the answer. */
    method Track(s: Socket, flight: Flight, query: Bytes)
      requires Valid() && |inflight| < MAX_INFLIGHT && s.fd !in selector && s.id == |forwarded|
      modifies this
      ensures Valid() && replies == old(replies) && s !in old(inflight)
      ensures inflight == old(inflight)[s := flight] && forwarded == old(forwarded) + [Query(flight.client, query)]
    {
      AddKeeps(listener, inflight, selector, forwarded, replies, s, flight, query);
      inflight := inflight[s := flight];
      selector := selector[s.fd := Some(s)];
      forwarded := forwarded + [Query(flight.client, query)];
    }

    /** An upstream socket is readable: forget it and pass its answer on to the client that asked. */
    method Respond(s: Socket, signal: Signal)
      requires Valid() && s in inflight
      modifies this
      ensures Valid() && forwarded == old(forwarded) && inflight == old(inflight) - {s}
      ensures replies == old(replies)
                         + if Passes(signal)
                           then [Reply(s.id, old(inflight)[s].client, signal.data.value)] else []
    {
      var client := inflight[s].client;
      Forget(s);
      if signal.data.Some? && |signal.data.value| <= MAX_DATAGRAM && signal.works {
        ReplyKeeps(old(inflight), forwarded, replies, s, signal.data.value);
        replies := replies + [Reply(s.id, client, signal.data.value)];
      }
    }

    /** The keys `select` returns: the registered ones among the ready descriptors. */
    method Select(ready: seq<Signal>) returns (keys: seq<Option<Socket>>, signals: seq<Signal>)
      requires Valid() && Distinct(ready)
      ensures Pending(keys, signals, 0, inflight)
      ensures Selects(selector, ready, keys, signals)
    {
      keys, signals := [], [];
      for i := 0 to |ready|
        invariant |keys| == |signals| && Distinct(signals)
        invariant forall k :: 0 <= k < |signals| ==> signals[k] in ready[..i]
        invariant forall k :: 0 <= k < |keys| ==> signals[k].fd in selector && keys[k] == selector[signals[k].fd]
        invariant forall k :: 0 <= k < i && ready[k].fd in selector ==> ready[k] in signals
      {
        if ready[i].fd in selector {
          keys, signals := keys + [selector[ready[i].fd]], signals + [ready[i]];
        }
      }
    }

    /**
      One turn of the loop: nothing past its deadline stays in flight, and an answer that is in time,
      fits and can be sent reaches its client. Nothing else happens: at most the listener's own datagram
      goes upstream, every reply is the answer of a ready socket, and sockets not ready stay in flight.
    */
    method OneTurn(turn: Turn)
      requires Valid() && Distinct(turn.ready)
      modifies this
      ensures Valid() && old(forwarded) <= forwarded && old(replies) <= replies
      ensures forall s :: s in old(inflight) && s in inflight ==> old(inflight)[s].deadline >= turn.now
      ensures Served(Kept(old(inflight), {}, turn.now), turn.ready, inflight, replies)
      ensures NothingElse(listener, Kept(old(inflight), {}, turn.now), turn.ready, inflight, old(forwarded), forwarded,
                          old(replies), replies)
    {
      Expire(turn.now);
      Poll(turn.ready);
    }

    /** What `select` finds is dealt with; the sockets that stay in flight were there before or are new. */
    method Poll(ready: seq<Signal>)
      requires Valid() && Distinct(ready)
      modifies this
      ensures Valid() && old(forwarded) <= forwarded && old(replies) <= replies
      ensures forall s :: s in inflight ==> s in old(inflight) || s.id >= |old(forwarded)|
      ensures Served(old(inflight), ready, inflight, replies)
      ensures NothingElse(listener, old(inflight), ready, inflight, old(forwarded), forwarded, old(replies), replies)
    {
      ghost var live, registered, before, earlier := inflight, selector, forwarded, replies;
      var keys, signals := Select(ready);
      Dispatch(keys, signals);
      DoneServes(listener, live, registered, ready, keys, signals, |live| < MAX_INFLIGHT, inflight, forwarded, replies);
      DispatchedOnly(listener, live, registered, ready, keys, signals, inflight, before, forwarded, earlier, replies);
    }

    /** Every socket that was ready is still in flight when its key comes up. */
    method Dispatch(keys: seq<Option<Socket>>, signals: seq<Signal>)
      requires Valid() && Pending(keys, signals, 0, inflight)
      modifies this
      ensures Valid() && old(forwarded) <= forwarded && old(replies) <= replies
      ensures Done(keys, signals, |keys|, |old(inflight)| < MAX_INFLIGHT, inflight, forwarded, replies)
      ensures forall s :: s in inflight ==> s in old(inflight) || s.id >= |old(forwarded)|
      ensures OneForwarded(keys, signals, old(forwarded), forwarded)
      ensures OnlyReady(keys, signals, old(inflight), inflight, old(replies), replies)
    {
      ghost var room := |inflight| < MAX_INFLIGHT;
      for i := 0 to |keys|
        invariant Valid() && old(forwarded) <= forwarded && old(replies) <= replies
        invariant Pending(keys, signals, i, inflight)
        invariant room && (forall k :: 0 <= k < i ==> keys[k].Some?) ==> |inflight| < MAX_INFLIGHT
        invariant Done(keys, signals, i, room, inflight, forwarded, replies)
        invariant SoFar(keys, signals, i, old(inflight), inflight, old(forwarded), forwarded, old(replies), replies)
        invariant forall s :: s in inflight ==> s in old(inflight) || s.id >= |old(forwarded)|
      {
        if keys[i] == None {
          Listen(keys, signals, i, room, old(inflight), old(forwarded), old(replies));
        } else {
          Collect(keys, signals, i, room, old(inflight), old(forwarded), old(replies));
        }
      }
    }

    /** The listener's key among the others. */
    method Listen(keys: seq<Option<Socket>>, signals: seq<Signal>, i: nat, ghost room: bool,
                  ghost was: map<Socket, Flight>, ghost before: seq<Query>, ghost earlier: seq<Reply>)
      requires Valid() && i < |keys| && Pending(keys, signals, i, inflight) && keys[i] == None
      requires room && (forall k :: 0 <= k < i ==> keys[k].Some?) ==> |inflight| < MAX_INFLIGHT
      requires Done(keys, signals, i, room, inflight, forwarded, replies)
      requires SoFar(keys, signals, i, was, inflight, before, forwarded, earlier, replies)
      modifies this
      ensures Valid() && old(forwarded) <= forwarded && replies == old(replies)
      ensures Pending(keys, signals, i + 1, inflight)
      ensures Done(keys, signals, i + 1, room, inflight, forwarded, replies)
      ensures SoFar(keys, signals, i + 1, was, inflight, before, forwarded, earlier, replies)
      ensures forall s :: s in inflight ==> s in old(inflight) || s.id >= |old(forwarded)|
    {
      ghost var live, sent := inflight, forwarded;
      Receive(signals[i]);
      PendingGrows(keys, signals, i, live, inflight);
      DoneGrows(keys, signals, i, room, live, inflight, sent, forwarded, replies);
      SoFarListens(keys, signals, i, was, live, inflight, before, sent, forwarded, earlier, replies);
    }

    /** The key of a socket in flight. */
    method Collect(keys: seq<Option<Socket>>, signals: seq<Signal>, i: nat, ghost room: bool,
                   ghost was: map<Socket, Flight>, ghost before: seq<Query>, ghost earlier: seq<Reply>)
      requires Valid() && i < |keys| && Pending(keys, signals, i, inflight) && keys[i].Some?
      requires Done(keys, signals, i, room, inflight, forwarded, replies)
      requires SoFar(keys, signals, i, was, inflight, before, forwarded, earlier, replies)
      modifies this
      ensures Valid() && forwarded == old(forwarded) && old(replies) <= replies
      ensures inflight == old(inflight) - {keys[i].value} && |inflight| <= |old(inflight)|
      ensures Pending(keys, signals, i + 1, inflight)
      ensures Done(keys, signals, i + 1, room, inflight, forwarded, replies)
      ensures SoFar(keys, signals, i + 1, was, inflight, before, forwarded, earlier, replies)
    {
      ghost var live, sent := inflight, replies;
      PendingDrops(keys, signals, i, inflight);
      ForgetKeepsStep(listener, inflight, selector, keys[i].value);
      Respond(keys[i].value, signals[i]);
      assert Passes(signals[i]) ==> replies[|sent|].id == keys[i].value.id;
      DoneDrops(keys, signals, i, room, live, forwarded, sent, replies);
      SoFarAnswers(keys, signals, i, was, live, before, forwarded, earlier, sent, replies);
    }

    /** Any number of turns: the table and the selector stay in step, and every reply goes where it belongs, once. */
    method Serve(turns: seq<Turn>)
      requires Valid() && forall i :: 0 <= i < |turns| ==> Distinct(turns[i].ready)
      modifies this
      ensures InStep(listener, inflight, selector) && |inflight| <= MAX_INFLIGHT
      ensures Answered(forwarded, replies) && old(forwarded) <= forwarded && old(replies) <= replies
    {
      for i := 0 to |turns|
        invariant Valid() && old(forwarded) <= forwarded && old(replies) <= replies
      {
        OneTurn(turns[i]);
      }
    }
  }
}
