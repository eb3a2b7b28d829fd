/**
  The TCP side of the DNS relay (`recv_exact` and `relay_tcp`,
  dashboard/provisioner/attached-dns-relay.py): messages with the two-byte length prefix of section
  4.2.2 of RFC 1035, read from a stream that arrives in arbitrary pieces.
*/
module DnsTcp {
  import opened Common

  type Byte = b: int | 0 <= b < 256
  type Bytes = seq<Byte>

  const MAX_TCP_MESSAGE := 16384

  /** Two bytes, the more significant first. */
  function Length(high: Byte, low: Byte): nat {
    256 * high + low
  }

  function Header(n: nat): Bytes
    requires n < 65536
  {
    [n / 256, n % 256]
  }

  /** A message as it travels. */
  function Frame(message: Bytes): Bytes
    requires |message| < 65536
  {
    Header(|message|) + message
  }

  predicate Framable(messages: seq<Bytes>) {
    forall i :: 0 <= i < |messages| ==> 0 < |messages[i]| < 65536
  }

  function Stream(messages: seq<Bytes>): Bytes
    requires Framable(messages)
  {
    if messages == [] then [] else Frame(messages[0]) + Stream(messages[1..])
  }

  /** The first message of a stream, if all of it is there and it is not empty. */
  function Front(s: Bytes): Option<Bytes> {
    if |s| < 2 then None
    else
      var n := Length(s[0], s[1]);
      if 0 < n <= |s| - 2 then Some(s[2..2 + n]) else None
  }

  /** The first message as it travelled, header and all. */
  function FrontBytes(s: Bytes): Bytes
    requires Front(s).Some?
  {
    s[..2 + |Front(s).value|]
  }

  /** What a `sendall` gets out: everything, or only so many bytes before it fails. */
  function Cut(data: Bytes, failure: Option<nat>): Bytes {
    if failure.Some? && failure.value < |data| then data[..failure.value] else data
  }

  /**
    What comes of the k-th query: whether the bucket admits it, what its upstream connection sends back
    if it can be made, and where the send upstream and the send to the client fail, if they do. A
    connection's life has fewer rounds than bytes; past the end nothing is admitted.
  */
  datatype Luck = Luck(admitted: bool, upstream: Option<Bytes>, upFails: Option<nat>, backFails: Option<nat>)
  type World = seq<Luck>

  function At(w: World, k: nat): Luck {
    if k < |w| then w[k] else Luck(false, None, None, None)
  }

  function ReplyOf(w: World, k: nat): Option<Bytes> {
    if At(w, k).upstream.Some? then Front(At(w, k).upstream.value) else None
  }

  /** One round: a query gets its reply, or it all stops, with these bytes sent on and back. */
  datatype Round = Stop(asked: nat, onward: Bytes, back: Bytes) | Go(query: Bytes, reply: Bytes)

  function OneRound(w: World, input: Bytes, k: nat): (r: Round)
    ensures r.Go? ==> Some(r.query) == Front(input) && Some(r.reply) == ReplyOf(w, k) && At(w, k).admitted
    ensures r.Stop? && r.onward != [] ==>
              Front(input).Some? && At(w, k).admitted && r.asked == 1 && r.onward <= FrontBytes(input)
    ensures r.Stop? && r.back != [] ==> ReplyOf(w, k).Some? && r.back <= FrontBytes(At(w, k).upstream.value)
  {
    if |input| < 2 || !(0 < Length(input[0], input[1]) <= MAX_TCP_MESSAGE) then Stop(0, [], [])
    else if !At(w, k).admitted || Front(input) == None || At(w, k).upstream == None then Stop(1, [], [])
    else if At(w, k).upFails.Some? then Stop(1, Cut(FrontBytes(input), At(w, k).upFails), [])
    else if ReplyOf(w, k) == None then Stop(1, FrontBytes(input), [])
    else if At(w, k).backFails.Some?
    then Stop(1, FrontBytes(input), Cut(FrontBytes(At(w, k).upstream.value), At(w, k).backFails))
    else Go(Front(input).value, ReplyOf(w, k).value)
  }

  function Rest(input: Bytes): Bytes
    requires Front(input).Some?
  {
    input[2 + |Front(input).value|..]
  }

  /**
    The queries answered and their replies, how many tokens were asked for, and the bytes that the
    round that stopped had sent on and back.
  */
  datatype Exchange = Exchange(queries: seq<Bytes>, replies: seq<Bytes>, asked: nat, onward: Bytes, back: Bytes)

  /** The rest of a connection's life from its k-th query on; `input` is all the client still sends. */
  function Relayed(w: World, input: Bytes, k: nat): Exchange
    decreases |input|
  {
    match OneRound(w, input, k)
    case Stop(asked, onward, back) => Exchange([], [], asked, onward, back)
    case Go(query, reply) => Cons(query, reply, Relayed(w, Rest(input), k + 1))
  }

  function Cons(query: Bytes, reply: Bytes, rest: Exchange): Exchange {
    rest.(queries := [query] + rest.queries, replies := [reply] + rest.replies, asked := 1 + rest.asked)
  }

  lemma FrontOfFrame(message: Bytes, rest: Bytes)
    requires 0 < |message| < 65536
    ensures Front(Frame(message) + rest) == Some(message)
    ensures Rest(Frame(message) + rest) == rest
  {
    var s := Frame(message) + rest;
    assert s[0] == |message| / 256 && s[1] == |message| % 256;
    assert s[2..2 + |message|] == message;
  }

  lemma FrameOfFront(s: Bytes)
    requires Front(s).Some?
    ensures 0 < |Front(s).value| < 65536 && FrontBytes(s) == Frame(Front(s).value)
    ensures s == FrontBytes(s) + Rest(s)
  {
    assert Header(|Front(s).value|) == s[..2];
  }

  /** From its k-th query on, everything is admitted, sends work, and every upstream connection answers as given. */
  ghost predicate Answering(w: World, answers: seq<Bytes>, k: nat) {
    forall i :: k <= i < k + |answers| ==>
      && At(w, i).admitted && ReplyOf(w, i) == Some(answers[i - k])
      && At(w, i).upFails == None && At(w, i).backFails == None
  }

  lemma AnsweringOn(w: World, answers: seq<Bytes>, k: nat)
    requires answers != [] && Answering(w, answers, k)
    ensures Answering(w, answers[1..], k + 1)
  {
  }

  lemma RelayedGoes(w: World, input: Bytes, k: nat, queries: seq<Bytes>, answers: seq<Bytes>)
    requires queries != [] && answers != [] && OneRound(w, input, k) == Go(queries[0], answers[0])
    requires Relayed(w, Rest(input), k + 1) == Exchange(queries[1..], answers[1..], |queries| - 1, [], [])
    ensures Relayed(w, input, k) == Exchange(queries, answers, |queries|, [], [])
  {
    assert queries == [queries[0]] + queries[1..] && answers == [answers[0]] + answers[1..];
  }

  lemma FirstRound(w: World, queries: seq<Bytes>, answers: seq<Bytes>, k: nat)
    requires Framable(queries) && queries != [] && |queries[0]| <= MAX_TCP_MESSAGE
    requires |answers| == |queries| && Answering(w, answers, k)
    ensures OneRound(w, Stream(queries), k) == Go(queries[0], answers[0])
    ensures Rest(Stream(queries)) == Stream(queries[1..])
  {
    FrontOfFrame(queries[0], Stream(queries[1..]));
    assert At(w, k).admitted && ReplyOf(w, k) == Some(answers[0]);
  }

  /** Well-framed queries, all admitted and all answered, come back as their answers, in order. */
  lemma {:induction false} EveryQueryIsAnswered(w: World, queries: seq<Bytes>, answers: seq<Bytes>, k: nat)
    requires Framable(queries) && |answers| == |queries| && Answering(w, answers, k)
    requires forall i :: 0 <= i < |queries| ==> |queries[i]| <= 16384
    ensures Relayed(w, Stream(queries), k) == Exchange(queries, answers, |queries|, [], [])
  {
    if queries != [] {
      var rest := queries[1..];
      FirstRound(w, queries, answers, k);
      AnsweringOn(w, answers, k);
      EveryQueryIsAnswered(w, rest, answers[1..], k + 1);
      RelayedGoes(w, Stream(queries), k, queries, answers);
    }
  }

  lemma StreamCons(message: Bytes, messages: seq<Bytes>)
    requires 0 < |message| < 65536 && Framable(messages)
    ensures Framable([message] + messages) && Stream([message] + messages) == Frame(message) + Stream(messages)
  {
    assert ([message] + messages)[1..] == messages;
  }

  lemma PrefixCons(message: Bytes, messages: seq<Bytes>, tail: Bytes, input: Bytes)
    requires 0 < |message| < 65536 && Framable(messages) && Stream(messages) + tail <= input
    ensures Framable([message] + messages) && Stream([message] + messages) + tail <= Frame(message) + input
  {
    StreamCons(message, messages);
    assert Frame(message) + Stream(messages) + tail == Frame(message) + (Stream(messages) + tail);
  }

  /** Whatever comes in and fails, what goes upstream is the client's own bytes, in order, none skipped. */
  lemma {:induction false} QueriesAreAPrefix(w: World, input: Bytes, k: nat)
    ensures var x := Relayed(w, input, k); Framable(x.queries) && Stream(x.queries) + x.onward <= input
    decreases |input|
  {
    var round := OneRound(w, input, k);
    if round.Go? {
      var rest := Relayed(w, Rest(input), k + 1);
      FrameOfFront(input);
      QueriesAreAPrefix(w, Rest(input), k + 1);
      PrefixCons(round.query, rest.queries, rest.onward, Rest(input));
    } else {
      assert Stream([]) + round.onward == round.onward;
      if round.onward != [] {
        FrameOfFront(input);
      }
    }
  }

  /** Only admitted queries go upstream, each answered but perhaps the last, and no token is asked for in between. */
  lemma {:induction false} QueriesAreAdmitted(w: World, input: Bytes, k: nat)
    ensures var x := Relayed(w, input, k);
            && |x.queries| == |x.replies| <= x.asked <= |x.replies| + 1
            && (x.onward != [] ==> x.asked == |x.replies| + 1 && At(w, k + |x.replies|).admitted)
            && (forall i :: k <= i < k + |x.queries| ==> At(w, i).admitted)
    decreases |input|
  {
    if OneRound(w, input, k).Go? {
      QueriesAreAdmitted(w, Rest(input), k + 1);
    }
  }

  /** A last reply that is cut short is part of the message its own upstream connection sent. */
  lemma {:induction false} CutReplyIsUpstreams(w: World, input: Bytes, k: nat)
    ensures var x := Relayed(w, input, k);
            x.back != [] ==>
              var last := k + |x.replies|; ReplyOf(w, last).Some? && x.back <= FrontBytes(At(w, last).upstream.value)
    decreases |input|
  {
    if OneRound(w, input, k).Go? {
      CutReplyIsUpstreams(w, Rest(input), k + 1);
    }
  }

  /** Every reply is the message its own upstream connection sent, in the order of the queries. */
  lemma {:induction false} RepliesAreUpstreams(w: World, input: Bytes, k: nat)
    ensures var x := Relayed(w, input, k);
            Framable(x.replies) && forall i :: k <= i < k + |x.replies| ==> ReplyOf(w, i) == Some(x.replies[i - k])
    decreases |input|
  {
    if OneRound(w, input, k).Go? {
      FrameOfFront(At(w, k).upstream.value);
      RepliesAreUpstreams(w, Rest(input), k + 1);
    }
  }

  // ---- sockets ----

  /** A connected stream: `left` is what the peer will still send before it closes or times out. */
  class Connection {
    var left: Bytes
    var sent: Bytes

    constructor (left: Bytes)
      ensures this.left == left && sent == []
    {
      this.left, sent := left, [];
    }

    /** Some first part of what is left, at least a byte unless the stream is at its end. */
    method Recv(size: nat) returns (data: Bytes)
      requires size > 0
      modifies this`left
      ensures old(left) == data + left && |data| <= size && (data == [] <==> old(left) == [])
    {
      var k: int := *;
      if k < 1 { k := 1; }
      if k > size { k := size; }
      if k > |left| { k := |left|; }
      data, left := left[..k], left[k..];
    }

    /** Exactly the next `size` bytes, however they are cut; fails exactly when there are not that many. */
    method RecvExact(size: nat) returns (data: Option<Bytes>)
      modifies this`left
      ensures |old(left)| < size ==> data == None
      ensures |old(left)| >= size ==> data == Some(old(left)[..size]) && left == old(left)[size..]
    {
      var got: Bytes := [];
      while |got| < size
        invariant |got| <= size && old(left) == got + left
        decreases size - |got|
      {
        var chunk := Recv(size - |got|);
        if chunk == [] {
          return None;
        }
        got := got + chunk;
      }
      data := Some(got);
    }

    /** `sendall`: everything goes out, or only a first part before it fails. */
    method SendAll(data: Bytes, failure: Option<nat>) returns (ok: bool)
      modifies this`sent
      ensures ok == (failure == None) && sent == old(sent) + Cut(data, failure)
    {
      sent := sent + Cut(data, failure);
      ok := failure == None;
    }
  }

  lemma {:induction false} StreamSnoc(messages: seq<Bytes>, message: Bytes)
    requires Framable(messages) && 0 < |message| < 65536
    ensures Framable(messages + [message]) && Stream(messages + [message]) == Stream(messages) + Frame(message)
  {
    if messages == [] {
      assert [message][1..] == [];
    } else {
      StreamSnoc(messages[1..], message);
      assert (messages + [message])[1..] == messages[1..] + [message];
    }
  }

  /** Two bytes, read as two or as one and one. */
  method ReadHeader(client: Connection) returns (header: Option<Bytes>)
    modifies client`left
    ensures |old(client.left)| < 2 ==> header == None
    ensures |old(client.left)| >= 2 ==> header == Some(old(client.left)[..2]) && client.left == old(client.left)[2..]
  {
    ghost var input := client.left;
    var first := client.Recv(2);
    if first == [] {
      return None;
    }
    if |first| == 1 {
      assert input[1..] == client.left;
      var second := client.RecvExact(1);
      if second == None {
        return None;
      }
      assert input[..2] == first + second.value;
      first := first + second.value;
    }
    header := Some(first);
  }

  /** One whole message from an upstream connection. */
  method ReadReply(upstream: Connection) returns (reply: Option<Bytes>)
    modifies upstream`left
    ensures reply == Front(old(upstream.left))
  {
    ghost var input := upstream.left;
    var header := upstream.RecvExact(2);
    if header == None {
      return None;
    }
    var length := Length(header.value[0], header.value[1]);
    if length == 0 {
      return None;
    }
    reply := upstream.RecvExact(length);
    assert |input| >= 2 + length ==> input[2..][..length] == input[2..2 + length];
  }

  /** What a round sends on and back. */
  ghost function OnwardOf(round: Round): Bytes {
    if round.Stop? then round.onward else if |round.query| < 65536 then Frame(round.query) else []
  }

  ghost function BackOf(round: Round): Bytes {
    if round.Stop? then round.back else if |round.reply| < 65536 then Frame(round.reply) else []
  }

  /** One round of `relay_tcp`; `onward` is what it sent upstream. */
  method RelayOnce(client: Connection, w: World, k: nat) returns (round: Round, onward: Bytes)
    modifies client
    ensures Performs(w, k, round, old(client.left), client.left, onward, BackOf(round))
    ensures client.sent == old(client.sent) + BackOf(round)
  {
    ghost var input := client.left;
    var header := ReadHeader(client);
    if header == None {
      return Stop(0, [], []), [];
    }
    var length := Length(header.value[0], header.value[1]);
    if length == 0 || length > MAX_TCP_MESSAGE {
      return Stop(0, [], []), [];
    }
    if !At(w, k).admitted {
      return Stop(1, [], []), [];
    }
    var query := client.RecvExact(length);
    assert |input| >= 2 + length ==>
        input[2..][..length] == input[2..2 + length] && input[2..][length..] == input[2 + length..];
    if query == None || At(w, k).upstream == None {
      return Stop(1, [], []), [];
    }
    FrameOfFront(input);
    assert FrontBytes(input) == header.value + query.value;
    var upstream := new Connection(At(w, k).upstream.value);
    var ok := upstream.SendAll(header.value + query.value, At(w, k).upFails);
    if !ok {
      return Stop(1, upstream.sent, []), upstream.sent;
    }
    var reply := ReadReply(upstream);
    if reply == None {
      return Stop(1, upstream.sent, []), upstream.sent;
    }
    FrameOfFront(At(w, k).upstream.value);
    var answer := Header(|reply.value|) + reply.value;
    ok := client.SendAll(answer, At(w, k).backFails);
    if !ok {
      return Stop(1, upstream.sent, Cut(answer, At(w, k).backFails)), upstream.sent;
    }
    return Go(query.value, reply.value), upstream.sent;
  }

  ghost predicate Streams(messages: seq<Bytes>, s: Bytes) {
    Framable(messages) && s == Stream(messages)
  }

  /** What is left of a life after its first `n` rounds. */
  function Tail(whole: Exchange, n: nat): Exchange
    requires n <= |whole.queries| && n <= |whole.replies| && n <= whole.asked
  {
    whole.(queries := whole.queries[n..], replies := whole.replies[n..], asked := whole.asked - n)
  }

  /** `n` full rounds went upstream as `onward` and back as `sent`, and the rest of the life is still to come. */
  ghost predicate Upto(w: World, whole: Exchange, n: nat, input: Bytes, onward: Bytes, sent: Bytes) {
    && n <= |whole.queries| && n <= |whole.replies| && n <= whole.asked
    && Relayed(w, input, n) == Tail(whole, n)
    && Streams(whole.queries[..n], onward) && Streams(whole.replies[..n], sent)
  }

  /** The bytes on both sides are those of the exchange: whole messages, then what the last round got out. */
  ghost predicate Finished(whole: Exchange, asked: nat, onward: Bytes, sent: Bytes) {
    && Framable(whole.queries) && onward == Stream(whole.queries) + whole.onward
    && Framable(whole.replies) && sent == Stream(whole.replies) + whole.back
    && asked == whole.asked
  }

  lemma StopFinishes(w: World, whole: Exchange, n: nat, input: Bytes, onward: Bytes, sent: Bytes)
    requires Upto(w, whole, n, input, onward, sent) && OneRound(w, input, n).Stop?
    ensures var round := OneRound(w, input, n);
            Finished(whole, n + round.asked, onward + round.onward, sent + round.back)
  {
    assert whole.queries[..n] == whole.queries && whole.replies[..n] == whole.replies;
  }

  lemma StreamOneMore(messages: seq<Bytes>, n: nat, s: Bytes)
    requires n < |messages| && 0 < |messages[n]| < 65536 && Streams(messages[..n], s)
    ensures Streams(messages[..n + 1], s + Frame(messages[n]))
  {
    StreamSnoc(messages[..n], messages[n]);
    assert messages[..n + 1] == messages[..n] + [messages[n]];
  }

  lemma GoAdvances(w: World, whole: Exchange, n: nat, input: Bytes)
    requires n <= |whole.queries| && n <= |whole.replies| && n <= whole.asked
    requires OneRound(w, input, n).Go? && Relayed(w, input, n) == Tail(whole, n)
    ensures n < |whole.queries| && n < |whole.replies| && n < whole.asked
    ensures OneRound(w, input, n) == Go(whole.queries[n], whole.replies[n])
    ensures Relayed(w, Rest(input), n + 1) == Tail(whole, n + 1)
  {
    var round, rest := OneRound(w, input, n), Relayed(w, Rest(input), n + 1);
    assert whole.queries[n..] == [round.query] + rest.queries && whole.replies[n..] == [round.reply] + rest.replies;
    assert whole.queries[n] == whole.queries[n..][0] && whole.replies[n] == whole.replies[n..][0];
    assert rest.queries == whole.queries[n..][1..] && rest.replies == whole.replies[n..][1..];
  }

  lemma GoContinues(w: World, whole: Exchange, n: nat, input: Bytes, onward: Bytes, sent: Bytes)
    requires Upto(w, whole, n, input, onward, sent)
    requires var round := OneRound(w, input, n);
             round.Go? && 0 < |round.query| < 65536 && 0 < |round.reply| < 65536
    ensures var round := OneRound(w, input, n);
            Upto(w, whole, n + 1, Rest(input), onward + Frame(round.query), sent + Frame(round.reply))
  {
    GoAdvances(w, whole, n, input);
    StreamOneMore(whole.queries, n, onward);
    StreamOneMore(whole.replies, n, sent);
  }

  /** What a round reads, sends on and sends back, from the client stream `input` to the stream `left`. */
  ghost predicate Performs(w: World, k: nat, round: Round, input: Bytes, left: Bytes, onward: Bytes, back: Bytes) {
    && round == OneRound(w, input, k) && onward == OnwardOf(round) && back == BackOf(round)
    && (round.Go? ==> left == Rest(input) && 0 < |round.query| < 65536 && 0 < |round.reply| < 65536)
  }

  /** The loop of `relay_tcp`: still going, or finished. */
  ghost predicate Looping(w: World, whole: Exchange, going: bool, input: Bytes, asked: nat, onward: Bytes, sent: Bytes)
  {
    if going then Upto(w, whole, asked, input, onward, sent) else Finished(whole, asked, onward, sent)
  }

  function AskedIn(round: Round): nat {
    if round.Go? then 1 else round.asked
  }

  /** Every outcome of a round leaves the loop going or finished. */
  lemma RoundLoops(w: World, whole: Exchange, round: Round, input: Bytes, left: Bytes, asked: nat,
                   onward: Bytes, sent: Bytes, piece: Bytes, back: Bytes)
    requires Upto(w, whole, asked, input, onward, sent) && Performs(w, asked, round, input, left, piece, back)
    ensures Looping(w, whole, round.Go?, left, asked + AskedIn(round), onward + piece, sent + back)
    ensures round.Go? ==> |left| < |input|
  {
    if round.Go? {
      GoContinues(w, whole, asked, input, onward, sent);
    } else {
      StopFinishes(w, whole, asked, input, onward, sent);
    }
  }

  lemma Beginning(w: World, input: Bytes)
    ensures Upto(w, Relayed(w, input, 0), 0, input, [], [])
  {
    var whole := Relayed(w, input, 0);
    assert whole.queries[0..] == whole.queries && whole.replies[0..] == whole.replies;
  }

  /**
    `relay_tcp`: however the streams are cut and wherever a send fails, it passes on and back exactly
    what `Relayed` says.
  */
  method RelayTcp(client: Connection, w: World) returns (onward: Bytes, asked: nat)
    requires client.sent == []
    modifies client
    ensures Finished(Relayed(w, old(client.left), 0), asked, onward, client.sent)
  {
    ghost var whole := Relayed(w, client.left, 0);
    Beginning(w, client.left);
    onward, asked := [], 0;
    var going := true;
    while going
      invariant Looping(w, whole, going, client.left, asked, onward, client.sent)
      decreases going, |client.left|
    {
      ghost var input, sent := client.left, client.sent;
      var round, piece := RelayOnce(client, w, asked);
      RoundLoops(w, whole, round, input, client.left, asked, onward, sent, piece, BackOf(round));
      onward, asked, going := onward + piece, asked + AskedIn(round), round.Go?;
    }
  }
}
