/**
  What the bucket means for the traffic upstream (dashboard/provisioner/attached-dns-relay.py): the UDP
  loop and up to MAX_TCP_CONNECTIONS relay threads share one bucket. Each asks it for one query at a
  time and sends that query later, or never; a TCP thread first has to receive it.
*/
module DnsFlow {
  import opened DnsBucket

  const MAX_TCP_CONNECTIONS := 16

  /** The UDP loop and the slots of the TCP threads. */
  const CALLERS: nat := 1 + MAX_TCP_CONNECTIONS

  /** The clock, the readings at which the bucket was asked, who is admitted and has not sent, and the sends. */
  datatype State = State(now: real, calls: seq<real>, held: set<nat>, sends: seq<real>)

  datatype Action = Ask(caller: nat, now: real) | SendUp(caller: nat, now: real) | Drop(caller: nat)

  function Begin(start: real): State {
    State(start, [], {}, [])
  }

  /** One step of one caller; a step that is not its turn, or back in time, changes nothing. */
  function Apply(start: real, s: State, a: Action): State {
    match a
    case Ask(c, now) =>
      if now < s.now || c >= CALLERS || c in s.held then s
      else
        var admitted := Admits(Served(start, s.calls), now);
        s.(now := now, calls := s.calls + [now], held := if admitted then s.held + {c} else s.held)
    case SendUp(c, now) =>
      if now < s.now || c !in s.held then s else s.(now := now, held := s.held - {c}, sends := s.sends + [now])
    case Drop(c) => s.(held := s.held - {c})
  }

  function Run(start: real, s: State, actions: seq<Action>): State
    decreases |actions|
  {
    if actions == [] then s else Run(start, Apply(start, s, actions[0]), actions[1..])
  }

  /** How many sends fall in the window from `a` to `b`, both included. */
  function SendsIn(sends: seq<real>, a: real, b: real): nat {
    if sends == [] then 0
    else SendsIn(sends[..|sends| - 1], a, b) + if a <= sends[|sends| - 1] <= b then 1 else 0
  }

  lemma SendsInSnoc(sends: seq<real>, now: real, a: real, b: real)
    ensures SendsIn(sends + [now], a, b) == SendsIn(sends, a, b) + if a <= now <= b then 1 else 0
  {
    assert (sends + [now])[..|sends|] == sends;
  }

  lemma AdmittedInSnoc(start: real, calls: seq<real>, now: real, a: real, b: real)
    ensures AdmittedIn(start, calls + [now], a, b)
            == AdmittedIn(start, calls, a, b) + if a <= now <= b && Admits(Served(start, calls), now) then 1 else 0
  {
    assert (calls + [now])[..|calls|] == calls;
  }

  /** The clock has not gone back, and only callers hold. */
  ghost predicate Ordered(start: real, s: State) {
    && start <= s.now && Monotone(start, s.calls) && (forall i :: 0 <= i < |s.calls| ==> s.calls[i] <= s.now)
    && (forall c :: c in s.held ==> c < CALLERS)
  }

  lemma HeldFew(held: set<nat>, n: nat)
    requires forall c :: c in held ==> c < n
    ensures |held| <= n
    decreases n
  {
    if n > 0 {
      var fewer := held - {n - 1};
      HeldFew(fewer, n - 1);
      assert held <= fewer + {n - 1};
      assert held == fewer || held == fewer + {n - 1};
    } else {
      assert held == {};
    }
  }

  /** Sends of the window and admissions still to be used, against admissions of the window and one for each caller. */
  ghost predicate Balanced(start: real, s: State, a: real, b: real) {
    var sends, admitted := SendsIn(s.sends, a, b), AdmittedIn(start, s.calls, a, b);
    && (s.now < a ==> sends == 0 && admitted == 0)
    && (s.now <= b ==> sends + |s.held| <= admitted + CALLERS)
    && sends <= admitted + CALLERS
  }

  lemma StepOrdered(start: real, s: State, e: Action)
    requires Ordered(start, s)
    ensures Ordered(start, Apply(start, s, e))
  {
  }

  lemma AskBalances(start: real, s: State, c: nat, now: real, a: real, b: real)
    requires Ordered(start, s) && Balanced(start, s, a, b) && a <= b
    ensures Balanced(start, Apply(start, s, Ask(c, now)), a, b)
  {
    var t := Apply(start, s, Ask(c, now));
    AdmittedInSnoc(start, s.calls, now, a, b);
    StepOrdered(start, s, Ask(c, now));
    HeldFew(t.held, CALLERS);
  }

  lemma SendBalances(start: real, s: State, c: nat, now: real, a: real, b: real)
    requires Ordered(start, s) && Balanced(start, s, a, b) && a <= b
    ensures Balanced(start, Apply(start, s, SendUp(c, now)), a, b)
  {
    SendsInSnoc(s.sends, now, a, b);
  }

  lemma {:induction false} RunBalances(start: real, s: State, actions: seq<Action>, a: real, b: real)
    requires Ordered(start, s) && Balanced(start, s, a, b) && a <= b
    ensures Ordered(start, Run(start, s, actions)) && Balanced(start, Run(start, s, actions), a, b)
    decreases |actions|
  {
    if actions != [] {
      var e := actions[0];
      StepOrdered(start, s, e);
      match e {
        case Ask(c, now) => AskBalances(start, s, c, now, a, b);
        case SendUp(c, now) => SendBalances(start, s, c, now, a, b);
        case Drop(c) =>
      }
      RunBalances(start, Apply(start, s, e), actions[1..], a, b);
    }
  }

  /** Whatever the callers do, at most 200 + 200 t queries, and one for each caller, go upstream in any t seconds. */
  lemma SendBound(start: real, actions: seq<Action>, a: real, b: real)
    requires a <= b
    ensures SendsIn(Run(start, Begin(start), actions).sends, a, b) as real <= Allowance(b - a) + CALLERS as real
  {
    RunBalances(start, Begin(start), actions, a, b);
    AdmissionBound(start, Run(start, Begin(start), actions).calls, a, b);
  }

  // ---- the bound is attained ----

  lemma {:induction false} RunSnoc(start: real, s: State, actions: seq<Action>, e: Action)
    ensures Run(start, s, actions + [e]) == Apply(start, Run(start, s, actions), e)
    decreases |actions|
  {
    if actions == [] {
      assert Run(start, s, [e]) == Run(start, Apply(start, s, e), [e][1..]);
    } else {
      assert (actions + [e])[1..] == actions[1..] + [e];
      RunSnoc(start, Apply(start, s, actions[0]), actions[1..], e);
    }
  }

  lemma ServedSnoc(start: real, calls: seq<real>, now: real)
    ensures Served(start, calls + [now]) == Taken(Served(start, calls), now)
  {
    assert (calls + [now])[..|calls|] == calls;
  }

  /** A caller that asks while a token is there. */
  lemma AskAdmitted(start: real, s: State, c: nat, now: real)
    requires s.now <= now && c < CALLERS && c !in s.held && Refilled(Served(start, s.calls), now) >= 1.0
    ensures var t := Apply(start, s, Ask(c, now));
            && t == s.(now := now, calls := s.calls + [now], held := s.held + {c})
            && Served(start, t.calls) == Level(Refilled(Served(start, s.calls), now) - 1.0, now)
  {
    ServedSnoc(start, s.calls, now);
  }

  /** The first `k` callers have asked at time 0 and hold. */
  ghost predicate Asked(s: State, k: nat) {
    && s.now == 0.0 && s.sends == [] && (forall c :: c in s.held <==> 0 <= c < k)
    && Served(0.0, s.calls) == Level(RATE - k as real, 0.0)
  }

  lemma AskNext(s: State, k: nat)
    requires Asked(s, k) && k < CALLERS
    ensures Asked(Apply(0.0, s, Ask(k, 0.0)), k + 1)
  {
    AskAdmitted(0.0, s, k, 0.0);
  }

  /** Every caller asks at time 0. */
  lemma AllAsk() returns (actions: seq<Action>)
    ensures Asked(Run(0.0, Begin(0.0), actions), CALLERS)
  {
    actions := [];
    for k := 0 to CALLERS
      invariant Asked(Run(0.0, Begin(0.0), actions), k)
    {
      AskNext(Run(0.0, Begin(0.0), actions), k);
      RunSnoc(0.0, Begin(0.0), actions, Ask(k, 0.0));
      actions := actions + [Ask(k, 0.0)];
    }
  }

  /** A second later they all send. */
  lemma AllSend() returns (actions: seq<Action>)
    ensures var s := Run(0.0, Begin(0.0), actions);
            && s.now == 1.0 && s.held == {} && SendsIn(s.sends, 1.0, 1.0) == CALLERS
            && Served(0.0, s.calls) == Level(RATE - CALLERS as real, 0.0)
  {
    actions := AllAsk();
    for k := 0 to CALLERS
      invariant var s := Run(0.0, Begin(0.0), actions);
                && s.now == (if k == 0 then 0.0 else 1.0) && SendsIn(s.sends, 1.0, 1.0) == k
                && (forall c :: c in s.held <==> k <= c < CALLERS)
                && Served(0.0, s.calls) == Level(RATE - CALLERS as real, 0.0)
    {
      SendsInSnoc(Run(0.0, Begin(0.0), actions).sends, 1.0, 1.0, 1.0);
      RunSnoc(0.0, Begin(0.0), actions, SendUp(k, 1.0));
      actions := actions + [SendUp(k, 1.0)];
    }
  }

  lemma OneMore(actions: seq<Action>, k: nat) returns (longer: seq<Action>)
    requires k < 200
    requires var s := Run(0.0, Begin(0.0), actions);
             && s.now == 1.0 && s.held == {} && SendsIn(s.sends, 1.0, 1.0) == CALLERS + k
             && Refilled(Served(0.0, s.calls), 1.0) == RATE - k as real
    ensures var s := Run(0.0, Begin(0.0), longer);
            && s.now == 1.0 && s.held == {} && SendsIn(s.sends, 1.0, 1.0) == CALLERS + k + 1
            && Refilled(Served(0.0, s.calls), 1.0) == RATE - (k + 1) as real
  {
    var s := Run(0.0, Begin(0.0), actions);
    AskAdmitted(0.0, s, 0, 1.0);
    SendsInSnoc(s.sends, 1.0, 1.0, 1.0);
    RunSnoc(0.0, Begin(0.0), actions, Ask(0, 1.0));
    RunSnoc(0.0, Begin(0.0), actions + [Ask(0, 1.0)], SendUp(0, 1.0));
    longer := actions + [Ask(0, 1.0)] + [SendUp(0, 1.0)];
  }

  /** Queries held back and then sent with a full bucket: the bound is reached, callers' share included. */
  lemma SendBoundReached() returns (actions: seq<Action>)
    ensures SendsIn(Run(0.0, Begin(0.0), actions).sends, 1.0, 1.0) as real == Allowance(0.0) + CALLERS as real
  {
    actions := AllSend();
    for k := 0 to 200
      invariant var s := Run(0.0, Begin(0.0), actions);
                && s.now == 1.0 && s.held == {} && SendsIn(s.sends, 1.0, 1.0) == CALLERS + k
                && Refilled(Served(0.0, s.calls), 1.0) == RATE - k as real
    {
      actions := OneMore(actions, k);
    }
  }
}
