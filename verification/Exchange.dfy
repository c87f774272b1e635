/** Requests matched to replies by a nonce: the prober's waiters, and a node's binding requests.

    Requests are registered, completed and cleaned up by different goroutines. Each critical section is one event;
    between taking a request off the table and completing it anything else may happen. */
module Exchange {
  import opened Base
  import opened Netip
  import opened Wire
  import opened RelayBook
  import opened Protocol

  /** A request, by number. */
  type Id = nat

  /** One request: taken is what is about to be put into its channel, channel what was. */
  datatype Ask = Ask(nonce: Nonce, peer: AddrPort, taken: Option<AddrPort>, channel: seq<AddrPort>)

  datatype State = State(asks: map<Id, Ask>, table: map<Nonce, Id>)

  datatype Event =
    | Begin(id: Id, nonce: Nonce, peer: AddrPort)
    | Arrive(frame: seq<byte>, from: AddrPort)
    | Complete(id: Id)
    | End(id: Id)

  /** Random nonces do not repeat. */
  predicate Unused(s: State, nonce: Nonce) {
    forall i :: i in s.asks ==> s.asks[i].nonce != nonce
  }

  function Step(kind: Kind, s: State, e: Event): State {
    match e
    case Begin(i, nonce, peer) =>
      if i in s.asks || !Unused(s, nonce) then s
      else State(s.asks[i := Ask(nonce, peer, None, [])], s.table[nonce := i])
    case Arrive(frame, from) =>
      match Reply(kind, frame) {
        case None => s
        case Some(r) =>
          if r.0 !in s.table || s.table[r.0] !in s.asks || s.asks[s.table[r.0]].peer != from then s
          else State(s.asks[s.table[r.0] := s.asks[s.table[r.0]].(taken := Some(r.1))], s.table - {r.0})
      }
    case Complete(i) =>
      if i !in s.asks || s.asks[i].taken.None? then s
      else s.(asks := s.asks[i := s.asks[i].(taken := None, channel := s.asks[i].channel + [s.asks[i].taken.value])])
    case End(i) => if i !in s.asks then s else s.(table := s.table - {s.asks[i].nonce})
  }

  function Run(kind: Kind, es: seq<Event>): State
    decreases |es|
  {
    if es == [] then State(map[], map[]) else Step(kind, Run(kind, es[..|es| - 1]), es[|es| - 1])
  }

  /** A request is on the table, or on its way to its channel, or in it, at most one of these and at most once. */
  ghost predicate AskOk(s: State, i: Id)
    requires i in s.asks
  {
    var a := s.asks[i];
    && |a.channel| <= 1 && (a.taken.Some? ==> a.channel == [])
    && (a.nonce in s.table ==> s.table[a.nonce] == i && a.taken.None? && a.channel == [])
  }

  ghost predicate Inv(s: State) {
    && (forall i :: i in s.asks ==> AskOk(s, i))
    && (forall n :: n in s.table ==> s.table[n] in s.asks && s.asks[s.table[n]].nonce == n)
    && (forall i, j :: i in s.asks && j in s.asks && i != j ==> s.asks[i].nonce != s.asks[j].nonce)
  }

  /** Replacing one request's row, its nonce off the table. */
  lemma RowKeeps(s: State, i: Id, a: Ask)
    requires Inv(s) && i in s.asks && a.nonce == s.asks[i].nonce && |a.channel| <= 1
    requires a.taken.Some? ==> a.channel == []
    ensures Inv(State(s.asks[i := a], s.table - {a.nonce}))
  {
    var z := State(s.asks[i := a], s.table - {a.nonce});
    forall j | j in z.asks ensures AskOk(z, j) {
      assert AskOk(s, j);
    }
  }

  lemma BeginKeeps(s: State, i: Id, nonce: Nonce, peer: AddrPort)
    requires Inv(s) && i !in s.asks && Unused(s, nonce)
    ensures Inv(State(s.asks[i := Ask(nonce, peer, None, [])], s.table[nonce := i]))
  {
    var z := State(s.asks[i := Ask(nonce, peer, None, [])], s.table[nonce := i]);
    forall j | j in z.asks ensures AskOk(z, j) {
      assert j != i ==> AskOk(s, j);
    }
  }

  lemma StepKeeps(kind: Kind, s: State, e: Event)
    requires Inv(s)
    ensures Inv(Step(kind, s, e))
  {
    match e
    case Begin(i, nonce, peer) =>
      if i !in s.asks && Unused(s, nonce) {
        BeginKeeps(s, i, nonce, peer);
      }
    case Arrive(frame, from) =>
      var r := Reply(kind, frame);
      if r.Some? && r.value.0 in s.table {
        var i := s.table[r.value.0];
        assert AskOk(s, i);
        RowKeeps(s, i, s.asks[i].(taken := Some(r.value.1)));
      }
    case Complete(i) =>
      if i in s.asks && s.asks[i].taken.Some? {
        assert AskOk(s, i);
        var a := s.asks[i].(taken := None, channel := s.asks[i].channel + [s.asks[i].taken.value]);
        RowKeeps(s, i, a);
        assert s.table - {a.nonce} == s.table;
      }
    case End(i) =>
      if i in s.asks {
        assert AskOk(s, i);
        RowKeeps(s, i, s.asks[i]);
        assert s.asks[i := s.asks[i]] == s.asks;
      }
  }

  lemma {:induction false} Reachable(kind: Kind, es: seq<Event>)
    ensures Inv(Run(kind, es))
    decreases |es|
  {
    if es != [] {
      Reachable(kind, es[..|es| - 1]);
      StepKeeps(kind, Run(kind, es[..|es| - 1]), es[|es| - 1]);
    }
  }

  // ---- at most once ----

  /** How often a request's channel was given a value. */
  function Completions(kind: Kind, es: seq<Event>, i: Id): nat
    decreases |es|
  {
    if es == [] then 0
    else
      var s := Run(kind, es[..|es| - 1]);
      Completions(kind, es[..|es| - 1], i) +
      if es[|es| - 1] == Complete(i) && i in s.asks && s.asks[i].taken.Some? then 1 else 0
  }

  lemma {:induction false} ChannelCounts(kind: Kind, es: seq<Event>, i: Id)
    ensures i in Run(kind, es).asks ==> |Run(kind, es).asks[i].channel| == Completions(kind, es, i)
    ensures i !in Run(kind, es).asks ==> Completions(kind, es, i) == 0
    decreases |es|
  {
    hide Reply;
    if es != [] {
      ChannelCounts(kind, es[..|es| - 1], i);
    }
  }

  /** Whatever duplicates, timeouts and cleanups race, a channel is closed or sent to at most once, so sending to its
      one-place buffer never blocks. */
  lemma CompletedOnce(kind: Kind, es: seq<Event>, i: Id)
    ensures Completions(kind, es, i) <= 1
    ensures var s := Run(kind, es); i in s.asks && s.asks[i].taken.Some? ==> s.asks[i].channel == []
  {
    Reachable(kind, es);
    ChannelCounts(kind, es, i);
    if i in Run(kind, es).asks {
      assert AskOk(Run(kind, es), i);
    }
  }

  // ---- where answers come from ----

  /** The reply at place j came from the peer that was asked, with the nonce it was asked with, after it was asked. */
  ghost predicate Answered(kind: Kind, es: seq<Event>, i: Id, a: Ask, v: AddrPort, b: nat, j: nat) {
    && b < j < |es| && es[b] == Begin(i, a.nonce, a.peer)
    && es[j].Arrive? && es[j].from == a.peer && Reply(kind, es[j].frame) == Some((a.nonce, v))
  }

  lemma {:induction false} Asked(kind: Kind, es: seq<Event>, i: Id) returns (b: nat)
    requires i in Run(kind, es).asks
    ensures b < |es| && es[b] == Begin(i, Run(kind, es).asks[i].nonce, Run(kind, es).asks[i].peer)
    decreases |es|
  {
    hide Reply;
    var n := |es| - 1;
    var s := Run(kind, es[..n]);
    if i in s.asks {
      b := Asked(kind, es[..n], i);
    } else {
      b := n;
    }
  }

  predicate Has(a: Ask, v: AddrPort) {
    a.taken == Some(v) || v in a.channel
  }

  /** The step that brings a request its value is a reply to it, from its peer. */
  lemma Brings(kind: Kind, s: State, e: Event, i: Id, v: AddrPort)
    requires Inv(s) && i in Step(kind, s, e).asks && Has(Step(kind, s, e).asks[i], v)
    ensures i in s.asks
    ensures Step(kind, s, e).asks[i].nonce == s.asks[i].nonce && Step(kind, s, e).asks[i].peer == s.asks[i].peer
    ensures !Has(s.asks[i], v) ==>
      e.Arrive? && e.from == s.asks[i].peer && Reply(kind, e.frame) == Some((s.asks[i].nonce, v))
  {
    hide Reply;
  }

  /** The reply at place j, no earlier than m, answers what i asked. */
  predicate Heard(kind: Kind, es: seq<Event>, m: nat, nonce: Nonce, peer: AddrPort, v: AddrPort, j: nat) {
    && m <= j < |es| && es[j].Arrive? && es[j].from == peer && Reply(kind, es[j].frame) == Some((nonce, v))
  }

  ghost predicate WasHeard(kind: Kind, es: seq<Event>, m: nat, nonce: Nonce, peer: AddrPort, v: AddrPort) {
    exists j :: Heard(kind, es, m, nonce, peer, v, j)
  }

  /** The last event brought the value, unless it was there before. */
  lemma Latest(kind: Kind, es: seq<Event>, i: Id, v: AddrPort)
    requires es != [] && i in Run(kind, es).asks && Has(Run(kind, es).asks[i], v)
    ensures var n := |es| - 1; var s, a := Run(kind, es[..n]), Run(kind, es).asks[i];
      && i in s.asks && s.asks[i].nonce == a.nonce && s.asks[i].peer == a.peer
      && (Has(s.asks[i], v) || Heard(kind, es, n, a.nonce, a.peer, v, n))
  {
    var n := |es| - 1;
    var s := Run(kind, es[..n]);
    assert Run(kind, es) == Step(kind, s, es[n]);
    Reachable(kind, es[..n]);
    Brings(kind, s, es[n], i, v);
    hide Reply, Step, Run, Has, Inv;
  }

  /** A value in a channel, or on its way there, came in a reply from the very peer the request went to. */
  lemma {:induction false} AnswerFromPeer(kind: Kind, es: seq<Event>, i: Id, v: AddrPort) returns (b: nat, j: nat)
    requires i in Run(kind, es).asks && Has(Run(kind, es).asks[i], v)
    ensures Answered(kind, es, i, Run(kind, es).asks[i], v, b, j)
    decreases |es|
  {
    var n := |es| - 1;
    NotEmpty(kind, es, i);
    Latest(kind, es, i, v);
    hide Reply, Run, Has;
    if Has(Run(kind, es[..n]).asks[i], v) {
      b, j := AnswerFromPeer(kind, es[..n], i, v);
    } else {
      b := Asked(kind, es[..n], i);
      j := n;
    }
  }

  lemma NotEmpty(kind: Kind, es: seq<Event>, i: Id)
    requires i in Run(kind, es).asks
    ensures es != []
  {
  }

  lemma HeardMore(kind: Kind, es: seq<Event>, n: nat, m: nat, nonce: Nonce, peer: AddrPort, v: AddrPort)
    requires n <= |es| && WasHeard(kind, es[..n], m, nonce, peer, v)
    ensures WasHeard(kind, es, m, nonce, peer, v)
  {
    var j :| Heard(kind, es[..n], m, nonce, peer, v, j);
    assert Heard(kind, es, m, nonce, peer, v, j);
  }

  /** A request still open after the first m events is answered, if at all, by a later one. */
  lemma {:induction false} AnswerSince(kind: Kind, es: seq<Event>, m: nat, i: Id, v: AddrPort)
    requires m <= |es| && i in Run(kind, es[..m]).asks
    requires Run(kind, es[..m]).asks[i].taken.None? && Run(kind, es[..m]).asks[i].channel == []
    requires i in Run(kind, es).asks && Has(Run(kind, es).asks[i], v)
    ensures WasHeard(kind, es, m, Run(kind, es).asks[i].nonce, Run(kind, es).asks[i].peer, v)
    decreases |es|
  {
    hide Reply, Step, Run, Inv, Heard, WasHeard;
    WholePrefix(es);
    if m < |es| {
      var n := |es| - 1;
      PrefixOfPrefix(es, n, m);
      Latest(kind, es, i, v);
      var s := Run(kind, es[..n]);
      hide Has;
      if Has(s.asks[i], v) {
        AnswerSince(kind, es[..n], m, i, v);
        HeardMore(kind, es, n, m, s.asks[i].nonce, s.asks[i].peer, v);
      } else {
        HeardNow(kind, es, m, s.asks[i].nonce, s.asks[i].peer, v, n);
      }
    }
  }

  lemma HeardNow(kind: Kind, es: seq<Event>, m: nat, nonce: Nonce, peer: AddrPort, v: AddrPort, n: nat)
    requires m <= n && Heard(kind, es, n, nonce, peer, v, n)
    ensures WasHeard(kind, es, m, nonce, peer, v)
  {
    assert Heard(kind, es, m, nonce, peer, v, n);
  }

  lemma PrefixOfPrefix(es: seq<Event>, n: nat, m: nat)
    requires m <= n <= |es|
    ensures es[..n][..m] == es[..m]
  {
  }

  lemma WholePrefix(es: seq<Event>)
    ensures es[..|es|] == es
  {
  }

  lemma RunOne(kind: Kind, es: seq<Event>, e: Event)
    ensures Run(kind, es + [e]) == Step(kind, Run(kind, es), e)
  {
    assert (es + [e])[..|es|] == es;
  }

  // ---- the programs ----

  const PROBE_RETRIES := 3
  const RETRY_INTERVAL: int := 400 * SECOND / 1000
  const BINDING_BUDGET: int := 2 * SECOND

  /** A request is sent at once and then after each interval, the last time when the budget is just used up. */
  const MOST_REQUESTS := 6

  /** How a round of a request ended: Unsent when its write failed for good. */
  datatype Turn = Answer(addr: AddrPort) | Expired | Again | Unsent

  datatype Outcome = Replied | NoReply | BadTarget | NoEntropy | Closed | SendFailed | Mapped(addr: AddrPort)

  /** Nothing but copies of one datagram. */
  ghost predicate Only(sent: seq<Datagram>, d: Datagram) {
    forall k :: 0 <= k < |sent| ==> sent[k] == d
  }

  /** A reply to a probe brings nothing but itself. */
  lemma ProbesBringNothing(es: seq<Event>, m: nat, nonce: Nonce, peer: AddrPort, v: AddrPort)
    requires WasHeard(Probes, es, m, nonce, peer, v)
    ensures v == Unset
  {
  }

  /** What surrounds a request: what the other goroutines do during the n-th wait, whether the n-th write fails, and
      which way the n-th select goes when it can go more than one. */
  datatype Env = Env(others: nat -> seq<Event>, sendFails: nat -> bool, expires: nat -> bool, hears: nat -> bool)

  /** The others leave registering and cleaning up request i to whoever made it. */
  predicate Foreign(e: Event, i: Id) {
    (e.Begin? || e.End?) ==> e.id != i
  }

  ghost predicate EnvOk(env: Env, i: Id) {
    forall n: nat, j :: 0 <= j < |env.others(n)| ==> Foreign(env.others(n)[j], i)
  }

  /** Whose answer a frame is. */
  function Awaiting(kind: Kind, s: State, frame: seq<byte>, from: AddrPort): Option<Id> {
    var r := Reply(kind, frame);
    if r.None? || r.value.0 !in s.table || s.table[r.value.0] !in s.asks || s.asks[s.table[r.value.0]].peer != from
    then None else Some(s.table[r.value.0])
  }

  lemma TakenStays(kind: Kind, s: State, e: Event, i: Id)
    requires Inv(s) && i in s.asks && s.asks[i].taken.Some? && e != Complete(i)
    ensures i in Step(kind, s, e).asks && Step(kind, s, e).asks[i] == s.asks[i]
  {
    hide Reply;
    assert AskOk(s, i);
  }

  /** What the others do during the first n waits. */
  ghost function Waits(env: Env, n: nat): seq<Event> {
    if n == 0 then [] else Waits(env, n - 1) + env.others(n - 1)
  }

  /** How many of the first n writes go out. */
  function Sends(env: Env, n: nat): nat {
    if n == 0 then 0 else Sends(env, n - 1) + if env.sendFails(n - 1) then 0 else 1
  }

  /** After the n-th wait there is an answer, and select takes it. */
  ghost predicate Heeds(kind: Kind, start: seq<Event>, env: Env, i: Id, n: nat) {
    var s := Run(kind, start + Waits(env, n + 1));
    env.hears(n) && i in s.asks && s.asks[i].channel != []
  }

  /** The first n waits ended with neither an answer nor the deadline. */
  ghost predicate InVain(kind: Kind, start: seq<Event>, env: Env, i: Id, n: nat) {
    forall k :: 0 <= k < n ==> !env.expires(k) && !Heeds(kind, start, env, i, k)
  }

  /** The last wait, the n-th, decided: an answer was there and taken, or the deadline came without. */
  ghost predicate Decided(kind: Kind, start: seq<Event>, env: Env, i: Id, n: nat, last: bool, answered: bool) {
    if answered then Heeds(kind, start, env, i, n) else !Heeds(kind, start, env, i, n) && (last || env.expires(n))
  }

  function Zeros(n: nat): seq<byte> {
    seq(n, _ => 0)
  }

  class Exchange {
    const kind: Kind
    /** Every request made, its channel with it. */
    var asks: map<Id, Ask>
    /** The waiters of the prober, the bindings of a node. */
    var table: map<Nonce, Id>
    ghost var trace: seq<Event>

    function Here(): State
      reads `asks, `table
    {
      State(asks, table)
    }

    ghost predicate Valid()
      reads this
    {
      Here() == Run(kind, trace) && Inv(Here())
    }

    constructor (kind: Kind)
      ensures Valid() && this.kind == kind && asks == map[]
    {
      this.kind, asks, table, trace := kind, map[], map[], [];
    }

    method Register(i: Id, nonce: Nonce, peer: AddrPort)
      requires Valid() && i !in asks && Unused(Here(), nonce)
      modifies this
      ensures Valid() && trace == old(trace) + [Begin(i, nonce, peer)]
      ensures i in asks && asks[i] == Ask(nonce, peer, None, [])
    {
      StepKeeps(kind, Here(), Begin(i, nonce, peer));
      RunOne(kind, trace, Begin(i, nonce, peer));
      hide Run, Inv;
      asks := asks[i := Ask(nonce, peer, None, [])];
      table := table[nonce := i];
      trace := trace + [Begin(i, nonce, peer)];
    }

    /** The deferred delete: nothing is left of the request on the table. */
    method Cleanup(i: Id)
      requires Valid() && i in asks
      modifies `table, `trace
      ensures Valid() && trace == old(trace) + [End(i)] && asks[i].nonce !in table
    {
      StepKeeps(kind, Here(), End(i));
      RunOne(kind, trace, End(i));
      hide Run, Inv;
      table := table - {asks[i].nonce};
      trace := trace + [End(i)];
    }

    /** A frame arrived: the request it answers, taken off the table. */
    method Take(frame: seq<byte>, from: AddrPort) returns (i: Option<Id>)
      requires Valid()
      modifies this
      ensures Valid() && trace == old(trace) + [Arrive(frame, from)]
      ensures i == Awaiting(kind, old(Here()), frame, from)
      ensures i.Some? ==> i.value in old(asks) && old(asks)[i.value].channel == []
      ensures i.Some? ==> asks == old(asks)[i.value := old(asks)[i.value].(taken := Some(Reply(kind, frame).value.1))]
      ensures i.None? ==> asks == old(asks) && table == old(table)
    {
      StepKeeps(kind, Here(), Arrive(frame, from));
      RunOne(kind, trace, Arrive(frame, from));
      trace := trace + [Arrive(frame, from)];
      hide Run;
      var r := Reply(kind, frame);
      hide Reply;
      i := None;
      if r.Some? && r.value.0 in table {
        var id := table[r.value.0];
        assert AskOk(Here(), id);
        if asks[id].peer == from {
          table := table - {r.value.0};
          asks := asks[id := asks[id].(taken := Some(r.value.1))];
          i := Some(id);
        }
      }
    }

    /** Closes the channel, or sends to it: there is room. */
    method Finish(i: Id)
      requires Valid() && i in asks && asks[i].taken.Some?
      modifies `asks, `trace
      ensures Valid() && trace == old(trace) + [Complete(i)]
      ensures old(asks[i].channel) == []
      ensures asks == old(asks)[i := old(asks[i]).(taken := None, channel := [old(asks[i]).taken.value])]
    {
      assert AskOk(Here(), i);
      StepKeeps(kind, Here(), Complete(i));
      RunOne(kind, trace, Complete(i));
      assert [] + [asks[i].taken.value] == [asks[i].taken.value];
      hide *;
      asks := asks[i := asks[i].(taken := None, channel := asks[i].channel + [asks[i].taken.value])];
      trace := trace + [Complete(i)];
    }

    /** Whatever the others do meanwhile. */
    method Others(es: seq<Event>, i: Id)
      requires Valid() && i in asks && forall j :: 0 <= j < |es| ==> Foreign(es[j], i)
      modifies `asks, `table, `trace
      ensures Valid() && i in asks && asks[i].nonce == old(asks[i].nonce) && asks[i].peer == old(asks[i].peer)
      ensures trace == old(trace) + es
    {
      hide Run, Inv, Reply;
      for j := 0 to |es|
        invariant Valid() && i in asks && asks[i].nonce == old(asks[i].nonce) && asks[i].peer == old(asks[i].peer)
        invariant trace == old(trace) + es[..j]
      {
        StepKeeps(kind, Here(), es[j]);
        RunOne(kind, trace, es[j]);
        var z := Step(kind, Here(), es[j]);
        asks, table, trace := z.asks, z.table, trace + [es[j]];
        assert es[..j + 1] == es[..j] + [es[j]];
      }
      assert es[..|es|] == es;
    }

    /** The others leave alone a request that was taken: only whoever took it completes it. */
    method Meanwhile(es: seq<Event>, i: Id)
      requires Valid() && i in asks && asks[i].taken.Some? && Complete(i) !in es
      modifies `asks, `table, `trace
      ensures Valid() && i in asks && asks[i] == old(asks[i]) && trace == old(trace) + es
    {
      hide Run, Inv, Reply;
      for j := 0 to |es|
        invariant Valid() && i in asks && asks[i] == old(asks[i]) && trace == old(trace) + es[..j]
      {
        TakenStays(kind, Here(), es[j], i);
        StepKeeps(kind, Here(), es[j]);
        RunOne(kind, trace, es[j]);
        var z := Step(kind, Here(), es[j]);
        asks, table, trace := z.asks, z.table, trace + [es[j]];
        assert es[..j + 1] == es[..j] + [es[j]];
      }
      assert es[..|es|] == es;
    }

    /** One reply in the prober's readLoop or a node's deliverBinding: whoever waits for it at its source has it in its
        channel afterwards, whatever the others do between the lookup and the send. */
    method Dispatch(frame: seq<byte>, from: AddrPort, meanwhile: seq<Event>) returns (i: Option<Id>)
      requires Valid() && forall e :: e in meanwhile ==> !e.Complete?
      modifies this
      ensures Valid() && old(trace) + [Arrive(frame, from)] <= trace
      ensures i == Awaiting(kind, old(Here()), frame, from)
      ensures i.Some? ==>
        && i.value in asks && i.value in old(asks) && old(asks)[i.value].channel == []
        && asks[i.value].channel == [Reply(kind, frame).value.1]
    {
      ghost var s := Here();
      hide Run, Inv, Reply;
      i := Take(frame, from);
      if i.Some? {
        Meanwhile(meanwhile, i.value);
        Finish(i.value);
      }
    }

    /** Open since start, as nonce to peer. */
    ghost predicate Pending(i: Id, nonce: Nonce, peer: AddrPort, start: seq<Event>)
      reads this
    {
      && Valid() && i in asks && asks[i].nonce == nonce && asks[i].peer == peer && start <= trace && start != []
      && i in Run(kind, start).asks && Run(kind, start).asks[i].taken.None? && Run(kind, start).asks[i].channel == []
    }

    /** The n-th wait: the others run, and then the channel may hold an answer. */
    method Wait(i: Id, env: Env, n: nat, ghost nonce: Nonce, ghost peer: AddrPort, ghost start: seq<Event>)
      returns (got: Option<AddrPort>)
      requires Pending(i, nonce, peer, start) && EnvOk(env, i) && trace == start + Waits(env, n)
      modifies `asks, `table, `trace
      ensures Pending(i, nonce, peer, start) && trace == start + Waits(env, n + 1)
      ensures got.Some? && env.hears(n) <==> Heeds(kind, start, env, i, n)
      ensures got.Some? ==> WasHeard(kind, trace, |start|, nonce, peer, got.value)
    {
      hide Run, Inv, Heard;
      Others(env.others(n), i);
      assert trace == start + Waits(env, n + 1);
      got := None;
      if asks[i].channel != [] {
        got := Some(asks[i].channel[0]);
        assert trace[..|start|] == start;
        AnswerSince(kind, trace, |start|, i, got.value);
      }
    }

    /** The request ends; an answer stays heard. */
    method Close(i: Id, ghost nonce: Nonce, ghost peer: AddrPort, ghost start: seq<Event>,
                 ghost answer: Option<AddrPort>)
      requires Pending(i, nonce, peer, start)
      requires answer.Some? ==> WasHeard(kind, trace, |start|, nonce, peer, answer.value)
      modifies `table, `trace
      ensures Valid() && nonce !in table && trace == old(trace) + [End(i)]
      ensures answer.Some? ==> WasHeard(kind, trace, |start| - 1, nonce, peer, answer.value)
    {
      hide Run, Inv, Reply;
      Cleanup(i);
      if answer.Some? {
        ghost var j :| Heard(kind, old(trace), |start|, nonce, peer, answer.value, j);
        assert Heard(kind, trace, |start| - 1, nonce, peer, answer.value, j);
      }
    }

    /** After n waits in vain the request is still open. */
    ghost predicate Underway(i: Id, nonce: Nonce, peer: AddrPort, start: seq<Event>, env: Env, n: nat)
      reads this
    {
      Pending(i, nonce, peer, start) && trace == start + Waits(env, n) && InVain(kind, start, env, i, n)
    }

    /** After n waits it ended, and nothing of it is left on the table. */
    ghost predicate Over(i: Id, nonce: Nonce, start: seq<Event>, env: Env, n: nat)
      reads this
    {
      Valid() && nonce !in table && trace == start + Waits(env, n) + [End(i)]
    }

    /** One select, the n-th, ending the request unless it is to be sent again. */
    method Select(i: Id, env: Env, n: nat, last: bool, ghost nonce: Nonce, ghost peer: AddrPort,
                  ghost start: seq<Event>)
      returns (turn: Turn)
      requires Underway(i, nonce, peer, start, env, n) && EnvOk(env, i)
      modifies `asks, `table, `trace
      ensures |start| > 0 && !turn.Unsent? && (last ==> !turn.Again?)
      ensures if turn.Again? then Underway(i, nonce, peer, start, env, n + 1) else Over(i, nonce, start, env, n + 1)
      ensures !turn.Again? ==> InVain(kind, start, env, i, n) && Decided(kind, start, env, i, n, last, turn.Answer?)
      ensures turn.Answer? ==> WasHeard(kind, trace, |start| - 1, nonce, peer, turn.addr)
    {
      hide *;
      HasBegun(i, nonce, peer, start, env, n);
      var got := Wait(i, env, n, nonce, peer, start);
      if got.Some? && env.hears(n) {
        turn := Answer(got.value);
      } else {
        turn, got := if last || env.expires(n) then Expired else Again, None;
      }
      if turn.Again? {
        InVainAgain(kind, start, env, i, n);
      } else {
        Close(i, nonce, peer, start, got);
      }
      SelectEnds(i, nonce, peer, start, env, n, last, turn);
    }

    /** What the pieces of a select add up to. */
    lemma SelectEnds(i: Id, nonce: Nonce, peer: AddrPort, start: seq<Event>, env: Env, n: nat, last: bool, turn: Turn)
      requires !turn.Unsent? && InVain(kind, start, env, i, n)
      requires turn.Answer? <==> Heeds(kind, start, env, i, n)
      requires turn.Again? ==>
        Pending(i, nonce, peer, start) && trace == start + Waits(env, n + 1) && InVain(kind, start, env, i, n + 1)
      requires turn.Expired? ==> last || env.expires(n)
      requires !turn.Again? ==> Valid() && nonce !in table && trace == start + Waits(env, n + 1) + [End(i)]
      ensures if turn.Again? then Underway(i, nonce, peer, start, env, n + 1) else Over(i, nonce, start, env, n + 1)
      ensures !turn.Again? ==> Decided(kind, start, env, i, n, last, turn.Answer?)
    {
      hide Pending, Valid, InVain, Heeds, Waits;
    }

    lemma IsOver(i: Id, nonce: Nonce, start: seq<Event>, env: Env, n: nat)
      requires Over(i, nonce, start, env, n)
      ensures Valid() && nonce !in table && trace == start + Waits(env, n) + [End(i)]
    {
    }

    lemma HasBegun(i: Id, nonce: Nonce, peer: AddrPort, start: seq<Event>, env: Env, n: nat)
      requires Underway(i, nonce, peer, start, env, n)
      ensures |start| > 0 && Pending(i, nonce, peer, start) && trace == start + Waits(env, n)
      ensures InVain(kind, start, env, i, n)
    {
    }

    /** A write failed: the request ends before its n-th select. */
    method GiveUp(i: Id, ghost nonce: Nonce, ghost peer: AddrPort, ghost start: seq<Event>, ghost env: Env,
                  ghost n: nat)
      requires Underway(i, nonce, peer, start, env, n)
      modifies `asks, `table, `trace
      ensures Over(i, nonce, start, env, n) && InVain(kind, start, env, i, n)
    {
      hide Pending, Valid, InVain;
      Close(i, nonce, peer, start, None);
    }

    method Begins(i: Id, nonce: Nonce, peer: AddrPort, ghost env: Env)
      requires Valid() && i !in asks && Unused(Here(), nonce)
      modifies this
      ensures trace == old(trace) + [Begin(i, nonce, peer)] && Underway(i, nonce, peer, trace, env, 0)
    {
      hide Run, Inv;
      Register(i, nonce, peer);
      assert trace + Waits(env, 0) == trace;
    }

    /** prober.go Reachable: true (Replied) only if the probed address itself sent the nonce back, after it was made,
        and false (NoReply) only when the deadline comes with no answer there, or with select passing it over. waits
        is how often it waited. */
    method Probe(i: Id, target: AddrPort, entropy: Option<Nonce>, env: Env)
      returns (out: Outcome, sent: seq<Datagram>, ghost waits: nat)
      requires Valid() && kind.Probes? && i !in asks && EnvOk(env, i)
      requires entropy.Some? ==> Unused(Here(), entropy.value)
      modifies this
      ensures Valid()
      ensures out == BadTarget <==> target.Unset? || target.port == 0
      ensures out == NoEntropy <==> target.At? && target.port != 0 && entropy.None?
      ensures out.BadTarget? || out.NoEntropy? ==> trace == old(trace) && asks == old(asks) && sent == []
      ensures !(out.BadTarget? || out.NoEntropy?) ==>
        && Probed(kind, old(trace) + [Begin(i, entropy.value, target)], env, i, waits, out, |sent|)
        && trace == old(trace) + [Begin(i, entropy.value, target)] + Waits(env, waits) + [End(i)]
        && entropy.value !in table && Only(sent, Datagram(target, Encode(TYPE_PROBE, entropy.value)))
        && (out.Replied? ==> WasHeard(kind, trace, |old(trace)|, entropy.value, target, Unset))
    {
      hide *;
      sent, waits := [], 0;
      if target.Unset? || target.port == 0 {
        return BadTarget, sent, 0;
      }
      if entropy.None? {
        return NoEntropy, sent, 0;
      }
      Begins(i, entropy.value, target, env);
      ghost var start := trace;
      out, sent, waits := Retry(i, target, entropy.value, env);
      IsOver(i, entropy.value, start, env, waits);
      ProbedIs(kind, start, env, i, waits, out, |sent|);
    }

    method Retry(i: Id, target: AddrPort, nonce: Nonce, env: Env)
      returns (out: Outcome, sent: seq<Datagram>, ghost waits: nat)
      requires kind.Probes? && Underway(i, nonce, target, trace, env, 0) && EnvOk(env, i)
      modifies `asks, `table, `trace
      ensures Over(i, nonce, old(trace), env, waits) && |old(trace)| > 0
      ensures Probed(kind, old(trace), env, i, waits, out, |sent|)
      ensures Only(sent, Datagram(target, Encode(TYPE_PROBE, nonce)))
      ensures out.Replied? ==> WasHeard(kind, trace, |old(trace)| - 1, nonce, target, Unset)
    {
      hide *;
      sent, waits := [], 0;
      var probe := Datagram(target, Encode(TYPE_PROBE, nonce));
      ghost var start := trace;
      ProbeStarts(env, probe);
      HasBegun(i, nonce, target, start, env, 0);
      var attempt, turn := 0, Again;
      while turn.Again?
        invariant attempt <= PROBE_RETRIES + 1 && Only(sent, probe)
        invariant turn.Again? ==>
          && attempt <= PROBE_RETRIES && |sent| == Sends(env, attempt)
          && Underway(i, nonce, target, start, env, attempt)
          && (attempt == PROBE_RETRIES ==> !env.sendFails(PROBE_RETRIES - 1))
        invariant !turn.Again? ==>
          Over(i, nonce, start, env, waits) && Probed(kind, start, env, i, waits, Verdict(turn), |sent|)
        invariant turn.Answer? ==> WasHeard(kind, trace, |start| - 1, nonce, target, Unset)
        decreases turn.Again?, PROBE_RETRIES + 1 - attempt
      {
        ProbeGoes(env, attempt, probe, sent);
        if attempt < PROBE_RETRIES && !env.sendFails(attempt) {
          sent := sent + [probe];
        }
        turn := ProbeOnce(i, env, attempt, |sent|, nonce, target, start);
        VerdictIs(turn);
        waits := if turn.Unsent? then attempt else attempt + 1;
        attempt := attempt + 1;
      }
      VerdictIs(turn);
      out := Verdict(turn);
    }

    method ProbeOnce(i: Id, env: Env, n: nat, ghost sends: nat, ghost nonce: Nonce, ghost target: AddrPort,
                     ghost start: seq<Event>)
      returns (turn: Turn)
      requires kind.Probes? && n <= PROBE_RETRIES && Underway(i, nonce, target, start, env, n) && EnvOk(env, i)
      requires sends == Sends(env, if n < PROBE_RETRIES then n + 1 else n)
      requires n == PROBE_RETRIES ==> !env.sendFails(PROBE_RETRIES - 1)
      modifies `asks, `table, `trace
      ensures |start| > 0 && (turn.Again? ==> n < PROBE_RETRIES && Underway(i, nonce, target, start, env, n + 1))
      ensures turn.Again? && n == PROBE_RETRIES - 1 ==> !env.sendFails(n)
      ensures turn.Answer? || turn.Expired? ==>
        Over(i, nonce, start, env, n + 1) && Probed(kind, start, env, i, n + 1, Verdict(turn), sends)
      ensures turn.Unsent? ==> Over(i, nonce, start, env, n) && Probed(kind, start, env, i, n, SendFailed, sends)
      ensures turn.Answer? ==> WasHeard(kind, trace, |start| - 1, nonce, target, Unset)
    {
      hide *;
      HasBegun(i, nonce, target, start, env, n);
      if n == PROBE_RETRIES - 1 && env.sendFails(n) {
        GiveUp(i, nonce, target, start, env, n);
        ProbeFails(kind, start, env, i, n, sends);
        turn := Unsent;
      } else {
        turn := Select(i, env, n, n == PROBE_RETRIES, nonce, target, start);
        if turn.Answer? {
          ProbesBringNothing(trace, |start| - 1, nonce, target, turn.addr);
        }
        if !turn.Again? {
          ProbeEnds(kind, start, env, i, n, turn, sends);
        }
      }
    }

    /** wireguard.go discoverMapping; open says whether the socket is. An address returned was sent by the prober in
        a reply to this request. */
    method DiscoverMapping(i: Id, server: AddrPort, entropy: Option<Nonce>, open: bool, env: Env)
      returns (out: Outcome, sent: seq<Datagram>, ghost waits: nat)
      requires Valid() && kind.Bindings? && i !in asks && EnvOk(env, i)
      requires entropy.Some? ==> Unused(Here(), entropy.value)
      modifies this
      ensures Valid()
      ensures out == NoEntropy <==> entropy.None?
      ensures out == Closed <==> entropy.Some? && !open
      ensures out.NoEntropy? || out.Closed? ==> trace == old(trace) && asks == old(asks) && sent == []
      ensures !(out.NoEntropy? || out.Closed?) ==>
        && Discovered(kind, old(trace) + [Begin(i, entropy.value, server)], env, i, waits, out, |sent|)
        && trace == old(trace) + [Begin(i, entropy.value, server)] + Waits(env, waits) + [End(i)]
        && entropy.value !in table && Only(sent, BindingRequest(server, entropy.value))
        && (out.Mapped? ==> WasHeard(kind, trace, |old(trace)|, entropy.value, server, out.addr))
    {
      hide *;
      sent, waits := [], 0;
      if entropy.None? {
        return NoEntropy, sent, 0;
      }
      if !open {
        return Closed, sent, 0;
      }
      Begins(i, entropy.value, server, env);
      ghost var start := trace;
      out, sent, waits := AskAgain(i, server, entropy.value, env);
      IsOver(i, entropy.value, start, env, waits);
      DiscoveredIs(kind, start, env, i, waits, out, |sent|);
    }

    method AskAgain(i: Id, server: AddrPort, nonce: Nonce, env: Env)
      returns (out: Outcome, sent: seq<Datagram>, ghost waits: nat)
      requires kind.Bindings? && Underway(i, nonce, server, trace, env, 0) && EnvOk(env, i)
      modifies `asks, `table, `trace
      ensures Over(i, nonce, old(trace), env, waits) && |old(trace)| > 0
      ensures Discovered(kind, old(trace), env, i, waits, out, |sent|)
      ensures Only(sent, BindingRequest(server, nonce))
      ensures out.Mapped? ==> WasHeard(kind, trace, |old(trace)| - 1, nonce, server, out.addr)
    {
      hide *;
      var request := BindingRequest(server, nonce);
      sent := [];
      var n, elapsed := 0, 0;
      ghost var start := trace;
      ProbeStarts(env, request);
      HasBegun(i, nonce, server, start, env, 0);
      var turn := Again;
      while turn.Again?
        invariant elapsed == n * 400_000_000 && |sent| <= n <= 6 && Only(sent, request)
        invariant turn.Again? ==> n <= 5 && |sent| == n && Underway(i, nonce, server, start, env, n)
        invariant !turn.Again? ==>
          Over(i, nonce, start, env, |sent|) && Discovered(kind, start, env, i, |sent|, Result(turn), |sent|)
        invariant turn.Answer? ==> WasHeard(kind, trace, |start| - 1, nonce, server, turn.addr)
        decreases turn.Again?, 6 - n
      {
        turn := AskOnce(i, env, n, elapsed >= BINDING_BUDGET, nonce, server, start);
        ResultIs(turn);
        if !turn.Unsent? {
          ProbeGoes(env, n, request, sent);
          sent := sent + [request];
        }
        n, elapsed := n + 1, elapsed + RETRY_INTERVAL;
      }
      ResultIs(turn);
      return Result(turn), sent, |sent|;
    }

    method AskOnce(i: Id, env: Env, n: nat, last: bool, ghost nonce: Nonce, ghost server: AddrPort,
                   ghost start: seq<Event>)
      returns (turn: Turn)
      requires Underway(i, nonce, server, start, env, n) && EnvOk(env, i) && n <= 5 && (last <==> n == 5)
      modifies `asks, `table, `trace
      ensures |start| > 0 && (turn.Again? ==> n < 5 && Underway(i, nonce, server, start, env, n + 1))
      ensures turn.Answer? || turn.Expired? ==>
        Over(i, nonce, start, env, n + 1) && Discovered(kind, start, env, i, n + 1, Result(turn), n + 1)
      ensures turn.Unsent? ==> Over(i, nonce, start, env, n) && Discovered(kind, start, env, i, n, SendFailed, n)
      ensures turn.Answer? ==> WasHeard(kind, trace, |start| - 1, nonce, server, turn.addr)
    {
      hide *;
      HasBegun(i, nonce, server, start, env, n);
      if env.sendFails(n) {
        GiveUp(i, nonce, server, start, env, n);
        DiscoveryFails(kind, start, env, i, n);
        turn := Unsent;
      } else {
        turn := Select(i, env, n, last, nonce, server, start);
        if !turn.Again? {
          DiscoveryEnds(kind, start, env, i, n, turn);
        }
      }
    }
  }

  function Verdict(turn: Turn): Outcome {
    if turn.Answer? then Replied else if turn.Unsent? then SendFailed else NoReply
  }

  lemma VerdictIs(turn: Turn)
    ensures Verdict(turn).Replied? ==> turn.Answer?
    ensures turn.Unsent? ==> Verdict(turn) == SendFailed
  {
  }

  function Result(turn: Turn): Outcome {
    if turn.Answer? then Mapped(turn.addr) else if turn.Unsent? then SendFailed else NoReply
  }

  lemma ResultIs(turn: Turn)
    ensures turn.Unsent? ==> Result(turn) == SendFailed
    ensures Result(turn).Mapped? ==> turn == Answer(Result(turn).addr)
  {
  }

  function BindingRequest(server: AddrPort, nonce: Nonce): Datagram {
    Datagram(server, Encode(TYPE_BINDING_REQUEST, nonce + Zeros(ADDR_PORT_LEN)))
  }

  /** How a probe went: three writes at most and a failing last one ends it; a select after each and one more. */
  ghost predicate Probed(kind: Kind, start: seq<Event>, env: Env, i: Id, waits: nat, out: Outcome, sends: nat) {
    match out
    case SendFailed =>
      && waits == PROBE_RETRIES - 1 && env.sendFails(waits)
      && InVain(kind, start, env, i, waits) && sends == Sends(env, waits)
    case _ =>
      && 0 < waits <= PROBE_RETRIES + 1 && (out.Replied? || out.NoReply?) && InVain(kind, start, env, i, waits - 1)
      && Decided(kind, start, env, i, waits - 1, waits == PROBE_RETRIES + 1, out.Replied?)
      && (waits >= PROBE_RETRIES ==> !env.sendFails(PROBE_RETRIES - 1))
      && sends == Sends(env, if waits > PROBE_RETRIES then PROBE_RETRIES else waits)
  }

  /** How a binding request went: any failing write ends it; the sixth select is the last. */
  ghost predicate Discovered(kind: Kind, start: seq<Event>, env: Env, i: Id, waits: nat, out: Outcome, sends: nat) {
    match out
    case SendFailed =>
      waits < MOST_REQUESTS && env.sendFails(waits) && InVain(kind, start, env, i, waits) && sends == waits
    case _ =>
      && 0 < waits <= MOST_REQUESTS && (out.Mapped? || out.NoReply?) && InVain(kind, start, env, i, waits - 1)
      && Decided(kind, start, env, i, waits - 1, waits == MOST_REQUESTS, out.Mapped?) && sends == waits
  }

  /** False means only that no response was there in time: when select prefers an answer, none was in the channel by
      the last wait; and with no deadline before that and no failing write, all probes had gone out. */
  lemma FalseMeansSilence(kind: Kind, start: seq<Event>, env: Env, i: Id, waits: nat, sends: nat)
    requires Probed(kind, start, env, i, waits, NoReply, sends) && forall n: nat :: env.hears(n)
    ensures var s := Run(kind, start + Waits(env, waits)); i in s.asks ==> s.asks[i].channel == []
    ensures (forall n: nat :: !env.expires(n) && !env.sendFails(n)) ==> sends == PROBE_RETRIES
  {
    hide Run, InVain, Waits;
    assert !Heeds(kind, start, env, i, waits - 1);
    if forall n: nat :: !env.expires(n) && !env.sendFails(n) {
      assert Sends(env, 3) == Sends(env, 2) + 1 == Sends(env, 1) + 2 == 3;
    }
  }

  lemma ProbeStarts(env: Env, d: Datagram)
    ensures Only([], d) && Sends(env, 0) == 0 && PROBE_RETRIES == 3
    ensures BINDING_BUDGET == 2_000_000_000 && RETRY_INTERVAL == 400_000_000
  {
  }

  lemma ProbeGoes(env: Env, n: nat, d: Datagram, sent: seq<Datagram>)
    requires Only(sent, d)
    ensures Only(sent + [d], d) && Sends(env, n + 1) == Sends(env, n) + if env.sendFails(n) then 0 else 1
  {
  }

  lemma ProbeFails(kind: Kind, start: seq<Event>, env: Env, i: Id, n: nat, sends: nat)
    requires n == PROBE_RETRIES - 1 && env.sendFails(n) && InVain(kind, start, env, i, n) && sends == Sends(env, n + 1)
    ensures Probed(kind, start, env, i, n, SendFailed, sends)
  {
    hide InVain;
  }

  lemma InVainAgain(kind: Kind, start: seq<Event>, env: Env, i: Id, n: nat)
    requires InVain(kind, start, env, i, n) && !env.expires(n) && !Heeds(kind, start, env, i, n)
    ensures InVain(kind, start, env, i, n + 1)
  {
    hide Heeds;
  }

  lemma ProbeEnds(kind: Kind, start: seq<Event>, env: Env, i: Id, n: nat, turn: Turn, sends: nat)
    requires n <= PROBE_RETRIES && InVain(kind, start, env, i, n) && !turn.Again? && !turn.Unsent?
    requires Decided(kind, start, env, i, n, n == PROBE_RETRIES, turn.Answer?)
    requires n >= PROBE_RETRIES - 1 ==> !env.sendFails(PROBE_RETRIES - 1)
    requires sends == Sends(env, if n < PROBE_RETRIES then n + 1 else n)
    ensures Probed(kind, start, env, i, n + 1, Verdict(turn), sends)
  {
    hide Heeds, Sends;
  }

  lemma ProbedIs(kind: Kind, start: seq<Event>, env: Env, i: Id, waits: nat, out: Outcome, sends: nat)
    requires Probed(kind, start, env, i, waits, out, sends)
    ensures out in {Replied, NoReply, SendFailed}
  {
  }

  lemma DiscoveredIs(kind: Kind, start: seq<Event>, env: Env, i: Id, waits: nat, out: Outcome, sends: nat)
    requires Discovered(kind, start, env, i, waits, out, sends)
    ensures out in {NoReply, SendFailed} || out.Mapped?
  {
  }

  lemma DiscoveryFails(kind: Kind, start: seq<Event>, env: Env, i: Id, n: nat)
    requires n <= 5 && InVain(kind, start, env, i, n) && env.sendFails(n)
    ensures Discovered(kind, start, env, i, n, SendFailed, n)
  {
    hide InVain;
  }

  lemma DiscoveryEnds(kind: Kind, start: seq<Event>, env: Env, i: Id, n: nat, turn: Turn)
    requires n <= 5 && InVain(kind, start, env, i, n) && !turn.Again? && !turn.Unsent?
    requires Decided(kind, start, env, i, n, n == 5, turn.Answer?)
    ensures Discovered(kind, start, env, i, n + 1, Result(turn), n + 1)
  {
    hide InVain, Decided;
  }
}
