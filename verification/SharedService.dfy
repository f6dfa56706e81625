/** Threads do not get in each other's way: whatever the others are doing, a thread can serve everything that
    is delivered to it, and admit new clients in between. */
module SharedService {
  import opened Connections
  import opened SharedEpoll

  /** A new client is accepted and registered; then the next one of the batch is served: its body is opened
      and closed, and it is armed again. */
  function ServeOne(t: nat, newcomer: nat, file: nat, rest: seq<Action>): seq<Action> {
    [Accept(t, newcomer)]
    + ([Add(t)] + ([Begin(t)] + ([Open(t, file)] + ([CloseBody(t)] + ([Rearm(t)] + rest)))))
  }

  function ServeAll(t: nat, newcomers: seq<nat>, file: nat): seq<Action> {
    if newcomers == [] then [] else ServeOne(t, newcomers[0], file, ServeAll(t, newcomers[1..], file))
  }

  predicate Between(thread: Thread) {
    thread.serving == None && thread.accepted == None && thread.body == None
  }

  /** The thread is between two clients of its batch, with one free number for each of them. */
  ghost predicate CanServe(s: System, t: nat, newcomers: seq<nat>, file: nat) {
    && !s.dead && t < |s.threads| && Between(s.threads[t]) && |s.threads[t].batch| == |newcomers|
    && (forall i | 0 <= i < |newcomers| :: s.threads[t].batch[i] in s.interest)
    && FreeNumbers(s, newcomers, file)
  }

  ghost predicate FreeNumbers(s: System, newcomers: seq<nat>, file: nat) {
    && Distinct(newcomers) && !InUse(s, file)
    && (forall i | 0 <= i < |newcomers| :: !InUse(s, newcomers[i]) && newcomers[i] != file)
  }

  function InHand(s: System, t: nat): System
    requires t < |s.threads| && s.threads[t].batch != []
  {
    var thread := s.threads[t];
    var fd := thread.batch[0];
    WithThread(s, t, thread.(batch := thread.batch[1..], serving := Some(fd),
                             queue := if fd in thread.queue then thread.queue else thread.queue[fd := s.now]))
  }

  function Served(s: System, t: nat): System
    requires t < |s.threads| && s.threads[t].batch != []
  {
    var thread := s.threads[t];
    var fd := thread.batch[0];
    WithThread(WithArmed(s, fd), t, thread.(batch := thread.batch[1..], queue := thread.queue[fd := s.now]))
  }

  /** Admitting a client. */
  lemma Admitted(s: System, t: nat, fd: nat, rest: seq<Action>, s': System)
    requires !s.dead && t < |s.threads| && Between(s.threads[t]) && !InUse(s, fd)
    requires Run(WithArmed(s, fd), rest, s', true)
    ensures Run(s, [Accept(t, fd)] + ([Add(t)] + rest), s', true)
  {
    var s1 := WithThread(s, t, s.threads[t].(accepted := Some(fd)));
    assert Step(s, Accept(t, fd), s1);
    assert WithThread(WithArmed(s1, fd), t, s.threads[t]).threads == s.threads;
    assert Step(s1, Add(t), WithArmed(s, fd));
    hide Run, Step, InUse, WithArmed, WithThread;
    RunStep(s1, Add(t), WithArmed(s, fd), rest, s');
    RunStep(s, Accept(t, fd), s1, [Add(t)] + rest, s');
  }

  lemma BodySteps(s: System, t: nat, file: nat)
    requires !s.dead && t < |s.threads| && s.threads[t].serving.Some? && s.threads[t].body == None && !InUse(s, file)
    ensures var s1 := WithThread(s, t, s.threads[t].(body := Some(file)));
            Step(s, Open(t, file), s1) && Step(s1, CloseBody(t), s)
  {
    var s1 := WithThread(s, t, s.threads[t].(body := Some(file)));
    assert WithThread(s1, t, s.threads[t]).threads == s.threads;
  }

  /** Serving the next client of the batch. */
  lemma OneServed(s: System, t: nat, file: nat, rest: seq<Action>, s': System)
    requires !s.dead && t < |s.threads| && Between(s.threads[t]) && s.threads[t].batch != []
    requires s.threads[t].batch[0] in s.interest && !InUse(s, file)
    requires Run(Served(s, t), rest, s', true)
    ensures Run(s, [Begin(t)] + ([Open(t, file)] + ([CloseBody(t)] + ([Rearm(t)] + rest))), s', true)
  {
    var s1 := InHand(s, t);
    var s2 := WithThread(s1, t, s1.threads[t].(body := Some(file)));
    InHandSteps(s, t, file);
    BodySteps(s1, t, file);
    hide Run, Step, InUse, InHand, Served, WithThread;
    RunStep(s1, Rearm(t), Served(s, t), rest, s');
    RunStep(s2, CloseBody(t), s1, [Rearm(t)] + rest, s');
    RunStep(s1, Open(t, file), s2, [CloseBody(t)] + ([Rearm(t)] + rest), s');
    RunStep(s, Begin(t), s1, [Open(t, file)] + ([CloseBody(t)] + ([Rearm(t)] + rest)), s');
  }

  lemma InHandSteps(s: System, t: nat, file: nat)
    requires !s.dead && t < |s.threads| && Between(s.threads[t]) && s.threads[t].batch != []
    requires s.threads[t].batch[0] in s.interest && !InUse(s, file)
    ensures Step(s, Begin(t), InHand(s, t)) && Step(InHand(s, t), Rearm(t), Served(s, t))
    ensures !InHand(s, t).dead && !InUse(InHand(s, t), file)
    ensures InHand(s, t).threads[t].serving.Some? && InHand(s, t).threads[t].body == None
  {
    var s1, fd := InHand(s, t), s.threads[t].batch[0];
    assert s1.threads[t].queue[fd := s.now] == s.threads[t].queue[fd := s.now];
    assert Do(s1, Rearm(t)).threads == Served(s, t).threads;
    forall u | 0 <= u < |s1.threads| ensures !Owns(s1.threads[u], file) {
      assert !Owns(s.threads[u], file);
    }
  }

  /** One client further into the batch. */
  lemma StillCanServe(s: System, t: nat, newcomers: seq<nat>, file: nat)
    requires CanServe(s, t, newcomers, file) && newcomers != []
    ensures var s1 := WithArmed(s, newcomers[0]);
            && s1.threads[t].batch[0] in s1.interest && !InUse(s1, file)
            && CanServe(Served(s1, t), t, newcomers[1..], file)
  {
    var s1 := WithArmed(s, newcomers[0]);
    var s2 := Served(s1, t);
    forall u, fd | 0 <= u < |s2.threads| ensures Owns(s2.threads[u], fd) == Owns(s.threads[u], fd) {
    }
    assert Unregistered(s1, file) == Unregistered(s, file) == Unregistered(s2, file);
    forall i | 0 <= i < |newcomers[1..]|
      ensures newcomers[1..][i] == newcomers[i + 1] && !InUse(s2, newcomers[1..][i])
      ensures s2.threads[t].batch[i] in s2.interest
    {
      assert s2.threads[t].batch[i] == s.threads[t].batch[i + 1];
      assert Unregistered(s2, newcomers[i + 1]) == Unregistered(s, newcomers[i + 1]);
    }
  }

  ghost predicate AllArmed(s: System, fds: seq<nat>) {
    forall i | 0 <= i < |fds| :: IsArmed(s, fds[i])
  }

  /** Everything that was delivered is served, and everybody who came in between is registered. */
  lemma {:induction false} RestIsServed(s: System, t: nat, newcomers: seq<nat>, file: nat)
    requires CanServe(s, t, newcomers, file)
    ensures exists s' ::
              && Run(s, ServeAll(t, newcomers, file), s', true) && t < |s'.threads| && Idle(s'.threads[t])
              && AllArmed(s', s.threads[t].batch) && AllArmed(s', newcomers)
              && forall fd | IsArmed(s, fd) :: IsArmed(s', fd)
    decreases |newcomers|
  {
    if newcomers == [] {
      assert Run(s, [], s, true);
    } else {
      var s1 := WithArmed(s, newcomers[0]);
      var s2 := Served(s1, t);
      StillCanServe(s, t, newcomers, file);
      RestIsServed(s2, t, newcomers[1..], file);
      var s' :| && Run(s2, ServeAll(t, newcomers[1..], file), s', true) && t < |s'.threads| && Idle(s'.threads[t])
                && AllArmed(s', s2.threads[t].batch) && AllArmed(s', newcomers[1..])
                && forall fd | IsArmed(s2, fd) :: IsArmed(s', fd);
      OneServed(s1, t, file, ServeAll(t, newcomers[1..], file), s');
      Admitted(s, t, newcomers[0], [Begin(t)] + ([Open(t, file)] + ([CloseBody(t)] + ([Rearm(t)]
                                     + ServeAll(t, newcomers[1..], file)))), s');
      FurtherArmed(s, t, newcomers, s2, s');
    }
  }

  lemma FurtherArmed(s: System, t: nat, newcomers: seq<nat>, s2: System, s': System)
    requires t < |s.threads| && newcomers != [] && |s.threads[t].batch| == |newcomers|
    requires s2 == Served(WithArmed(s, newcomers[0]), t)
    requires AllArmed(s', s2.threads[t].batch) && AllArmed(s', newcomers[1..])
    requires forall fd | IsArmed(s2, fd) :: IsArmed(s', fd)
    ensures AllArmed(s', s.threads[t].batch) && AllArmed(s', newcomers)
    ensures forall fd | IsArmed(s, fd) :: IsArmed(s', fd)
  {
    assert IsArmed(s2, newcomers[0]) && IsArmed(s2, s.threads[t].batch[0]);
    forall i | 0 < i < |newcomers| ensures IsArmed(s', newcomers[i]) && IsArmed(s', s.threads[t].batch[i]) {
      assert newcomers[1..][i - 1] == newcomers[i] && s2.threads[t].batch[i - 1] == s.threads[t].batch[i];
    }
    forall fd | IsArmed(s, fd) ensures IsArmed(s2, fd) {
    }
  }

  /** From any state, whatever the other threads hold: an idle thread can be given any armed clients, however
      many, serve each of them with a body file, and admit a new client before each; at the end all of them
      are armed and the thread is idle again. */
  lemma BatchIsServed(s: System, t: nat, ready: seq<nat>, newcomers: seq<nat>, file: nat)
    requires !s.dead && t < |s.threads| && Idle(s.threads[t])
    requires Distinct(ready) && AllArmed(s, ready) && |newcomers| == |ready| && FreeNumbers(s, newcomers, file)
    ensures exists s' ::
              && Run(s, [Wait(t, ready)] + ServeAll(t, newcomers, file), s', true)
              && t < |s'.threads| && Idle(s'.threads[t]) && AllArmed(s', ready) && AllArmed(s', newcomers)
  {
    var s1 := WithThread(s.(interest := Disarm(s.interest, ready)), t, s.threads[t].(batch := ready));
    assert Step(s, Wait(t, ready), s1);
    forall u, fd | 0 <= u < |s1.threads| ensures Owns(s1.threads[u], fd) == Owns(s.threads[u], fd) {
    }
    assert forall fd :: Unregistered(s1, fd) == Unregistered(s, fd);
    assert CanServe(s1, t, newcomers, file);
    hide Run, Step, CanServe, FreeNumbers, Unregistered;
    RestIsServed(s1, t, newcomers, file);
    var s' :| && Run(s1, ServeAll(t, newcomers, file), s', true) && t < |s'.threads| && Idle(s'.threads[t])
              && AllArmed(s', s1.threads[t].batch) && AllArmed(s', newcomers);
    RunStep(s, Wait(t, ready), s1, ServeAll(t, newcomers, file), s');
  }
}
