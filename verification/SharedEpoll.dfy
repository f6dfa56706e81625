/** Many threads sharing one epoll instance with EPOLLONESHOT, each with its own queue: an
    interleaving of atomic steps. */
module SharedEpoll {
  import opened Connections

  datatype Interest = Armed | Disarmed

  /** A thread: the clients delivered to it and not yet begun, the one it is serving, the times in its
      own queue, a socket it has accepted and not yet registered, and a body file it has open. */
  datatype Thread = Thread(batch: seq<nat>, serving: Option<nat>, queue: map<nat, int>,
                           accepted: Option<nat>, body: Option<nat>)

  /** The shared part: the clock, the registered clients with their entry in the interest list, the time
      since when each has been waiting (its registration, or its last re-arm by any thread), and
      whether the program has ended in die(). Body files and sockets share one set of numbers. */
  datatype System = System(now: int, interest: map<nat, Interest>, since: map<nat, int>, threads: seq<Thread>,
                             dead: bool)

  datatype Action =
    | Tick(time: int)
    | Accept(thread: nat, fd: nat)           // accept
    | Add(thread: nat)                       // registration with EPOLLONESHOT
    | Wait(thread: nat, ready: seq<nat>)     // epoll_wait delivers, and disarms
    | Begin(thread: nat)                     // the next event of the batch
    | Open(thread: nat, fd: nat)             // a body file
    | CloseBody(thread: nat)                 // the body has been sent
    | Rearm(thread: nat)                     // keep-alive: renewed in the queue, armed again
    | Finish(thread: nat)                    // close
    | Evict(thread: nat, fd: nat)            // close by timeout, at the top of the loop

  function Fresh(): Thread {
    Thread([], None, map[], None, None)
  }

  function Init(threads: nat): System {
    System(0, map[], map[], seq(threads, _ => Fresh()), false)
  }

  predicate Idle(t: Thread) {
    t.batch == [] && t.serving == None && t.accepted == None && t.body == None
  }

  ghost predicate Distinct(s: seq<nat>) {
    forall i, j | 0 <= i < j < |s| :: s[i] != s[j]
  }

  predicate Owns(t: Thread, fd: nat) {
    t.accepted == Some(fd) || t.body == Some(fd)
  }

  /** The number is in use, and not as that of a registered client. */
  ghost predicate Unregistered(s: System, fd: nat) {
    exists t :: 0 <= t < |s.threads| && Owns(s.threads[t], fd)
  }

  ghost predicate InUse(s: System, fd: nat) {
    fd in s.interest || Unregistered(s, fd)
  }

  ghost predicate Enabled(s: System, a: Action) {
    !s.dead &&
    match a
    case Tick(time) => s.now <= time
    case Accept(t, fd) =>
      t < |s.threads| && s.threads[t].serving == None && s.threads[t].accepted == None && !InUse(s, fd)
    case Add(t) => t < |s.threads| && s.threads[t].accepted.Some?
    case Wait(t, ready) =>
      && t < |s.threads| && Idle(s.threads[t]) && Distinct(ready)
      && (forall i | 0 <= i < |ready| :: ready[i] in s.interest && s.interest[ready[i]] == Armed)
    case Begin(t) =>
      && t < |s.threads| && s.threads[t].serving == None && s.threads[t].accepted == None
      && s.threads[t].batch != []
    case Open(t, fd) =>
      t < |s.threads| && s.threads[t].serving.Some? && s.threads[t].body == None && !InUse(s, fd)
    case CloseBody(t) => t < |s.threads| && s.threads[t].body.Some?
    case Rearm(t) => t < |s.threads| && s.threads[t].serving.Some?
    case Finish(t) => t < |s.threads| && s.threads[t].serving.Some?
    case Evict(t, fd) =>
      && t < |s.threads| && Idle(s.threads[t]) && fd in s.threads[t].queue
      && s.now - s.threads[t].queue[fd] >= KEEP_ALIVE_TIMEOUT
  }

  /** EPOLL_CTL_DEL fails with something other than EBADF: the number is in use, and not registered.
      EPOLL_CTL_MOD fails: it is not registered. EPOLL_CTL_ADD fails: it is. */
  ghost predicate Dies(s: System, a: Action)
    requires Enabled(s, a)
  {
    match a
    case Add(t) => s.threads[t].accepted.value in s.interest
    case Rearm(t) => s.threads[t].serving.value !in s.interest
    case Finish(t) => s.threads[t].serving.value !in s.interest && Unregistered(s, s.threads[t].serving.value)
    case Evict(t, fd) => fd !in s.interest && Unregistered(s, fd)
    case _ => false
  }

  function WithThread(s: System, t: nat, thread: Thread): System
    requires t < |s.threads|
  {
    s.(threads := s.threads[t := thread])
  }

  function Disarm(interest: map<nat, Interest>, fds: seq<nat>): map<nat, Interest> {
    map fd | fd in interest :: if fd in fds then Disarmed else interest[fd]
  }

  function WithArmed(s: System, fd: nat): System {
    s.(interest := s.interest[fd := Armed], since := s.since[fd := s.now])
  }

  function WithoutClient(s: System, fd: nat): System {
    s.(interest := s.interest - {fd}, since := s.since - {fd})
  }

  ghost function Do(s: System, a: Action): System
    requires Enabled(s, a)
  {
    if Dies(s, a) then s.(dead := true) else
    match a
    case Tick(time) => s.(now := time)
    case Accept(t, fd) => WithThread(s, t, s.threads[t].(accepted := Some(fd)))
    case Add(t) => WithThread(WithArmed(s, s.threads[t].accepted.value), t, s.threads[t].(accepted := None))
    case Wait(t, ready) =>
      WithThread(s.(interest := Disarm(s.interest, ready)), t, s.threads[t].(batch := ready))
    case Begin(t) =>
      var thread := s.threads[t];
      var fd := thread.batch[0];
      WithThread(s, t, thread.(batch := thread.batch[1..], serving := Some(fd),
                               queue := if fd in thread.queue then thread.queue else thread.queue[fd := s.now]))
    case Open(t, fd) => WithThread(s, t, s.threads[t].(body := Some(fd)))
    case CloseBody(t) => WithThread(s, t, s.threads[t].(body := None))
    case Rearm(t) =>
      var thread := s.threads[t];
      var fd := thread.serving.value;
      WithThread(WithArmed(s, fd), t, thread.(serving := None, body := None, queue := thread.queue[fd := s.now]))
    case Finish(t) =>
      var thread := s.threads[t];
      var fd := thread.serving.value;
      WithThread(WithoutClient(s, fd), t, thread.(serving := None, body := None, queue := thread.queue - {fd}))
    case Evict(t, fd) =>
      WithThread(WithoutClient(s, fd), t, s.threads[t].(queue := s.threads[t].queue - {fd}))
  }

  // ---------- Mutual exclusion ----------

  /** From pickup to rearm or close, the thread holds the client. */
  predicate Holds(t: Thread, fd: nat) {
    fd in t.batch || t.serving == Some(fd)
  }

  ghost predicate MutualExclusion(s: System) {
    forall t, u, fd | 0 <= t < |s.threads| && 0 <= u < |s.threads| && t != u && Holds(s.threads[t], fd) ::
      !Holds(s.threads[u], fd)
  }

  ghost predicate HeldBySome(s: System, fd: nat) {
    exists t :: 0 <= t < |s.threads| && Holds(s.threads[t], fd)
  }

  /** A held client is registered and disarmed, and held once. */
  ghost predicate Inv(s: System) {
    && MutualExclusion(s)
    && (forall t, fd | 0 <= t < |s.threads| && Holds(s.threads[t], fd) ::
          fd in s.interest && s.interest[fd] == Disarmed)
    && (forall t | 0 <= t < |s.threads| ::
          Distinct(s.threads[t].batch)
          && forall i | 0 <= i < |s.threads[t].batch| :: s.threads[t].serving != Some(s.threads[t].batch[i]))
    && InvNumbers(s)
  }

  /** A number that is in use for a body file or a new socket is in use once, and not registered. */
  ghost predicate InvNumbers(s: System) {
    && (forall t, fd | 0 <= t < |s.threads| && Owns(s.threads[t], fd) :: fd !in s.interest)
    && (forall t, u, fd | 0 <= t < |s.threads| && 0 <= u < |s.threads| && t != u && Owns(s.threads[t], fd) ::
          !Owns(s.threads[u], fd))
    && (forall t | 0 <= t < |s.threads| ::
          && (s.threads[t].body.Some? ==> s.threads[t].serving.Some?)
          && (s.threads[t].accepted.Some? ==> s.threads[t].serving == None))
  }

  /** An eviction must not close a client that another thread is holding. */
  ghost predicate Guard(s: System, a: Action) {
    a.Evict? ==> !HeldBySome(s, a.fd)
  }

  lemma InitInv(threads: nat)
    ensures Inv(Init(threads))
  {
  }

  lemma NumberTaken(s: System, a: Action)
    requires InvNumbers(s) && Enabled(s, a) && (a.Accept? || a.Open?)
    ensures InvNumbers(Do(s, a))
  {
    var s' := Do(s, a);
    forall u | 0 <= u < |s.threads| ensures !Owns(s.threads[u], a.fd) {
      assert !Unregistered(s, a.fd);
    }
    forall t, fd | 0 <= t < |s'.threads| && Owns(s'.threads[t], fd)
      ensures fd !in s'.interest
      ensures Owns(s.threads[t], fd) || (t == a.thread && fd == a.fd)
    {
    }
  }

  lemma NumberRegistered(s: System, t: nat)
    requires InvNumbers(s) && Enabled(s, Add(t)) && !Dies(s, Add(t))
    ensures InvNumbers(Do(s, Add(t)))
  {
    var s' := Do(s, Add(t));
    assert Owns(s.threads[t], s.threads[t].accepted.value);
    forall u, fd | 0 <= u < |s'.threads| && Owns(s'.threads[u], fd)
      ensures Owns(s.threads[u], fd) && fd !in s'.interest
    {
    }
  }

  lemma NumbersKept(s: System, a: Action)
    requires InvNumbers(s) && Enabled(s, a) && !Dies(s, a)
    ensures InvNumbers(Do(s, a))
  {
    hide InvNumbers, Do, Dies, Enabled;
    if a.Accept? || a.Open? {
      NumberTaken(s, a);
    } else if a.Add? {
      NumberRegistered(s, a.thread);
    } else {
      NumbersFreed(s, a);
    }
  }

  /** Every other step frees numbers, or none. */
  lemma NumbersFreed(s: System, a: Action)
    requires InvNumbers(s) && Enabled(s, a) && !Dies(s, a) && !a.Accept? && !a.Open? && !a.Add?
    ensures InvNumbers(Do(s, a))
  {
    hide Unregistered;
    var s' := Do(s, a);
    forall t | 0 <= t < |s'.threads| ensures FewerNumbers(s.threads[t], s'.threads[t]) {
    }
    assert s'.interest.Keys <= s.interest.Keys;
    hide Do, Dies, Enabled;
    FewerKeepNumbers(s, s');
  }

  predicate FewerNumbers(t: Thread, t': Thread) {
    && (t'.accepted == t.accepted || t'.accepted == None) && (t'.body == t.body || t'.body == None)
    && (t'.body.Some? ==> t'.serving == t.serving) && (t'.accepted.Some? ==> t'.serving == t.serving)
  }

  lemma FewerKeepNumbers(s: System, s': System)
    requires InvNumbers(s) && |s'.threads| == |s.threads| && s'.interest.Keys <= s.interest.Keys
    requires forall t | 0 <= t < |s'.threads| :: FewerNumbers(s.threads[t], s'.threads[t])
    ensures InvNumbers(s')
  {
    forall t, fd | 0 <= t < |s'.threads| && Owns(s'.threads[t], fd) ensures Owns(s.threads[t], fd) {
      assert FewerNumbers(s.threads[t], s'.threads[t]);
    }
    forall t | 0 <= t < |s'.threads|
      ensures s'.threads[t].body.Some? ==> s'.threads[t].serving.Some?
      ensures s'.threads[t].accepted.Some? ==> s'.threads[t].serving == None
    {
      assert FewerNumbers(s.threads[t], s'.threads[t]);
    }
  }

  lemma WaitKeepsInv(s: System, t: nat, ready: seq<nat>)
    requires Inv(s) && Enabled(s, Wait(t, ready))
    ensures Inv(Do(s, Wait(t, ready)))
  {
    hide InvNumbers;
    NumbersKept(s, Wait(t, ready));
    var s' := Do(s, Wait(t, ready));
    forall u, fd | 0 <= u < |s'.threads| && Holds(s'.threads[u], fd)
      ensures fd in s'.interest && s'.interest[fd] == Disarmed
      ensures u != t ==> Holds(s.threads[u], fd) && fd !in ready
    {
      if u != t {
        assert Holds(s.threads[u], fd) && s.interest[fd] == Disarmed;
      }
    }
  }

  lemma BeginKeepsInv(s: System, t: nat)
    requires Inv(s) && Enabled(s, Begin(t))
    ensures Inv(Do(s, Begin(t)))
  {
    hide InvNumbers;
    NumbersKept(s, Begin(t));
    var s' := Do(s, Begin(t));
    var batch := s.threads[t].batch;
    assert batch == [batch[0]] + batch[1..];
    forall u, fd | 0 <= u < |s'.threads| && Holds(s'.threads[u], fd) ensures Holds(s.threads[u], fd) {
    }
    forall i | 0 <= i < |batch[1..]| ensures batch[1..][i] != batch[0] {
      assert batch[1..][i] == batch[i + 1];
    }
  }

  /** Letting go: the thread no longer serves its client, which only it held. */
  lemma LetGoKeepsInv(s: System, t: nat, a: Action)
    requires Inv(s) && a in {Rearm(t), Finish(t)} && Enabled(s, a) && !Dies(s, a)
    ensures Inv(Do(s, a))
  {
    hide InvNumbers;
    NumbersKept(s, a);
    var s' := Do(s, a);
    var fd := s.threads[t].serving.value;
    assert Holds(s.threads[t], fd);
    forall u, g | 0 <= u < |s'.threads| && Holds(s'.threads[u], g) ensures Holds(s.threads[u], g) && g != fd {
    }
  }

  lemma EvictKeepsInv(s: System, t: nat, fd: nat)
    requires Inv(s) && Enabled(s, Evict(t, fd)) && !HeldBySome(s, fd) && !Dies(s, Evict(t, fd))
    ensures Inv(Do(s, Evict(t, fd)))
  {
    hide InvNumbers;
    NumbersKept(s, Evict(t, fd));
    var s' := Do(s, Evict(t, fd));
    forall u, g | 0 <= u < |s'.threads| && Holds(s'.threads[u], g) ensures Holds(s.threads[u], g) && g != fd {
    }
  }

  /** The steps that touch neither batches nor what is being served. */
  lemma OtherKeepsInv(s: System, a: Action)
    requires Inv(s) && Enabled(s, a) && !Dies(s, a)
    requires a.Tick? || a.Accept? || a.Add? || a.Open? || a.CloseBody?
    ensures Inv(Do(s, a))
  {
    hide InvNumbers;
    NumbersKept(s, a);
    var s' := Do(s, a);
    forall u | 0 <= u < |s'.threads|
      ensures s'.threads[u].batch == s.threads[u].batch && s'.threads[u].serving == s.threads[u].serving
    {
    }
    forall u, fd | 0 <= u < |s'.threads| && Holds(s'.threads[u], fd) ensures Holds(s.threads[u], fd) {
    }
  }

  lemma DyingKeepsInv(s: System, a: Action)
    requires Inv(s) && Enabled(s, a) && Dies(s, a)
    ensures Inv(Do(s, a))
  {
    var s' := Do(s, a);
    assert s'.threads == s.threads && s'.interest == s.interest;
  }

  /** Every guarded step keeps the invariant. */
  lemma StepKeepsInv(s: System, a: Action)
    requires Inv(s) && Enabled(s, a) && Guard(s, a)
    ensures Inv(Do(s, a))
  {
    hide Inv, Do;
    if Dies(s, a) {
      DyingKeepsInv(s, a);
    } else {
      match a
      case Wait(t, ready) => WaitKeepsInv(s, t, ready);
      case Begin(t) => BeginKeepsInv(s, t);
      case Rearm(t) => LetGoKeepsInv(s, t, a);
      case Finish(t) => LetGoKeepsInv(s, t, a);
      case Evict(t, fd) => EvictKeepsInv(s, t, fd);
      case _ => OtherKeepsInv(s, a);
    }
  }

  // ---------- What a step changes ----------

  /** Which numbers are in use. Accepting a client and opening a body file take one; closing a client, by
      its thread or by timeout, frees its number, and a body file is closed at the latest when its thread
      lets go of the client. */
  lemma NumbersAfter(s: System, a: Action, fd: nat)
    requires Inv(s) && Enabled(s, a) && !Dies(s, a)
    ensures InUse(Do(s, a), fd) <==>
              match a
              case Accept(_, g) => InUse(s, fd) || fd == g
              case Open(_, g) => InUse(s, fd) || fd == g
              case CloseBody(t) => InUse(s, fd) && s.threads[t].body != Some(fd)
              case Rearm(t) => InUse(s, fd) && s.threads[t].body != Some(fd)
              case Finish(t) => InUse(s, fd) && s.threads[t].body != Some(fd) && s.threads[t].serving != Some(fd)
              case Evict(_, g) => InUse(s, fd) && fd != g
              case _ => InUse(s, fd)
  {
    hide MutualExclusion, Dated;
    var s' := Do(s, a);
    if a.Accept? || a.Open? {
      TakesNumber(s, a, fd);
    } else if a.Add? {
      RegistersNumber(s, a.thread, fd);
    } else if a.CloseBody? || a.Rearm? || a.Finish? {
      FreesBody(s, a, fd);
    } else {
      forall u | 0 <= u < |s.threads| ensures Owns(s'.threads[u], fd) == Owns(s.threads[u], fd) {
      }
      assert Unregistered(s', fd) <==> Unregistered(s, fd) by {
        SameOwners(s, s', fd);
      }
    }
  }

  lemma SameOwners(s: System, s': System, fd: nat)
    requires |s'.threads| == |s.threads|
    requires forall u | 0 <= u < |s.threads| :: Owns(s'.threads[u], fd) == Owns(s.threads[u], fd)
    ensures Unregistered(s', fd) <==> Unregistered(s, fd)
  {
    if Unregistered(s, fd) {
      var u :| 0 <= u < |s.threads| && Owns(s.threads[u], fd);
      assert Owns(s'.threads[u], fd);
    }
  }

  lemma TakesNumber(s: System, a: Action, fd: nat)
    requires Enabled(s, a) && (a.Accept? || a.Open?)
    ensures InUse(Do(s, a), fd) <==> InUse(s, fd) || fd == a.fd
  {
    var s' := Do(s, a);
    assert Owns(s'.threads[a.thread], a.fd);
    if fd != a.fd {
      forall u | 0 <= u < |s.threads| ensures Owns(s'.threads[u], fd) == Owns(s.threads[u], fd) {
      }
      SameOwners(s, s', fd);
    }
  }

  lemma RegistersNumber(s: System, t: nat, fd: nat)
    requires Enabled(s, Add(t)) && !Dies(s, Add(t))
    ensures InUse(Do(s, Add(t)), fd) <==> InUse(s, fd)
  {
    var s' := Do(s, Add(t));
    assert Owns(s.threads[t], s.threads[t].accepted.value);
    if fd != s.threads[t].accepted.value {
      forall u | 0 <= u < |s.threads| ensures Owns(s'.threads[u], fd) == Owns(s.threads[u], fd) {
      }
      SameOwners(s, s', fd);
    }
  }

  lemma FreesBody(s: System, a: Action, fd: nat)
    requires Inv(s) && Enabled(s, a) && !Dies(s, a) && (a.CloseBody? || a.Rearm? || a.Finish?)
    ensures InUse(Do(s, a), fd) <==>
              && InUse(s, fd) && s.threads[a.thread].body != Some(fd)
              && (a.Finish? ==> s.threads[a.thread].serving != Some(fd))
  {
    hide MutualExclusion;
    var s', t := Do(s, a), a.thread;
    if s.threads[t].body == Some(fd) {
      assert Owns(s.threads[t], fd);
      forall u | 0 <= u < |s.threads| ensures !Owns(s'.threads[u], fd) {
      }
    } else {
      forall u | 0 <= u < |s.threads| ensures Owns(s'.threads[u], fd) == Owns(s.threads[u], fd) {
      }
      SameOwners(s, s', fd);
      if a.Finish? && s.threads[t].serving == Some(fd) {
        assert Holds(s.threads[t], fd);
        forall u | 0 <= u < |s.threads| ensures !Owns(s.threads[u], fd) {
        }
      }
    }
  }

  /** Closing a body file frees its number and changes nothing else. */
  lemma CloseBodyFrees(s: System, t: nat)
    requires Inv(s) && Enabled(s, CloseBody(t))
    ensures var s' := Do(s, CloseBody(t));
            && !InUse(s', s.threads[t].body.value)
            && (forall fd: nat | s.threads[t].body != Some(fd) :: InUse(s', fd) == InUse(s, fd))
            && s'.interest == s.interest && s'.since == s.since && s'.now == s.now && !s'.dead
            && |s'.threads| == |s.threads|
            && forall u | 0 <= u < |s.threads| ::
                 && s'.threads[u].batch == s.threads[u].batch && s'.threads[u].serving == s.threads[u].serving
                 && s'.threads[u].queue == s.threads[u].queue && s'.threads[u].accepted == s.threads[u].accepted
                 && (u != t ==> s'.threads[u].body == s.threads[u].body)
  {
    forall fd: nat ensures InUse(Do(s, CloseBody(t)), fd) <==> InUse(s, fd) && s.threads[t].body != Some(fd) {
      NumbersAfter(s, CloseBody(t), fd);
    }
  }

  ghost predicate IsArmed(s: System, fd: nat) {
    fd in s.interest && s.interest[fd] == Armed
  }

  /** Who will be reported: registering and re-arming arm a client, delivery disarms it. */
  lemma ArmedAfter(s: System, a: Action, fd: nat)
    requires Enabled(s, a) && !Dies(s, a)
    ensures IsArmed(Do(s, a), fd) <==>
              match a
              case Add(t) => IsArmed(s, fd) || s.threads[t].accepted == Some(fd)
              case Wait(_, ready) => IsArmed(s, fd) && fd !in ready
              case Rearm(t) => IsArmed(s, fd) || s.threads[t].serving == Some(fd)
              case Finish(t) => IsArmed(s, fd) && s.threads[t].serving != Some(fd)
              case Evict(_, g) => IsArmed(s, fd) && fd != g
              case _ => IsArmed(s, fd)
    ensures fd in Do(s, a).interest <==>
              match a
              case Add(t) => fd in s.interest || s.threads[t].accepted == Some(fd)
              case Finish(t) => fd in s.interest && s.threads[t].serving != Some(fd)
              case Evict(_, g) => fd in s.interest && fd != g
              case _ => fd in s.interest
  {
    hide Unregistered;
  }

  /** Who holds a client: delivery hands it to a thread, which lets go by re-arming or closing it. */
  lemma HoldersAfter(s: System, a: Action, u: nat, fd: nat)
    requires Inv(s) && Enabled(s, a) && !Dies(s, a) && u < |s.threads|
    ensures |Do(s, a).threads| == |s.threads|
    ensures Holds(Do(s, a).threads[u], fd) <==>
              match a
              case Wait(t, ready) => Holds(s.threads[u], fd) || (t == u && fd in ready)
              case Rearm(t) => Holds(s.threads[u], fd) && !(t == u && s.threads[t].serving == Some(fd))
              case Finish(t) => Holds(s.threads[u], fd) && !(t == u && s.threads[t].serving == Some(fd))
              case _ => Holds(s.threads[u], fd)
    ensures Do(s, a).threads[u].serving ==
              (match a
               case Begin(t) => if t == u then Some(s.threads[t].batch[0]) else s.threads[u].serving
               case Rearm(t) => if t == u then None else s.threads[u].serving
               case Finish(t) => if t == u then None else s.threads[u].serving
               case _ => s.threads[u].serving)
  {
    hide MutualExclusion, InvNumbers, Unregistered, Dies;
    if a.Begin? && a.thread == u {
      assert s.threads[u].batch == [s.threads[u].batch[0]] + s.threads[u].batch[1..];
    }
  }

  function TimeIn(thread: Thread, fd: nat): Option<int> {
    if fd in thread.queue then Some(thread.queue[fd]) else None
  }

  /** What a thread remembers: the time of the first pickup, then of each re-arm, until it closes or evicts
      the client. */
  lemma EntriesAfter(s: System, a: Action, u: nat, fd: nat)
    requires Enabled(s, a) && !Dies(s, a) && u < |s.threads|
    ensures |Do(s, a).threads| == |s.threads|
    ensures TimeIn(Do(s, a).threads[u], fd) ==
              (match a
               case Begin(t) =>
                 if t == u && s.threads[t].batch[0] == fd && fd !in s.threads[t].queue then Some(s.now)
                 else TimeIn(s.threads[u], fd)
               case Rearm(t) =>
                 if t == u && s.threads[t].serving == Some(fd) then Some(s.now) else TimeIn(s.threads[u], fd)
               case Finish(t) =>
                 if t == u && s.threads[t].serving == Some(fd) then None else TimeIn(s.threads[u], fd)
               case Evict(t, g) => if t == u && g == fd then None else TimeIn(s.threads[u], fd)
               case _ => TimeIn(s.threads[u], fd))
    ensures Do(s, a).now == if a.Tick? then a.time else s.now
  {
    hide Unregistered, Dies;
  }

  // ---------- Runs ----------

  ghost predicate Run(s: System, actions: seq<Action>, s': System, guarded: bool)
    decreases |actions|
  {
    if actions == [] then s' == s
    else
      && Enabled(s, actions[0]) && (guarded ==> Guard(s, actions[0]))
      && Run(Do(s, actions[0]), actions[1..], s', guarded)
  }

  /** Mutual exclusion in every interleaving of any number of threads whose evictions are guarded. */
  lemma {:induction false} GuardedRunExcludes(s: System, actions: seq<Action>, s': System)
    requires Inv(s) && Run(s, actions, s', true)
    ensures Inv(s') && MutualExclusion(s')
    decreases |actions|
  {
    hide Do, Enabled, Guard;
    if actions != [] {
      StepKeepsInv(s, actions[0]);
      GuardedRunExcludes(Do(s, actions[0]), actions[1..], s');
    }
  }

  lemma RunFirst(s: System, a: Action, rest: seq<Action>, s': System, guarded: bool)
    requires Enabled(s, a) && (guarded ==> Guard(s, a)) && Run(Do(s, a), rest, s', guarded)
    ensures Run(s, [a] + rest, s', guarded)
  {
    hide Do, Enabled, Guard;
    assert ([a] + rest)[1..] == rest;
  }

  lemma SameThreads(s: System, a: Action)
    requires Enabled(s, a)
    ensures |Do(s, a).threads| == |s.threads|
  {
  }

  /** With a single thread every eviction meets the guard, so no assumption is needed. */
  lemma {:induction false} SingleThreadIsGuarded(s: System, actions: seq<Action>, s': System)
    requires |s.threads| == 1 && Run(s, actions, s', false)
    ensures Run(s, actions, s', true)
    decreases |actions|
  {
    hide Do;
    if actions != [] {
      SameThreads(s, actions[0]);
      SingleThreadIsGuarded(Do(s, actions[0]), actions[1..], s');
    }
  }

  /** From the start, with guarded evictions: any number of threads, any interleaving. */
  lemma EveryInterleavingExcludes(threads: nat, actions: seq<Action>, s: System)
    requires Run(Init(threads), actions, s, true)
    ensures Inv(s) && MutualExclusion(s)
  {
    hide Inv, MutualExclusion, Run;
    InitInv(threads);
    GuardedRunExcludes(Init(threads), actions, s);
  }

  /** From the start, one thread, evictions as written: what it holds is registered and disarmed. */
  lemma SingleThreadHolds(actions: seq<Action>, s: System)
    requires Run(Init(1), actions, s, false)
    ensures Inv(s)
  {
    hide Inv, Run;
    SingleThreadIsGuarded(Init(1), actions, s);
    EveryInterleavingExcludes(1, actions, s);
  }

  // ---------- Evictions as written ----------

  /** An eviction keeps the invariant if and only if it meets the guard. */
  lemma EvictionExact(s: System, t: nat, fd: nat)
    requires Inv(s) && Enabled(s, Evict(t, fd))
    ensures Inv(Do(s, Evict(t, fd))) <==> !HeldBySome(s, fd)
  {
    hide Inv, Do, Enabled;
    if HeldBySome(s, fd) {
      var u :| 0 <= u < |s.threads| && Holds(s.threads[u], fd);
      EvictedStillHeld(s, t, u, fd);
    } else {
      StepKeepsInv(s, Evict(t, fd));
    }
  }

  lemma EvictedStillHeld(s: System, t: nat, u: nat, fd: nat)
    requires Inv(s) && Enabled(s, Evict(t, fd)) && u < |s.threads| && Holds(s.threads[u], fd)
    ensures !Inv(Do(s, Evict(t, fd)))
  {
    hide InvNumbers, MutualExclusion, Unregistered;
    var s' := Do(s, Evict(t, fd));
    assert u != t && Holds(s'.threads[u], fd) && fd !in s'.interest;
  }

  /** An eviction that does not meet the guard can be followed by a new client with the same number
      being picked up by a second thread. */
  lemma UnguardedEvictionLosesExclusion(s: System, t: nat, fd: nat)
    requires Inv(s) && Enabled(s, Evict(t, fd)) && HeldBySome(s, fd)
    ensures exists actions, s' :: Run(s, [Evict(t, fd)] + actions, s', false) && !MutualExclusion(s')
  {
    hide MutualExclusion, InvNumbers, Unregistered;
    var u :| 0 <= u < |s.threads| && Holds(s.threads[u], fd);
    var s1 := Do(s, Evict(t, fd));
    FreedNumber(s, t, fd);
    var s4 := Reused(s1, t, u, fd);
    hide Run;
    RunFirst(s, Evict(t, fd), [Accept(t, fd)] + ([Add(t)] + ([Wait(t, [fd])] + [])), s4, false);
  }

  lemma FreedNumber(s: System, t: nat, fd: nat)
    requires Inv(s) && Enabled(s, Evict(t, fd)) && fd in s.interest
    ensures !InUse(Do(s, Evict(t, fd)), fd)
  {
    hide MutualExclusion;
    var s1 := Do(s, Evict(t, fd));
    forall v | 0 <= v < |s1.threads| ensures !Owns(s1.threads[v], fd) {
      assert Owns(s1.threads[v], fd) == Owns(s.threads[v], fd);
    }
  }

  /** The number of a client that another thread still holds is given to a new client. */
  lemma Reused(s1: System, t: nat, u: nat, fd: nat) returns (s4: System)
    requires !s1.dead && t < |s1.threads| && u < |s1.threads| && u != t
    requires Idle(s1.threads[t]) && Holds(s1.threads[u], fd) && !InUse(s1, fd)
    ensures Run(s1, [Accept(t, fd)] + ([Add(t)] + ([Wait(t, [fd])] + [])), s4, false) && !MutualExclusion(s4)
  {
    var s2 := Do(s1, Accept(t, fd));
    var s3 := Do(s2, Add(t));
    assert s3.threads[t] == s1.threads[t];
    s4 := Do(s3, Wait(t, [fd]));
    assert Holds(s4.threads[t], fd) && Holds(s4.threads[u], fd);
    assert Run(s4, [], s4, false);
    hide Run;
    RunFirst(s3, Wait(t, [fd]), [], s4, false);
    RunFirst(s2, Add(t), [Wait(t, [fd])] + [], s4, false);
    RunFirst(s1, Accept(t, fd), [Add(t)] + ([Wait(t, [fd])] + []), s4, false);
  }

  function Knowing(queue: map<nat, int>): Thread {
    Fresh().(queue := queue)
  }

  /** A guarded step from one state to another. */
  ghost predicate Step(s: System, a: Action, s': System) {
    Enabled(s, a) && Guard(s, a) && Do(s, a) == s'
  }

  lemma RunStep(s: System, a: Action, s1: System, rest: seq<Action>, s': System)
    requires Step(s, a, s1) && Run(s1, rest, s', true)
    ensures Run(s, [a] + rest, s', true)
  {
    hide Run, Enabled, Guard, Do;
    RunFirst(s, a, rest, s', true);
  }

  /** No number is in use but those of registered clients. */
  lemma NothingOwned(s: System)
    requires forall t | 0 <= t < |s.threads| :: s.threads[t].accepted == None && s.threads[t].body == None
    ensures forall fd :: !Unregistered(s, fd)
  {
  }

  /** Two threads, after the first has accepted client 7, registered it, picked it up, begun to serve it,
      and armed it again. */
  function AfterAccept(): System {
    System(0, map[], map[], [Fresh().(accepted := Some(7)), Fresh()], false)
  }

  function AfterAdd(): System {
    System(0, map[7 := Armed], map[7 := 0], [Fresh(), Fresh()], false)
  }

  function AfterWait(): System {
    System(0, map[7 := Disarmed], map[7 := 0], [Fresh().(batch := [7]), Fresh()], false)
  }

  function InService(): System {
    System(0, map[7 := Disarmed], map[7 := 0], [Knowing(map[7 := 0]).(serving := Some(7)), Fresh()], false)
  }

  function AfterKeepAlive(): System {
    System(0, map[7 := Armed], map[7 := 0], [Knowing(map[7 := 0]), Fresh()], false)
  }

  /** Some time after the second thread has picked client 7 up. */
  function AfterHandOver(now: int): System {
    System(now, map[7 := Disarmed], map[7 := 0], [Knowing(map[7 := 0]), Fresh().(batch := [7])], false)
  }

  lemma FirstSteps()
    ensures Step(Init(2), Accept(0, 7), AfterAccept()) && Step(AfterAccept(), Add(0), AfterAdd())
    ensures Step(AfterAdd(), Wait(0, [7]), AfterWait())
  {
    NothingOwned(Init(2));
    hide Unregistered;
    assert Init(2).threads == [Fresh(), Fresh()];
    assert Do(Init(2), Accept(0, 7)).threads == AfterAccept().threads;
    assert Do(AfterAccept(), Add(0)).threads == AfterAdd().threads;
    assert Do(AfterAdd(), Wait(0, [7])).threads == AfterWait().threads;
    assert Disarm(map[7 := Armed], [7]) == map[7 := Disarmed];
  }

  lemma ServingSteps()
    ensures Step(AfterWait(), Begin(0), InService()) && Step(InService(), Rearm(0), AfterKeepAlive())
  {
    hide Unregistered;
    assert [7][1..] == [] && (map[])[7 := 0] == map[7 := 0];
    assert Do(AfterWait(), Begin(0)).threads == InService().threads;
    assert map[7 := Disarmed][7 := Armed] == map[7 := Armed] && map[7 := 0][7 := 0] == map[7 := 0];
    assert Do(InService(), Rearm(0)).threads == AfterKeepAlive().threads;
  }

  lemma HandOverSteps(now: int)
    requires now >= 0
    ensures Step(AfterKeepAlive(), Wait(1, [7]), AfterHandOver(0))
    ensures Step(AfterHandOver(0), Tick(now), AfterHandOver(now))
  {
    hide Unregistered;
    assert Disarm(map[7 := Armed], [7]) == map[7 := Disarmed];
    assert Do(AfterKeepAlive(), Wait(1, [7])).threads == AfterHandOver(0).threads;
  }

  /** The first thread accepts client 7 and begins to serve it. */
  function Pickup(rest: seq<Action>): seq<Action> {
    [Accept(0, 7)] + ([Add(0)] + ([Wait(0, [7])] + ([Begin(0)] + rest)))
  }

  lemma PickingUp(rest: seq<Action>, s': System)
    requires Run(InService(), rest, s', true)
    ensures Run(Init(2), Pickup(rest), s', true)
  {
    hide Run, Step, Init, AfterAccept, AfterAdd, AfterWait, InService;
    FirstSteps();
    ServingSteps();
    var r1 := [Begin(0)] + rest;
    var r2 := [Wait(0, [7])] + r1;
    var r3 := [Add(0)] + r2;
    RunStep(AfterWait(), Begin(0), InService(), rest, s');
    RunStep(AfterAdd(), Wait(0, [7]), AfterWait(), r1, s');
    RunStep(AfterAccept(), Add(0), AfterAdd(), r2, s');
    RunStep(Init(2), Accept(0, 7), AfterAccept(), r3, s');
  }

  /** It arms the client again; the second thread picks it up. */
  function HandOver(now: int, rest: seq<Action>): seq<Action> {
    Pickup([Rearm(0)] + ([Wait(1, [7])] + ([Tick(now)] + rest)))
  }

  lemma HandingOver(now: int, rest: seq<Action>, s': System)
    requires now >= 0 && Run(AfterHandOver(now), rest, s', true)
    ensures Run(Init(2), HandOver(now, rest), s', true)
  {
    hide Run, Step, AfterWait, InService, AfterKeepAlive, AfterHandOver;
    ServingSteps();
    HandOverSteps(now);
    var r1 := [Tick(now)] + rest;
    var r2 := [Wait(1, [7])] + r1;
    RunStep(AfterHandOver(0), Tick(now), AfterHandOver(now), rest, s');
    RunStep(AfterKeepAlive(), Wait(1, [7]), AfterHandOver(0), r1, s');
    RunStep(InService(), Rearm(0), AfterKeepAlive(), r2, s');
    PickingUp([Rearm(0)] + r2, s');
  }

  function WithBody(): System {
    System(0, map[7 := Disarmed], map[7 := 0],
           [Knowing(map[7 := 0]).(serving := Some(7), body := Some(9)), Fresh()], false)
  }

  function WithNewClient(): System {
    System(0, map[7 := Disarmed], map[7 := 0],
           [Knowing(map[7 := 0]).(serving := Some(7)), Fresh().(accepted := Some(9))], false)
  }

  lemma BodySteps()
    ensures Step(InService(), Open(0, 9), WithBody()) && Step(WithBody(), CloseBody(0), InService())
    ensures Step(InService(), Accept(1, 9), WithNewClient())
  {
    NothingOwned(InService());
    hide Unregistered;
    assert Do(InService(), Open(0, 9)).threads == WithBody().threads;
    assert Do(WithBody(), CloseBody(0)).threads == InService().threads;
    assert Do(InService(), Accept(1, 9)).threads == WithNewClient().threads;
  }

  /** A number that a body file had is given to a new client once the file is closed. */
  lemma BodyNumberIsReused()
    ensures exists s :: && Run(Init(2), Pickup([Open(0, 9)] + ([CloseBody(0)] + ([Accept(1, 9)] + []))), s, true)
                        && s.threads == [Knowing(map[7 := 0]).(serving := Some(7)), Fresh().(accepted := Some(9))]
  {
    var s := WithNewClient();
    assert Run(s, [], s, true);
    hide Run, Step, InService, WithBody, Pickup;
    BodySteps();
    var r1 := [Accept(1, 9)] + [];
    var r2 := [CloseBody(0)] + r1;
    RunStep(InService(), Accept(1, 9), s, [], s);
    RunStep(WithBody(), CloseBody(0), InService(), r1, s);
    RunStep(InService(), Open(0, 9), WithBody(), r2, s);
    PickingUp([Open(0, 9)] + r2, s);
  }

  lemma HandedOver(now: int)
    ensures Inv(AfterHandOver(now)) && HeldBySome(AfterHandOver(now), 7)
  {
    var s := AfterHandOver(now);
    assert Holds(s.threads[1], 7) && forall fd :: !Holds(s.threads[0], fd);
  }

  /** The queues of the threads do not enforce the guard: the first thread may evict the client that
      the second one holds. */
  lemma GuardIsNotEnforced()
    ensures exists actions, s :: Run(Init(2), actions, s, true) && Inv(s)
                                 && Enabled(s, Evict(0, 7)) && HeldBySome(s, 7)
  {
    var s := AfterHandOver(60);
    assert Run(s, [], s, true) && Enabled(s, Evict(0, 7));
    hide Run, Enabled, Inv, HeldBySome, AfterHandOver;
    HandingOver(60, [], s);
    HandedOver(60);
    assert Run(Init(2), HandOver(60, []), s, true);
  }

  // ---------- Evictions that are early ----------

  /** A thread that is not serving a client has in its queue, at the latest, the time since when the
      client has been waiting. */
  ghost predicate Dated(thread: Thread, since: map<nat, int>, now: int) {
    forall fd | fd in thread.queue ::
      && thread.queue[fd] <= now
      && (fd in since && thread.serving != Some(fd) ==> thread.queue[fd] <= since[fd])
  }

  ghost predicate InvTimes(s: System) {
    && s.since.Keys == s.interest.Keys
    && (forall fd | fd in s.since :: s.since[fd] <= s.now)
    && (forall t | 0 <= t < |s.threads| :: Dated(s.threads[t], s.since, s.now))
  }

  lemma StillDated(thread: Thread, since: map<nat, int>, now: int, fd: nat, later: int)
    requires Dated(thread, since, now) && now <= later
    ensures Dated(thread, since, later) && Dated(thread, since[fd := now], now) && Dated(thread, since - {fd}, now)
  {
  }

  lemma StepKeepsTimes(s: System, a: Action)
    requires InvTimes(s) && Enabled(s, a)
    ensures InvTimes(Do(s, a))
  {
    hide Unregistered, Dies;
    var s' := Do(s, a);
    forall t | 0 <= t < |s'.threads| ensures Dated(s'.threads[t], s'.since, s'.now) {
      ThreadKeepsTimes(s, a, t);
    }
    assert s'.since.Keys == s'.interest.Keys;
  }

  lemma ThreadKeepsTimes(s: System, a: Action, t: nat)
    requires InvTimes(s) && Enabled(s, a) && t < |s.threads|
    ensures Dated(Do(s, a).threads[t], Do(s, a).since, Do(s, a).now)
  {
    hide Unregistered, Dies;
    assert Dated(s.threads[t], s.since, s.now);
    if a.Tick? || a.thread != t {
      hide Dated;
      var fd := match a case Add(u) => s.threads[u].accepted.value case Rearm(u) => s.threads[u].serving.value
                        case Finish(u) => s.threads[u].serving.value case Evict(_, g) => g case _ => 0;
      StillDated(s.threads[t], s.since, s.now, fd, Do(s, a).now);
    }
  }

  lemma {:induction false} RunKeepsTimes(s: System, actions: seq<Action>, s': System, guarded: bool)
    requires InvTimes(s) && Run(s, actions, s', guarded)
    ensures InvTimes(s')
    decreases |actions|
  {
    hide InvTimes, Do, Enabled;
    if actions != [] {
      StepKeepsTimes(s, actions[0]);
      RunKeepsTimes(Do(s, actions[0]), actions[1..], s', guarded);
    }
  }

  /** By letting the clock run to `time`, thread `t` can evict a client that has not been waiting for
      its timeout. */
  ghost predicate EvictsEarly(s: System, t: nat, fd: nat, time: int) {
    && Enabled(s, Tick(time)) && Enabled(Do(s, Tick(time)), Evict(t, fd))
    && fd in s.since && time - s.since[fd] < KEEP_ALIVE_TIMEOUT
  }

  /** In every reachable state, whether evictions are guarded or not: a live client that has not yet
      expired can be evicted early by an idle thread if and only if that thread's entry is not from
      the time since when the client has been waiting. */
  lemma EarlyEvictionExact(threads: nat, actions: seq<Action>, s: System, guarded: bool, t: nat, fd: nat)
    requires Run(Init(threads), actions, s, guarded) && !s.dead
    requires t < |s.threads| && Idle(s.threads[t]) && fd in s.threads[t].queue
    requires fd in s.since && s.now - s.since[fd] < KEEP_ALIVE_TIMEOUT
    ensures (exists time :: EvictsEarly(s, t, fd, time)) <==> s.threads[t].queue[fd] != s.since[fd]
  {
    hide Run;
    RunKeepsTimes(Init(threads), actions, s, guarded);
    var entry := s.threads[t].queue[fd];
    var time := if entry + KEEP_ALIVE_TIMEOUT < s.now then s.now else entry + KEEP_ALIVE_TIMEOUT;
    assert Dated(s.threads[t], s.since, s.now);
    if entry != s.since[fd] {
      assert EvictsEarly(s, t, fd, time);
    }
  }

  /** A thread that is alone has in its queue only open clients, each with the right time. */
  ghost predicate InvAlone(s: System) {
    && Inv(s) && |s.threads| == 1 && s.since.Keys == s.interest.Keys && !s.dead
    && forall fd | fd in s.threads[0].queue ::
         fd in s.since && (s.threads[0].serving != Some(fd) ==> s.threads[0].queue[fd] == s.since[fd])
  }

  /** Nothing that a single thread does ends the program. */
  lemma AloneNeverDies(s: System, a: Action)
    requires InvAlone(s) && Enabled(s, a)
    ensures !Dies(s, a)
  {
    if a.Add? {
      assert Owns(s.threads[0], s.threads[0].accepted.value);
    }
    if a.Rearm? || a.Finish? {
      assert Holds(s.threads[0], s.threads[0].serving.value);
    }
  }

  lemma StepKeepsAlone(s: System, a: Action)
    requires InvAlone(s) && Enabled(s, a)
    ensures InvAlone(Do(s, a))
  {
    hide InvNumbers, MutualExclusion;
    StepKeepsInv(s, a);
    AloneNeverDies(s, a);
    if a.Begin? {
      assert Holds(s.threads[0], s.threads[0].batch[0]);
    }
  }

  lemma {:induction false} RunKeepsAlone(s: System, actions: seq<Action>, s': System)
    requires InvAlone(s) && Run(s, actions, s', false)
    ensures InvAlone(s')
    decreases |actions|
  {
    hide InvAlone, Do, Enabled;
    if actions != [] {
      StepKeepsAlone(s, actions[0]);
      RunKeepsAlone(Do(s, actions[0]), actions[1..], s');
    }
  }

  /** One thread never evicts a client early. */
  lemma SingleThreadIsNeverEarly(actions: seq<Action>, s: System, fd: nat)
    requires Run(Init(1), actions, s, false) && Enabled(s, Evict(0, fd))
    ensures fd in s.since && s.now - s.since[fd] >= KEEP_ALIVE_TIMEOUT
  {
    hide Run;
    InitInv(1);
    RunKeepsAlone(Init(1), actions, s);
  }

  /** The second thread serves client 7, at 59, and arms it again. */
  function InSecondService(): System {
    System(59, map[7 := Disarmed], map[7 := 0],
           [Knowing(map[7 := 0]), Knowing(map[7 := 59]).(serving := Some(7))], false)
  }

  function AfterSecondService(now: int): System {
    System(now, map[7 := Armed], map[7 := 59], [Knowing(map[7 := 0]), Knowing(map[7 := 59])], false)
  }

  lemma SecondSteps()
    ensures Step(AfterHandOver(59), Begin(1), InSecondService())
    ensures Step(InSecondService(), Rearm(1), AfterSecondService(59))
    ensures Step(AfterSecondService(59), Tick(60), AfterSecondService(60))
  {
    hide Unregistered;
    assert [7][1..] == [] && (map[])[7 := 59] == map[7 := 59];
    assert Do(AfterHandOver(59), Begin(1)).threads == InSecondService().threads;
    assert map[7 := Disarmed][7 := Armed] == map[7 := Armed] && map[7 := 0][7 := 59] == map[7 := 59];
    assert map[7 := 59][7 := 59] == map[7 := 59];
    assert Do(InSecondService(), Rearm(1)).threads == AfterSecondService(59).threads;
  }

  /** Guarded evictions can be early: in a run in which every eviction meets the guard, the first
      thread evicts a client one second after the second thread armed it again. */
  lemma GuardedEvictionCanBeEarly()
    ensures exists actions, s :: && Run(Init(2), actions, s, true)
                                 && Enabled(s, Evict(0, 7)) && !HeldBySome(s, 7)
                                 && 7 in s.since && s.now - s.since[7] == 1
  {
    var s := AfterSecondService(60);
    assert Run(s, [], s, true) && !HeldBySome(s, 7) && Enabled(s, Evict(0, 7));
    assert s.since == map[7 := 59] && s.now == 60;
    hide Run, Step, Enabled, HeldBySome, AfterHandOver, InSecondService, AfterSecondService;
    SecondSteps();
    var r1 := [Tick(60)] + [];
    var r2 := [Rearm(1)] + r1;
    RunStep(AfterSecondService(59), Tick(60), s, [], s);
    RunStep(InSecondService(), Rearm(1), AfterSecondService(59), r1, s);
    RunStep(AfterHandOver(59), Begin(1), InSecondService(), r2, s);
    HandingOver(59, [Begin(1)] + r2, s);
  }

  // ---------- Steps that end the program ----------

  /** In every interleaving with guarded evictions, re-arming, closing after service and registering never
      end the program; an eviction does if and only if its number is in use and not registered. */
  lemma GuardedDeathExact(threads: nat, actions: seq<Action>, s: System, a: Action)
    requires Run(Init(threads), actions, s, true) && Enabled(s, a)
    ensures Dies(s, a) <==> a.Evict? && Unregistered(s, a.fd)
  {
    hide Run;
    EveryInterleavingExcludes(threads, actions, s);
    if a.Add? {
      assert Owns(s.threads[a.thread], s.threads[a.thread].accepted.value);
    }
    if a.Rearm? || a.Finish? {
      assert Holds(s.threads[a.thread], s.threads[a.thread].serving.value);
    }
    if a.Evict? && Unregistered(s, a.fd) {
      var t :| 0 <= t < |s.threads| && Owns(s.threads[t], a.fd);
    }
  }

  /** One thread never ends the program, with evictions as written. */
  lemma SingleThreadNeverDies(actions: seq<Action>, s: System)
    requires Run(Init(1), actions, s, false)
    ensures !s.dead && forall a | Enabled(s, a) :: !Dies(s, a)
  {
    hide Run, Dies, Enabled;
    InitInv(1);
    RunKeepsAlone(Init(1), actions, s);
    forall a | Enabled(s, a) ensures !Dies(s, a) {
      AloneNeverDies(s, a);
    }
  }

  /** Evicting a client that another thread is serving makes that thread end the program when it arms
      the client again. */
  lemma UnguardedEvictionKillsRearm(s: System, t: nat, u: nat, fd: nat)
    requires Inv(s) && Enabled(s, Evict(t, fd)) && u < |s.threads| && s.threads[u].serving == Some(fd)
    ensures !Dies(s, Evict(t, fd))
    ensures var s' := Do(s, Evict(t, fd)); Enabled(s', Rearm(u)) && Dies(s', Rearm(u))
  {
    assert Holds(s.threads[u], fd);
  }

  /** Closing it instead ends the program exactly if its number has been given away since: not right
      after the eviction, but once any thread has accepted a client with that number. */
  lemma UnguardedEvictionKillsFinish(s: System, t: nat, u: nat, v: nat, fd: nat)
    requires Inv(s) && Enabled(s, Evict(t, fd)) && u < |s.threads| && s.threads[u].serving == Some(fd)
    requires Enabled(Do(s, Evict(t, fd)), Accept(v, fd))
    ensures !Dies(s, Evict(t, fd))
    ensures var s1 := Do(s, Evict(t, fd));
            && Enabled(s1, Finish(u)) && !Dies(s1, Finish(u))
            && var s2 := Do(s1, Accept(v, fd)); Enabled(s2, Finish(u)) && Dies(s2, Finish(u))
  {
    assert Holds(s.threads[u], fd);
    var s1 := Do(s, Evict(t, fd));
    var s2 := Do(s1, Accept(v, fd));
    assert Owns(s2.threads[v], fd);
  }

  /** Registering never ends the program, guarded or not. */
  lemma {:induction false} AddNeverDies(s: System, actions: seq<Action>, s': System, t: nat)
    requires InvNumbers(s) && Run(s, actions, s', false) && Enabled(s', Add(t))
    ensures !Dies(s', Add(t))
    decreases |actions|
  {
    if actions == [] {
      assert Owns(s.threads[t], s.threads[t].accepted.value);
    } else {
      if Dies(s, actions[0]) {
        DeadIsStuck(Do(s, actions[0]), actions[1..], s');
      } else {
        NumbersKept(s, actions[0]);
        AddNeverDies(Do(s, actions[0]), actions[1..], s', t);
      }
    }
  }

  lemma DeadIsStuck(s: System, actions: seq<Action>, s': System)
    requires s.dead && Run(s, actions, s', false)
    ensures s' == s
  {
  }

  function InHeldService(): System {
    System(60, map[7 := Disarmed], map[7 := 0],
           [Knowing(map[7 := 0]), Knowing(map[7 := 60]).(serving := Some(7))], false)
  }

  lemma HeldStep()
    ensures Step(AfterHandOver(60), Begin(1), InHeldService())
    ensures Enabled(InHeldService(), Evict(0, 7)) && InHeldService().threads[1].serving == Some(7)
  {
    hide Unregistered;
    assert [7][1..] == [] && (map[])[7 := 60] == map[7 := 60];
    assert Do(AfterHandOver(60), Begin(1)).threads == InHeldService().threads;
  }

  /** That state is reached, with guarded evictions up to there. */
  lemma RearmCanDie()
    ensures exists actions, s :: && Run(Init(2), actions, s, true) && Inv(s) && |s.threads| == 2
                                 && Enabled(s, Evict(0, 7)) && s.threads[1].serving == Some(7)
  {
    var s := InHeldService();
    assert Run(s, [], s, true) && |s.threads| == 2;
    hide Run, Step, Enabled, Inv, AfterHandOver, InHeldService;
    HeldStep();
    RunStep(AfterHandOver(60), Begin(1), s, [], s);
    HandingOver(60, [Begin(1)] + [], s);
    EveryInterleavingExcludes(2, HandOver(60, [Begin(1)] + []), s);
  }

  /** A stale entry whose number is free: another thread that accepts a client, or opens a body file,
      gets that number, and then the eviction of the entry ends the program. */
  lemma StaleEntryKills(s: System, t: nat, u: nat, fd: nat, time: int)
    requires !s.dead && t < |s.threads| && u < |s.threads| && u != t && !InUse(s, fd) && s.now <= time
    requires Idle(s.threads[t]) && fd in s.threads[t].queue && time - s.threads[t].queue[fd] >= KEEP_ALIVE_TIMEOUT
    ensures var a := if s.threads[u].serving == None then Accept(u, fd) else Open(u, fd);
            Enabled(s, a) ==>
              exists s' :: Run(s, [a, Tick(time)], s', true) && Enabled(s', Evict(t, fd)) && Dies(s', Evict(t, fd))
  {
    var a := if s.threads[u].serving == None then Accept(u, fd) else Open(u, fd);
    if Enabled(s, a) {
      var s1 := Do(s, a);
      var s2 := s1.(now := time);
      assert Owns(s2.threads[u], fd) && s2.threads[t] == s.threads[t];
      assert Unregistered(s2, fd) && fd !in s2.interest;
      assert Enabled(s2, Evict(t, fd)) && Dies(s2, Evict(t, fd));
      assert Enabled(s1, Tick(time)) && Do(s1, Tick(time)) == s2;
      assert Guard(s, a) && Guard(s1, Tick(time));
      assert Run(s2, [], s2, true);
      hide Run, Unregistered, Enabled, Dies, Do, Guard;
      RunFirst(s1, Tick(time), [], s2, true);
      RunFirst(s, a, [Tick(time)] + [], s2, true);
      assert [a] + ([Tick(time)] + []) == [a, Tick(time)];
    }
  }

  /** The second thread serves client 7 and closes it; the first one still has its entry. Then the
      number is given to a new client, and a minute goes by. */
  function InLastService(): System {
    System(0, map[7 := Disarmed], map[7 := 0],
           [Knowing(map[7 := 0]), Knowing(map[7 := 0]).(serving := Some(7))], false)
  }

  function AfterClose(): System {
    System(0, map[], map[], [Knowing(map[7 := 0]), Fresh()], false)
  }

  function AfterReuse(now: int): System {
    System(now, map[], map[], [Knowing(map[7 := 0]), Fresh().(accepted := Some(7))], false)
  }

  lemma LastSteps()
    ensures Step(AfterHandOver(0), Begin(1), InLastService()) && Step(InLastService(), Finish(1), AfterClose())
  {
    hide Unregistered;
    assert [7][1..] == [] && (map[])[7 := 0] == map[7 := 0];
    assert Do(AfterHandOver(0), Begin(1)).threads == InLastService().threads;
    assert map[7 := Disarmed] - {7} == map[] && map[7 := 0] - {7} == map[];
    assert Do(InLastService(), Finish(1)).threads == AfterClose().threads;
  }

  lemma ReuseSteps()
    ensures Step(AfterClose(), Accept(1, 7), AfterReuse(0)) && Step(AfterReuse(0), Tick(60), AfterReuse(60))
  {
    NothingOwned(AfterClose());
    hide Unregistered;
    assert Do(AfterClose(), Accept(1, 7)).threads == AfterReuse(0).threads;
  }

  lemma ReuseKills()
    ensures var s := AfterReuse(60); Enabled(s, Evict(0, 7)) && !HeldBySome(s, 7) && Dies(s, Evict(0, 7))
  {
    assert Owns(AfterReuse(60).threads[1], 7);
  }

  /** Guarded evictions can end the program: a run in which every eviction meets the guard, to a state
      in which the first thread evicts a number that the second one has just accepted. */
  lemma GuardedEvictionCanDie()
    ensures exists actions, s :: && Run(Init(2), actions, s, true)
                                 && Enabled(s, Evict(0, 7)) && !HeldBySome(s, 7) && Dies(s, Evict(0, 7))
  {
    var s := AfterReuse(60);
    assert Run(s, [], s, true);
    hide Run, Step, Enabled, HeldBySome, Dies, AfterHandOver, InLastService, AfterClose, AfterReuse;
    ReuseKills();
    ReuseSteps();
    LastSteps();
    var r1 := [Tick(60)] + [];
    var r2 := [Accept(1, 7)] + r1;
    var r3 := [Finish(1)] + r2;
    RunStep(AfterReuse(0), Tick(60), s, [], s);
    RunStep(AfterClose(), Accept(1, 7), AfterReuse(0), r1, s);
    RunStep(InLastService(), Finish(1), AfterClose(), r2, s);
    RunStep(AfterHandOver(0), Begin(1), InLastService(), r3, s);
    HandingOver(0, [Begin(1)] + r3, s);
  }
}
