/** The operating system as the server sees it: arbitrary scripts of answers, wake-ups and arrivals, a
    clock that never goes back, the open descriptors, the epoll interest list, the bytes on the wire,
    and a log of the calls that matter to a client's life. A precondition of a call is a fact the
    server owes; proving it shows that the matching die() or double close is never reached. */
module Kernels {
  import opened Connections
  import opened CStrings

  /** What a transfer call answers: EINTR, EAGAIN, another error, or a number of bytes. */
  datatype Io = Interrupted | WouldBlock | Failed | Moved(count: nat)

  datatype OpenResult = Found | NotFound | Denied

  /** What a descriptor was opened for: a file below the published directory, or the compressed copy of
      the file that was open before. */
  datatype Opened = Page(path: string) | GzipOf(original: File)

  /** An open file: its contents, and what libmagic and stat say about it. */
  datatype File = File(what: Opened, text: string, media: Line, modified: Line)

  type Line = s: string | FreeOf(s, CRLF)

  /** The canned responses. */
  datatype Canned = BadRequest | VersionNotSupported(version: string) | Hello

  datatype Notice = Notice(fd: nat, what: Canned)

  /** A pending connection on the listening socket, or a client that has become ready. */
  datatype Event = Incoming | Ready(fd: nat, readable: bool)

  /** One scripted answer; each call reads the parts that concern it. */
  datatype Answer = Answer(
    io: Io,
    time: int,
    peerKnown: bool,
    openResult: OpenResult,
    descriptor: nat,
    text: string,
    media: Line,
    modified: Line,
    date: Line
  )

  /** When epoll_wait returns, and what has become ready by then. */
  datatype WakeUp = WakeUp(time: int, events: seq<Event>)

  /** What accept finds: nothing, or a client and the bytes it is going to send. */
  datatype Arrival = Nobody | Client(fd: nat, stream: string)

  /** The file that one answer opens. */
  function Loaded(what: Opened, a: Answer): File {
    File(what, a.text, a.media, a.modified)
  }

  function Min(a: nat, b: nat): nat {
    if a < b then a else b
  }

  /** A transfer never moves more than was asked for. */
  function Limited(io: Io, limit: nat): Io {
    if io.Moved? then Moved(Min(io.count, limit)) else io
  }

  /** A kernel that neither fails nor reports the end of the stream. */
  predicate Productive(answers: seq<Io>) {
    forall i | 0 <= i < |answers| :: !answers[i].Failed? && answers[i] != Moved(0)
  }

  predicate Helpful(a: Answer) {
    !a.io.Failed? && a.io != Moved(0) && a.peerKnown && a.text != ""
  }

  function Later(a: int, b: int): int {
    if a < b then b else a
  }

  predicate Blocks(io: Io) {
    io.Interrupted? || io.WouldBlock?
  }

  function Largest(s: set<nat>): (m: nat)
    ensures forall x | x in s :: x <= m
  {
    if s == {} then 0
    else
      LargestExists(s);
      var x :| x in s && forall y | y in s :: y <= x;
      x
  }

  lemma {:induction false} LargestExists(s: set<nat>)
    requires s != {}
    ensures exists x :: x in s && forall y | y in s :: y <= x
    decreases s
  {
    var x :| x in s;
    var rest := s - {x};
    if rest == {} {
      assert s == {x};
    } else {
      LargestExists(rest);
      var m :| m in rest && forall y | y in rest :: y <= m;
      var top := if x < m then m else x;
      assert top in s && forall y | y in s :: y == x || y in rest;
    }
  }

  /** An unused descriptor number; the wanted one when it is free. */
  function Unused(used: set<nat>, wanted: nat): (fd: nat)
    ensures fd > 0 && fd !in used
    ensures wanted > 0 && wanted !in used ==> fd == wanted
  {
    if wanted > 0 && wanted !in used then wanted else Largest(used) + 1
  }

  /** The events of one epoll_wait: only armed clients are reported, each once, and with ONESHOT
      each is disarmed by the report. */
  function Reported(events: seq<Event>, armed: map<nat, bool>): seq<Event> {
    if events == [] then []
    else
      match events[0]
      case Incoming => [Incoming] + Reported(events[1..], armed)
      case Ready(fd, _) =>
        if fd in armed && armed[fd] then [events[0]] + Reported(events[1..], armed[fd := false])
        else Reported(events[1..], armed)
  }

  function Disarmed(events: seq<Event>, armed: map<nat, bool>): map<nat, bool> {
    if events == [] then armed
    else Disarmed(events[1..], if events[0].Ready? then armed[events[0].fd := false] else armed)
  }

  /** The clients of a batch are registered and reported once each. */
  predicate GoodBatch(events: seq<Event>, clients: set<nat>) {
    && (forall i | 0 <= i < |events| && events[i].Ready? :: events[i].fd in clients)
    && (forall i, j | 0 <= i < j < |events| && events[i].Ready? && events[j].Ready? ::
          events[i].fd != events[j].fd)
  }

  lemma {:induction false} ReportedIsGood(events: seq<Event>, armed: map<nat, bool>)
    ensures var r := Reported(events, armed);
            && GoodBatch(r, armed.Keys)
            && (forall i | 0 <= i < |r| && r[i].Ready? :: r[i].fd in armed && armed[r[i].fd])
    decreases |events|
  {
    if events != [] {
      match events[0]
      case Incoming => ReportedIsGood(events[1..], armed);
      case Ready(fd, _) =>
        if fd in armed && armed[fd] {
          ReportedIsGood(events[1..], armed[fd := false]);
          assert armed[fd := false].Keys == armed.Keys;
        } else {
          ReportedIsGood(events[1..], armed);
        }
    }
  }

  lemma {:induction false} DisarmedAt(events: seq<Event>, armed: map<nat, bool>, fd: nat)
    requires GoodBatch(events, armed.Keys)
    ensures Disarmed(events, armed).Keys == armed.Keys
    ensures fd in armed ==>
              Disarmed(events, armed)[fd]
                == (armed[fd] && forall i | 0 <= i < |events| && events[i].Ready? :: events[i].fd != fd)
    decreases |events|
  {
    if events != [] {
      var armed' := if events[0].Ready? then armed[events[0].fd := false] else armed;
      assert armed'.Keys == armed.Keys;
      forall i | 0 <= i < |events[1..]| ensures events[1..][i] == events[i + 1] {
      }
      DisarmedAt(events[1..], armed', fd);
      if fd in armed && !Disarmed(events[1..], armed')[fd] && armed[fd] && !(events[0].Ready? && events[0].fd == fd) {
        var i :| 0 <= i < |events[1..]| && events[1..][i].Ready? && events[1..][i].fd == fd;
        assert events[i + 1].fd == fd;
      }
    }
  }

  // ---------- The log ----------

  /** What the server did to its clients, in the order of the system calls. */
  datatype Call =
    | Accepted(fd: nat)                                               // accept
    | Refused                                                         // accept, with nobody there
    | Rearmed(fd: nat, at: int)                                       // EPOLL_CTL_MOD
    | Closed(fd: nat, at: int)                                        // close
    | Waited(from: int, timeout: int, woke: int, events: seq<Event>)  // epoll_wait

  predicate About(call: Call, fd: nat) {
    (call.Accepted? || call.Rearmed? || call.Closed?) && call.fd == fd
  }

  /** How a client was last reported, with EPOLLIN or without, since it arrived or was last re-armed. */
  function Report(log: seq<Call>, fd: nat): Option<bool> {
    if log == [] then None
    else ReportAfter(log[|log| - 1], fd, Report(log[..|log| - 1], fd))
  }

  function ReportAfter(call: Call, fd: nat, before: Option<bool>): Option<bool> {
    if About(call, fd) then None
    else if call.Waited? && Ready(fd, true) in call.events then Some(true)
    else if call.Waited? && Ready(fd, false) in call.events then Some(false)
    else before
  }

  /** When a client was last re-armed since it arrived, if it was. */
  function LastRearm(log: seq<Call>, fd: nat): Option<int> {
    if log == [] then None
    else RearmAfter(log[|log| - 1], fd, LastRearm(log[..|log| - 1], fd))
  }

  function RearmAfter(call: Call, fd: nat, before: Option<int>): Option<int> {
    if About(call, fd) then if call.Rearmed? then Some(call.at) else None else before
  }

  /** The last wait. */
  function LastWait(log: seq<Call>): Option<Call> {
    if log == [] then None
    else if log[|log| - 1].Waited? then Some(log[|log| - 1])
    else LastWait(log[..|log| - 1])
  }

  lemma LogSnoc(log: seq<Call>, call: Call)
    ensures forall fd :: Report(log + [call], fd) == ReportAfter(call, fd, Report(log, fd))
    ensures forall fd :: LastRearm(log + [call], fd) == RearmAfter(call, fd, LastRearm(log, fd))
    ensures LastWait(log + [call]) == if call.Waited? then Some(call) else LastWait(log)
  {
    assert (log + [call])[..|log|] == log;
  }

  /** Something holds of every call and the log before it. */
  ghost predicate Always(log: seq<Call>, holds: (seq<Call>, Call) -> bool) {
    forall i | 0 <= i < |log| :: holds(log[..i], log[i])
  }

  lemma AlwaysSnoc(log: seq<Call>, call: Call, holds: (seq<Call>, Call) -> bool)
    ensures Always(log + [call], holds) <==> Always(log, holds) && holds(log, call)
  {
    var all := log + [call];
    assert all[..|log|] == log && all[|log|] == call;
    assert forall i | 0 <= i < |log| :: all[..i] == log[..i] && all[i] == log[i];
  }

  /** A client that was accepted and has not been closed since. */
  function IsOpen(log: seq<Call>, fd: nat): bool {
    if log == [] then false
    else OpenAfter(log[|log| - 1], fd, IsOpen(log[..|log| - 1], fd))
  }

  function OpenAfter(call: Call, fd: nat, before: bool): bool {
    if About(call, fd) && !call.Rearmed? then call.Accepted? else before
  }

  lemma OpenSnoc(log: seq<Call>, call: Call)
    ensures forall fd :: IsOpen(log + [call], fd) == OpenAfter(call, fd, IsOpen(log, fd))
  {
    assert (log + [call])[..|log|] == log;
  }

  /** Descriptors are accepted when they are not in use, and re-armed, closed and reported when they
      are; nobody is reported twice without being re-armed. */
  ghost predicate Lawful(before: seq<Call>, call: Call) {
    match call
    case Accepted(fd) => !IsOpen(before, fd)
    case Refused => true
    case Rearmed(fd, _) => IsOpen(before, fd)
    case Closed(fd, _) => IsOpen(before, fd)
    case Waited(_, _, _, events) =>
      forall i | 0 <= i < |events| && events[i].Ready? ::
        IsOpen(before, events[i].fd) && Report(before, events[i].fd) == None
  }

  /** The open sockets are those accepted and not closed since, and every call was lawful. */
  ghost predicate Accounted(sockets: set<nat>, log: seq<Call>) {
    (forall fd :: fd in sockets <==> IsOpen(log, fd)) && Always(log, Lawful)
  }

  lemma AccountedAfter(sockets: set<nat>, log: seq<Call>, call: Call, sockets': set<nat>)
    requires Accounted(sockets, log) && Lawful(log, call)
    requires sockets' == if call.Accepted? then sockets + {call.fd}
                         else if call.Closed? then sockets - {call.fd} else sockets
    ensures Accounted(sockets', log + [call])
  {
    hide Lawful, IsOpen;
    OpenSnoc(log, call);
    AlwaysSnoc(log, call, Lawful);
  }

  /** A registered client is armed unless it has been reported. */
  ghost predicate ArmedUntilReported(armed: map<nat, bool>, log: seq<Call>) {
    forall fd | fd in armed :: armed[fd] <==> Report(log, fd) == None
  }

  lemma ArmedAfterWait(armed: map<nat, bool>, log: seq<Call>, call: Call)
    requires ArmedUntilReported(armed, log) && call.Waited? && GoodBatch(call.events, armed.Keys)
    ensures ArmedUntilReported(Disarmed(call.events, armed), log + [call])
    ensures Disarmed(call.events, armed).Keys == armed.Keys
  {
    LogSnoc(log, call);
    DisarmedAt(call.events, armed, 0);
    var after := Disarmed(call.events, armed);
    forall fd | fd in after ensures after[fd] <==> Report(log + [call], fd) == None {
      DisarmedAt(call.events, armed, fd);
      if Ready(fd, true) !in call.events && Ready(fd, false) !in call.events {
        forall i | 0 <= i < |call.events| && call.events[i].Ready? ensures call.events[i].fd != fd {
          assert call.events[i] in call.events;
        }
      }
    }
  }

  /** The open sockets and the interest list are what the log says. */
  ghost predicate Logged(sockets: set<nat>, armed: map<nat, bool>, log: seq<Call>) {
    ArmedUntilReported(armed, log) && Accounted(sockets, log)
  }

  /** No descriptor is closed twice unless it has been accepted in between. */
  lemma {:induction false} ClosedOnce(log: seq<Call>, i: nat, j: nat, fd: nat)
    requires Always(log, Lawful) && i < j < |log|
    requires log[i].Closed? && log[j].Closed? && log[i].fd == log[j].fd == fd
    ensures exists m :: i < m < j && log[m] == Accepted(fd)
  {
    assert Lawful(log[..j], log[j]);
    AcceptedSince(log, i, j, fd);
  }

  lemma {:induction false} AcceptedSince(log: seq<Call>, i: nat, j: nat, fd: nat)
    requires i < j <= |log| && log[i].Closed? && log[i].fd == fd && IsOpen(log[..j], fd)
    ensures exists m :: i < m < j && log[m] == Accepted(fd)
  {
    var front := log[..j - 1];
    assert log[..j] == front + [log[j - 1]];
    OpenSnoc(front, log[j - 1]);
    if i < j - 1 && log[j - 1] != Accepted(fd) {
      AcceptedSince(log, i, j - 1, fd);
    }
  }

  lemma LoggedAfter(sockets: set<nat>, armed: map<nat, bool>, log: seq<Call>, call: Call,
                    sockets': set<nat>, armed': map<nat, bool>)
    requires Logged(sockets, armed, log) && armed.Keys <= sockets && Lawful(log, call) && !call.Waited?
    requires match call
             case Accepted(fd) => sockets' == sockets + {fd} && armed' == armed && fd !in armed
             case Rearmed(fd, _) => sockets' == sockets && armed' == armed[fd := true]
             case Closed(fd, _) => sockets' == sockets - {fd} && armed' == armed && fd !in armed
             case _ => sockets' == sockets && armed' == armed
    ensures Logged(sockets', armed', log + [call])
  {
    hide Lawful, Accounted, Report;
    LogSnoc(log, call);
    AccountedAfter(sockets, log, call, sockets');
  }

  lemma LoggedAfterWait(sockets: set<nat>, armed: map<nat, bool>, log: seq<Call>, call: Call)
    requires Logged(sockets, armed, log) && armed.Keys <= sockets
    requires call.Waited? && GoodBatch(call.events, armed.Keys)
    requires forall i | 0 <= i < |call.events| && call.events[i].Ready? :: armed[call.events[i].fd]
    ensures Logged(sockets, Disarmed(call.events, armed), log + [call])
    ensures Disarmed(call.events, armed).Keys == armed.Keys
  {
    hide Report, IsOpen, Disarmed;
    assert Lawful(log, call);
    hide Lawful;
    ArmedAfterWait(armed, log, call);
    AccountedAfter(sockets, log, call, sockets);
  }

  class Kernel {
    const script: nat -> Answer     // by the number of calls made
    const wakeUps: nat -> WakeUp    // by the length of the log
    const arrivals: nat -> Arrival  // by the length of the log
    ghost const patience: nat       // EINTR and EAGAIN are answered only before this step
    const limit: nat                // descriptors accepted from clients are below this

    var step: nat
    var now: int
    var sockets: set<nat>           // open client sockets
    var armed: map<nat, bool>       // epoll interest list; a delivered ONESHOT entry is false
    var files: map<nat, File>       // open body files and their contents
    var incoming: map<nat, string>  // bytes each client has yet to deliver
    var wire: map<nat, string>      // bytes handed to each client by send and sendfile
    var notices: seq<Notice>        // canned responses, in order
    var log: seq<Call>

    ghost predicate Patient() {
      forall i: nat | i >= patience :: !Blocks(script(i).io)
    }

    ghost predicate Valid()
      reads this
    {
      && Patient()
      && sockets !! files.Keys && 0 !in sockets && 0 !in files
      && (forall fd | fd in sockets :: fd < limit)
      && sockets <= incoming.Keys && sockets <= wire.Keys
      && armed.Keys <= sockets && Logged(sockets, armed, log)
    }

    constructor (script: nat -> Answer, wakeUps: nat -> WakeUp, arrivals: nat -> Arrival,
                 ghost patience: nat, limit: nat)
      requires forall i: nat | i >= patience :: !Blocks(script(i).io)
      ensures Valid() && sockets == {} && armed == map[] && files == map[]
      ensures incoming == map[] && log == [] && now == 0
      ensures this.script == script && this.wakeUps == wakeUps && this.arrivals == arrivals
      ensures this.limit == limit && this.patience == patience
    {
      this.script, this.wakeUps, this.arrivals := script, wakeUps, arrivals;
      this.patience, this.limit := patience, limit;
      step, now, notices, log := 0, 0, [], [];
      sockets, armed, files, incoming, wire := {}, map[], map[], map[], map[];
    }

    /** Would-block answers that may still come. */
    ghost function Patience(): nat
      reads this
    {
      if step < patience then patience - step else 0
    }

    /** The transfer answers given from one step up to another. */
    ghost function Answers(from: nat, to: nat): seq<Io>
      requires from <= to
    {
      seq(to - from, i requires 0 <= i < to - from => script(from + i).io)
    }

    lemma AnswersSnoc(from: nat, to: nat)
      requires from <= to
      ensures Answers(from, to + 1) == Answers(from, to) + [script(to).io]
    {
    }

    /** No answer given from one step up to another fails, ends a stream or hides the peer, and no
        file is empty. */
    ghost predicate Helped(from: nat, to: nat) {
      forall i: nat | from <= i < to :: Helpful(script(i))
    }

    lemma HelpedIsProductive(from: nat, to: nat)
      requires from <= to && Helped(from, to)
      ensures Productive(Answers(from, to))
    {
    }

    /** Every transfer moves as much as it is asked to, up to n bytes. */
    ghost predicate Steady(n: nat) {
      forall i: nat :: script(i).io == Moved(n)
    }

    /** No call but epoll_wait lets the clock move. */
    ghost predicate Still()
      reads this`now
    {
      forall i: nat :: script(i).time <= now
    }

    /** The clock shows what the script says, unless that is in the past. */
    method Time() returns (t: int)
      modifies this`step, this`now
      ensures step == old(step) + 1 && t == now == Later(old(now), script(old(step)).time)
    {
      now := Later(now, script(step).time);
      step := step + 1;
      t := now;
    }

    method PeerKnown() returns (ok: bool)
      modifies this`step
      ensures step == old(step) + 1 && ok == script(old(step)).peerKnown
    {
      ok := script(step).peerKnown;
      step := step + 1;
    }

    method Recv(fd: nat, length: nat) returns (io: Io, data: string)
      requires Valid() && fd in sockets
      modifies this`step, this`incoming
      ensures Valid() && step == old(step) + 1
      ensures io == Limited(script(old(step)).io, Min(length, |old(incoming)[fd]|))
      ensures data == if io.Moved? then old(incoming)[fd][..io.count] else ""
      ensures incoming == if io.Moved? then old(incoming)[fd := old(incoming)[fd][io.count..]] else old(incoming)
    {
      io := Limited(script(step).io, Min(length, |incoming[fd]|));
      data := "";
      if io.Moved? {
        data := incoming[fd][..io.count];
        incoming := incoming[fd := incoming[fd][io.count..]];
      }
      step := step + 1;
    }

    /** send, and sendfile once the bytes of the file are given. */
    method Send(fd: nat, data: string) returns (io: Io)
      requires Valid() && fd in sockets
      modifies this`step, this`wire
      ensures Valid() && step == old(step) + 1
      ensures io == Limited(script(old(step)).io, |data|)
      ensures wire == if io.Moved? then old(wire)[fd := old(wire)[fd] + data[..io.count]] else old(wire)
    {
      io := Limited(script(step).io, |data|);
      if io.Moved? {
        wire := wire[fd := wire[fd] + data[..io.count]];
      }
      step := step + 1;
    }

    /** A canned response through sendAll: one action that leaves the model's wire alone. */
    method SendCanned(fd: nat, what: Canned)
      requires fd in sockets
      modifies this`step, this`notices
      ensures step == old(step) + 1 && notices == old(notices) + [Notice(fd, what)]
    {
      notices := notices + [Notice(fd, what)];
      step := step + 1;
    }

    method Open(path: string) returns (result: OpenResult, fd: nat)
      requires Valid()
      modifies this`step, this`files
      ensures Valid() && step == old(step) + 1 && result == script(old(step)).openResult
      ensures result.Found? ==> fd > 0 && fd !in old(files) && fd !in sockets
                                && files == old(files)[fd := Loaded(Page(path), script(old(step)))]
      ensures !result.Found? ==> files == old(files)
    {
      result := script(step).openResult;
      fd := Unused(sockets + files.Keys, script(step).descriptor);
      if result.Found? {
        files := files[fd := Loaded(Page(path), script(step))];
      }
      step := step + 1;
    }

    /** Opening a file whose absence ends the program. */
    method OpenOrDie(what: Opened) returns (fd: nat)
      requires Valid()
      modifies this`step, this`files
      ensures Valid() && step == old(step) + 1
      ensures fd > 0 && fd !in old(files) && fd !in sockets
      ensures files == old(files)[fd := Loaded(what, script(old(step)))]
    {
      fd := Unused(sockets + files.Keys, script(step).descriptor);
      files := files[fd := Loaded(what, script(step))];
      step := step + 1;
    }

    /** The current date, as text. */
    method Date() returns (date: Line)
      modifies this`step
      ensures step == old(step) + 1 && date == script(old(step)).date
    {
      date := script(step).date;
      step := step + 1;
    }

    method CloseFile(fd: nat)
      requires fd in files
      modifies this`files
      ensures files == old(files) - {fd}
    {
      files := files - {fd};
    }

    /** Whether accept has a client to give: its descriptor is new and below the limit. */
    predicate Admits(arrival: Arrival)
      reads this`sockets, this`files
    {
      arrival.Client? && 0 < arrival.fd < limit && arrival.fd !in sockets && arrival.fd !in files
    }

    /** accept: nobody is there, or a new socket that is not yet registered. */
    method Accept() returns (accepted: bool, fd: nat)
      requires Valid()
      modifies this`step, this`sockets, this`incoming, this`wire, this`log
      ensures Valid() && step == old(step) + 1
      ensures accepted == old(Admits(arrivals(|log|)))
      ensures accepted ==> && sockets == old(sockets) + {fd} && arrivals(old(|log|)) == Client(fd, incoming[fd])
                           && wire == old(wire)[fd := ""] && incoming == old(incoming)[fd := incoming[fd]]
                           && log == old(log) + [Accepted(fd)] && Report(log, fd) == None
      ensures !accepted ==> && sockets == old(sockets) && incoming == old(incoming) && wire == old(wire)
                            && log == old(log) + [Refused]
    {
      var arrival := arrivals(|log|);
      accepted, fd := Admits(arrival), 0;
      if accepted {
        fd := arrival.fd;
        LoggedAfter(sockets, armed, log, Accepted(fd), sockets + {fd}, armed);
        LogSnoc(log, Accepted(fd));
        sockets := sockets + {fd};
        incoming := incoming[fd := arrival.stream];
        wire := wire[fd := ""];
        log := log + [Accepted(fd)];
      } else {
        LoggedAfter(sockets, armed, log, Refused, sockets, armed);
        log := log + [Refused];
      }
      step := step + 1;
    }

    method CloseSocket(fd: nat)
      requires Valid() && fd in sockets && fd !in armed
      modifies this`sockets, this`log
      ensures Valid() && sockets == old(sockets) - {fd} && log == old(log) + [Closed(fd, now)]
    {
      LoggedAfter(sockets, armed, log, Closed(fd, now), sockets - {fd}, armed);
      sockets := sockets - {fd};
      log := log + [Closed(fd, now)];
    }

    method EpollAdd(fd: nat)
      requires Valid() && fd in sockets && fd !in armed && Report(log, fd) == None
      modifies this`armed
      ensures Valid() && armed == old(armed)[fd := true]
    {
      armed := armed[fd := true];
    }

    method EpollMod(fd: nat)
      requires Valid() && fd in sockets && fd in armed
      modifies this`armed, this`log
      ensures Valid() && armed == old(armed)[fd := true] && log == old(log) + [Rearmed(fd, now)]
    {
      LoggedAfter(sockets, armed, log, Rearmed(fd, now), sockets, armed[fd := true]);
      armed := armed[fd := true];
      log := log + [Rearmed(fd, now)];
    }

    method EpollDel(fd: nat)
      requires Valid() && fd in sockets && fd in armed
      modifies this`armed
      ensures Valid() && armed == old(armed) - {fd}
    {
      armed := armed - {fd};
    }

    /** epoll_wait: nothing, on a timeout or a signal, or a batch of ready descriptors. */
    method Wait(timeout: int) returns (events: seq<Event>)
      requires Valid()
      modifies this`step, this`now, this`armed, this`log
      ensures Valid() && step == old(step) + 1
      ensures now == Later(old(now), wakeUps(old(|log|)).time)
      ensures events == Reported(wakeUps(old(|log|)).events, old(armed))
      ensures GoodBatch(events, old(armed).Keys)
      ensures forall i | 0 <= i < |events| && events[i].Ready? :: old(armed)[events[i].fd]
      ensures armed.Keys == old(armed).Keys && log == old(log) + [Waited(old(now), timeout, now, events)]
    {
      var wakeUp := wakeUps(|log|);
      events := Reported(wakeUp.events, armed);
      ReportedIsGood(wakeUp.events, armed);
      var call := Waited(now, timeout, Later(now, wakeUp.time), events);
      LoggedAfterWait(sockets, armed, log, call);
      armed := Disarmed(events, armed);
      now := call.woke;
      log := log + [call];
      step := step + 1;
    }
  }
}
