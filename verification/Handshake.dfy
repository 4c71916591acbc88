/**
 The login and register handshake of one client: the main thread sends a request and waits
 on a semaphore, the server answers each request once, the reader thread handles one frame
 per read. Chat frames and other requests travel on the same two channels.
 */
module Handshake {

  datatype Kind = LoginKind | RegisterKind

  datatype Request = Ask(kind: Kind, n: nat) | Other

  datatype Frame = Ack(kind: Kind, n: nat, ok: bool) | Chat

  datatype MainPc = Menu | Waiting(kind: Kind, n: nat) | MainMenu

  datatype State = State(
    pc: MainPc,
    nextRequest: nat,
    toServer: seq<Request>,
    toClient: seq<Frame>,
    sem: nat,
    isLoginSuccess: bool,
    /** The server's outcome for each request it has handled. */
    outcomes: map<nat, bool>
  )

  datatype Action =
    | SendAsk(kind: Kind)
    /** The server handles the oldest request; `ok` is its outcome, `reply` a chat acknowledgement. */
    | Serve(ok: bool, reply: bool)
    | Deliver
    /** The reader thread handles the oldest frame. */
    | Read
    | Wake
    | SendOther(leave: bool)

  /** The client has connected and nothing has been sent. */
  predicate Initial(s: State) {
    s.pc.Menu? && |s.toServer| == 0 && |s.toClient| == 0 && s.sem == 0 && |s.outcomes| == 0
  }

  predicate Enabled(s: State, a: Action) {
    match a
    case SendAsk(kind) => s.pc.Menu?
    case Serve(ok, reply) => s.toServer != []
    case Deliver => true
    case Read => s.toClient != []
    case Wake => s.pc.Waiting? && s.sem > 0
    case SendOther(leave) => s.pc.MainMenu?
  }

  function Next(s: State, a: Action): State
    requires Enabled(s, a)
  {
    match a
    case SendAsk(kind) =>
      s.(pc := Waiting(kind, s.nextRequest),
         nextRequest := s.nextRequest + 1,
         isLoginSuccess := if kind.LoginKind? then false else s.isLoginSuccess,
         toServer := s.toServer + [Ask(kind, s.nextRequest)])
    case Serve(ok, reply) =>
      (match s.toServer[0]
       case Ask(kind, n) =>
         s.(toServer := s.toServer[1..], toClient := s.toClient + [Ack(kind, n, ok)], outcomes := s.outcomes[n := ok])
       case Other =>
         s.(toServer := s.toServer[1..], toClient := if reply then s.toClient + [Chat] else s.toClient))
    case Deliver => s.(toClient := s.toClient + [Chat])
    case Read =>
      (match s.toClient[0]
       case Ack(kind, n, ok) =>
         s.(toClient := s.toClient[1..], sem := s.sem + 1,
            isLoginSuccess := if kind.LoginKind? then ok else s.isLoginSuccess)
       case Chat => s.(toClient := s.toClient[1..]))
    case Wake =>
      s.(sem := s.sem - 1, pc := if s.pc.kind.LoginKind? && s.isLoginSuccess then MainMenu else Menu)
    case SendOther(leave) =>
      s.(toServer := s.toServer + [Other], pc := if leave then Menu else MainMenu)
  }

  predicate Valid(s: State, run: seq<Action>)
    decreases |run|
  {
    run == [] || (Enabled(s, run[0]) && Valid(Next(s, run[0]), run[1..]))
  }

  function Exec(s: State, run: seq<Action>): State
    requires Valid(s, run)
    decreases |run|
  {
    if run == [] then s else Exec(Next(s, run[0]), run[1..])
  }

  function Asks(q: seq<Request>): nat {
    if q == [] then 0 else (if q[0].Ask? then 1 else 0) + Asks(q[1..])
  }

  function Acks(q: seq<Frame>): nat {
    if q == [] then 0 else (if q[0].Ack? then 1 else 0) + Acks(q[1..])
  }

  lemma {:induction false} AsksSnoc(q: seq<Request>, r: Request)
    ensures Asks(q + [r]) == Asks(q) + if r.Ask? then 1 else 0
  {
    if q == [] {
    } else {
      assert (q + [r])[1..] == q[1..] + [r];
      AsksSnoc(q[1..], r);
    }
  }

  lemma {:induction false} AcksSnoc(q: seq<Frame>, f: Frame)
    ensures Acks(q + [f]) == Acks(q) + if f.Ack? then 1 else 0
  {
    if q == [] {
    } else {
      assert (q + [f])[1..] == q[1..] + [f];
      AcksSnoc(q[1..], f);
    }
  }

  /** Requests, acknowledgements and semaphore together: one token while the main thread waits. */
  ghost predicate OneToken(s: State) {
    Asks(s.toServer) + Acks(s.toClient) + s.sem == if s.pc.Waiting? then 1 else 0
  }

  /** Whatever is in flight belongs to the request the main thread waits for. */
  ghost predicate Matching(s: State) {
    && (forall r :: r in s.toServer && r.Ask? ==> s.pc == Waiting(r.kind, r.n))
    && (forall f :: f in s.toClient && f.Ack? ==>
          s.pc == Waiting(f.kind, f.n) && f.n in s.outcomes && s.outcomes[f.n] == f.ok)
    && (s.sem > 0 && s.pc.Waiting? && s.pc.kind.LoginKind? ==>
          s.pc.n in s.outcomes && s.outcomes[s.pc.n] == s.isLoginSuccess)
    && (s.sem == 0 && s.pc.Waiting? && s.pc.kind.LoginKind? ==> !s.isLoginSuccess)
  }

  lemma {:induction false} TokenStep(s: State, a: Action)
    requires OneToken(s) && Enabled(s, a)
    ensures OneToken(Next(s, a))
  {
    match a
    case SendAsk(kind) => AsksSnoc(s.toServer, Ask(kind, s.nextRequest));
    case Serve(ok, reply) =>
      AcksSnoc(s.toClient, if s.toServer[0].Ask? then Ack(s.toServer[0].kind, s.toServer[0].n, ok) else Chat);
    case Deliver => AcksSnoc(s.toClient, Chat);
    case Read =>
    case Wake =>
    case SendOther(leave) => AsksSnoc(s.toServer, Other);
  }

  lemma {:induction false} NoAsks(q: seq<Request>)
    requires Asks(q) == 0
    ensures forall r :: r in q ==> r.Other?
  {
    if q == [] {
    } else {
      NoAsks(q[1..]);
    }
  }

  lemma {:induction false} NoAcks(q: seq<Frame>)
    requires Acks(q) == 0
    ensures forall f :: f in q ==> f.Chat?
  {
    if q == [] {
    } else {
      NoAcks(q[1..]);
    }
  }

  /** The channels hold no token once the semaphore does, or while nobody waits. */
  lemma {:induction false} EmptyChannels(s: State)
    requires OneToken(s) && (s.sem > 0 || !s.pc.Waiting?)
    ensures forall r :: r in s.toServer ==> r.Other?
    ensures forall f :: f in s.toClient ==> f.Chat?
  {
    NoAsks(s.toServer);
    NoAcks(s.toClient);
  }

  lemma {:induction false} ServeMatching(s: State, a: Action)
    requires OneToken(s) && Matching(s) && Enabled(s, a) && a.Serve?
    ensures Matching(Next(s, a))
  {
    var s' := Next(s, a);
    assert s.toServer == [s.toServer[0]] + s.toServer[1..];
    if s.toServer[0].Ask? {
      assert s.pc.Waiting?;
      assert Acks(s.toClient) == 0;
      NoAcks(s.toClient);
    }
  }

  lemma {:induction false} MatchingStep(s: State, a: Action)
    requires OneToken(s) && Matching(s) && Enabled(s, a)
    ensures Matching(Next(s, a))
  {
    var s' := Next(s, a);
    if s.sem > 0 || !s.pc.Waiting? {
      EmptyChannels(s);
    }
    if s'.sem > 0 {
      TokenStep(s, a);
      EmptyChannels(s');
    }
    assert forall r :: r in s'.toServer ==> r in s.toServer || a.SendAsk? || r.Other?;
    assert forall f :: f in s'.toClient ==> f in s.toClient || a.Serve? || f.Chat?;
    if a.Serve? {
      assert s.toServer[0] in s.toServer;
      ServeMatching(s, a);
    } else if a.Read? {
      assert s.toClient[0] in s.toClient;
    }
  }

  lemma {:induction false} HandshakeRun(s: State, run: seq<Action>)
    requires OneToken(s) && Matching(s) && Valid(s, run)
    ensures OneToken(Exec(s, run)) && Matching(Exec(s, run))
    decreases |run|
  {
    if run == [] {
    } else {
      TokenStep(s, run[0]);
      MatchingStep(s, run[0]);
      HandshakeRun(Next(s, run[0]), run[1..]);
    }
  }

  /**
   Across any number of attempts and interleaved chat, the count never drifts, and the flag
   never shows the success of an earlier attempt while a login waits for its answer.
   */
  lemma {:induction false} HandshakeNeverDrifts(start: State, run: seq<Action>)
    requires Initial(start) && Valid(start, run)
    ensures var s := Exec(start, run);
      && Asks(s.toServer) + Acks(s.toClient) + s.sem == (if s.pc.Waiting? then 1 else 0)
      && (s.pc.Waiting? && s.pc.kind.LoginKind? && s.isLoginSuccess ==> s.sem == 1)
  {
    HandshakeRun(start, run);
  }

  /**
   When the main thread wakes, nothing is left in flight. From a login it reads the outcome of that
   very request and enters the main menu exactly on success; from a register, whatever the flag
   still says of earlier logins, it goes back to the menu.
   */
  lemma {:induction false} WakesWithItsOwnOutcome(start: State, run: seq<Action>)
    requires Initial(start) && Valid(start, run) && Enabled(Exec(start, run), Wake)
    ensures var s := Exec(start, run);
      && (s.pc.kind.LoginKind? ==>
            && s.pc.n in s.outcomes && s.isLoginSuccess == s.outcomes[s.pc.n]
            && Next(s, Wake).pc == if s.outcomes[s.pc.n] then MainMenu else Menu)
      && (s.pc.kind.RegisterKind? ==> Next(s, Wake).pc == Menu)
      && Next(s, Wake).sem == 0 && Asks(s.toServer) == 0 && Acks(s.toClient) == 0
  {
    HandshakeRun(start, run);
  }
}
