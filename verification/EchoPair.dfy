/**
 * The loopback echo benchmark: a client and a server coroutine exchanging fixed-size payloads over a
 * byte stream that moves any non-empty part of what it is offered, with bounded buffers each way.
 * Failing and timing-out transfers are separate steps, so that runs without them can be singled out.
 */
module EchoPair {
  import opened Runs

  datatype Client =
    | Idle                     // between rounds, about to look at the deadline
    | CSending(sent: nat)
    | CReceiving(got: nat)
    | Comparing
    | CClosing
    | CClosed

  datatype Server = Accepting | SReceiving(filled: nat) | SSending(sent: nat) | SClosing | SClosed

  /** `up` carries bytes to the server, `down` back to the client. */
  datatype State = State(
    payload: seq<char>, upCapacity: nat, downCapacity: nat, up: seq<char>, down: seq<char>,
    client: Client, response: seq<char>, requests: nat, clientErrors: nat,
    server: Server, buffer: seq<char>, serverErrors: nat)

  ghost predicate Init(s: State) {
    && |s.payload| == |s.response| == |s.buffer| > 0 && s.upCapacity > 0 && s.downCapacity > 0
    && s.up == [] && s.down == [] && s.client == Idle && s.server == Accepting
    && s.requests == 0 && s.clientErrors == 0 && s.serverErrors == 0
  }

  function AfterCSend(length: nat, sent: nat): Client { if sent < length then CSending(sent) else CReceiving(0) }
  function AfterCRecv(length: nat, got: nat): Client { if got < length then CReceiving(got) else Comparing }
  function AfterSRecv(length: nat, filled: nat): Server { if filled < length then SReceiving(filled) else SSending(0) }
  function AfterSSend(length: nat, sent: nat): Server { if sent < length then SSending(sent) else SReceiving(0) }

  /** Buffer `b` with the bytes of `data` written at position `at`. */
  function Fill(b: seq<char>, at: nat, data: seq<char>): seq<char>
    requires at + |data| <= |b|
  {
    b[..at] + data + b[at + |data|..]
  }

  /** The client moves n bytes, or takes one of its local steps when n is 0. */
  ghost predicate ClientMoves(s: State, s': State, n: nat) {
    var length := |s.payload|;
    match s.client
    case Idle => n == 0 && (s' == s.(client := CSending(0)) || s' == s.(client := CClosing))
    case CSending(sent) =>
      && n > 0 && sent + n <= length && |s.up| + n <= s.upCapacity
      && s' == s.(up := s.up + s.payload[sent..sent + n], client := AfterCSend(length, sent + n))
    case CReceiving(got) =>
      && n > 0 && got + n <= length == |s.response| && n <= |s.down|
      && s' == s.(down := s.down[n..], response := Fill(s.response, got, s.down[..n]),
              client := AfterCRecv(length, got + n))
    case Comparing =>
      n == 0 && s' == if s.response == s.payload then s.(requests := s.requests + 1, client := Idle)
                      else s.(clientErrors := s.clientErrors + 1, client := CClosing)
    case CClosing => n == 0 && s' == s.(client := CClosed)
    case CClosed => false
  }

  /** The server moves n bytes, accepts, sees the end of the stream, or closes. */
  ghost predicate ServerMoves(s: State, s': State, n: nat) {
    var length := |s.payload|;
    match s.server
    case Accepting => n == 0 && s' == s.(server := SReceiving(0))
    case SReceiving(filled) =>
      || (n > 0 && filled + n <= length == |s.buffer| && n <= |s.up| &&
          s' == s.(up := s.up[n..], buffer := Fill(s.buffer, filled, s.up[..n]),
              server := AfterSRecv(length, filled + n)))
      || (n == 0 && s.up == [] && s.client == CClosed &&   // end of stream: clean only at a round boundary
          s' == s.(server := SClosing, serverErrors := if filled == 0 then s.serverErrors else s.serverErrors + 1))
    case SSending(sent) =>
      && n > 0 && sent + n <= length == |s.buffer| && |s.down| + n <= s.downCapacity
      && s' == s.(down := s.down + s.buffer[sent..sent + n], server := AfterSSend(length, sent + n))
    case SClosing => n == 0 && s' == s.(server := SClosed)
    case SClosed => false
  }

  ghost predicate Moves(s: State, s': State) {
    exists n: nat :: ClientMoves(s, s', n) || ServerMoves(s, s', n)
  }

  /** A transfer, the accept or a close fails or times out. */
  ghost predicate Fails(s: State, s': State) {
    || ((s.client.CSending? || s.client.CReceiving?) &&
          s' == s.(clientErrors := s.clientErrors + 1, client := CClosing))
    || (s.client == CClosing && s' == s.(clientErrors := s.clientErrors + 1, client := CClosed))
    || ((s.server.SReceiving? || s.server.SSending?) &&
          s' == s.(serverErrors := s.serverErrors + 1, server := SClosing))
    || (s.server in {Accepting, SClosing} && s' == s.(serverErrors := s.serverErrors + 1, server := SClosed))
  }

  ghost predicate Next(s: State, s': State) { Moves(s, s') || Fails(s, s') }

  // ---- Where the two ends stand relative to each other ----

  predicate ServerAlive(s: State) { s.server == Accepting || s.server.SReceiving? || s.server.SSending? }

  /** What the server has of the current payload while it is taking it in. */
  function Filled(x: Server): nat { if x.SReceiving? then x.filled else 0 }

  predicate TakingIn(x: Server) { x == Accepting || x.SReceiving? }

  ghost predicate Shape(s: State) {
    && |s.payload| == |s.response| == |s.buffer| > 0 && s.upCapacity > 0 && s.downCapacity > 0
    && |s.up| <= s.upCapacity && |s.down| <= s.downCapacity
    && (s.client.CSending? ==> s.client.sent < |s.payload|)
    && (s.client.CReceiving? ==> s.client.got < |s.payload|)
    && (s.server.SReceiving? ==> s.server.filled < |s.payload|)
    && (s.server.SSending? ==> s.server.sent < |s.payload|)
  }

  /** The client's view: what is on its way down continues exactly what it has. */
  ghost predicate DownInv(s: State)
    requires Shape(s)
  {
    match s.client
    case Idle => s.down == []
    case CSending(_) => s.down == []
    case CReceiving(got) => s.down <= s.payload[got..] && s.response[..got] == s.payload[..got]
    case Comparing => s.down == [] && s.response == s.payload
    case _ => true
  }

  /** The server has taken in the first m bytes and the next ones, up to `end`, are on their way up. */
  ghost predicate Upward(s: State, end: nat)
    requires Shape(s) && end <= |s.payload|
  {
    var m := Filled(s.server);
    TakingIn(s.server) && m <= end && s.up == s.payload[m..end] && s.buffer[..m] == s.payload[..m]
  }

  ghost predicate Aligned(s: State)
    requires Shape(s)
  {
    match s.client
    case Idle => Upward(s, 0)
    case CSending(sent) => Upward(s, sent)
    case CReceiving(got) =>
      || (got == 0 && s.down == [] && Upward(s, |s.payload|))
      || (s.up == [] && s.server.SSending? && got <= s.server.sent && s.buffer == s.payload &&
            s.down == s.payload[got..s.server.sent])
      || (s.up == [] && s.server == SReceiving(0) && s.down == s.payload[got..])
    case Comparing => Upward(s, 0) && s.server != Accepting
    case _ => true
  }

  ghost predicate Inv(s: State) { Shape(s) && DownInv(s) && (ServerAlive(s) ==> Aligned(s)) }

  /** Slices of the payload: joining two, and taking bytes off the front of one. */
  lemma Slices(p: seq<char>, a: nat, b: nat, c: nat)
    requires a <= b <= c <= |p|
    ensures p[a..b] + p[b..c] == p[a..c]
    ensures p[a..c][..b - a] == p[a..b] && p[a..c][b - a..] == p[b..c]
  {
  }

  lemma FillExtends(b: seq<char>, at: nat, data: seq<char>, p: seq<char>)
    requires at + |data| <= |b| == |p| && b[..at] == p[..at] && data == p[at..at + |data|]
    ensures Fill(b, at, data)[..at + |data|] == p[..at + |data|]
    ensures at + |data| == |p| ==> Fill(b, at, data) == p
  {
    var f := Fill(b, at, data);
    assert f[..at + |data|] == b[..at] + data;
    Slices(p, 0, at, at + |data|);
    if at + |data| == |p| { assert f == f[..|p|] && p == p[..|p|]; }
  }

  lemma ClientSendKeeps(s: State, s': State, n: nat)
    requires Inv(s) && s.client.CSending? && ClientMoves(s, s', n)
    ensures Inv(s')
  {
    if ServerAlive(s) { Slices(s.payload, Filled(s.server), s.client.sent, s.client.sent + n); }
  }

  lemma ClientRecvKeeps(s: State, s': State, n: nat)
    requires Inv(s) && s.client.CReceiving? && ClientMoves(s, s', n)
    ensures Inv(s')
  {
    var got, length := s.client.got, |s.payload|;
    Slices(s.payload, got, got + n, length);
    assert s.down[..n] == s.payload[got..][..n] == s.payload[got..got + n];
    FillExtends(s.response, got, s.down[..n], s.payload);
    assert s.down[n..] <= s.payload[got + n..];
    if ServerAlive(s) {
      if s.server.SSending? { Slices(s.payload, got, got + n, s.server.sent); }
    }
  }

  lemma ClientKeeps(s: State, s': State, n: nat)
    requires Inv(s) && ClientMoves(s, s', n)
    ensures Inv(s')
  {
    if s.client.CSending? { ClientSendKeeps(s, s', n); }
    else if s.client.CReceiving? { ClientRecvKeeps(s, s', n); }
  }

  /** Where the bytes going up end while the server takes a payload in. */
  function UpEnd(s: State): nat {
    match s.client case CSending(sent) => sent case CReceiving(_) => |s.payload| case _ => 0
  }

  lemma ServerRecvKeeps(s: State, s': State, n: nat)
    requires Inv(s) && s.server.SReceiving? && n > 0 && ServerMoves(s, s', n)
    ensures Inv(s')
  {
    if s.client !in {CClosing, CClosed} { ServerTakesIn(s, s', n, UpEnd(s)); }
  }

  /** Taking bytes in continues the payload, and with the last one it is complete. */
  lemma ServerTakesIn(s: State, s': State, n: nat, end: nat)
    requires Shape(s) && end <= |s.payload| && Upward(s, end)
    requires s.server.SReceiving? && n > 0 && ServerMoves(s, s', n)
    ensures s' == s.(up := s'.up, buffer := s'.buffer, server := s'.server) && Shape(s')
    ensures if s.server.filled + n < |s.payload| then s'.server == SReceiving(s.server.filled + n) && Upward(s', end)
            else s'.server == SSending(0) && end == |s.payload| && s'.up == [] && s'.buffer == s.payload
  {
    var m := s.server.filled;
    Slices(s.payload, m, m + n, end);
    FillExtends(s.buffer, m, s.up[..n], s.payload);
  }

  lemma ServerSendKeeps(s: State, s': State, n: nat)
    requires Inv(s) && s.server.SSending? && ServerMoves(s, s', n)
    ensures Inv(s')
  {
    if s.client.CReceiving? { Slices(s.payload, s.client.got, s.server.sent, s.server.sent + n); }
  }

  lemma ServerKeeps(s: State, s': State, n: nat)
    requires Inv(s) && ServerMoves(s, s', n)
    ensures Inv(s')
  {
    if s.server.SReceiving? && n > 0 { ServerRecvKeeps(s, s', n); }
    else if s.server.SSending? { ServerSendKeeps(s, s', n); }
  }

  lemma ReachableInv(s0: State, s: State)
    requires Init(s0) && Reachable(Next, s0, s)
    ensures Inv(s)
  {
    forall t, t' | Inv(t) && Next(t, t') ensures Inv(t') {
      if n: nat :| ClientMoves(t, t', n) || ServerMoves(t, t', n) {
        if ClientMoves(t, t', n) { ClientKeeps(t, t', n); } else { ServerKeeps(t, t', n); }
      }
    }
    Invariance(Next, Inv, s0, s);
  }

  // ---- The guarantees ----

  /**
   * In every run, with or without failures, a round that got its bytes got the payload it sent: the
   * comparison succeeds and counts one request.
   */
  lemma EchoIsExact(s0: State, s: State, s': State, n: nat)
    requires Init(s0) && Reachable(Next, s0, s) && s.client == Comparing && ClientMoves(s, s', n)
    ensures s.response == s.payload
    ensures s'.requests == s.requests + 1 && s'.clientErrors == s.clientErrors && s'.client == Idle
  {
    ReachableInv(s0, s);
  }

  /** Without failures the client leaves only between rounds, and the server only after the client. */
  ghost predicate CleanInv(s: State) {
    && Inv(s) && s.clientErrors == 0 && s.serverErrors == 0
    && (s.client in {CClosing, CClosed} ==>
          s.up == [] && s.down == [] && s.server in {Accepting, SReceiving(0), SClosing, SClosed})
    && (s.server in {SClosing, SClosed} ==> s.client == CClosed)
  }

  lemma ReachableClean(s0: State, s: State)
    requires Init(s0) && Reachable(Moves, s0, s)
    ensures CleanInv(s)
  {
    forall t, t' | CleanInv(t) && Moves(t, t') ensures CleanInv(t') {
      var n: nat :| ClientMoves(t, t', n) || ServerMoves(t, t', n);
      if ClientMoves(t, t', n) { ClientKeepsClean(t, t', n); } else { ServerKeepsClean(t, t', n); }
    }
    Invariance(Moves, CleanInv, s0, s);
  }

  lemma ClientKeepsClean(s: State, s': State, n: nat)
    requires CleanInv(s) && ClientMoves(s, s', n)
    ensures CleanInv(s')
  {
    ClientKeeps(s, s', n);
  }

  lemma ServerKeepsClean(s: State, s': State, n: nat)
    requires CleanInv(s) && ServerMoves(s, s', n)
    ensures CleanInv(s')
  {
    ServerKeeps(s, s', n);
  }

  /** Without failures nobody ever counts an error, and the server ends at a round boundary. */
  lemma CleanRunsEndCleanly(s0: State, s: State)
    requires Init(s0) && Reachable(Moves, s0, s)
    ensures s.clientErrors == 0 && s.serverErrors == 0
    ensures s.server in {SClosing, SClosed} ==> s.client == CClosed && s.up == [] && s.down == []
    ensures s.client == CClosed && s.server.SReceiving? ==> s.server.filled == 0
  {
    ReachableClean(s0, s);
  }

  /** Without failures the pair never deadlocks: until both ends are closed one of them can move. */
  lemma NeverStuck(s0: State, s: State) returns (s': State)
    requires Init(s0) && Reachable(Moves, s0, s)
    requires s.client != CClosed || s.server != SClosed
    ensures Moves(s, s')
  {
    ReachableClean(s0, s);
    var length := |s.payload|;
    match s.server {
      case Accepting =>
        s' := s.(server := SReceiving(0));
        assert ServerMoves(s, s', 0);
      case SClosing =>
        s' := s.(server := SClosed);
        assert ServerMoves(s, s', 0);
      case SClosed =>
        assert false;
      case SReceiving(m) =>
        if s.up != [] && s.client !in {CClosing, CClosed} {
          assert Upward(s, UpEnd(s));
          s' := s.(up := s.up[1..], buffer := Fill(s.buffer, m, s.up[..1]), server := AfterSRecv(length, m + 1));
          assert ServerMoves(s, s', 1);
        } else {
          s' := ClientCanMove(s);
        }
      case SSending(sent) =>
        if s.down == [] {
          s' := s.(down := s.down + s.buffer[sent..sent + 1], server := AfterSSend(length, sent + 1));
          assert ServerMoves(s, s', 1);
        } else {
          s' := ClientCanMove(s);
        }
    }
  }

  /** With nothing going up and the server waiting, or something coming down, it is the client's turn. */
  lemma ClientCanMove(s: State) returns (s': State)
    requires CleanInv(s) && s.up == []
    requires s.server.SReceiving? || (s.server.SSending? && s.down != [])
    ensures Moves(s, s')
  {
    var length := |s.payload|;
    match s.client {
      case Idle =>
        s' := s.(client := CSending(0));
        assert ClientMoves(s, s', 0);
      case CSending(sent) =>
        s' := s.(up := s.up + s.payload[sent..sent + 1], client := AfterCSend(length, sent + 1));
        assert ClientMoves(s, s', 1);
      case CReceiving(got) =>
        assert s.down != [];
        s' := s.(down := s.down[1..], response := Fill(s.response, got, s.down[..1]),
            client := AfterCRecv(length, got + 1));
        assert ClientMoves(s, s', 1);
      case Comparing =>
        s' := s.(requests := s.requests + 1, client := Idle);
        assert ClientMoves(s, s', 0);
      case CClosing =>
        s' := s.(client := CClosed);
        assert ClientMoves(s, s', 0);
      case CClosed =>
        s' := s.(server := SClosing);
        assert ServerMoves(s, s', 0);
    }
  }

  /** Bytes moved in the current round: sent up, taken in, sent down and received. */
  function Moved(s: State): int {
    var length := |s.payload|;
    (if s.server == Accepting then 0 else 1) +
    match s.client
    case CSending(sent) => 2 * sent - |s.up|
    case CReceiving(got) => 2 * length - |s.up| + 2 * got + |s.down|
    case Comparing => 4 * length
    case _ => 4 * length + 1
  }

  /** A round ends: every step inside it moves its bytes on, and there are only so many to move. */
  lemma RoundProgresses(s0: State, s: State, s': State)
    requires Init(s0) && Reachable(Moves, s0, s) && Moves(s, s')
    requires s.client.CSending? || s.client.CReceiving? || s.client == Comparing
    ensures Moved(s) < Moved(s') <= 4 * |s.payload| + 2
  {
    ReachableClean(s0, s);
    var n: nat :| ClientMoves(s, s', n) || ServerMoves(s, s', n);
    if ClientMoves(s, s', n) {
      ClientKeeps(s, s', n);
      ClientAdvances(s, s', n);
    } else {
      ServerKeeps(s, s', n);
      ServerAdvances(s, s', n);
    }
    MovedBounded(s');
  }

  lemma ClientAdvances(s: State, s': State, n: nat)
    requires Inv(s) && ServerAlive(s) && ClientMoves(s, s', n)
    requires s.client.CSending? || s.client.CReceiving? || s.client == Comparing
    ensures Moved(s) < Moved(s')
  {
    if s.client.CReceiving? && s'.client == Comparing {
      assert |s.up| == 0;
      assert |s.down| <= |s.payload| - s.client.got;
    }
    if s.client.CSending? && s'.client.CReceiving? { assert s.down == []; }
  }

  lemma ServerAdvances(s: State, s': State, n: nat)
    requires Inv(s) && ServerAlive(s) && ServerMoves(s, s', n)
    requires s.client.CSending? || s.client.CReceiving? || s.client == Comparing
    ensures Moved(s) < Moved(s')
  {
  }

  lemma MovedBounded(s: State)
    requires Inv(s)
    ensures Moved(s) <= 4 * |s.payload| + 2
  {
    if s.client.CReceiving? { assert |s.down| <= |s.payload| - s.client.got; }
  }

  // ---- The end ----

  /** Once the client is gone and its bytes are taken in, the server ends, and a round cut short is counted. */
  lemma HalfRoundIsAnError(s: State, s': State, n: nat)
    requires s.client == CClosed && s.up == [] && s.server.SReceiving? && ServerMoves(s, s', n)
    ensures s'.server == SClosing
    ensures s'.serverErrors == s.serverErrors + (if s.server.filled > 0 then 1 else 0)
  {
  }

  function ServerLeft(pc: Server): nat {
    match pc
    case Accepting => 3
    case SReceiving(_) => 2
    case SSending(_) => 2
    case SClosing => 1
    case SClosed => 0
  }

  /** What is left until both ends are closed, when the client starts no further round. */
  function LeftToClose(s: State): nat
    requires Inv(s)
  {
    MovedBounded(s);
    if MidRound(s.client) then 4 * |s.payload| + 12 - Moved(s) else CloseLeft(s.client, s.server)
  }

  /** From every state of a clean run the client can stop, and both ends then close without an error. */
  lemma CanAlwaysFinish(s0: State, s: State) returns (t: State)
    requires Init(s0) && Reachable(Moves, s0, s)
    ensures Reachable(Moves, s0, t) && t.client == CClosed && t.server == SClosed
    ensures t.clientErrors == 0 && t.serverErrors == 0
  {
    t := s;
    ReachableClean(s0, t);
    while t.client != CClosed || t.server != SClosed
      invariant Reachable(Moves, s0, t) && CleanInv(t)
      decreases LeftToClose(t)
    {
      var next := StepToClose(s0, t);
      ReachableStep(Moves, s0, t, next);
      ReachableClean(s0, next);
      t := next;
    }
    CleanRunsEndCleanly(s0, t);
  }

  lemma StepToClose(s0: State, s: State) returns (s': State)
    requires Init(s0) && Reachable(Moves, s0, s) && CleanInv(s) && (s.client != CClosed || s.server != SClosed)
    ensures Moves(s, s') && CleanInv(s') && LeftToClose(s') < LeftToClose(s)
  {
    if s.client == Idle {
      s' := s.(client := CClosing);
      assert ClientMoves(s, s', 0);
    } else {
      s' := NeverStuck(s0, s);
    }
    ReachableStep(Moves, s0, s, s');
    ReachableClean(s0, s');
    if MidRound(s.client) { RoundShrinks(s0, s, s'); } else { ClosingShrinks(s, s'); }
  }

  predicate MidRound(c: Client) { c.CSending? || c.CReceiving? || c == Comparing }

  lemma RoundShrinks(s0: State, s: State, s': State)
    requires Init(s0) && Reachable(Moves, s0, s) && Moves(s, s') && Inv(s) && Inv(s') && MidRound(s.client)
    ensures LeftToClose(s') < LeftToClose(s)
  {
    RoundProgresses(s0, s, s');
  }

  /** What is left between rounds and after the last one. */
  function CloseLeft(c: Client, x: Server): nat
    requires !MidRound(c)
  {
    match c
    case Idle => 6 + ServerLeft(x)
    case CClosing => 5 + ServerLeft(x)
    case CClosed => ServerLeft(x)
  }

  lemma ClosingShrinks(s: State, s': State)
    requires Moves(s, s') && !MidRound(s.client) && !MidRound(s'.client)
    requires s.client == Idle ==> s'.client == CClosing
    requires s.client in {CClosing, CClosed} ==> s.up == [] && s.server in {Accepting, SReceiving(0), SClosing, SClosed}
    ensures CloseLeft(s'.client, s'.server) < CloseLeft(s.client, s.server)
  {
    var n: nat :| ClientMoves(s, s', n) || ServerMoves(s, s', n);
    if !ClientMoves(s, s', n) { assert s'.client == s.client; }
  }
}
