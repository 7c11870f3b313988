/**
  The game session of server.py.

  The Python server keeps its state in module globals (`board`, `players`,
  `spectators`, `current_turn`, `white_time`, `black_time`, `last_move_time`)
  and changes them from the connection handlers and the clock thread inside
  `with lock:` blocks. Here that state is the value `State`, each locked block
  is one step function on it, and the class `Session` holds the same fields
  and performs each step in place, proved equal to the step function.

  Sockets are opaque numbers, `safe_send` appends to `outbox`, `time.time()`
  is the parameter `now`, and `os._exit(0)` records the announced result in
  `outcome`: once it is `Some`, the process is gone and nothing else happens.

  In the source, the turn check that precedes a move and the whole handling
  of `resign`, `offer_draw`, `accept_draw` and `decline_draw` run outside the
  lock. Each is still one atomic step here; interleavings are not modelled.
 */
module Server {
  import opened Wrappers
  import opened Text
  import opened Chess
  import opened TimeFormat

  /** A connected socket. */
  type Sock = nat

  /** The `role` a connection was admitted with. */
  datatype Role = Player | Spectator

  /** One `safe_send(sock, text)`. */
  datatype Send = Send(to: Sock, text: string)

  /**
    What server.py asks of python-chess about the board, given the moves
    pushed so far: `Move.from_uci` (`None` where it raises `ValueError`),
    membership in `legal_moves`, `fen()`, `is_game_over()` and `result()`.
   */
  datatype Rules = Rules(
    fromUci: string -> Option<Move>,
    isLegal: (seq<Move>, Move) -> bool,
    fen: seq<Move> -> string,
    isGameOver: seq<Move> -> bool,
    result: seq<Move> -> string)

  /** How the role handshake of `handle_client` ends. */
  datatype Admission = Seated(color: Color) | Spectating | GameFull | InvalidChoice

  const StartSeconds: real := 600.0
  const NamePrompt := "Enter your name:"
  const RolePrompt := "Are you a player or spectator? (p/s)"
  const InvalidMove := "Invalid move"
  const DrawOffer := "draw_offer"
  const DrawDeclined := "draw_declined"
  const DrawByAgreement := "Draw by agreement"

  /** The reply to the role answer. */
  function Reply(a: Admission): string
  {
    match a
    case Seated(White) => "You are white"
    case Seated(Black) => "You are black"
    case Spectating => "You are a spectator"
    case GameFull => "Game is full"
    case InvalidChoice => "Invalid choice"
  }

  function GameOver(reason: string): string
  {
    "Game over: " + reason
  }

  /** The reason when the clock of `flagged` runs out. */
  function TimeoutLabel(flagged: Color): string
  {
    if flagged == White then "Black wins by timeout" else "White wins by timeout"
  }

  /** The reason when `loser` resigns. */
  function ResignLabel(loser: Color): string
  {
    if loser == White then "Black wins by resignation" else "White wins by resignation"
  }

  /** The reason for `board.result()` once the game is over on the board. */
  function ResultLabel(result: string): string
  {
    if result == "1-0" then "White wins" else if result == "0-1" then "Black wins" else "Draw"
  }

  /** The eight ways a game is announced to end. */
  predicate IsEndLabel(reason: string)
  {
    reason in {"White wins by timeout", "Black wins by timeout",
              "White wins by resignation", "Black wins by resignation",
              DrawByAgreement, "White wins", "Black wins", "Draw"}
  }

  /** The clock update broadcast once a second. */
  function TimerMessage(whiteTime: real, blackTime: real): string
  {
    "timer:" + FormatTime(whiteTime) + "," + FormatTime(blackTime)
  }

  /** The socket in a seat, if any, as a list of zero or one recipients. */
  function Seat(o: Option<Sock>): seq<Sock>
  {
    if o.Some? then [o.value] else []
  }

  /** The same text sent to each of `to`, in order. */
  function Fanout(to: seq<Sock>, text: string): seq<Send>
  {
    seq(|to|, i requires 0 <= i < |to| => Send(to[i], text))
  }

  predicate NoDup(xs: seq<Sock>)
  {
    forall i, j :: 0 <= i < j < |xs| ==> xs[i] != xs[j]
  }

  /** `xs.remove(x)`: the list without the first occurrence of `x`. */
  function RemoveFirst(xs: seq<Sock>, x: Sock): (r: seq<Sock>)
    requires x in xs
    ensures |r| == |xs| - 1
    ensures forall y :: y in xs && y != x ==> y in r
    ensures forall y :: y in r ==> y in xs
    ensures NoDup(xs) ==> NoDup(r) && x !in r
    ensures exists i :: 0 <= i < |xs| && xs[i] == x && x !in xs[..i] && r == xs[..i] + xs[i + 1..]
  {
    var i := IndexOf(xs, x);
    var r := xs[..i] + xs[i + 1..];
    assert 0 <= i < |xs| && xs[i] == x && x !in xs[..i] && r == xs[..i] + xs[i + 1..];
    assert forall k :: 0 <= k < |r| ==> r[k] == if k < i then xs[k] else xs[k + 1];
    assert forall y :: y in xs && y != x ==> y in r by {
      forall y | y in xs && y != x ensures y in r {
        var k :| 0 <= k < |xs| && xs[k] == y;
        assert k != i;
        if k < i { assert r[k] == y; } else { assert r[k - 1] == y; }
      }
    }
    r
  }

  datatype State = State(
    moves: seq<Move>,          // the board: the moves pushed since the start position
    white: Option<Sock>,       // players['white']
    black: Option<Sock>,       // players['black']
    spectators: seq<Sock>,
    turn: Color,               // current_turn
    whiteTime: real,
    blackTime: real,
    lastMoveTime: real,
    outbox: seq<Send>,         // every message sent so far, in order
    outcome: Option<string>)   // the announced result once the process has exited
  {
    /** The socket in the seat of `c`. */
    function Holder(c: Color): Option<Sock>
    {
      if c == White then white else black
    }

    /** The time left on the clock of `c`. */
    function Clock(c: Color): real
    {
      if c == White then whiteTime else blackTime
    }

    /** `[players['white'], players['black']] + spectators`, skipping empty seats. */
    function Recipients(): seq<Sock>
    {
      Seat(white) + Seat(black) + spectators
    }

    predicate Participant(sock: Sock)
    {
      white == Some(sock) || black == Some(sock) || sock in spectators
    }

    /**
      The session invariant: no socket holds both seats or a seat and a place
      among the spectators, no spectator is listed twice, the side to move is
      the one the board's move count gives, and while the game runs both
      clocks have time left.
     */
    predicate Valid()
    {
      && (white.Some? && black.Some? ==> white.value != black.value)
      && (white.Some? ==> white.value !in spectators)
      && (black.Some? ==> black.value !in spectators)
      && NoDup(spectators)
      && turn == ToMoveAfter(|moves|)
      && (outcome.None? ==> whiteTime > 0.0 && blackTime > 0.0)
    }

    /** The seats, the spectators, the board and the clocks are as in `s`. */
    predicate SameAs(s: State)
    {
      && moves == s.moves && white == s.white && black == s.black && spectators == s.spectators
      && turn == s.turn && whiteTime == s.whiteTime && blackTime == s.blackTime
    }

    /** `text` sent to every participant. */
    function Broadcast(text: string): State
    {
      this.(outbox := outbox + Fanout(Recipients(), text))
    }

    /** "Game over: <reason>" sent to every participant, then the process exits. */
    function EndWith(reason: string): State
    {
      Broadcast(GameOver(reason)).(outcome := Some(reason))
    }

    /** The outcome of the role answer `raw` (stripped and lower-cased). */
    function AdmissionOf(raw: string): Admission
    {
      var role := Lower(Strip(raw));
      if role == "p" then
        if white.None? then Seated(White)
        else if black.None? then Seated(Black)
        else GameFull
      else if role == "s" then Spectating
      else InvalidChoice
    }

    /** The handshake of `handle_client` for a new socket answering `raw` to the role prompt. */
    function Joined(rules: Rules, sock: Sock, raw: string): State
    {
      var a := AdmissionOf(raw);
      this.(
        white := if a == Seated(White) then Some(sock) else white,
        black := if a == Seated(Black) then Some(sock) else black,
        spectators := if a == Spectating then spectators + [sock] else spectators,
        outbox := outbox + [Send(sock, NamePrompt), Send(sock, RolePrompt)] + [Send(sock, Reply(a))]
                  + (if a == GameFull || a == InvalidChoice then [] else [Send(sock, rules.fen(moves))]))
    }

    /** One pass of `timer_thread` at time `now`. */
    function Ticked(now: real): (r: State)
      ensures r.moves == moves && r.white == white && r.black == black
      ensures r.spectators == spectators && r.turn == turn
      ensures white.None? || black.None? ==> r == this.(lastMoveTime := now)
      ensures white.Some? && black.Some? ==>
        && r.Clock(turn) == Clock(turn) - (now - lastMoveTime)
        && r.Clock(turn.Opponent()) == Clock(turn.Opponent())
        && (r.Clock(turn) <= 0.0 ==>
              && r.outcome == Some(TimeoutLabel(turn)) && r.lastMoveTime == lastMoveTime
              && r.outbox == outbox + Fanout(Recipients(), GameOver(TimeoutLabel(turn))))
        && (r.Clock(turn) > 0.0 ==>
              && r.outcome == outcome && r.lastMoveTime == now
              && r.outbox == outbox + Fanout(Recipients(), TimerMessage(r.whiteTime, r.blackTime)))
      ensures lastMoveTime <= now ==> r.whiteTime <= whiteTime && r.blackTime <= blackTime
      ensures Valid() ==> r.Valid()
    {
      if white.None? || black.None? then
        this.(lastMoveTime := now)
      else
        var elapsed := now - lastMoveTime;
        var charged := if turn == White then this.(whiteTime := whiteTime - elapsed)
                       else this.(blackTime := blackTime - elapsed);
        if charged.Clock(turn) <= 0.0 then
          charged.EndWith(TimeoutLabel(turn))
        else
          charged.(lastMoveTime := now).Broadcast(TimerMessage(charged.whiteTime, charged.blackTime))
    }

    /** Whether `text` parses as a move that is legal on the board. */
    predicate Accepts(rules: Rules, text: string)
    {
      rules.fromUci(text).Some? && rules.isLegal(moves, rules.fromUci(text).value)
    }

    /** A message that is none of the four commands, taken as a move in UCI notation. */
    function Moved(rules: Rules, sock: Sock, role: Role, text: string, now: real): (r: State)
      ensures r.white == white && r.black == black && r.spectators == spectators
      ensures r.whiteTime == whiteTime && r.blackTime == blackTime
      ensures !(role == Player && Holder(turn) == Some(sock)) ==> r == this
      ensures role == Player && Holder(turn) == Some(sock) && !Accepts(rules, text) ==>
        r == this.(outbox := outbox + [Send(sock, InvalidMove)])
      ensures role == Player && Holder(turn) == Some(sock) && Accepts(rules, text) ==>
        var board := moves + [rules.fromUci(text).value];
        var over := rules.isGameOver(board);
        var reason := ResultLabel(rules.result(board));
        && r.moves == board && r.turn == turn.Opponent() && r.lastMoveTime == now
        && r.outbox == outbox + Fanout(Recipients(), rules.fen(board))
                       + (if over then Fanout(Recipients(), GameOver(reason)) else [])
        && r.outcome == (if over then Some(reason) else outcome)
      ensures Valid() ==> r.Valid()
    {
      if role == Player && ((white == Some(sock) && turn == White) || (black == Some(sock) && turn == Black)) then
        match rules.fromUci(text)
        case None => this.(outbox := outbox + [Send(sock, InvalidMove)])
        case Some(m) =>
          if rules.isLegal(moves, m) then
            var pushed := this.(moves := moves + [m], turn := turn.Opponent(), lastMoveTime := now);
            var shown := pushed.Broadcast(rules.fen(pushed.moves));
            if rules.isGameOver(pushed.moves) then shown.EndWith(ResultLabel(rules.result(pushed.moves)))
            else shown
          else
            this.(outbox := outbox + [Send(sock, InvalidMove)])
      else
        this
    }

    /** `resign`: only a player's resignation counts, and it ends the game. */
    function Resigned(sock: Sock, role: Role): (r: State)
      ensures role == Spectator ==> r == this
      ensures role == Player ==>
        && r.SameAs(this) && r.lastMoveTime == lastMoveTime
        && r.outcome == Some(ResignLabel(if white == Some(sock) then White else Black))
        && r.outbox == outbox + Fanout(Recipients(), GameOver(r.outcome.value))
    {
      if role == Player then
        EndWith(if white == Some(sock) then "Black wins by resignation" else "White wins by resignation")
      else
        this
    }

    /** The opponent `offer_draw` and `decline_draw` write to. */
    function OpponentOf(sock: Sock): Option<Sock>
    {
      if white == Some(sock) then black else white
    }

    /** `text` to the opponent of `sock`, if that seat is taken. */
    function ToOpponent(sock: Sock, text: string): (r: State)
      ensures r.SameAs(this) && r.lastMoveTime == lastMoveTime && r.outcome == outcome
      ensures r.outbox == outbox + Fanout(Seat(OpponentOf(sock)), text)
    {
      var opponent := OpponentOf(sock);
      if opponent.Some? then this.(outbox := outbox + [Send(opponent.value, text)]) else this
    }

    /** `accept_draw`, from any connection: the game ends as a draw by agreement. */
    function DrawAccepted(): (r: State)
      ensures r.SameAs(this) && r.lastMoveTime == lastMoveTime
      ensures r.outcome == Some(DrawByAgreement)
      ensures r.outbox == outbox + Fanout(Recipients(), GameOver(DrawByAgreement))
    {
      EndWith(DrawByAgreement)
    }

    /** One non-empty command read by the loop of `handle_client`. */
    function Dispatched(rules: Rules, sock: Sock, role: Role, message: string, now: real): (r: State)
      ensures r.white == white && r.black == black && r.spectators == spectators
      ensures r.moves != moves ==> message !in {"resign", "offer_draw", "accept_draw", "decline_draw"}
      ensures Valid() ==> r.Valid()
    {
      if message == "resign" then Resigned(sock, role)
      else if message == "offer_draw" then ToOpponent(sock, DrawOffer)
      else if message == "accept_draw" then DrawAccepted()
      else if message == "decline_draw" then ToOpponent(sock, DrawDeclined)
      else Moved(rules, sock, role, message, now)
    }

    /** The cleanup after the loop of `handle_client`: give up the seat or the spectator place. */
    function Released(sock: Sock, role: Role): (r: State)
      ensures r.moves == moves && r.turn == turn && r.whiteTime == whiteTime && r.blackTime == blackTime
      ensures r.lastMoveTime == lastMoveTime && r.outbox == outbox && r.outcome == outcome
      ensures r.white == white || (white == Some(sock) && r.white.None?)
      ensures r.black == black || (black == Some(sock) && r.black.None?)
      ensures r.spectators == spectators || (sock in spectators && r.spectators == RemoveFirst(spectators, sock))
      ensures Valid() && role == Player && sock !in spectators ==> !r.Participant(sock)
      ensures Valid() && role == Spectator && white != Some(sock) && black != Some(sock) ==> !r.Participant(sock)
      ensures Valid() ==> r.Valid()
    {
      if role == Player then
        if white == Some(sock) then this.(white := None)
        else if black == Some(sock) then this.(black := None)
        else this
      else if sock in spectators then
        this.(spectators := RemoveFirst(spectators, sock))
      else
        this
    }

    /** One read of the loop of `handle_client`: a failed or empty read ends the connection. */
    function AfterRead(rules: Rules, sock: Sock, role: Role, input: Received, now: real): (r: State)
      ensures input.RecvFailed? || Strip(input.text) == [] ==> r == Released(sock, role)
      ensures input.Chunk? && Strip(input.text) != [] ==> r == Dispatched(rules, sock, role, Strip(input.text), now)
      ensures Valid() ==> r.Valid()
    {
      match input
      case RecvFailed => Released(sock, role)
      case Chunk(text) =>
        var message := Strip(text);
        if message == "" then Released(sock, role) else Dispatched(rules, sock, role, message, now)
    }
  }

  /** The globals of server.py when it starts at time `now`. */
  function Initial(now: real): (s: State)
    ensures s.Valid() && s.Recipients() == [] && s.outcome.None?
    ensures s.moves == [] && s.turn == White && s.outbox == [] && s.lastMoveTime == now
    ensures s.whiteTime == s.blackTime == StartSeconds
  {
    State([], None, None, [], White, StartSeconds, StartSeconds, now, [], None)
  }
  /** A seated player's draw notices go to the other seat, a spectator's to White's seat. */
  lemma DrawNoticeRecipient(s: State, sock: Sock)
    requires s.Valid()
    ensures s.black == Some(sock) ==> s.OpponentOf(sock) == s.white
    ensures s.white == Some(sock) ==> s.OpponentOf(sock) == s.black
    ensures !s.Participant(sock) || sock in s.spectators ==> s.OpponentOf(sock) == s.white
  {
  }

  /** A resigning player loses, whichever seat they hold. */
  lemma ResignerLoses(s: State, sock: Sock, c: Color)
    requires s.Valid() && s.Holder(c) == Some(sock)
    ensures s.Resigned(sock, Player).outcome == Some(ResignLabel(c))
  {
  }

  /** Giving up a seat or a spectator place a second time changes nothing. */
  lemma ReleaseIdempotent(s: State, sock: Sock, role: Role)
    requires s.Valid()
    ensures s.Released(sock, role).Released(sock, role) == s.Released(sock, role)
  {
    var r := s.Released(sock, role);
    if role == Spectator && sock in s.spectators {
      assert sock !in r.spectators;
    }
  }

  /** Under the invariant, a broadcast reaches every participant exactly once. */
  lemma RecipientsDistinct(s: State)
    requires s.Valid()
    ensures NoDup(s.Recipients())
    ensures forall x :: x in s.Recipients() <==> s.Participant(x)
  {
    var seats := Seat(s.white) + Seat(s.black);
    assert NoDup(seats);
    var all := seats + s.spectators;
    forall i, j | 0 <= i < j < |all| ensures all[i] != all[j] {
      if j >= |seats| && i < |seats| {
        assert all[j] == s.spectators[j - |seats|];
        assert all[i] in seats;
      } else if i >= |seats| {
        assert all[i] == s.spectators[i - |seats|] && all[j] == s.spectators[j - |seats|];
      }
    }
  }

  /**
    A player's seat goes to an answer that strips to "p" or "P", a place among
    the spectators to "s" or "S"; White's seat is offered first, then Black's.
   */
  lemma AdmissionCases(s: State, raw: string)
    ensures var a := s.AdmissionOf(raw);
      && (a.Seated? || a == GameFull <==> Strip(raw) == "p" || Strip(raw) == "P")
      && (a == Spectating <==> Strip(raw) == "s" || Strip(raw) == "S")
      && (a == Seated(White) ==> s.white.None?)
      && (a == Seated(Black) ==> s.white.Some? && s.black.None?)
      && (a == GameFull ==> s.white.Some? && s.black.Some?)
  {
    LowerIsLetter(Strip(raw), 'p');
    LowerIsLetter(Strip(raw), 's');
  }

  /**
    A newcomer never takes a seat that is held: a seat goes to the newcomer
    only when it was free, the other seat stays as it was, and nothing but
    the seats, the spectators and the messages changes.
   */
  lemma JoinedSeats(s: State, rules: Rules, sock: Sock, raw: string)
    ensures var a := s.AdmissionOf(raw); var r := s.Joined(rules, sock, raw);
      && r.moves == s.moves && r.turn == s.turn && r.outcome == s.outcome
      && r.whiteTime == s.whiteTime && r.blackTime == s.blackTime && r.lastMoveTime == s.lastMoveTime
      && (a.Seated? ==> s.Holder(a.color).None? && r.Holder(a.color) == Some(sock)
                        && r.Holder(a.color.Opponent()) == s.Holder(a.color.Opponent()))
      && (!a.Seated? ==> r.white == s.white && r.black == s.black)
      && (s.white.Some? ==> r.white == s.white)
      && (s.black.Some? ==> r.black == s.black)
  {
    AdmissionCases(s, raw);
  }

  /** A new socket joining keeps the session invariant. */
  lemma JoinedKeepsValid(s: State, rules: Rules, sock: Sock, raw: string)
    requires s.Valid() && !s.Participant(sock)
    ensures s.Joined(rules, sock, raw).Valid()
  {
    var r := s.Joined(rules, sock, raw);
    AdmissionCases(s, raw);
    if s.AdmissionOf(raw) == Spectating {
      assert r.spectators == s.spectators + [sock];
      assert NoDup(r.spectators);
    }
  }

  /**
    An answer that strips to "s" or "S" always joins the spectators and is
    told so before the board; any answer that strips to none of "p", "P",
    "s", "S" is refused with "Invalid choice", changes no place and gets no
    board.
   */
  lemma SpectateOrRefuse(s: State, rules: Rules, sock: Sock, raw: string)
    ensures var r := s.Joined(rules, sock, raw);
      && (Strip(raw) in {"s", "S"} ==>
            && r.white == s.white && r.black == s.black
            && r.spectators == s.spectators + [sock]
            && r.outbox == s.outbox + [Send(sock, NamePrompt), Send(sock, RolePrompt)]
                           + [Send(sock, "You are a spectator")] + [Send(sock, rules.fen(s.moves))])
      && (Strip(raw) !in {"p", "P", "s", "S"} ==>
            && r.white == s.white && r.black == s.black && r.spectators == s.spectators
            && r.outbox == s.outbox + [Send(sock, NamePrompt), Send(sock, RolePrompt)] + [Send(sock, "Invalid choice")])
  {
    AdmissionCases(s, raw);
    var a := s.AdmissionOf(raw);
    assert Strip(raw) in {"s", "S"} ==> a == Spectating;
    assert Strip(raw) !in {"p", "P", "s", "S"} ==> a == InvalidChoice;
    JoinedAs(s, rules, sock, raw, a);
  }

  /** `Joined` spelled out for a given admission. */
  lemma JoinedAs(s: State, rules: Rules, sock: Sock, raw: string, a: Admission)
    requires a == s.AdmissionOf(raw)
    ensures var r := s.Joined(rules, sock, raw);
      && (a == Spectating ==>
            && r.white == s.white && r.black == s.black
            && r.spectators == s.spectators + [sock]
            && r.outbox == s.outbox + [Send(sock, NamePrompt), Send(sock, RolePrompt)]
                           + [Send(sock, "You are a spectator")] + [Send(sock, rules.fen(s.moves))])
      && (a == InvalidChoice ==>
            && r.white == s.white && r.black == s.black && r.spectators == s.spectators
            && r.outbox == s.outbox + [Send(sock, NamePrompt), Send(sock, RolePrompt)] + [Send(sock, "Invalid choice")])
  {
  }

  /** What can happen next: a connection arrives, a connection's read returns, or the clock fires. */
  datatype Event =
    | Connect(sock: Sock, answer: string)
    | Input(sock: Sock, role: Role, input: Received, now: real)
    | TimerFires(now: real)

  function Step(rules: Rules, s: State, e: Event): State
  {
    match e
    case Connect(sock, answer) => s.Joined(rules, sock, answer)
    case Input(sock, role, input, now) => s.AfterRead(rules, sock, role, input, now)
    case TimerFires(now) => s.Ticked(now)
  }

  /** The events in order, until one of them ends the process. */
  function Run(rules: Rules, s: State, events: seq<Event>): State
    decreases |events|
  {
    if events == [] || s.outcome.Some? then s else Run(rules, Step(rules, s, events[0]), events[1..])
  }

  /** Every connection that arrives during the run is a new socket. */
  ghost predicate NewSockets(rules: Rules, s: State, events: seq<Event>)
    decreases |events|
  {
    || events == [] || s.outcome.Some?
    || ((events[0].Connect? ==> !s.Participant(events[0].sock))
        && NewSockets(rules, Step(rules, s, events[0]), events[1..]))
  }

  /**
    Seat exclusivity, turn alternation and live clocks hold after any sequence
    of joins, commands, disconnects and clock ticks.
   */
  lemma {:induction false} RunKeepsValid(rules: Rules, s: State, events: seq<Event>)
    requires s.Valid() && NewSockets(rules, s, events)
    ensures Run(rules, s, events).Valid()
    decreases |events|
  {
    if events != [] && s.outcome.None? {
      if events[0].Connect? {
        JoinedKeepsValid(s, rules, events[0].sock, events[0].answer);
      }
      RunKeepsValid(rules, Step(rules, s, events[0]), events[1..]);
    }
  }

  /** `r` has ended with one of the eight reasons, announced last to each of `before`. */
  predicate Announced(r: State, before: seq<Sock>)
  {
    && r.outcome.Some? && IsEndLabel(r.outcome.value)
    && |before| <= |r.outbox|
    && r.outbox[|r.outbox| - |before|..] == Fanout(before, GameOver(r.outcome.value))
  }

  lemma AnnouncedLast(s: State, prefix: seq<Send>, r: State)
    requires r.outcome.Some? && IsEndLabel(r.outcome.value)
    requires r.outbox == prefix + Fanout(s.Recipients(), GameOver(r.outcome.value))
    ensures Announced(r, s.Recipients())
  {
  }

  lemma DispatchAnnounces(rules: Rules, s: State, sock: Sock, role: Role, message: string, now: real)
    requires s.outcome.None? && s.Dispatched(rules, sock, role, message, now).outcome.Some?
    ensures Announced(s.Dispatched(rules, sock, role, message, now), s.Recipients())
  {
    var r := s.Dispatched(rules, sock, role, message, now);
    if message == "resign" {
      AnnouncedLast(s, s.outbox, r);
    } else if message == "accept_draw" {
      AnnouncedLast(s, s.outbox, r);
    } else if message != "offer_draw" && message != "decline_draw" {
      var board := s.moves + [rules.fromUci(message).value];
      AnnouncedLast(s, s.outbox + Fanout(s.Recipients(), rules.fen(board)), r);
    }
  }

  /**
    The step that ends a game records one of the eight reasons and, as its
    last messages, announces that reason to every participant of the state
    it started from.
   */
  lemma EndIsAnnounced(rules: Rules, s: State, e: Event)
    requires s.outcome.None? && Step(rules, s, e).outcome.Some?
    ensures Announced(Step(rules, s, e), s.Recipients())
  {
    match e {
      case Connect(sock, answer) =>
      case TimerFires(now) =>
        AnnouncedLast(s, s.outbox, s.Ticked(now));
      case Input(sock, role, input, now) =>
        DispatchAnnounces(rules, s, sock, role, Strip(input.text), now);
    }
  }

  /** Every participant of `s` is among the recipients of each broadcast from `s`. */
  lemma FanoutReaches(s: State, text: string, x: Sock)
    requires s.Participant(x)
    ensures Send(x, text) in Fanout(s.Recipients(), text)
  {
    assert x in s.Recipients();
    var k :| 0 <= k < |s.Recipients()| && s.Recipients()[k] == x;
    assert Fanout(s.Recipients(), text)[k] == Send(x, text);
  }

  /**
    A newcomer asking to play (any answer that strips to "p" or "P") takes
    White if it is free, else Black if it is free, else is told the game is
    full; no one else's place changes. A seated newcomer is told its colour
    and then sent the board.
   */
  lemma AskToPlay(s: State, rules: Rules, sock: Sock, raw: string)
    requires Strip(raw) in {"p", "P"}
    ensures var r := s.Joined(rules, sock, raw);
      && r.spectators == s.spectators
      && (s.white.None? ==> r.white == Some(sock) && r.black == s.black)
      && (s.white.Some? && s.black.None? ==> r.white == s.white && r.black == Some(sock))
      && (s.white.Some? && s.black.Some? ==>
            && r.white == s.white && r.black == s.black
            && r.outbox == s.outbox + [Send(sock, NamePrompt), Send(sock, RolePrompt)] + [Send(sock, "Game is full")]
            && r.outbox[|r.outbox| - 1] == Send(sock, "Game is full"))
      && (s.white.None? || s.black.None? ==>
            r.outbox == s.outbox + [Send(sock, NamePrompt), Send(sock, RolePrompt)]
                        + [Send(sock, if s.white.None? then "You are white" else "You are black")]
                        + [Send(sock, rules.fen(s.moves))])
  {
    SeatOrder(s, raw);
  }

  /** The seat order of the role answer: White first, then Black, then the game is full. */
  lemma SeatOrder(s: State, raw: string)
    requires Strip(raw) in {"p", "P"}
    ensures s.AdmissionOf(raw) ==
      if s.white.None? then Seated(White) else if s.black.None? then Seated(Black) else GameFull
  {
    AdmissionCases(s, raw);
    var ad := s.AdmissionOf(raw);
    assert ad.Seated? || ad == GameFull;
  }

  /** The first two players to ask to play take White and then Black. */
  lemma FirstTwoSeated(rules: Rules, now: real, a: Sock, b: Sock, x: string, y: string)
    requires Strip(x) in {"p", "P"} && Strip(y) in {"p", "P"}
    ensures var two := Initial(now).Joined(rules, a, x).Joined(rules, b, y);
      two.white == Some(a) && two.black == Some(b) && two.spectators == []
  {
    var one := Initial(now).Joined(rules, a, x);
    AskToPlay(Initial(now), rules, a, x);
    AskToPlay(one, rules, b, y);
  }

  /** Two players asking to play take White and then Black; a third is turned away. */
  lemma ThirdPlayerTurnedAway(rules: Rules, now: real, a: Sock, b: Sock, c: Sock, x: string, y: string, z: string)
    requires Strip(x) in {"p", "P"} && Strip(y) in {"p", "P"} && Strip(z) in {"p", "P"}
    ensures var three := Initial(now).Joined(rules, a, x).Joined(rules, b, y).Joined(rules, c, z);
      && three.white == Some(a) && three.black == Some(b) && three.spectators == []
      && three.outbox[|three.outbox| - 1] == Send(c, "Game is full")
  {
    var two := Initial(now).Joined(rules, a, x).Joined(rules, b, y);
    FirstTwoSeated(rules, now, a, b, x, y);
    AskToPlay(two, rules, c, z);
  }

  /** The two answers to a draw offer: accepting ends the game, declining tells the offerer. */
  lemma DrawAnswerDispatched(s: State, rules: Rules, sock: Sock, role: Role, accepted: bool, now: real)
    ensures s.Dispatched(rules, sock, role, if accepted then "accept_draw" else "decline_draw", now)
      == if accepted then s.DrawAccepted() else s.ToOpponent(sock, DrawDeclined)
  {
    var answer := if accepted then "accept_draw" else "decline_draw";
    assert answer != "resign" && answer != "offer_draw" by {
      assert answer[0] != "resign"[0] && answer[0] != "offer_draw"[0];
    }
    assert accepted || answer != "accept_draw" by {
      assert accepted || answer[0] != "accept_draw"[0];
    }
  }

  /** White's clock runs out before anyone moved: everyone hears that Black wins by timeout. */
  lemma WhiteFlagsFirst(s: State, now: real, x: Sock)
    requires s.Valid() && s.outcome.None? && s.moves == [] && s.white.Some? && s.black.Some?
    requires now - s.lastMoveTime >= s.whiteTime
    requires s.Participant(x)
    ensures s.Ticked(now).outcome == Some("Black wins by timeout")
    ensures Send(x, GameOver("Black wins by timeout")) in s.Ticked(now).outbox
  {
    FanoutReaches(s, GameOver("Black wins by timeout"), x);
  }

  /** Black resigns: everyone hears that White wins by resignation. */
  lemma BlackResigns(s: State, sock: Sock, x: Sock)
    requires s.Valid() && s.black == Some(sock) && s.Participant(x)
    ensures s.Resigned(sock, Player).outcome == Some("White wins by resignation")
    ensures Send(x, GameOver("White wins by resignation")) in s.Resigned(sock, Player).outbox
  {
    FanoutReaches(s, GameOver("White wins by resignation"), x);
  }

  /**
    White offers a draw: only Black hears of it. Black accepts: everyone
    hears that the game is drawn by agreement.
   */
  lemma DrawByAgreementScenario(s: State, w: Sock, b: Sock, x: Sock)
    requires s.Valid() && s.white == Some(w) && s.black == Some(b) && s.Participant(x)
    ensures var offered := s.ToOpponent(w, DrawOffer);
      && offered.outbox == s.outbox + [Send(b, "draw_offer")]
      && offered.DrawAccepted().outcome == Some("Draw by agreement")
      && Send(x, GameOver("Draw by agreement")) in offered.DrawAccepted().outbox
  {
    var offered := s.ToOpponent(w, DrawOffer);
    assert offered.Recipients() == s.Recipients();
    FanoutReaches(offered, GameOver(DrawByAgreement), x);
  }

  /** The targets of a broadcast loop that are not `None`, in order. */
  function Present(targets: seq<Option<Sock>>): seq<Sock>
  {
    if targets == [] then [] else Present(targets[..|targets| - 1]) + Seat(targets[|targets| - 1])
  }

  /** Each socket as an occupied place. */
  function Occupied(xs: seq<Sock>): seq<Option<Sock>>
  {
    seq(|xs|, i requires 0 <= i < |xs| => Some(xs[i]))
  }

  /** `[players['white'], players['black']] + spectators`, as the loop sees it. */
  function Targets(s: State): seq<Option<Sock>>
  {
    [s.white, s.black] + Occupied(s.spectators)
  }

  /** One more place at the end adds its socket, if any, at the end. */
  lemma PresentSnoc(targets: seq<Option<Sock>>, last: Option<Sock>)
    ensures Present(targets + [last]) == Present(targets) + Seat(last)
  {
    var whole := targets + [last];
    assert whole[..|whole| - 1] == targets;
  }

  /** Skipping the empty places of two lists in turn skips them in the whole. */
  lemma {:induction false} PresentConcat(a: seq<Option<Sock>>, b: seq<Option<Sock>>)
    ensures Present(a + b) == Present(a) + Present(b)
    decreases |b|
  {
    if b == [] {
      assert a + b == a;
    } else {
      var front, last := b[..|b| - 1], b[|b| - 1];
      assert b == front + [last];
      assert a + b == (a + front) + [last];
      PresentConcat(a, front);
      PresentSnoc(a + front, last);
      PresentSnoc(front, last);
    }
  }

  /** A list with no empty place loses nothing. */
  lemma {:induction false} PresentOccupied(xs: seq<Sock>)
    ensures Present(Occupied(xs)) == xs
    decreases |xs|
  {
    if xs != [] {
      var front := xs[..|xs| - 1];
      PresentOccupied(front);
      assert Occupied(xs)[..|xs| - 1] == Occupied(front);
    }
  }

  /** Skipping the empty seats of the broadcast loop leaves exactly the recipients. */
  lemma PresentTargets(s: State)
    ensures Present(Targets(s)) == s.Recipients()
  {
    var seats: seq<Option<Sock>> := [s.white, s.black];
    PresentConcat(seats, Occupied(s.spectators));
    PresentOccupied(s.spectators);
    var first: seq<Option<Sock>> := [s.white];
    assert seats[..1] == first && seats[1] == s.black;
    assert first[..0] == [] && first[0] == s.white;
    assert Present(first) == Seat(s.white);
    assert Present(seats) == Present(first) + Seat(s.black);
  }

  /**
    The globals of server.py as one object. Each method performs one `with
    lock:` block (for the commands, one pass of the read loop) and leaves
    the fields exactly as the step function of `State` it is named after says.
   */
  class Session {
    const rules: Rules
    var moves: seq<Move>
    var white: Option<Sock>
    var black: Option<Sock>
    var spectators: seq<Sock>
    var turn: Color
    var whiteTime: real
    var blackTime: real
    var lastMoveTime: real
    var outbox: seq<Send>
    var outcome: Option<string>

    function Snapshot(): State
      reads this
    {
      State(moves, white, black, spectators, turn, whiteTime, blackTime, lastMoveTime, outbox, outcome)
    }

    constructor (rules: Rules, now: real)
      ensures this.rules == rules && Snapshot() == Initial(now)
    {
      this.rules := rules;
      moves, white, black, spectators, turn := [], None, None, [], White;
      whiteTime, blackTime, lastMoveTime := StartSeconds, StartSeconds, now;
      outbox, outcome := [], None;
    }

    /** `for p in [players['white'], players['black']] + spectators: if p: safe_send(p, text)` */
    method Broadcast(text: string)
      modifies this`outbox
      ensures outbox == old(outbox) + Fanout(Snapshot().Recipients(), text)
    {
      var targets := Targets(Snapshot());
      for i := 0 to |targets|
        invariant outbox == old(outbox) + Fanout(Present(targets[..i]), text)
      {
        assert targets[..i + 1][..i] == targets[..i];
        if targets[i].Some? {
          outbox := outbox + [Send(targets[i].value, text)];
        }
      }
      assert targets[..|targets|] == targets;
      PresentTargets(Snapshot());
    }

    /** Announce `reason` to everyone and exit. */
    method EndWith(reason: string)
      requires outcome.None?
      modifies this`outbox, this`outcome
      ensures Snapshot() == old(Snapshot()).EndWith(reason)
    {
      Broadcast(GameOver(reason));
      outcome := Some(reason);
    }

    /**
      The role answer of `handle_client`: take a seat, join the spectators,
      or neither, as the state `s` with the same seats would decide.
     */
    method Admit(ghost s: State, sock: Sock, raw: string) returns (admission: Admission)
      requires s.white == white && s.black == black
      modifies this`white, this`black, this`spectators
      ensures admission == s.AdmissionOf(raw)
      ensures Snapshot() == old(Snapshot()).(
        white := if admission == Seated(White) then Some(sock) else old(white),
        black := if admission == Seated(Black) then Some(sock) else old(black),
        spectators := if admission == Spectating then old(spectators) + [sock] else old(spectators))
    {
      var role := Lower(Strip(raw));
      if role == "p" {
        if white.None? {
          white := Some(sock);
          admission := Seated(White);
        } else if black.None? {
          black := Some(sock);
          admission := Seated(Black);
        } else {
          admission := GameFull;
        }
      } else if role == "s" {
        spectators := spectators + [sock];
        admission := Spectating;
      } else {
        admission := InvalidChoice;
      }
    }

    /** The handshake of `handle_client` up to the first board sent. */
    method Join(sock: Sock, raw: string) returns (admission: Admission)
      requires outcome.None? && Snapshot().Valid() && !Snapshot().Participant(sock)
      modifies this`white, this`black, this`spectators, this`outbox
      ensures admission == old(Snapshot()).AdmissionOf(raw)
      ensures Snapshot() == old(Snapshot()).Joined(rules, sock, raw) && Snapshot().Valid()
    {
      ghost var before := Snapshot();
      outbox := outbox + [Send(sock, NamePrompt), Send(sock, RolePrompt)];
      admission := Admit(before, sock, raw);
      ghost var admitted := Snapshot();
      // the reply, then the board unless the connection is closed
      outbox := outbox + [Send(sock, Reply(admission))]
                + (if admission == GameFull || admission == InvalidChoice then [] else [Send(sock, rules.fen(moves))]);
      assert Snapshot() == admitted.(outbox := outbox);
      JoinedKeepsValid(before, rules, sock, raw);
    }

    /** One pass of `timer_thread`. */
    method Tick(now: real)
      requires outcome.None? && Snapshot().Valid()
      modifies this`whiteTime, this`blackTime, this`lastMoveTime, this`outbox, this`outcome
      ensures Snapshot() == old(Snapshot()).Ticked(now) && Snapshot().Valid()
    {
      ghost var before := Snapshot();
      if white.None? || black.None? {
        lastMoveTime := now;
        return;
      }
      var elapsed := now - lastMoveTime;
      if turn == White {
        whiteTime := whiteTime - elapsed;
        if whiteTime <= 0.0 {
          EndWith("Black wins by timeout");
          return;
        }
      } else {
        blackTime := blackTime - elapsed;
        if blackTime <= 0.0 {
          EndWith("White wins by timeout");
          return;
        }
      }
      lastMoveTime := now;
      ghost var charged := Snapshot();
      assert charged == before.(whiteTime := whiteTime, blackTime := blackTime, lastMoveTime := now);
      Broadcast(TimerMessage(whiteTime, blackTime));
      assert Snapshot() == charged.Broadcast(TimerMessage(whiteTime, blackTime));
    }

    /** A move from the connection `sock`, considered only when it is that seat's turn. */
    method TryMove(sock: Sock, role: Role, text: string, now: real)
      requires outcome.None?
      modifies this
      ensures Snapshot() == old(Snapshot()).Moved(rules, sock, role, text, now)
    {
      if role == Player && ((white == Some(sock) && turn == White) || (black == Some(sock) && turn == Black)) {
        var parsed := rules.fromUci(text);
        if parsed.None? {
          outbox := outbox + [Send(sock, InvalidMove)];
        } else if rules.isLegal(moves, parsed.value) {
          moves := moves + [parsed.value];
          turn := turn.Opponent();
          lastMoveTime := now;
          Broadcast(rules.fen(moves));
          if rules.isGameOver(moves) {
            EndWith(ResultLabel(rules.result(moves)));
          }
        } else {
          outbox := outbox + [Send(sock, InvalidMove)];
        }
      }
    }

    /** `resign`, `offer_draw`, `accept_draw`, `decline_draw`, or else a move. */
    method Dispatch(sock: Sock, role: Role, message: string, now: real)
      requires outcome.None?
      modifies this
      ensures Snapshot() == old(Snapshot()).Dispatched(rules, sock, role, message, now)
    {
      if message == "resign" {
        if role == Player {
          EndWith(if white == Some(sock) then "Black wins by resignation" else "White wins by resignation");
        }
      } else if message == "offer_draw" || message == "decline_draw" {
        var opponent := if white == Some(sock) then black else white;
        if opponent.Some? {
          outbox := outbox + [Send(opponent.value, if message == "offer_draw" then DrawOffer else DrawDeclined)];
        }
      } else if message == "accept_draw" {
        EndWith(DrawByAgreement);
      } else {
        TryMove(sock, role, message, now);
      }
    }

    /** The cleanup of `handle_client` once its loop has ended. */
    method Release(sock: Sock, role: Role)
      requires outcome.None?
      modifies this`white, this`black, this`spectators
      ensures Snapshot() == old(Snapshot()).Released(sock, role)
    {
      if role == Player {
        if white == Some(sock) {
          white := None;
        } else if black == Some(sock) {
          black := None;
        }
      } else if sock in spectators {
        spectators := RemoveFirst(spectators, sock);
      }
    }

    /**
      One read of the loop of `handle_client`; `open` is false once the
      connection is closed.
     */
    method Receive(sock: Sock, role: Role, input: Received, now: real) returns (open: bool)
      requires outcome.None? && Snapshot().Valid()
      modifies this
      ensures Snapshot() == old(Snapshot()).AfterRead(rules, sock, role, input, now) && Snapshot().Valid()
      ensures !open <==> input.RecvFailed? || Strip(input.text) == []
    {
      if input.RecvFailed? {
        Release(sock, role);
        return false;
      }
      var message := Strip(input.text);
      if message == "" {
        Release(sock, role);
        return false;
      }
      Dispatch(sock, role, message, now);
      open := true;
    }
  }
}
