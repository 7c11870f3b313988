/**
  The two sides together: each kind of line server.py sends, read by one
  pass of `network_loop` and handled by `check_for_updates` in src/client.py,
  has the effect its sender means. A line is taken to arrive as one read of
  its own.
 */
module Protocol {
  import opened Wrappers
  import opened Text
  import opened TimeFormat
  import Server
  import Client

  /** Neither starts nor ends with whitespace, so `strip()` leaves it alone. */
  predicate Trimmed(s: string)
  {
    s != [] && !IsSpace(s[0]) && !IsSpace(s[|s| - 1])
  }

  /** Two runs of digits around a ':' hold no ',' and no whitespace at either end. */
  lemma DigitsAroundColon(mm: string, ss: string)
    requires mm != [] && ss != [] && AllDigits(mm) && AllDigits(ss)
    ensures ',' !in mm + ":" + ss && Trimmed(mm + ":" + ss)
  {
    var t := mm + ":" + ss;
    forall i | 0 <= i < |t| ensures t[i] != ',' {
      if i < |mm| {
        assert t[i] == mm[i];
      } else if i > |mm| {
        assert t[i] == ss[i - |mm| - 1];
      }
    }
    assert t[0] == mm[0] && t[|t| - 1] == ss[|ss| - 1];
  }

  /** A clock as the server writes it: digits, one ':' and digits, and no ','. */
  lemma FormatTimeShape(seconds: real)
    requires 0.0 <= seconds
    ensures ',' !in FormatTime(seconds) && Trimmed(FormatTime(seconds))
  {
    var n := Truncate(seconds);
    Pad2ReadsBack(n / 60);
    Pad2ReadsBack(n % 60);
    DigitsAroundColon(Pad2(n / 60), Pad2(n % 60));
  }

  /** A line the client keeps as it is: one read of it is queued unchanged under its own tag. */
  lemma QueuedAsSent(m: string)
    requires Trimmed(m)
    ensures Client.Enqueued([Chunk(m)]) == [Client.Item(Client.Classify(m), m)]
  {
    StripKeeps(m);
    assert [Chunk(m)][1..] == [];
  }

  /** The first ':' of a timer line is the one after "timer". */
  lemma TimerSplits(times: string)
    ensures ':' in "timer:" + times
    ensures SplitFirst("timer:" + times, ':') == ("timer", times)
  {
    assert "timer:" + times == "timer" + [':'] + times;
    SplitFirstOf("timer", ':', times);
  }

  /** Any two fields without a ',' are read back from a timer line as they were written. */
  lemma TimerLineParsed(w: string, b: string)
    requires ',' !in w && ',' !in b
    ensures Client.ParseTimer("timer:" + w + "," + b) == Some((w, b))
  {
    var times := w + [','] + b;
    assert "timer:" + w + "," + b == "timer:" + times;
    TimerSplits(times);
    CountOnce(w, ',', b);
    var r := Client.ParseTimer("timer:" + times);
    SplitFirstOf(r.value.0, ',', r.value.1);
    SplitFirstOf(w, ',', b);
  }

  /** One read of a timer line is queued unchanged, tagged as a timer update. */
  lemma TimerQueued(whiteTime: real, blackTime: real)
    requires 0.0 <= whiteTime && 0.0 <= blackTime
    ensures var m := Server.TimerMessage(whiteTime, blackTime);
      && Client.Classify(m) == Client.TimerUpdate
      && Client.Enqueued([Chunk(m)]) == [Client.Item(Client.TimerUpdate, m)]
  {
    var b := FormatTime(blackTime);
    FormatTimeShape(blackTime);
    var m := Server.TimerMessage(whiteTime, blackTime);
    assert m[..6] == "timer:";
    Client.ClassifyTags(m);
    assert Trimmed(m) by {
      assert m[|m| - 1] == b[|b| - 1];
    }
    QueuedAsSent(m);
  }

  /** The client splits a timer line back into the two clocks the server formatted. */
  lemma TimerParsed(whiteTime: real, blackTime: real)
    requires 0.0 <= whiteTime && 0.0 <= blackTime
    ensures Client.ParseTimer(Server.TimerMessage(whiteTime, blackTime))
      == Some((FormatTime(whiteTime), FormatTime(blackTime)))
  {
    FormatTimeShape(whiteTime);
    FormatTimeShape(blackTime);
    TimerLineParsed(FormatTime(whiteTime), FormatTime(blackTime));
  }

  /**
    The timer line of the clock thread reaches the client's label with both
    clocks exactly as the server formatted them.
   */
  lemma TimerDelivered(v: Client.View, whiteTime: real, blackTime: real, accepted: bool)
    requires 0.0 <= whiteTime && 0.0 <= blackTime
    ensures var m := Server.TimerMessage(whiteTime, blackTime);
      && Client.Classify(m) == Client.TimerUpdate
      && Client.Handle(v, Client.Item(Client.TimerUpdate, m), accepted)
         == v.(timerText := Client.TimerLabel(FormatTime(whiteTime), FormatTime(blackTime)))
  {
    TimerQueued(whiteTime, blackTime);
    TimerParsed(whiteTime, blackTime);
  }

  /** Every reason the server announces has no whitespace at either end. */
  lemma EndLabelTrimmed(reason: string)
    requires Server.IsEndLabel(reason)
    ensures Trimmed(reason)
  {
  }

  /** One read of a game-over line is queued unchanged, tagged as the end of the game. */
  lemma GameOverQueued(reason: string)
    requires Trimmed(reason)
    ensures var m := Server.GameOver(reason);
      && StartsWith(m, "Game over:") && Client.Classify(m) == Client.GameEnded
      && Client.Enqueued([Chunk(m)]) == [Client.Item(Client.GameEnded, m)]
  {
    var m := Server.GameOver(reason);
    assert m[..10] == "Game over:";
    Client.ClassifyTags(m);
    assert Trimmed(m) by {
      assert m[|m| - 1] == reason[|reason| - 1];
    }
    QueuedAsSent(m);
  }

  /** The client reads back from a game-over line exactly the reason the server announced. */
  lemma GameOverRead(reason: string)
    requires Trimmed(reason)
    ensures StartsWith(Server.GameOver(reason), "Game over:") && ':' in Server.GameOver(reason)
    ensures Client.GameOverText(Server.GameOver(reason)) == reason
  {
    var m := Server.GameOver(reason);
    assert m[..10] == "Game over:";
    assert m[9] == ':';
    assert m[10..] == [' '] + reason;
    assert ([' '] + reason)[1..] == reason;
    StripKeeps(reason);
  }

  /**
    A game-over line reaches the client as a dialog saying exactly what the
    server announced, and the window is scheduled to close.
   */
  lemma GameOverDelivered(v: Client.View, reason: string, accepted: bool)
    requires Server.IsEndLabel(reason)
    ensures var m := Server.GameOver(reason);
      && Client.Classify(m) == Client.GameEnded && StartsWith(m, "Game over:") && ':' in m
      && Client.Handle(v, Client.Item(Client.GameEnded, m), accepted)
         == v.(dialogs := v.dialogs + [m], closing := true)
  {
    EndLabelTrimmed(reason);
    GameOverQueued(reason);
    GameOverRead(reason);
  }

  /**
    A draw offer reaches the opponent's client as a question, and the answer
    it sends back is one the server acts on: accepting ends the game in a
    draw, declining tells the offerer.
   */
  lemma DrawOfferAnswered(
    v: Client.View, s: Server.State, rules: Server.Rules,
    sock: Server.Sock, role: Server.Role, now: real, accepted: bool)
    ensures Client.Classify(Server.DrawOffer) == Client.DrawOffered
    ensures Client.Enqueued([Chunk(Server.DrawOffer)]) == [Client.Item(Client.DrawOffered, Server.DrawOffer)]
    ensures var after := Client.Handle(v, Client.Item(Client.DrawOffered, Server.DrawOffer), accepted);
      && |after.sent| == |v.sent| + 1 && after.sent[..|v.sent|] == v.sent
      && s.Dispatched(rules, sock, role, after.sent[|v.sent|], now)
         == (if accepted then s.DrawAccepted() else s.ToOpponent(sock, Server.DrawDeclined))
  {
    Client.ClassifyOther(Server.DrawOffer);
    QueuedAsSent(Server.DrawOffer);
    var after := Client.Handle(v, Client.Item(Client.DrawOffered, Server.DrawOffer), accepted);
    var answer := if accepted then "accept_draw" else "decline_draw";
    assert after.sent == v.sent + [answer];
    assert after.sent[..|v.sent|] == v.sent && after.sent[|v.sent|] == answer;
    Server.DrawAnswerDispatched(s, rules, sock, role, accepted, now);
  }

  /** The server's short notices are shown to the player as they are. */
  lemma NoticeDelivered(v: Client.View, m: string, accepted: bool)
    requires m in {Server.InvalidMove, Server.DrawDeclined}
    ensures Client.Classify(m) == Client.Note
    ensures Client.Enqueued([Chunk(m)]) == [Client.Item(Client.Note, m)]
    ensures Client.Handle(v, Client.Item(Client.Note, m), accepted) == v.(dialogs := v.dialogs + [m])
  {
    assert m[0] == 'I' || m[0] == 'd';
    assert '/' !in m;
    Client.ClassifyOther(m);
    QueuedAsSent(m);
  }

  /** A position line with the form of a FEN is queued unchanged as a board update. */
  lemma FenQueued(fen: string)
    requires Trimmed(fen) && fen[0] in "pnbrqkPNBRQK12345678"
    requires ' ' in fen && '/' in fen
    ensures Client.Classify(fen) == Client.FenUpdate
    ensures Client.Enqueued([Chunk(fen)]) == [Client.Item(Client.FenUpdate, fen)]
  {
    assert fen[0] != 't' && fen[0] != 'G' && fen[0] != 'd';
    Client.ClassifyOther(fen);
    QueuedAsSent(fen);
  }

  /**
    A position line with the form of a FEN (it begins with a square of the
    eighth rank and has ranks separated by '/' and fields by ' ') is queued
    as a board update. Taken from the queue, it becomes the client's board if
    `set_fen` accepts it; otherwise the run of `check_for_updates` ends there
    with the board as it was and the items behind it still queued.
   */
  lemma FenDelivered(board: Client.BoardView, v: Client.View, fen: string, rest: seq<Client.Item>, accept: nat -> bool, k: nat)
    requires Trimmed(fen) && fen[0] in "pnbrqkPNBRQK12345678"
    requires ' ' in fen && '/' in fen
    ensures Client.Classify(fen) == Client.FenUpdate
    ensures Client.Enqueued([Chunk(fen)]) == [Client.Item(Client.FenUpdate, fen)]
    ensures board.acceptsFen(fen) ==>
      Client.HandleAll(board, v, [Client.Item(Client.FenUpdate, fen)] + rest, accept, k)
        == Client.HandleAll(board, v.(fen := fen), rest, accept, k + 1)
    ensures !board.acceptsFen(fen) ==>
      Client.HandleAll(board, v, [Client.Item(Client.FenUpdate, fen)] + rest, accept, k)
        == Client.Drain(v, rest, true)
  {
    FenQueued(fen);
    assert ([Client.Item(Client.FenUpdate, fen)] + rest)[1..] == rest;
  }
}
