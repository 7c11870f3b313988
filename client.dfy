/**
  The logic of src/client.py that is not drawing: which board square a grid
  button stands for, how a line from the server is classified, how timer
  and game-over lines are read, the clamp of the evaluation score, and the
  click-to-move rule. The Tk widgets, images, dialogs and the engine process
  are not modelled; a dialog shown is recorded in `dialogs`, and the
  player's answer to a draw offer is a parameter.
 */
module Client {
  import opened Wrappers
  import opened Text
  import opened Chess

  // ----- get_square -----

  /** `get_square(row, col)` for a client that is a player or not, with the board flipped or not. */
  function GetSquare(isPlayer: bool, flipBoard: bool, row: int, col: int): int
  {
    if isPlayer then
      if !flipBoard then Square(col, 7 - row) else Square(7 - col, row)
    else
      Square(col, 7 - row)
  }

  predicate OnGrid(row: int, col: int)
  {
    0 <= row < 8 && 0 <= col < 8
  }

  /** The grid cell that shows square `sq` in White's orientation or, if `flipped`, in Black's. */
  function CellOf(flipped: bool, sq: int): (int, int)
  {
    if flipped then (sq / 8, 7 - sq % 8) else (7 - sq / 8, sq % 8)
  }

  /**
    Every grid cell stands for a square 0..63, and the cell that shows that
    square is the cell itself: `get_square` is one-to-one. Spectators and
    unflipped players see rank 8 in row 0 and file a in column 0; a flipped
    player sees rank 1 in row 0 and file h in column 0.
   */
  lemma GetSquareOneToOne(isPlayer: bool, flipBoard: bool, row: int, col: int)
    requires OnGrid(row, col)
    ensures var sq := GetSquare(isPlayer, flipBoard, row, col);
      && 0 <= sq < 64
      && CellOf(isPlayer && flipBoard, sq) == (row, col)
      && sq == if isPlayer && flipBoard then row * 8 + (7 - col) else (7 - row) * 8 + col
  {
    var sq := GetSquare(isPlayer, flipBoard, row, col);
    if isPlayer && flipBoard {
      assert sq == row * 8 + (7 - col);
      assert sq / 8 == row && sq % 8 == 7 - col;
    } else {
      assert sq == (7 - row) * 8 + col;
      assert sq / 8 == 7 - row && sq % 8 == col;
    }
  }

  /** Every square 0..63 is shown by some grid cell: `get_square` is onto. */
  lemma GetSquareOnto(isPlayer: bool, flipBoard: bool, sq: int)
    requires 0 <= sq < 64
    ensures var cell := CellOf(isPlayer && flipBoard, sq);
      OnGrid(cell.0, cell.1) && GetSquare(isPlayer, flipBoard, cell.0, cell.1) == sq
  {
    var cell := CellOf(isPlayer && flipBoard, sq);
    assert sq == (sq / 8) * 8 + sq % 8;
    if isPlayer && flipBoard {
      assert GetSquare(isPlayer, flipBoard, cell.0, cell.1) == (sq / 8) * 8 + sq % 8;
    } else {
      assert GetSquare(isPlayer, flipBoard, cell.0, cell.1) == (sq / 8) * 8 + sq % 8;
    }
  }

  /** Black's view is White's turned half a circle: each cell shows the mirror square. */
  lemma FlippedIsRotated(row: int, col: int)
    ensures GetSquare(true, true, row, col) == 63 - GetSquare(true, false, row, col)
  {
  }

  // ----- network_loop -----

  /** The tag `network_loop` puts on a queued message. */
  datatype Kind = FenUpdate | TimerUpdate | DrawOffered | GameEnded | Note

  /** One `(msg_type, message)` of `message_queue`. */
  datatype Item = Item(kind: Kind, text: string)

  const ConnectionLost := Item(Note, "Connection lost")

  /** The tag of a non-empty stripped message: the tests in the order of the source. */
  function Classify(message: string): Kind
  {
    if StartsWith(message, "timer:") then TimerUpdate
    else if message == "draw_offer" then DrawOffered
    else if StartsWith(message, "Game over:") then GameEnded
    else if ' ' in message && '/' in message then FenUpdate
    else Note
  }

  /**
    The prefixes never overlap, so each kind has a plain description of its
    own, whatever the order of the tests.
   */
  lemma ClassifyTags(message: string)
    ensures Classify(message) == TimerUpdate <==> StartsWith(message, "timer:")
    ensures Classify(message) == DrawOffered <==> message == "draw_offer"
    ensures Classify(message) == GameEnded <==> StartsWith(message, "Game over:")
    ensures Classify(message) == FenUpdate <==>
      !StartsWith(message, "timer:") && !StartsWith(message, "Game over:") && ' ' in message && '/' in message
  {
    if StartsWith(message, "timer:") {
      assert message[0] == 't';
    } else if StartsWith(message, "Game over:") {
      assert message[0] == 'G';
    }
  }

  /** A message that begins with neither 't' nor 'G' is a draw offer, a FEN or a note. */
  lemma ClassifyOther(message: string)
    requires message != [] && message[0] != 't' && message[0] != 'G'
    ensures Classify(message) ==
      if message == "draw_offer" then DrawOffered
      else if ' ' in message && '/' in message then FenUpdate
      else Note
  {
    assert !StartsWith(message, "timer:") by {
      if |message| >= 6 {
        assert message[..6][0] == message[0];
      }
    }
    assert !StartsWith(message, "Game over:") by {
      if |message| >= 10 {
        assert message[..10][0] == message[0];
      }
    }
  }

  /** A read that ends `network_loop`: a failure, or nothing but whitespace. */
  predicate EndsLoop(r: Received)
  {
    r.RecvFailed? || Strip(r.text) == []
  }

  /** The queue entry for a read that does not end the loop: its text stripped and tagged. */
  function Queued(r: Received): Item
    requires !EndsLoop(r)
  {
    var message := Strip(r.text);
    Item(Classify(message), message)
  }

  /** What `network_loop` queues for the reads `incoming`, in order, up to the first that ends it. */
  function Enqueued(incoming: seq<Received>): seq<Item>
  {
    if incoming == [] then []
    else if EndsLoop(incoming[0]) then [ConnectionLost]
    else [Queued(incoming[0])] + Enqueued(incoming[1..])
  }

  /** Before the first read that ends the loop, the `k`th read is queued, stripped and tagged, at position `k`. */
  lemma {:induction false} EnqueuedAt(incoming: seq<Received>, k: nat)
    requires k < |incoming|
    requires forall i :: 0 <= i <= k ==> !EndsLoop(incoming[i])
    ensures k < |Enqueued(incoming)| && Enqueued(incoming)[k] == Queued(incoming[k])
    decreases k
  {
    var tail := incoming[1..];
    assert !EndsLoop(incoming[0]);
    assert Enqueued(incoming) == [Queued(incoming[0])] + Enqueued(tail);
    if k > 0 {
      forall i | 0 <= i <= k - 1 ensures !EndsLoop(tail[i]) {
        assert tail[i] == incoming[i + 1];
      }
      EnqueuedAt(tail, k - 1);
      assert incoming[k] == tail[k - 1];
    }
  }

  /**
    Past `j` reads that do not end the loop, the queue holds at least `j`
    entries; if the next read ends it, "Connection lost" is the last entry.
   */
  lemma {:induction false} EnqueuedLength(incoming: seq<Received>, j: nat)
    requires j <= |incoming|
    requires forall i :: 0 <= i < j ==> !EndsLoop(incoming[i])
    ensures |Enqueued(incoming)| >= j
    ensures j == |incoming| ==> |Enqueued(incoming)| == j
    ensures j < |incoming| && EndsLoop(incoming[j]) ==>
      |Enqueued(incoming)| == j + 1 && Enqueued(incoming)[j] == ConnectionLost
    decreases j
  {
    if j > 0 {
      var tail := incoming[1..];
      assert !EndsLoop(incoming[0]);
      assert Enqueued(incoming) == [Queued(incoming[0])] + Enqueued(tail);
      forall i | 0 <= i < j - 1 ensures !EndsLoop(tail[i]) {
        assert tail[i] == incoming[i + 1];
      }
      EnqueuedLength(tail, j - 1);
      if j < |incoming| {
        assert incoming[j] == tail[j - 1];
      }
    }
  }

  /** One read that does not end the loop queues its stripped, tagged text. */
  lemma EnqueuedNext(incoming: seq<Received>, i: nat)
    requires i < |incoming| && !EndsLoop(incoming[i])
    ensures Enqueued(incoming[i..]) == [Queued(incoming[i])] + Enqueued(incoming[i + 1..])
  {
    assert incoming[i..][1..] == incoming[i + 1..];
  }

  /** Pushing one item and then the rest is pushing the item in front of the rest. */
  lemma PushThenRest(queue: seq<Item>, item: Item, rest: seq<Item>)
    ensures (queue + [item]) + rest == queue + ([item] + rest)
  {
  }

  /** Everything `network_loop` queues carries the tag its text calls for. */
  lemma {:induction false} EnqueuedClassified(incoming: seq<Received>)
    ensures AllClassified(Enqueued(incoming))
    decreases |incoming|
  {
    if incoming == [] {
    } else if EndsLoop(incoming[0]) {
      ConnectionLostClassified();
      assert [ConnectionLost][1..] == [];
    } else {
      EnqueuedClassified(incoming[1..]);
      assert ([Queued(incoming[0])] + Enqueued(incoming[1..]))[1..] == Enqueued(incoming[1..]);
    }
  }

  // ----- check_for_updates -----

  /** `message.split(":", 1)` and then `times.split(",")` into two parts; `None` where Python raises. */
  function ParseTimer(message: string): (r: Option<(string, string)>)
    ensures r.Some? <==> ':' in message && Count(SplitFirst(message, ':').1, ',') == 1
    ensures r.Some? ==>
      && ',' !in r.value.0 && ',' !in r.value.1
      && SplitFirst(message, ':').1 == r.value.0 + [','] + r.value.1
  {
    if ':' !in message then None
    else
      var times := SplitFirst(message, ':').1;
      if ',' !in times then None
      else
        var parts := SplitFirst(times, ',');
        CountConcat(parts.0 + [','], parts.1, ',');
        CountConcat(parts.0, [','], ',');
        if ',' in parts.1 then None else Some(parts)
  }

  /** The text of the timer label. */
  function TimerLabel(whiteTime: string, blackTime: string): string
  {
    "White: " + whiteTime + "   Black: " + blackTime
  }

  /**
    `message.split(":", 1)[1].strip()`: the result text of a game-over
    message. Python raises `IndexError` when there is no ':' to split at.
   */
  function GameOverText(message: string): (r: string)
    requires ':' in message
    ensures StartsWith(message, "Game over:") ==> r == Strip(message[10..])
  {
    if StartsWith(message, "Game over:") then
      assert message == "Game over" + [':'] + message[10..];
      SplitFirstOf("Game over", ':', message[10..]);
      Strip(SplitFirst(message, ':').1)
    else
      Strip(SplitFirst(message, ':').1)
  }

  /** What the window shows and has sent, as `check_for_updates` changes it. */
  datatype View = View(
    fen: string,            // the board, as last set from a FEN
    timerText: string,      // the timer label
    sent: seq<string>,      // lines sent to the server
    dialogs: seq<string>,   // message boxes shown
    closing: bool)          // on_closing scheduled

  /** What handling an item relies on: a game-over item has a ':' to split at. */
  predicate Readable(item: Item)
  {
    item.kind == GameEnded ==> ':' in item.text
  }

  /** An item tagged as `network_loop` tags it can be handled. */
  lemma ClassifiedReadable(item: Item)
    requires item.kind == Classify(item.text)
    ensures Readable(item)
  {
    ClassifyTags(item.text);
    if item.kind == GameEnded {
      assert item.text[..10][9] == ':';
      assert item.text[9] == ':';
    }
  }

  /**
    Handling `item` raises and the exception leaves `check_for_updates`:
    `set_fen` rejects the text of a FEN update, or a game-over text has no ':'.
   */
  predicate Raises(board: BoardView, item: Item)
  {
    || (item.kind == FenUpdate && !board.acceptsFen(item.text))
    || (item.kind == GameEnded && ':' !in item.text)
  }

  /** One queued item handled; `accepted` is the player's answer if it is a draw offer. */
  function Handle(v: View, item: Item, accepted: bool): View
    requires Readable(item)
  {
    match item.kind
    case FenUpdate => v.(fen := item.text)
    case TimerUpdate =>
      var parsed := ParseTimer(item.text);
      if parsed.Some? then v.(timerText := TimerLabel(parsed.value.0, parsed.value.1)) else v
    case DrawOffered => v.(sent := v.sent + [if accepted then "accept_draw" else "decline_draw"])
    case GameEnded => v.(dialogs := v.dialogs + ["Game over: " + GameOverText(item.text)], closing := true)
    case Note => v.(dialogs := v.dialogs + [item.text])
  }

  predicate AllClassified(items: seq<Item>)
    decreases |items|
  {
    items == [] || (items[0].kind == Classify(items[0].text) && AllClassified(items[1..]))
  }

  /** Two correctly tagged queues, one after the other, are correctly tagged. */
  lemma {:induction false} ClassifiedConcat(front: seq<Item>, back: seq<Item>)
    requires AllClassified(front) && AllClassified(back)
    ensures AllClassified(front + back)
    decreases |front|
  {
    if front == [] {
      assert front + back == back;
    } else {
      ClassifiedConcat(front[1..], back);
      assert (front + back)[1..] == front[1..] + back;
    }
  }

  /** "Connection lost" carries its own tag: it is a plain note. */
  lemma ConnectionLostClassified()
    ensures ConnectionLost.kind == Classify(ConnectionLost.text)
  {
    var text := ConnectionLost.text;
    assert text[0] == 'C';
    assert !StartsWith(text, "timer:") by { assert text[..6][0] == 'C'; }
    assert !StartsWith(text, "Game over:") by { assert text[..10][0] == 'C'; }
    assert '/' !in text;
  }

  /**
    How one run of `check_for_updates` ends: the window, the items still
    queued, and whether an exception cut the run short.
   */
  datatype Drain = Drain(view: View, left: seq<Item>, raised: bool)

  /**
    The items handled in order, the `k`-th of the batch getting the answer
    `accept(k)`, until one raises: that one has already been taken off the
    queue, and the rest stay queued.
   */
  function HandleAll(board: BoardView, v: View, items: seq<Item>, accept: nat -> bool, k: nat): Drain
    decreases |items|
  {
    if items == [] then Drain(v, [], false)
    else if Raises(board, items[0]) then Drain(v, items[1..], true)
    else HandleAll(board, Handle(v, items[0], accept(k)), items[1..], accept, k + 1)
  }

  /**
    The first item that raises ends the run: the window is as the items
    before it left it, and the items after it stay queued.
   */
  lemma {:induction false} DrainStops(board: BoardView, v: View, items: seq<Item>, accept: nat -> bool, k: nat, j: nat)
    requires j < |items| && Raises(board, items[j])
    requires forall i :: 0 <= i < j ==> !Raises(board, items[i])
    ensures var d := HandleAll(board, v, items, accept, k);
      && d.raised && d.left == items[j + 1..]
      && d.view == HandleAll(board, v, items[..j], accept, k).view
    decreases j
  {
    if j > 0 {
      var next := Handle(v, items[0], accept(k));
      forall i | 0 <= i < j - 1 ensures !Raises(board, items[1..][i]) {
        assert items[1..][i] == items[i + 1];
      }
      DrainStops(board, next, items[1..], accept, k + 1, j - 1);
      assert items[1..][j - 1..] == items[j..] && items[1..][j..] == items[j + 1..];
      assert items[..j][0] == items[0] && items[..j][1..] == items[1..][..j - 1];
    }
  }

  /**
    A queue that `network_loop` filled is handled to the end, provided
    `set_fen` accepts each of its FEN updates.
   */
  lemma {:induction false} DrainCompletes(board: BoardView, v: View, items: seq<Item>, accept: nat -> bool, k: nat)
    requires AllClassified(items)
    requires forall i :: 0 <= i < |items| && items[i].kind == FenUpdate ==> board.acceptsFen(items[i].text)
    ensures !HandleAll(board, v, items, accept, k).raised && HandleAll(board, v, items, accept, k).left == []
    decreases |items|
  {
    if items != [] {
      ClassifiedReadable(items[0]);
      forall i | 0 <= i < |items| - 1 && items[1..][i].kind == FenUpdate ensures board.acceptsFen(items[1..][i].text) {
        assert items[1..][i] == items[i + 1];
      }
      DrainCompletes(board, Handle(v, items[0], accept(k)), items[1..], accept, k + 1);
    }
  }

  /**
    The board shown after a run is the one of the last FEN in the batch,
    if nothing up to that FEN raises.
   */
  lemma {:induction false} LastFenShown(board: BoardView, v: View, items: seq<Item>, accept: nat -> bool, k: nat, last: nat)
    requires last < |items| && items[last].kind == FenUpdate
    requires forall i :: last < i < |items| ==> items[i].kind != FenUpdate
    requires forall i :: 0 <= i <= last ==> !Raises(board, items[i])
    ensures HandleAll(board, v, items, accept, k).view.fen == items[last].text
    decreases |items|
  {
    var next := Handle(v, items[0], accept(k));
    if last > 0 {
      forall i | 0 <= i <= last - 1 ensures !Raises(board, items[1..][i]) {
        assert items[1..][i] == items[i + 1];
      }
      LastFenShown(board, next, items[1..], accept, k + 1, last - 1);
    } else {
      FenKept(board, next, items[1..], accept, k + 1);
    }
  }

  /** A batch without a FEN leaves the board as it was, whether or not the run is cut short. */
  lemma {:induction false} FenKept(board: BoardView, v: View, items: seq<Item>, accept: nat -> bool, k: nat)
    requires forall i :: 0 <= i < |items| ==> items[i].kind != FenUpdate
    ensures HandleAll(board, v, items, accept, k).view.fen == v.fen
    decreases |items|
  {
    if items != [] && !Raises(board, items[0]) {
      FenKept(board, Handle(v, items[0], accept(k)), items[1..], accept, k + 1);
    }
  }

  /** A timer line without exactly one comma after its first colon leaves the label as it was. */
  lemma MalformedTimerIgnored(v: View, message: string, accepted: bool)
    requires StartsWith(message, "timer:") && ':' in message
    requires Count(SplitFirst(message, ':').1, ',') != 1
    ensures Handle(v, Item(TimerUpdate, message), accepted) == v
  {
  }

  // ----- update_evaluation_bar -----

  const MaxEval := 500

  /** What the engine's analysis gives, from White's point of view. */
  datatype Evaluation = Centipawns(cp: int) | MateIn(moves: int) | EngineFailed

  /** The score before clamping: a mate counts as ±10000, a failed analysis as 0. */
  function RawScore(e: Evaluation): int
  {
    match e
    case Centipawns(cp) => cp
    case MateIn(m) => if m > 0 then 10000 else -10000
    case EngineFailed => 0
  }

  /** The two `if`s that bound the score to [-500, 500]. */
  function Clamp(score: int): (r: int)
    ensures -MaxEval <= r <= MaxEval
    ensures -MaxEval <= score <= MaxEval ==> r == score
    ensures score > MaxEval ==> r == MaxEval
    ensures score < -MaxEval ==> r == -MaxEval
  {
    var s := if score > MaxEval then MaxEval else score;
    if s < -MaxEval then -MaxEval else s
  }

  /** The score the evaluation bar draws: a mate fills it, toward the side that mates. */
  function BarScore(e: Evaluation): (r: int)
    ensures -MaxEval <= r <= MaxEval
    ensures e.MateIn? ==> r == if e.moves > 0 then MaxEval else -MaxEval
    ensures e.EngineFailed? ==> r == 0
    ensures e.Centipawns? && -MaxEval <= e.cp <= MaxEval ==> r == e.cp
  {
    Clamp(RawScore(e))
  }

  // ----- the window's state -----

  /** What the client asks of python-chess about its board, given as a FEN. */
  datatype BoardView = BoardView(
    acceptsFen: string -> bool,                // set_fen(fen) returns without raising ValueError
    turn: string -> Color,
    colorAt: (string, int) -> Option<Color>,   // piece_at(square).color, None on an empty square
    isLegal: (string, Move) -> bool,
    uci: Move -> string)

  class ChessClient {
    const isPlayer: bool
    const color: Option<Color>      // 'white' or 'black' for a player, None for a spectator
    const flipBoard: bool
    var selected: Option<int>       // selected_square
    var fen: string
    var timerText: string
    var queue: seq<Item>            // message_queue
    var sent: seq<string>
    var dialogs: seq<string>
    var closing: bool
    var polling: bool               // check_for_updates is scheduled to run again

    /** Items reach the queue only through `network_loop`, so each carries its own tag. */
    ghost predicate Valid()
      reads this
    {
      AllClassified(queue) && isPlayer == color.Some? && flipBoard == (color == Some(Black))
    }

    function Shown(): View
      reads this
    {
      View(fen, timerText, sent, dialogs, closing)
    }

    /**
      The window after the handshake: `seat` is the colour the server gave
      (None for a spectator), `fen` the first board received.
     */
    constructor (seat: Option<Color>, fen: string)
      ensures Valid() && color == seat && queue == [] && selected.None? && polling
      ensures Shown() == View(fen, "White: 10:00   Black: 10:00", [], [], false)
    {
      isPlayer, color, flipBoard := seat.Some?, seat, seat == Some(Black);
      selected := None;
      this.fen := fen;
      timerText := "White: 10:00   Black: 10:00";
      queue, sent, dialogs, closing := [], [], [], false;
      polling := true;
    }

    /** Whether a click is considered at all: a player, on their own turn. */
    predicate MayClick(board: BoardView)
      reads this
    {
      !(!isPlayer || (color == Some(White) && board.turn(fen) != White)
                  || (color == Some(Black) && board.turn(fen) != Black))
    }

    /** The colour of the pieces a player may pick up: `piece.color == (self.color == 'white')`. */
    function OwnColor(): Color
      reads this
    {
      if color == Some(White) then White else Black
    }

    /** `square_clicked(square)`. */
    method SquareClicked(board: BoardView, square: int)
      modifies this`selected, this`sent
      ensures !MayClick(board) ==> selected == old(selected) && sent == old(sent)
      ensures MayClick(board) && old(selected).None? ==>
        && sent == old(sent)
        && (selected.Some? <==> board.colorAt(fen, square) == Some(OwnColor()))
        && (selected.Some? ==> selected == Some(square))
      ensures MayClick(board) && old(selected).Some? ==>
        var move := Move(old(selected).value, square, None);
        && selected.None?
        && sent == old(sent) + (if board.isLegal(fen, move) then [board.uci(move)] else [])
    {
      if !isPlayer || (color == Some(White) && board.turn(fen) != White)
                   || (color == Some(Black) && board.turn(fen) != Black) {
        return;
      }
      if selected.None? {
        var piece := board.colorAt(fen, square);
        if piece.Some? && piece.value == (if color == Some(White) then White else Black) {
          selected := Some(square);
        }
      } else {
        var move := Move(selected.value, square, None);
        if board.isLegal(fen, move) {
          sent := sent + [board.uci(move)];
        }
        selected := None;
      }
    }

    /** `network_loop` over the reads `incoming`, while the window is open. */
    method NetworkLoop(incoming: seq<Received>)
      requires Valid()
      modifies this`queue
      ensures queue == old(queue) + Enqueued(incoming) && Valid()
    {
      EnqueuedClassified(incoming);
      ClassifiedConcat(queue, Enqueued(incoming));
      var i := 0;
      while i < |incoming|
        invariant 0 <= i <= |incoming|
        invariant queue + Enqueued(incoming[i..]) == old(queue) + Enqueued(incoming)
      {
        var input := incoming[i];
        // a failed read, or one that strips to nothing, ends the loop
        if EndsLoop(input) {
          assert incoming[i..][0] == input;
          assert Enqueued(incoming[i..]) == [ConnectionLost];
          queue := queue + [ConnectionLost];
          return;
        }
        EnqueuedNext(incoming, i);
        var item := Queued(input);
        PushThenRest(queue, item, Enqueued(incoming[i + 1..]));
        queue := queue + [item];
        i := i + 1;
      }
      assert incoming[i..] == [];
    }

    /**
      One pass of the loop of `check_for_updates`: the first queued item
      taken and handled; `raised` when handling it raises.
     */
    method HandleFirst(board: BoardView, accepted: bool) returns (raised: bool)
      requires queue != []
      modifies this`fen, this`timerText, this`queue, this`sent, this`dialogs, this`closing
      ensures queue == old(queue[1..])
      ensures raised == Raises(board, old(queue[0]))
      ensures Shown() == if raised then old(Shown()) else Handle(old(Shown()), old(queue[0]), accepted)
    {
      var item := queue[0];
      ghost var shown := Shown();
      queue := queue[1..];
      raised := false;
      match item.kind {
        case FenUpdate =>
          if !board.acceptsFen(item.text) {
            return true;
          }
          fen := item.text;
          assert Shown() == Handle(shown, item, accepted);
        case TimerUpdate =>
          var parsed := ParseTimer(item.text);
          if parsed.Some? {
            timerText := TimerLabel(parsed.value.0, parsed.value.1);
          }
          assert Shown() == Handle(shown, item, accepted);
        case DrawOffered =>
          sent := sent + [if accepted then "accept_draw" else "decline_draw"];
          assert Shown() == Handle(shown, item, accepted);
        case GameEnded =>
          if ':' !in item.text {
            return true;
          }
          dialogs := dialogs + ["Game over: " + GameOverText(item.text)];
          closing := true;
          assert Shown() == Handle(shown, item, accepted);
        case Note =>
          dialogs := dialogs + [item.text];
          assert Shown() == Handle(shown, item, accepted);
      }
    }

    /**
      `check_for_updates`: the queue drained in order, the answer to a draw
      offer at position `k` of the batch being `accept(k)`. An exception ends
      the run early, and then the call at its end that schedules the next run
      is never reached.
     */
    method CheckForUpdates(board: BoardView, accept: nat -> bool) returns (raised: bool)
      requires Valid()
      modifies this`fen, this`timerText, this`queue, this`sent, this`dialogs, this`closing, this`polling
      ensures Valid() && polling == !raised
      ensures HandleAll(board, old(Shown()), old(queue), accept, 0) == Drain(Shown(), queue, raised)
    {
      var k := 0;
      raised := false;
      while queue != []
        invariant Valid()
        invariant HandleAll(board, Shown(), queue, accept, k) == HandleAll(board, old(Shown()), old(queue), accept, 0)
        decreases |queue|
      {
        assert AllClassified(queue[1..]);
        raised := HandleFirst(board, accept(k));
        if raised {
          polling := false;
          return;
        }
        k := k + 1;
      }
      polling := true;
    }
  }
}
