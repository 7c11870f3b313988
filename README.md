# Networked chess: the game session and the client's message handling

The repository is a small two-player chess game played over TCP.
`server.py` seats the first two connections that ask to play as White and
Black and lets any number of others watch as spectators. Each side starts
with 600 seconds. Once both seats are taken, a clock thread charges the time
elapsed to the side to move and broadcasts the clocks every second. It then relays moves, resignations and draw offers, and it
announces how the game ended ("Game over: <reason>") before the process
exits. `src/client.py` is a Tk window. A network thread classifies each
line from the server and puts it on a queue. The GUI thread drains that queue
to update the board, the clock label and the dialogs, and turns two clicks
into a move it sends.

The Dafny project has these parts:

- `server.dfy`, module `Server`. The module globals of the server make up the
  value `State`. Each `with lock:` block, each pass of the command loop, and
  the whole join handshake (see "Left out") is a step function on it (`Joined`, `Ticked`, `Dispatched`, `Released`,
  `AfterRead`). The class `Session` holds the same fields and performs each
  step in place. Each of its methods is proved to leave exactly the state its
  step function gives. The lemmas state:
  - seat exclusivity and the seat order;
  - that the side to move follows the move count;
  - which clock is charged;
  - the exact "Game over" reason of every ending, and that it reaches
    every participant;
  - that release is idempotent;
  - that the invariant survives any run of events.
- `time_format.dfy`, module `TimeFormat`: `format_time`, and the proof that
  its `MM:SS` text reads back as the whole seconds on the clock.
- `client.dfy`, module `Client`: `get_square` in both orientations, the
  classification of `network_loop`, the parsing of `check_for_updates`, the
  clamp of the evaluation bar, and the class `ChessClient` with
  `square_clicked`, `network_loop` and `check_for_updates` as methods over
  its fields.
- `protocol.dfy`, module `Protocol`: the two programs together. Each kind
  of line the server writes is queued by the client under the tag meant for
  it and has the effect its sender intends. The client's answer to a draw
  offer is a command the server acts on.
- `text.dfy`, `chess.dfy`, `wrappers.dfy`: Python's `strip`, `lower`,
  `startswith`, `split` and `str(int)`; python-chess's `square()`, colours
  and moves; an `Option` type.

Sockets are opaque numbers. `safe_send` appends to an outbox, and
`time.time()` is a parameter `now`. `os._exit(0)` records the announced
reason in `outcome`. The board is the sequence of moves pushed. What
python-chess answers about it (`Move.from_uci`, `legal_moves`, `fen()`,
`is_game_over()`, `result()`) is a record of functions (`Rules`) passed in.
The client's board is its last FEN, queried through a similar record
(`BoardView`).

## Model

| member | source | states |
|---|---|---|
| `TimeFormat.FormatTime` | server.py:24-28 | definition of `format_time`; its facts are in `FormatTimeReadsBack` |
| `TimeFormat.Truncate` | server.py:26-27 | `int(seconds)` truncates toward zero: for a non-negative clock it is the floor, for a negative one the ceiling |
| `TimeFormat.Pad2ReadsBack` | server.py:28 | `f"{n:02}"` of a non-negative field is all digits, at least two of them (exactly two below 100), and reads back as `n` |
| `TimeFormat.Pad2` | server.py:28 | definition of `f"{n:02}"`; its facts are in `Pad2ReadsBack` |
| `TimeFormat.FormatTimeReadsBack` | server.py:24-28 | for a non-negative clock the text is minutes, `:`, two digits of seconds below 60; minutes * 60 + seconds is the floor of the clock; below 100 minutes it is exactly `MM:SS` |
| `Text.StripEmpty` | server.py:104-106 | `strip()` gives the empty string exactly when every character is whitespace, which is when the read loop stops |
| `Text.Strip` | server.py:104 | definition of `strip()`; its facts are in `StripEmpty` and `StripKeeps` |
| `Text.Lower` | server.py:71 | `lower()` keeps the length and lower-cases each ASCII capital, leaving every other character; its facts are in `LowerIsLetter` |
| `Text.LowerIsLetter` | server.py:71 | a stripped role answer lower-cases to a letter exactly when it is that letter or its capital |
| `Text.SplitFirstOf` | src/client.py:256 | `split(c, 1)` at the first `c` gives back the two parts that were joined around a `c`, when the first has none |
| `Text.StartsWith` | src/client.py:235 | definition of `str.startswith`: the prefix is no longer than the text and equals its head; its facts are in `Client.ClassifyTags` |
| `Text.SplitFirst` | src/client.py:256 | `split(c, 1)` on a text holding `c`: the two parts joined around that `c` give back the text, and the first part holds no `c`; its round trip is `SplitFirstOf` |
| `Server.RemoveFirst` | server.py:176-177 | `spectators.remove(sock)` drops the first occurrence of the socket and keeps the other spectators in their order; on a list without repeats, the removed socket is gone |
| `Server.ResultLabel` | server.py:150-157 | definition: "1-0" is "White wins", "0-1" is "Black wins", anything else "Draw"; used by the contract of `Server.State.Moved` |
| `Server.Reply` | server.py:77-93 | definition of the reply to each role answer; its facts are in `AskToPlay`, `SpectateOrRefuse` and `ThirdPlayerTurnedAway` |
| `Server.GameOver` | server.py:46 | definition of the "Game over: <reason>" text every ending sends; its facts are in `Protocol.GameOverRead` and `Server.EndIsAnnounced` |
| `Server.TimeoutLabel` | server.py:41-56 | definition: White's flag is "Black wins by timeout", Black's "White wins by timeout"; used by the contract of `Server.State.Ticked` |
| `Server.ResignLabel` | server.py:111-114 | definition: White's seat resigning is "Black wins by resignation", any other player's "White wins by resignation"; its facts are in `ResignerLoses` |
| `Server.TimerMessage` | server.py:58 | definition of the timer line; its facts are in `Protocol.TimerParsed` and `Protocol.TimerQueued` |
| `Server.Initial` | server.py:8-15 | the server starts with an empty board, White to move, no one seated, nothing sent, 600 seconds on each clock, the move time at `now`, and the invariant holding |
| `Server.State.AdmissionOf` | server.py:71-95 | definition of the role decision; its facts are in `AdmissionCases` and `SeatOrder` |
| `Server.State.Joined` | server.py:63-99 | definition of the handshake's effect; its facts are in `JoinedSeats`, `JoinedKeepsValid` and `AskToPlay` |
| `Server.AdmissionCases` | server.py:71-95 | a seat, or "Game is full", goes to an answer that strips to "p" or "P", a place among spectators to "s" or "S"; White is given only when free, Black only when White is taken and Black free, "Game is full" only when both are taken |
| `Server.SeatOrder` | server.py:73-86 | asking to play gives White if free, else Black if free, else "Game is full" |
| `Server.AskToPlay` | server.py:73-99 | a newcomer asking to play takes the first free seat and no one else's place changes, and is sent the prompts, "You are white" or "You are black", then the board; with both seats taken the seats stay and the messages are exactly the prompts and "Game is full" |
| `Server.JoinedSeats` | server.py:73-95 | a join never takes a held seat and never changes an occupied seat; an answer that gives no seat leaves both seats; the board, turn, clocks and outcome are unchanged |
| `Server.JoinedKeepsValid` | server.py:73-95 | a new socket joining keeps the session invariant: no socket in two places, no spectator listed twice |
| `Server.SpectateOrRefuse` | server.py:87-95 | an answer that strips to "s" or "S" always appends the socket to the spectators, leaves the seats, and sends the prompts, "You are a spectator" and the board; any answer that strips to none of p, P, s, S changes no seat or spectator and sends exactly the prompts and "Invalid choice", no board |
| `Server.FirstTwoSeated` | server.py:73-82 | from the start, the first two players to ask take White and then Black |
| `Server.ThirdPlayerTurnedAway` | server.py:83-86 | a third player asking to play is told "Game is full" and both seats keep their holders |
| `Server.State.Ticked` | server.py:34-61 | with a seat empty only `last_move_time` is reset; otherwise only the side to move is charged `now - last_move_time`; at or below zero the opponent wins by timeout, announced to all with no timer line; else the clocks are broadcast and `last_move_time` becomes `now`; clocks never rise while time does not run backwards (`now >= last_move_time`); the invariant is kept |
| `Server.State.Recipients` | server.py:44 | definition of `[players['white'], players['black']] + spectators` with empty seats skipped; its facts are in `PresentTargets`, `RecipientsDistinct` and `FanoutReaches` |
| `Server.State.Broadcast` | server.py:59-61 | definition: one send of the text to each recipient in order; its facts are in `PresentTargets`, `FanoutReaches` and `RecipientsDistinct` |
| `Server.State.EndWith` | server.py:44-48 | definition: the game-over broadcast, then the recorded outcome; its facts are in `EndIsAnnounced` and the contracts of `Ticked`, `Moved`, `Resigned` and `DrawAccepted` |
| `Server.State.Accepts` | server.py:140-142 | definition: the text parses as a move that is legal on the board; used by the contract of `Server.State.Moved` |
| `Server.State.Moved` | server.py:137-166 | a move counts only from the socket seated on the side to move; an unparsable or illegal move sends "Invalid move" to the sender alone and changes nothing else; a legal one is pushed, flips the turn, resets the move time, broadcasts the FEN and, if the game is over, announces "White wins", "Black wins" or "Draw" from the result; seats and clocks never change |
| `Server.State.Resigned` | server.py:109-119 | a spectator's resignation is ignored; a player's ends the game, lost by White if that socket holds White's seat and by Black otherwise, announced to every participant |
| `Server.ResignerLoses` | server.py:110-114 | the resigning player's colour is the losing one, whichever seat they hold |
| `Server.State.ToOpponent` | server.py:121-124 | the notice goes to the opponent's seat alone, or nowhere if that seat is empty; nothing else changes |
| `Server.State.OpponentOf` | server.py:122 | definition: Black's seat if the socket holds White's, White's seat otherwise; its facts are in `DrawNoticeRecipient` |
| `Server.DrawNoticeRecipient` | server.py:122 | the opponent of White is Black, of Black is White, and of a spectator or a stranger White |
| `Server.State.DrawAccepted` | server.py:125-130 | accepting ends the game as "Draw by agreement", announced to every participant, with no check that a draw was offered |
| `Server.State.Dispatched` | server.py:108-166 | the four commands are matched before a move is tried, so only a message that is none of them can change the board; seats are untouched; the invariant is kept |
| `Server.DrawAnswerDispatched` | server.py:125-134 | "accept_draw" ends the game in a draw, "decline_draw" sends "draw_declined" to the seat opposite the one who declines |
| `Server.State.Released` | server.py:170-177 | only the seat the socket holds is freed, or its place among spectators removed; board, clocks, messages and outcome stay; the socket is no longer a participant; the invariant is kept |
| `Server.ReleaseIdempotent` | server.py:170-177 | under the invariant, releasing the same connection twice is releasing it once |
| `Server.State.AfterRead` | server.py:102-106 | a failed read, or one that strips to nothing, ends the loop with the release; any other read dispatches its stripped text; the invariant is kept |
| `Server.RecipientsDistinct` | server.py:44-46 | under the invariant, the broadcast list holds each participant exactly once and nobody else |
| `Server.FanoutReaches` | server.py:59-61 | every participant receives each broadcast, in any state |
| `Server.PresentConcat` | server.py:44-45 | skipping the empty places of two lists in turn is skipping them in the whole list |
| `Server.PresentTargets` | server.py:44-46 | the broadcast loop over White, Black and the spectators, skipping empty seats, reaches exactly the recipients in that order |
| `Server.RunKeepsValid` | server.py:30-177 | after any run of joins of new sockets, commands, disconnects and clock ticks, no socket is in two places, the side to move matches the move count, and while the game runs both clocks have time left |
| `Server.Step` | server.py:30-177 | definition: a connection's handshake, a read of a connection's loop, or a pass of the clock thread; its facts are in `RunKeepsValid` and `EndIsAnnounced` |
| `Server.Run` | server.py:30-177 | definition: the events in order until one ends the process; its facts are in `RunKeepsValid` |
| `Server.DispatchAnnounces` | server.py:109-162 | a command that ends the game records one of the eight reasons and ends with it announced to every participant |
| `Server.EndIsAnnounced` | server.py:44-56 | whatever event ends the game, its reason is one of the eight and its last messages announce it to every participant |
| `Server.WhiteFlagsFirst` | server.py:41-48 | White's clock running out before any move: the outcome is "Black wins by timeout" and every participant hears it |
| `Server.BlackResigns` | server.py:109-119 | Black resigning: "White wins by resignation", heard by every participant |
| `Server.DrawByAgreementScenario` | server.py:121-130 | White's draw offer reaches Black alone; accepting it ends the game as "Draw by agreement", heard by every participant |
| `Server.Session.constructor` | server.py:8-15 | a new session is the initial state |
| `Server.Session.Broadcast` | server.py:59-61 | the loop sends the text to White, Black and each spectator, in order, skipping empty seats |
| `Server.Session.EndWith` | server.py:44-48 | the game-over announcement to all, then the exit |
| `Server.Session.Admit` | server.py:73-95 | the role branches seat the socket, add it to the spectators, or neither, as `AdmissionOf` decides |
| `Server.Session.Join` | server.py:63-99 | the handshake leaves exactly the state `Joined` gives, and the invariant holds |
| `Server.Session.Tick` | server.py:34-61 | one pass of the clock thread leaves exactly the state `Ticked` gives, and the invariant holds |
| `Server.Session.TryMove` | server.py:137-166 | the move branch leaves exactly the state `Moved` gives |
| `Server.Session.Dispatch` | server.py:108-166 | the command branches leave exactly the state `Dispatched` gives |
| `Server.Session.Release` | server.py:170-177 | the cleanup leaves exactly the state `Released` gives |
| `Server.Session.Receive` | server.py:102-106 | one read leaves exactly the state `AfterRead` gives and keeps the invariant; the loop goes on exactly when the read stripped to something |
| `Client.GetSquare` | src/client.py:125-137 | definition of `get_square`; its facts are in `GetSquareOneToOne`, `GetSquareOnto` and `FlippedIsRotated` |
| `Client.GetSquareOneToOne` | src/client.py:125-137 | each grid cell stands for a square 0..63: `(7-row)*8+col` for spectators and unflipped players, `row*8+(7-col)` for a flipped player; the cell showing that square is the cell itself |
| `Client.GetSquareOnto` | src/client.py:125-137 | every square 0..63 is shown by a cell of the grid, in either orientation |
| `Client.FlippedIsRotated` | src/client.py:133-135 | Black's view is White's turned half a circle |
| `Client.Classify` | src/client.py:235-244 | definition of the tests of `network_loop` in their order; its facts are in `ClassifyTags` and `ClassifyOther` |
| `Client.ClassifyTags` | src/client.py:235-244 | a line is a timer update exactly when it starts with "timer:", a draw offer exactly when it is "draw_offer", a game-over exactly when it starts with "Game over:", a FEN exactly when it is none of those prefixes and holds a space and a '/' |
| `Client.ClassifyOther` | src/client.py:237-244 | a line that begins with neither 't' nor 'G' is a draw offer, a FEN or a plain message |
| `Client.ConnectionLostClassified` | src/client.py:233 | the "Connection lost" note carries the tag its text would get |
| `Client.Enqueued` | src/client.py:228-247 | definition of what `network_loop` queues; its facts are in `EnqueuedAt`, `EnqueuedLength` and `EnqueuedClassified` |
| `Client.EnqueuedAt` | src/client.py:228-244 | before the read that ends the loop, the k-th read is queued stripped and tagged at position k |
| `Client.EndsLoop` | src/client.py:231-234 | definition: a failed read or one that strips to nothing ends `network_loop`; its facts are in `EnqueuedLength` |
| `Client.Queued` | src/client.py:231-244 | definition: a read's text stripped and tagged; its facts are in `EnqueuedAt` and `EnqueuedClassified` |
| `Client.EnqueuedLength` | src/client.py:228-247 | a read that fails or strips to nothing queues "Connection lost" as the last entry; nothing is queued after it |
| `Client.EnqueuedClassified` | src/client.py:232-246 | everything the network loop queues carries the tag its text calls for |
| `Client.ParseTimer` | src/client.py:255-260 | a timer line is read exactly when it has a ':' and exactly one ',' after the first ':'; the two clocks are the parts around that comma |
| `Client.TimerLabel` | src/client.py:258 | definition of the label text; its facts are in `Protocol.TimerDelivered` |
| `Client.MalformedTimerIgnored` | src/client.py:255-260 | a timer line without exactly one comma after its first colon leaves the window unchanged |
| `Client.GameOverText` | src/client.py:274 | it needs a ':' to split at (Python raises otherwise); for a line starting with "Game over:" the result text is what follows that prefix, stripped |
| `Client.Handle` | src/client.py:251-278 | definition of one item's effect when nothing raises; its facts are in `LastFenShown`, `FenKept`, `MalformedTimerIgnored` and the `Protocol` lemmas |
| `Client.HandleAll` | src/client.py:249-279 | definition of one run of `check_for_updates`, stopped by the first item that raises; its facts are in `DrainStops`, `DrainCompletes`, `LastFenShown` and `FenKept` |
| `Client.Raises` | src/client.py:252-274 | definition: a FEN update `set_fen` rejects, or a game-over text without ':'; its facts are in `DrainStops`, `DrainCompletes` and `ChessClient.HandleFirst` |
| `Client.DrainStops` | src/client.py:250-253 | the first item that raises (a FEN `set_fen` rejects, a game-over text without ':') ends the run: the window is as the items before it left it and the items after it stay queued |
| `Client.DrainCompletes` | src/client.py:250-278 | a queue `network_loop` filled, whose FEN updates `set_fen` accepts, is handled to the end without an exception |
| `Client.LastFenShown` | src/client.py:250-253 | after a run the board is that of the last FEN in the batch, if nothing up to it raises |
| `Client.FenKept` | src/client.py:250-253 | a batch without a FEN leaves the board as it was, even when the run is cut short |
| `Client.Clamp` | src/client.py:214-217 | the score is bounded to [-500, 500] and left alone inside it |
| `Client.RawScore` | src/client.py:202-208 | definition of the score before clamping: a mate is ±10000 by its sign, a failed analysis 0; its facts are in `BarScore` |
| `Client.BarScore` | src/client.py:202-217 | a mate fills the bar toward the side that mates, a failed analysis is 0, a score in range is kept, and the bar score is always within ±500 |
| `Client.ChessClient.constructor` | src/client.py:52-106 | a player is White or Black and only Black's board is flipped; the clock label starts at ten minutes each; nothing is queued or selected; `check_for_updates` is scheduled |
| `Client.ChessClient.SquareClicked` | src/client.py:152-168 | no effect for a spectator or off turn; a first click selects the square exactly when it holds a piece of the player's colour; a second click always clears the selection and sends the move only if it is legal |
| `Client.ChessClient.MayClick` | src/client.py:154-156 | definition: a player on their own turn; used by the contract of `SquareClicked` |
| `Client.ChessClient.OwnColor` | src/client.py:159 | definition of `(self.color == 'white')` as the colour a player may pick up; used by the contract of `SquareClicked` |
| `Client.ChessClient.NetworkLoop` | src/client.py:228-247 | the queue gains exactly the stripped, tagged reads up to and including "Connection lost" for the first read that ends the loop; every queued item keeps its tag |
| `Client.ChessClient.HandleFirst` | src/client.py:251-278 | the first queued item is removed; it raises exactly when it is a FEN `set_fen` rejects or a game-over text without ':', and then the window is unchanged; otherwise its effect is exactly that of `Handle` |
| `Client.ChessClient.CheckForUpdates` | src/client.py:249-279 | the window and the queue end as `HandleAll` says: drained in order until the first item that raises, after which the rest stay queued and the next run is not scheduled; otherwise the queue is empty and the next run is scheduled |
| `Protocol.FormatTimeShape` | server.py:24-28 | a clock as the server writes it has no ',' and no surrounding whitespace, so the client's split cannot go wrong |
| `Protocol.QueuedAsSent` | src/client.py:231-244 | a line without surrounding whitespace is queued unchanged under the tag `Classify` gives it |
| `Protocol.TimerLineParsed` | src/client.py:256-257 | any two fields without a ',' are read back from a timer line exactly as written |
| `Protocol.TimerQueued` | server.py:58 | the server's timer line is queued unchanged as a timer update |
| `Protocol.TimerParsed` | server.py:58 | the client splits the server's timer line back into the two clocks as formatted |
| `Protocol.TimerDelivered` | src/client.py:254-258 | the clock thread's line sets the client's label to both clocks exactly as the server formatted them |
| `Protocol.GameOverQueued` | src/client.py:239-240 | a game-over line is queued unchanged as the end of the game |
| `Protocol.GameOverRead` | src/client.py:274 | the client reads back from "Game over: <reason>" exactly the reason announced |
| `Protocol.GameOverDelivered` | src/client.py:273-276 | each of the eight announced endings reaches the client as a dialog with that exact text, and the window is scheduled to close |
| `Protocol.DrawOfferAnswered` | src/client.py:261-272 | "draw_offer" is queued as a draw offer; the client sends exactly one answer; accepting makes the server end the game in a draw, declining makes it send "draw_declined" |
| `Protocol.NoticeDelivered` | src/client.py:277-278 | "Invalid move" and "draw_declined" are shown as they are |
| `Protocol.FenQueued` | src/client.py:241-242 | a position line of FEN shape is queued unchanged as a board update |
| `Protocol.FenDelivered` | src/client.py:241-253 | a position line of FEN shape is queued as a board update; taken from the queue it becomes the client's board if `set_fen` accepts it, and otherwise ends the run with the board unchanged and the rest still queued |

## Left out

- Sockets, `recv(1024)` framing and encodings. Each read is taken to return exactly one line the peer sent, though TCP may merge or split them. The exceptions `safe_send` swallows, and the failures of the client's `send`, are not modelled: a send always lands in the outbox.
- Threads and the lock. Each `with lock:` block, and each pass of the command loop, is one atomic step. In the source, the turn check before a move and the handling of `resign`, `offer_draw`, `accept_draw` and `decline_draw` run outside the lock, so interleavings with the clock thread or other connections are not captured.
- Server.State.Joined and Server.Session.Join: the handshake of `handle_client` spans two blocking reads, the locked seating block, the unlocked spectator reply and a second locked block that sends the board. It is modelled as one step, so a join, a move or a clock tick that runs between the seating and the board being sent is not captured: the board a newcomer receives may be later than the one `Joined` gives.
- The client's two threads. `network_loop` and `check_for_updates` share `message_queue`, and in the source a run of `check_for_updates` can also take items pushed while it runs. `Client.ChessClient.CheckForUpdates` drains the queue as it stood when the run began; `NetworkLoop` is one whole loop, not interleaved with a drain.
- `os._exit(0)` is the recorded `outcome`. The `Session` methods that perform a step (`Join`, `Tick`, `Receive`, `Dispatch`, `TryMove`, `Release`, `EndWith`) require that it is still `None`, because nothing runs after the process exits. `time.sleep` and `print` are left out.
- Server.Session.Join: requires that the socket is not already seated or watching, because the accept loop of `main` hands each handler a new socket. `RunKeepsValid` carries the same assumption for every join in the run.
- `main`'s accept loop and the name prompt's answer, which is only printed. The name and role prompts are still modelled as sent.
- Whether `set_fen` accepts a line is the adapter's `acceptsFen`. That it accepts every `fen()` the server sends is python-chess behaviour the model does not prove; `Protocol.FenDelivered` states both outcomes.
- python-chess internals: `Move.from_uci`, `legal_moves`, `push`, `fen()`, `is_game_over()` and `result()` on the server, and `set_fen`, `turn`, `piece_at`, `legal_moves` and `uci()` on the client. They are parameters, so the model proves nothing about chess rules.
- `Text.Lower` maps only ASCII capitals. Python's `lower()` also maps other characters, but none of them lowers to "p" or "s", so admission is unaffected.
- The client's constructor handshake (connect, name, role dialog, first FEN), `load_images`, `create_board`, `update_board`'s drawing, the resign and draw buttons, and `on_closing`. These are network and UI lifecycle; the constructor is reduced to the state it leaves.
- The Stockfish call in `update_evaluation_bar`: its outcome is the `Evaluation` parameter. The float scaling of the bar height and the `score/100` text are floating point and not modelled.
- The client's `running` flag, the 100 ms delay before each run of `check_for_updates` (only whether a next run is scheduled is kept, as `polling`), and the draw-offer dialog, whose answer is the parameter `accept`.
- Clocks are exact reals, not floats.
