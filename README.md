# Board game UI logic, modelled in Dafny

This project models the decision logic inside three user-interface components of a
collection of browser board games built on boardgame.io:

- **Chess board** (`ChessBoard`, `chess_board.dfy`): the click-to-move state machine over
  one field, `selected` (a square name, `""` for none), and the views derived from the
  chess engine: the highlighted squares, the pieces of the 8x8 grid with their
  animation keys (the square the move history traces each piece back to), the current colour and the status
  line. chess.js is an oracle (`Position`): pieces per square, legal moves per square,
  the history and the check flag.
- **Game launcher** (`GameLauncher`, `game_launcher.dfy`): the mode, game code and
  definition the constructor derives from its props; the `loading`/`config`/`ai` state
  driven by `clear` and the two outcomes of `load`; which page `render` shows and with
  which player id, match code, roster, enhancers and game object.
- **Player hand** of Bombs and Bunnies (`PlayerHand`, `player_hand.dfy`): the sorted copy
  of the hand, the container width, the card kind per card and the guarded selection
  callback.

Behaviour the model keeps from the code:

- In `click`, React batches `setState`, so both tests read the selection as it was on
  entry: a click either selects a square or acts on an existing selection, never both.
- A click that finds a move issues it and leaves `selected` unchanged; the selection is
  cleared only by props carrying a truthy `G.pgn`.
- `ctx.currentPlayer === 0` is a strict comparison, so the current colour is white only
  for the number 0; the string `"0"` gives black (`ChessBoard.CurrentColor`).
- The launcher compares modes case-insensitively for validity but exactly elsewhere, so
  a mode such as `"AI"` passes the check while `_getPlayers` yields `undefined`, and the
  client is built without a roster (`GameLauncher.UpperCaseModeHasNoRoster`). Online mode without a match makes
  `_getPlayers` throw (`RosterFor` gives `Throws`, `PageFor` gives `RenderThrows`).
- A failed `load` only ends loading, so a configuration from an earlier successful load
  stays; from a fresh launcher it leads to the download error page.
- The index a hand card reports on click is its place in the sorted order, not in the
  hand (`PlayerHand.ReportedIndexIsNotHandIndex`).

Inputs the components take from outside are parameters: the chess engine's answers and
the position `load_pgn` produces, `typeof window !== 'undefined'` (`inBrowser`), the game
registry behind `getGameDefinition` (`registry`), the download's outcome, the default
enhancers and the player's setup data from the settings service. The GameMode values are
taken as `"ai"`, `"local"` and `"online"`, and the CardType enum in declaration order
(Bunny = 0, Bomb = 1); gamesShared/definitions/mode.ts and bombsAndBunnies/cardType.ts are
not part of this model. Translated labels are represented by their translation keys.

## Model

| member | source | states |
|---|---|---|
| ChessBoard.CurrentColor | src/components/games/Chess/board.tsx:193-199 | the colour is 'w' or 'b', and 'w' exactly when `currentPlayer` is the number 0 |
| ChessBoard.IsSelectable | src/components/games/Chess/board.tsx:184-191 | selectable iff the square holds a piece of the current colour and has at least one legal move |
| ChessBoard.Moves | src/components/games/Chess/board.tsx:201-209 | no moves when nothing is selected; otherwise the engine's moves from the selected square |
| ChessBoard.FindMove | src/components/games/Chess/board.tsx:82-85 | the index of the first move from `from` to `to`; none exactly when no move matches |
| ChessBoard.ClickStep | src/components/games/Chess/board.tsx:71-92 | inactive: no change, no move; nothing selected: no move, selection becomes the square iff selectable; selection present: a move is issued iff a legal move goes from it to the square, the issued SAN is that of the first such move in the engine's list and the selection stays, otherwise the selection is cleared |
| ChessBoard.ClickKeepsSelectionOwned | src/components/games/Chess/board.tsx:77-91 | a click keeps the selection either empty or on a selectable square |
| ChessBoard.Board.constructor | src/components/games/Chess/board.tsx:42-45 | a new board has no selection and the engine's start position |
| ChessBoard.Board.ReceiveProps | src/components/games/Chess/board.tsx:48-53 | a non-empty `pgn` reloads the position and clears the selection; an empty one changes nothing |
| ChessBoard.Board.Click | src/components/games/Chess/board.tsx:71-92 | the new selection and the issued move are those of `ClickStep` on the selection held on entry |
| ChessBoard.Board.HighlightedSquares | src/components/games/Chess/board.tsx:94-103 | keys are exactly the selection (if any) plus every destination of its legal moves; destinations map to 'palegreen', the selection otherwise to 'green'; empty when nothing is selected |
| ChessBoard.Board.InitialCell | src/components/games/Chess/board.tsx:172-182 | the backward loop computes `Origin` of the square over the history |
| ChessBoard.OriginOfUntouched | src/components/games/Chess/board.tsx:172-182 | a square no move landed on (in particular with an empty history) is its own origin |
| ChessBoard.OriginIsSquareOrSource | src/components/games/Chess/board.tsx:172-182 | the origin is the square itself or the source square of some move of the history |
| ChessBoard.OriginThroughLastMove | src/components/games/Chess/board.tsx:175-180 | the destination of the newest move traces back to that move's source |
| ChessBoard.SquareName | src/components/games/Chess/board.tsx:109 | the square name is the file letter followed by the rank digit |
| ChessBoard.RankSquares | src/components/games/Chess/board.tsx:108-109 | a rank has eight squares, file a to h |
| ChessBoard.Board.RankTokens | src/components/games/Chess/board.tsx:108-123 | the inner loop renders the occupied squares of one rank, in file order, keyed by origin |
| ChessBoard.Board.Pieces | src/components/games/Chess/board.tsx:105-126 | the nested loops render exactly the occupied squares of the 64, rank by rank, each keyed by its origin |
| ChessBoard.OccupiedTokensAppend | src/components/games/Chess/board.tsx:107-124 | rendering two runs of squares renders the first then the second |
| ChessBoard.TokensAreOccupied | src/components/games/Chess/board.tsx:110-122 | every token stands on an occupied visited square, carries that square's piece and its origin as key |
| ChessBoard.OccupiedSquaresAreRendered | src/components/games/Chess/board.tsx:107-123 | every occupied visited square yields its token |
| ChessBoard.GridSquareVisited | src/components/games/Chess/board.tsx:107-109 | the loops visit every square of the 8x8 grid |
| ChessBoard.EveryOccupiedSquareRendered | src/components/games/Chess/board.tsx:105-126 | every occupied square of the board is rendered, keyed by its origin |
| ChessBoard.Status | src/components/games/Chess/board.tsx:145-170 | winner 'b', 'w', 'd' gives "Black won!", "White won!", "Draw!" over "CHECK"; otherwise "CHECK" exactly when in check, and nothing when not |
| GameLauncher.Derive | web/src/infra/game/Game.tsx:50-59 | with a match: online mode, the match's game code and server, no AI; without: the props' mode and (possibly absent) code, AI loaded iff AI mode in a browser; loadAI only in AI mode; the definition is the registry's entry for the code, none when the code is absent |
| GameLauncher.Launcher.constructor | web/src/infra/game/Game.tsx:45-60 | fields are those of `Derive`; the launcher starts loading with no configuration |
| GameLauncher.Launcher.Clear | web/src/infra/game/Game.tsx:62-66 | `clear` sets loading |
| GameLauncher.Launcher.Load | web/src/infra/game/Game.tsx:68-95 | loading ends; a success stores the configuration and the AI only when loadAI (none otherwise); a failure or a missing definition leaves configuration and AI as they were |
| GameLauncher.Launcher.Render | web/src/infra/game/Game.tsx:119-176 | not found exactly without a definition; invalid mode when the mode is not the game's; with a valid mode the loading page while loading, the download error page when done without configuration, and when done with one the client (with the injected game and the player id) unless building the roster throws |
| GameLauncher.Lower | web/src/infra/game/Game.tsx:122 | lower-casing keeps the length and lower-cases each character |
| GameLauncher.LowerIdempotent | web/src/infra/game/Game.tsx:122-123 | lower-casing twice equals lower-casing once |
| GameLauncher.LowerAll | web/src/infra/game/Game.tsx:122 | the valid modes are the game's modes lower-cased, in order |
| GameLauncher.ModeValid | web/src/infra/game/Game.tsx:122-123 | valid iff some mode of the game equals the mode ignoring case |
| GameLauncher.ModeValidIgnoresCase | web/src/infra/game/Game.tsx:122-123 | a mode is valid iff its lower-cased form is |
| GameLauncher.ListedModeIsValid | web/src/infra/game/Game.tsx:122-123 | every mode the game lists is valid |
| GameLauncher.PlayerIdFor | web/src/infra/game/Game.tsx:111-118 | the match's player id; else '1' in AI mode; else the `playerID` prop |
| GameLauncher.MatchCodeFor | web/src/infra/game/Game.tsx:111-118 | the match's id, else the `matchCode` prop |
| GameLauncher.Enhancers | web/src/infra/game/Game.tsx:145-147 | the game's enhancers (even an empty list) followed by the defaults, or the defaults alone |
| GameLauncher.InjectSetupData | web/src/infra/game/Game.tsx:183-192 | online: the game unchanged; otherwise the same game whose setup wraps the original with the setup data, or is absent when there was none |
| GameLauncher.RosterFor | web/src/infra/game/Game.tsx:194-214 | AI: [computer 0, you 1]; local: [player 1 0, player 2 1]; online: one entry per membership in order with its index as id, a TypeError without a match; other modes: undefined |
| GameLauncher.UpperCaseModeHasNoRoster | web/src/infra/game/Game.tsx:122-133 | mode "AI" passes the case-insensitive check for a game offering "ai", gets no roster, and the client is still built, with no players and no player id |
| GameLauncher.PageFor | web/src/infra/game/Game.tsx:107-177 | not found before any mode check; then invalid mode; then the client iff loading is over with a configuration (a TypeError exactly when the roster throws), the loading page iff loading, the download error otherwise; the client gets the player id, match code, credentials, roster (absent when `_getPlayers` gives undefined), injected game and enhancers above |
| GameLauncher.MatchClientHasMembershipRoster | web/src/infra/game/Game.tsx:111-135 | a launcher with a match renders an online client with the match's player id, one roster entry per membership and the game passed through |
| PlayerHand.SelectCard | web/src/games/bombsAndBunnies/PlayerHand.tsx:15-21 | nothing is forwarded without a callback; with one, the index is forwarded unchanged |
| PlayerHand.Insert | web/src/games/bombsAndBunnies/PlayerHand.tsx:42-43 | inserting into an ascending sequence keeps it ascending and adds the card |
| PlayerHand.Sorted | web/src/games/bombsAndBunnies/PlayerHand.tsx:42-43 | the sorted copy is ascending and a permutation of the hand |
| PlayerHand.SortedIsUnique | web/src/games/bombsAndBunnies/PlayerHand.tsx:42-43 | two ascending permutations of a hand are equal, so any sort with `a - b` gives `Sorted` |
| PlayerHand.SortedOfSortedHand | web/src/games/bombsAndBunnies/PlayerHand.tsx:42-43 | an ascending hand is drawn in its own order |
| PlayerHand.RenderCard | web/src/games/bombsAndBunnies/PlayerHand.tsx:56-75 | the bunny component iff the card is Bunny, else the bomb; the click reports the given index; selectable iff there is a callback |
| PlayerHand.RenderHand | web/src/games/bombsAndBunnies/PlayerHand.tsx:41-45 | one card per element of the hand, the i-th drawn from the i-th of the sorted copy with index i |
| PlayerHand.RenderCards | web/src/games/bombsAndBunnies/PlayerHand.tsx:27-39 | the "No Cards left..." title iff the hand is empty; otherwise width 40 per card plus 80 and the drawn hand |
| PlayerHand.BunniesDrawnFirst | web/src/games/bombsAndBunnies/PlayerHand.tsx:42-44 | no bunny is drawn after a bomb |
| PlayerHand.ClickReportsSortedIndex | web/src/games/bombsAndBunnies/PlayerHand.tsx:44-72 | clicking the i-th drawn card forwards i |
| PlayerHand.ReportedIndexIsNotHandIndex | web/src/games/bombsAndBunnies/PlayerHand.tsx:42-44 | for the hand [Bomb, Bunny] the bomb, at hand index 0, reports 1 |

## Left out

- The chess rules of chess.js (`get`, `moves`, `history`, `in_check`, `load_pgn`): the engine is an oracle whose answers are inputs.
- Rendering: JSX trees, the piece components chosen by `_getPieceByTypeAndColor`, the Checkerboard and Token components, CSS classes, message pages.
- ChessBoard.Origin: the key follows moves as the verbose history records them, and castling is recorded as the king's move only, so a castled rook is traced back to the square it castled to, not to its corner; two pieces can then share a key.
- ChessBoard.Status: `ctx.winner` is taken to be a string (`""` when falsy); other winner values are not modelled.
- ChessBoard.Board.Pieces: the inner loop over files is the separate method `RankTokens`; the visiting order is the same.
- The boardgame.io `Client`, the `SocketIO` and `Local` transports, `Debug`, redux `applyMiddleware`, applying each enhancer to the game arguments, and the AI bot construction with its assignment to `clientConfig.game.ai`.
- The promises of `load`: only the state each outcome leaves is modelled. `componentDidMount` and `componentWillUnmount` only call `load` and `clear`.
- The settings service behind `getSetupData` and the translation function `t`: setup data is an opaque input, labels are translation keys.
- GameLauncher.Derive: an absent `mode` prop is not modelled (the mode is a string); the code would throw in `toLowerCase` for it. An absent `gameCode` is modelled and finds no definition.
- GameLauncher.Lower: lower-casing covers ASCII letters only, not all of Unicode.
- The fan geometry of `renderCard` (floating-point rotation and offset, dividing by `count - 1`).
- The bet button of Bombs and Bunnies (presentation only).
