/**
 * The game launcher component: from its props it derives the mode, the game code and
 * the game definition, downloads the game's configuration (and AI) and then renders
 * one of: game not found, invalid mode, the game client, a loading page or a download
 * error page. The download is reduced to its two outcomes; the boardgame.io client,
 * its transports, the AI bot and translation are not modelled.
 */
module GameLauncher {
  import opened Wrappers

  /** The values of the GameMode enum. */
  const AI: string := "ai"
  const LOCAL_FRIEND: string := "local"
  const ONLINE_FRIEND: string := "online"

  /** A match of the lobby (online play); `nicknames` lists the memberships in order. */
  datatype Match = Match(
    gameCode: string,
    bgioServerUrl: string,
    bgioSecret: string,
    bgioMatchId: string,
    bgioPlayerId: string,
    nicknames: seq<string>)

  /** The outer props; `None` stands for an absent optional prop. */
  datatype OuterProps = OuterProps(
    gameCode: Option<string>,
    mode: string,
    matchData: Option<Match>,
    matchCode: Option<string>,
    playerID: Option<string>)

  /** A game definition of the registry: its display name and the modes it offers. */
  datatype GameDef = GameDef(name: string, modes: seq<string>)

  /** A game's `setup` function: its own, or one bound to the player's setup data. */
  datatype SetupFn = Setup(name: string) | WithSetupData(original: SetupFn, setupData: string)

  /** A boardgame.io game object; `rest` stands for the fields the launcher never touches. */
  datatype BgioGame = BgioGame(rest: string, setup: Option<SetupFn>)

  /** A downloaded game configuration. */
  datatype GameConfig = GameConfig(bgioGame: BgioGame, enhancers: Option<seq<string>>, debug: bool)

  datatype AIConfig = AIConfig(name: string)

  /** How the download started by `load` settles. */
  datatype LoadOutcome = Loaded(config: GameConfig, ai: AIConfig) | Failed

  /** One entry of the roster; `name` is the translation key or the member's nickname. */
  datatype PlayerInRoom = PlayerInRoom(playerID: nat, name: string)

  /** What `_getPlayers` yields: a list, `undefined` (no case matched) or a TypeError. */
  datatype Roster = Players(players: seq<PlayerInRoom>) | Undefined | Throws

  /** The fields the constructor derives from the props. */
  datatype Fields = Fields(
    mode: string,
    loadAI: bool,
    gameCode: Option<string>,
    serverUrl: Option<string>,
    gameDef: Option<GameDef>)

  /** What the client is built with; `players` is `None` where `_getPlayers` gave `undefined`. */
  datatype ClientArgs = ClientArgs(
    gameCode: Option<string>,
    mode: string,
    matchCode: Option<string>,
    playerID: Option<string>,
    credentials: Option<string>,
    players: Option<seq<PlayerInRoom>>,
    game: BgioGame,
    enhancers: seq<string>,
    debug: bool)

  /**
   * What `render` shows. `RenderThrows` is a render that raises a TypeError (building the
   * roster of an online game without a match).
   */
  datatype Page =
    | GameNotFound
    | InvalidGameMode
    | Client(args: ClientArgs)
    | Downloading(name: string)
    | DownloadFailed(name: string)
    | RenderThrows

  /**
   * The constructor's derivation. A match forces online play with the match's game code
   * and server; otherwise the props give mode and game code, and the AI is loaded only in
   * AI mode inside a browser. The definition is looked up in `registry` by game code; an
   * absent game code finds none.
   */
  function Derive(props: OuterProps, inBrowser: bool, registry: map<string, GameDef>): (f: Fields)
    ensures props.matchData.Some? ==>
      f.mode == ONLINE_FRIEND && f.gameCode == Some(props.matchData.value.gameCode) &&
      f.serverUrl == Some(props.matchData.value.bgioServerUrl) && !f.loadAI
    ensures props.matchData.None? ==>
      f.mode == props.mode && f.gameCode == props.gameCode && f.serverUrl == None &&
      (f.loadAI <==> props.mode == AI && inBrowser)
    ensures f.loadAI ==> f.mode == AI
    ensures f.gameDef.Some? <==> f.gameCode.Some? && f.gameCode.value in registry
    ensures f.gameDef.Some? ==> f.gameDef.value == registry[f.gameCode.value]
  {
    var (mode, loadAI, gameCode, serverUrl) :=
      match props.matchData
      case Some(m) => (ONLINE_FRIEND, false, Some(m.gameCode), Some(m.bgioServerUrl))
      case None => (props.mode, props.mode == AI && inBrowser, props.gameCode, None);
    var gameDef := if gameCode.Some? && gameCode.value in registry then Some(registry[gameCode.value]) else None;
    Fields(mode, loadAI, gameCode, serverUrl, gameDef)
  }

  /** ASCII lower-casing of one character. */
  function LowerChar(c: char): char {
    if 'A' <= c <= 'Z' then (c as int + 32) as char else c
  }

  /** `toLowerCase` on ASCII text. */
  function Lower(s: string): (r: string)
    ensures |r| == |s| && forall i :: 0 <= i < |s| ==> r[i] == LowerChar(s[i])
  {
    seq(|s|, i requires 0 <= i < |s| => LowerChar(s[i]))
  }

  /** Lower-casing twice is lower-casing once. */
  lemma LowerIdempotent(s: string)
    ensures Lower(Lower(s)) == Lower(s)
  {
    assert forall i :: 0 <= i < |s| ==> LowerChar(LowerChar(s[i])) == LowerChar(s[i]);
  }

  /** The lower-cased mode names, in order (`validGameModes`). */
  function LowerAll(modes: seq<string>): (r: seq<string>)
    ensures |r| == |modes| && forall i :: 0 <= i < |modes| ==> r[i] == Lower(modes[i])
  {
    seq(|modes|, i requires 0 <= i < |modes| => Lower(modes[i]))
  }

  /** The mode check of `render`: the mode is one of the game's modes, ignoring case. */
  predicate ModeValid(modes: seq<string>, mode: string): (r: bool)
    ensures r <==> exists i :: 0 <= i < |modes| && Lower(modes[i]) == Lower(mode)
  {
    Lower(mode) in LowerAll(modes)
  }

  /** The mode check does not see case: a mode and its lower-cased form are equally valid. */
  lemma ModeValidIgnoresCase(modes: seq<string>, mode: string)
    ensures ModeValid(modes, mode) <==> ModeValid(modes, Lower(mode))
  {
    LowerIdempotent(mode);
  }

  /** A mode spelled exactly as one of the game's modes is valid. */
  lemma ListedModeIsValid(modes: seq<string>, i: nat)
    requires i < |modes|
    ensures ModeValid(modes, modes[i])
  {
  }

  /** The player id of `render`: the match's, else "1" in AI mode, else the prop. */
  function PlayerIdFor(props: OuterProps, mode: string): (id: Option<string>)
    ensures props.matchData.Some? ==> id == Some(props.matchData.value.bgioPlayerId)
    ensures props.matchData.None? && mode == AI ==> id == Some("1")
    ensures props.matchData.None? && mode != AI ==> id == props.playerID
  {
    match props.matchData
    case Some(m) => Some(m.bgioPlayerId)
    case None => if mode == AI then Some("1") else props.playerID
  }

  /** The match code of `render`: the match's, else the prop. */
  function MatchCodeFor(props: OuterProps): (code: Option<string>)
    ensures props.matchData.Some? ==> code == Some(props.matchData.value.bgioMatchId)
    ensures props.matchData.None? ==> code == props.matchCode
  {
    match props.matchData
    case Some(m) => Some(m.bgioMatchId)
    case None => props.matchCode
  }

  /**
   * The enhancer list of `render`: the game's own enhancers, if it has any (an empty list
   * counts), followed by the defaults.
   */
  function Enhancers(own: Option<seq<string>>, defaults: seq<string>): (r: seq<string>)
    ensures own.None? ==> r == defaults
    ensures own.Some? ==>
      |r| == |own.value| + |defaults| && r[..|own.value|] == own.value && r[|own.value|..] == defaults
  {
    match own
    case Some(e) => e + defaults
    case None => defaults
  }

  /**
   * `injectSetupData`: online games are passed through; otherwise a copy whose `setup`
   * wraps the game's own with the setup data, or is absent when the game has none.
   */
  function InjectSetupData(mode: string, game: BgioGame, setupData: string): (r: BgioGame)
    ensures mode == ONLINE_FRIEND ==> r == game
    ensures mode != ONLINE_FRIEND ==> r.rest == game.rest
    ensures mode != ONLINE_FRIEND && game.setup.None? ==> r.setup.None?
    ensures mode != ONLINE_FRIEND && game.setup.Some? ==>
      r.setup == Some(WithSetupData(game.setup.value, setupData))
  {
    if mode == ONLINE_FRIEND then game
    else game.(setup := match game.setup
                        case Some(s) => Some(WithSetupData(s, setupData))
                        case None => None)
  }

  /**
   * `_getPlayers`: computer then you for AI, player 1 then player 2 for a local game, one
   * entry per membership (numbered by position) online. Online without a match throws; a
   * mode outside the three gives `undefined`.
   */
  function RosterFor(mode: string, matchData: Option<Match>): (r: Roster)
    ensures mode == AI ==> r == Players([PlayerInRoom(0, "computer"), PlayerInRoom(1, "you")])
    ensures mode == LOCAL_FRIEND ==> r == Players([PlayerInRoom(0, "player_1"), PlayerInRoom(1, "player_2")])
    ensures mode == ONLINE_FRIEND && matchData.None? ==> r == Throws
    ensures mode == ONLINE_FRIEND && matchData.Some? ==>
      r.Players? && |r.players| == |matchData.value.nicknames| &&
      forall i :: 0 <= i < |r.players| ==> r.players[i] == PlayerInRoom(i, matchData.value.nicknames[i])
    ensures mode != AI && mode != LOCAL_FRIEND && mode != ONLINE_FRIEND ==> r == Undefined
  {
    if mode == ONLINE_FRIEND then
      match matchData
      case None => Throws
      case Some(m) =>
        Players(seq(|m.nicknames|, i requires 0 <= i < |m.nicknames| => PlayerInRoom(i, m.nicknames[i])))
    else if mode == AI then Players([PlayerInRoom(0, "computer"), PlayerInRoom(1, "you")])
    else if mode == LOCAL_FRIEND then Players([PlayerInRoom(0, "player_1"), PlayerInRoom(1, "player_2")])
    else Undefined
  }

  /**
   * The mode check compares case-insensitively but `_getPlayers` does not: "AI" passes one
   * and misses the other, so the client is built without a roster.
   */
  lemma UpperCaseModeHasNoRoster(config: GameConfig, defaults: seq<string>, setupData: string)
    ensures ModeValid([AI], "AI")
    ensures RosterFor("AI", None) == Undefined
    ensures var props := OuterProps(Some("chess"), "AI", None, None, None);
      var p := PageFor(props, Derive(props, true, map["chess" := GameDef("Chess", [AI])]), false, Some(config),
                       defaults, setupData);
      p.Client? && p.args.players == None && p.args.playerID == None
  {
    assert Lower("AI") == "ai";
    assert Lower(AI) == "ai";
    assert LowerAll([AI])[0] == Lower(AI);
  }

  /**
   * `render`: the definition is checked first, then the mode, then the download state:
   * the client only once loading is over with a configuration, the loading page while
   * loading, the download error page otherwise.
   */
  function PageFor(props: OuterProps, f: Fields, loading: bool, config: Option<GameConfig>,
                   defaults: seq<string>, setupData: string): (p: Page)
    ensures f.gameDef.None? ==> p == GameNotFound
    ensures f.gameDef.Some? && !ModeValid(f.gameDef.value.modes, f.mode) ==> p == InvalidGameMode
    ensures f.gameDef.Some? && ModeValid(f.gameDef.value.modes, f.mode) ==>
      (p == Downloading(f.gameDef.value.name) <==> loading) &&
      (p == DownloadFailed(f.gameDef.value.name) <==> !loading && config.None?) &&
      (p.Client? || p.RenderThrows? <==> !loading && config.Some?)
    ensures p.RenderThrows? <==>
      (p != GameNotFound && p != InvalidGameMode && !loading && config.Some? &&
       RosterFor(f.mode, props.matchData).Throws?)
    ensures p.Client? ==>
      p.args.gameCode == f.gameCode && p.args.mode == f.mode &&
      p.args.playerID == PlayerIdFor(props, f.mode) &&
      p.args.matchCode == MatchCodeFor(props) &&
      p.args.credentials == (if props.matchData.Some? then Some(props.matchData.value.bgioSecret) else None) &&
      (RosterFor(f.mode, props.matchData).Players? ==>
         p.args.players == Some(RosterFor(f.mode, props.matchData).players)) &&
      (RosterFor(f.mode, props.matchData).Undefined? ==> p.args.players == None) &&
      p.args.game == InjectSetupData(f.mode, config.value.bgioGame, setupData) &&
      p.args.enhancers == Enhancers(config.value.enhancers, defaults) &&
      p.args.debug == config.value.debug
  {
    match f.gameDef
    case None => GameNotFound
    case Some(def) =>
      if !ModeValid(def.modes, f.mode) then InvalidGameMode
      else if !loading && config.Some? then
        var roster := RosterFor(f.mode, props.matchData);
        if roster.Throws? then RenderThrows
        else
          var c := config.value;
          Client(ClientArgs(
            f.gameCode, f.mode, MatchCodeFor(props), PlayerIdFor(props, f.mode),
            if props.matchData.Some? then Some(props.matchData.value.bgioSecret) else None,
            if roster.Players? then Some(roster.players) else None,
            InjectSetupData(f.mode, c.bgioGame, setupData),
            Enhancers(c.enhancers, defaults),
            c.debug))
      else if loading then Downloading(def.name)
      else DownloadFailed(def.name)
  }

  /** A launcher reached through a match always renders the online roster when it renders a client. */
  lemma MatchClientHasMembershipRoster(props: OuterProps, inBrowser: bool, registry: map<string, GameDef>,
                                       config: GameConfig, defaults: seq<string>, setupData: string)
    requires props.matchData.Some?
    requires var f := Derive(props, inBrowser, registry); f.gameDef.Some? && ModeValid(f.gameDef.value.modes, f.mode)
    ensures var p := PageFor(props, Derive(props, inBrowser, registry), false, Some(config), defaults, setupData);
      p.Client? && p.args.mode == ONLINE_FRIEND &&
      p.args.playerID == Some(props.matchData.value.bgioPlayerId) &&
      p.args.players.Some? && |p.args.players.value| == |props.matchData.value.nicknames| &&
      p.args.game == config.bgioGame
  {
  }

  /** The launcher component: the derived fields are fixed, the download state changes. */
  class Launcher {
    const props: OuterProps
    const mode: string
    const loadAI: bool
    const gameCode: Option<string>
    const serverUrl: Option<string>
    const gameDef: Option<GameDef>
    var loading: bool
    var config: Option<GameConfig>
    var ai: Option<AIConfig>

    /** The constructor: starts loading, with the fields of `Derive`. */
    constructor (props: OuterProps, inBrowser: bool, registry: map<string, GameDef>)
      ensures this.props == props
      ensures Fields(mode, loadAI, gameCode, serverUrl, gameDef) == Derive(props, inBrowser, registry)
      ensures loading && config.None? && ai.None?
    {
      var f := Derive(props, inBrowser, registry);
      this.props := props;
      mode, loadAI, gameCode, serverUrl, gameDef := f.mode, f.loadAI, f.gameCode, f.serverUrl, f.gameDef;
      loading, config, ai := true, None, None;
    }

    function FieldsOf(): Fields
      reads this
    {
      Fields(mode, loadAI, gameCode, serverUrl, gameDef)
    }

    /** `clear`: back to loading; the configuration is kept. */
    method Clear()
      modifies this`loading
      ensures loading
    {
      loading := true;
    }

    /**
     * `load`, once its download settles: success stores the configuration and, only when
     * the AI is to be loaded, the AI; failure (or no definition) only ends the loading.
     */
    method Load(outcome: LoadOutcome)
      modifies this`loading, this`config, this`ai
      ensures !loading
      ensures gameDef.Some? && outcome.Loaded? ==>
        config == Some(outcome.config) && ai == (if loadAI then Some(outcome.ai) else None)
      ensures gameDef.None? || outcome.Failed? ==> config == old(config) && ai == old(ai)
    {
      if gameDef.Some? && outcome.Loaded? {
        config := Some(outcome.config);
        ai := if loadAI then Some(outcome.ai) else None;
      }
      loading := false;
    }

    /** `render` for the current state. */
    function Render(defaults: seq<string>, setupData: string): (p: Page)
      reads this
      ensures p == GameNotFound <==> gameDef.None?
      ensures gameDef.Some? && !ModeValid(gameDef.value.modes, mode) ==> p == InvalidGameMode
      ensures gameDef.Some? && ModeValid(gameDef.value.modes, mode) && !loading && config.Some? ==>
        (p.RenderThrows? <==> RosterFor(mode, props.matchData).Throws?) &&
        (p.Client? <==> !RosterFor(mode, props.matchData).Throws?) &&
        (p.Client? ==> p.args.game == InjectSetupData(mode, config.value.bgioGame, setupData) &&
                       p.args.playerID == PlayerIdFor(props, mode))
      ensures gameDef.Some? && ModeValid(gameDef.value.modes, mode) && loading ==> p == Downloading(gameDef.value.name)
      ensures gameDef.Some? && ModeValid(gameDef.value.modes, mode) && !loading && config.None? ==>
        p == DownloadFailed(gameDef.value.name)
    {
      PageFor(props, FieldsOf(), loading, config, defaults, setupData)
    }
  }
}
