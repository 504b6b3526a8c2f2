/**
 * PlayerInfoParameter.Entry, one row of a tab-list update: the constructors that set its
 * fields, and the resolution of profile, latency and game mode, either from the explicit
 * values or inferred from the entry's player. EnumGameMode, the game modes it carries.
 */
module PlayerInfo {
  import opened Wrappers

  /** EnumGameMode, in declaration order: the ordinals 0 to 4 select the host constants by position. */
  datatype GameMode = NotSet | Survival | Creative | Adventure | Spectator

  function Ordinal(m: GameMode): (i: nat)
    ensures i < 5
  {
    match m
    case NotSet => 0
    case Survival => 1
    case Creative => 2
    case Adventure => 3
    case Spectator => 4
  }

  function FromOrdinal(i: nat): GameMode
    requires i < 5
  {
    if i == 0 then NotSet else if i == 1 then Survival else if i == 2 then Creative
    else if i == 3 then Adventure else Spectator
  }

  /** The declaration order is a bijection onto 0..4. */
  lemma OrdinalRoundTrip(m: GameMode, i: nat)
    requires i < 5
    ensures FromOrdinal(Ordinal(m)) == m
    ensures Ordinal(FromOrdinal(i)) == i
  {
  }

  /** The server's game mode; Unlisted stands for a constant added by a later server. */
  datatype ServerGameMode = ServerCreative | ServerSurvival | ServerAdventure | ServerSpectator | Unlisted(ordinal: nat)

  /** getFromPlayer: the four server modes map to the same-named constants, anything else to NOT_SET. */
  function FromServer(g: ServerGameMode): (m: GameMode)
    ensures g == ServerCreative <==> m == Creative
    ensures g == ServerSurvival <==> m == Survival
    ensures g == ServerAdventure <==> m == Adventure
    ensures g == ServerSpectator <==> m == Spectator
    ensures m == NotSet <==> g.Unlisted?
  {
    match g
    case ServerCreative => Creative
    case ServerSurvival => Survival
    case ServerAdventure => Adventure
    case ServerSpectator => Spectator
    case Unlisted(_) => NotSet
  }

  type PlayerId = nat
  type Profile = nat
  type Component = string

  /** NOT_SET is never the game mode of a known server mode. */
  lemma FromServerInjectiveOnKnown(a: ServerGameMode, b: ServerGameMode)
    requires !a.Unlisted? && !b.Unlisted?
    ensures FromServer(a) == FromServer(b) <==> a == b
  {
  }

  /** The fields of an entry; an absent value is Java's null. */
  datatype Entry = Entry(name: Option<Component>, player: Option<PlayerId>, latency: Option<int>,
                         gameMode: Option<GameMode>, profile: Option<Profile>)

  /** Entry(Player): only the player; everything else is inferred from it. */
  function OfPlayer(p: PlayerId): Entry
  {
    Entry(None, Some(p), None, None, None)
  }

  function OfPlayerName(p: PlayerId, name: Option<Component>): Entry
  {
    Entry(name, Some(p), None, None, None)
  }

  function OfPlayerGameMode(p: PlayerId, m: GameMode): Entry
  {
    Entry(None, Some(p), None, Some(m), None)
  }

  function OfPlayerLatency(p: PlayerId, latency: int): Entry
  {
    Entry(None, Some(p), Some(latency), None, None)
  }

  function OfProfileFull(profile: Profile, name: Option<Component>, m: GameMode, latency: int): Entry
  {
    Entry(name, None, Some(latency), Some(m), Some(profile))
  }

  function OfProfileName(profile: Profile, name: Option<Component>): Entry
  {
    Entry(name, None, None, None, Some(profile))
  }

  function OfProfileGameMode(profile: Profile, m: GameMode): Entry
  {
    Entry(None, None, None, Some(m), Some(profile))
  }

  function OfProfileLatency(profile: Profile, latency: int): Entry
  {
    Entry(None, None, Some(latency), None, Some(profile))
  }

  function OfProfile(profile: Profile): Entry
  {
    Entry(None, None, None, None, Some(profile))
  }

  /** resolveGameProfile: the explicit profile, else the player's (whose lookup may fail), else IllegalState. */
  function ResolveGameProfile(e: Entry, profileOf: PlayerId -> Result<Profile>): (r: Result<Profile>)
    ensures e.profile.Some? ==> r == Ok(e.profile.value)
    ensures e.profile.None? && e.player.Some? ==> r == profileOf(e.player.value)
    ensures e.profile.None? && e.player.None? ==> r == Throw(IllegalState)
  {
    if e.profile.Some? then Ok(e.profile.value)
    else if e.player.Some? then profileOf(e.player.value)
    else Throw(IllegalState)
  }

  /** resolveLatency: the explicit latency, else the ping of the player's viewer, else IllegalState. */
  function ResolveLatency(e: Entry, pingOf: PlayerId -> int): (r: Result<int>)
    ensures e.latency.Some? ==> r == Ok(e.latency.value)
    ensures e.latency.None? && e.player.Some? ==> r == Ok(pingOf(e.player.value))
    ensures e.latency.None? && e.player.None? ==> r == Throw(IllegalState)
  {
    if e.latency.Some? then Ok(e.latency.value)
    else if e.player.Some? then Ok(pingOf(e.player.value))
    else Throw(IllegalState)
  }

  /** resolveGameMode: the explicit mode, else the player's mode, else IllegalState. */
  function ResolveGameMode(e: Entry, modeOf: PlayerId -> ServerGameMode): (r: Result<GameMode>)
    ensures e.gameMode.Some? ==> r == Ok(e.gameMode.value)
    ensures e.gameMode.None? && e.player.Some? ==> r == Ok(FromServer(modeOf(e.player.value)))
    ensures e.gameMode.None? && e.player.None? ==> r == Throw(IllegalState)
  {
    if e.gameMode.Some? then Ok(e.gameMode.value)
    else if e.player.Some? then Ok(FromServer(modeOf(e.player.value)))
    else Throw(IllegalState)
  }

  /**
   * An entry of a player infers all three values from the player; a player entry with an explicit
   * value uses it; an entry of a bare profile resolves only the profile.
   */
  lemma ResolutionOfConstructors(p: PlayerId, profile: Profile, latency: int, m: GameMode,
                                 profileOf: PlayerId -> Result<Profile>, pingOf: PlayerId -> int,
                                 modeOf: PlayerId -> ServerGameMode)
    ensures ResolveGameProfile(OfPlayer(p), profileOf) == profileOf(p)
    ensures ResolveLatency(OfPlayer(p), pingOf) == Ok(pingOf(p))
    ensures ResolveGameMode(OfPlayer(p), modeOf) == Ok(FromServer(modeOf(p)))
    ensures ResolveLatency(OfPlayerLatency(p, latency), pingOf) == Ok(latency)
    ensures ResolveGameMode(OfPlayerGameMode(p, m), modeOf) == Ok(m)
    ensures ResolveGameProfile(OfProfile(profile), profileOf) == Ok(profile)
    ensures ResolveLatency(OfProfile(profile), pingOf) == Throw(IllegalState)
    ensures ResolveGameMode(OfProfile(profile), modeOf) == Throw(IllegalState)
    ensures ResolveLatency(OfProfileGameMode(profile, m), pingOf) == Throw(IllegalState)
    ensures ResolveGameMode(OfProfileLatency(profile, latency), modeOf) == Throw(IllegalState)
  {
  }
}
