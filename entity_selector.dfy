/**
 * Entity-selector and score-holder handling of the 1.16.1 adapter: which host parser each
 * argument kind is given, and how a selector's parse result becomes a value.
 */
module NmsEntitySelector {
  import opened Wrappers

  /** The four entity-selector argument kinds. */
  datatype EntitySelector = ManyEntities | ManyPlayers | OneEntity | OnePlayer {
    predicate IsPlural() { this == ManyEntities || this == ManyPlayers }
  }

  /** The host `ArgumentEntity` factories: `multipleEntities()`, `d()`, `a()` and `c()`. */
  datatype EntityParserFactory = MultipleEntitiesFactory | FactoryD | FactoryA | FactoryC

  /** The host `ArgumentScoreholder` factories `a()` and `b()`. */
  datatype ScoreholderParserFactory = ScoreholderA | ScoreholderB

  /** `_ArgumentEntity`: the host parser for each selector kind; the plural kinds get the plural parsers. */
  function ArgumentEntity(selector: EntitySelector): (factory: EntityParserFactory)
    ensures factory == MultipleEntitiesFactory || factory == FactoryD <==> selector.IsPlural()
  {
    match selector
    case ManyEntities => MultipleEntitiesFactory
    case ManyPlayers => FactoryD
    case OneEntity => FactoryA
    case OnePlayer => FactoryC
  }

  /** `_ArgumentScoreholder`: `a()` for a single score holder, `b()` for several. */
  function ArgumentScoreholder(single: bool): (factory: ScoreholderParserFactory)
    ensures factory == ScoreholderA <==> single
    ensures factory == ScoreholderB <==> !single
  {
    if single then ScoreholderA else ScoreholderB
  }

  /** Each selector kind gets a parser of its own. */
  lemma ArgumentEntityInjective(s1: EntitySelector, s2: EntitySelector)
    ensures ArgumentEntity(s1) == ArgumentEntity(s2) <==> s1 == s2
  {
  }

  /** A host entity handle. */
  datatype HostEntity = HostEntity(id: nat)

  /** The Bukkit view of a host entity, as `getBukkitEntity()` returns it. */
  datatype BukkitEntity = BukkitEntity(handle: HostEntity)

  /** The human-readable reason of a host `CommandSyntaxException`. */
  datatype SyntaxError = SyntaxError(reason: string)

  /**
   * What the host extractors report for one argument key of a command context:
   * `entities` is `ArgumentEntity.c`, `players` is `d`, `entity` is `a`, `player` is `e`.
   */
  datatype HostSelection = HostSelection(
    entities: Result<seq<HostEntity>, SyntaxError>,
    players: Result<seq<HostEntity>, SyntaxError>,
    entity: Result<HostEntity, SyntaxError>,
    player: Result<HostEntity, SyntaxError>)

  /** The object `getEntitySelector` returns: a list of entities or players, or one of either. */
  datatype SelectorValue =
    | EntityList(entities: seq<BukkitEntity>)
    | PlayerList(players: seq<BukkitEntity>)
    | SingleEntity(entity: BukkitEntity)
    | SinglePlayer(player: BukkitEntity)

  /** The Bukkit views of a host list, in the same order. */
  function ToBukkit(hosts: seq<HostEntity>): (views: seq<BukkitEntity>)
    ensures |views| == |hosts|
    ensures forall k :: 0 <= k < |hosts| ==> views[k].handle == hosts[k]
  {
    seq(|hosts|, k requires 0 <= k < |hosts| => BukkitEntity(hosts[k]))
  }

  /** A plural list: the host's matches, or the empty list when the host threw. */
  function ListOrEmpty(host: Result<seq<HostEntity>, SyntaxError>): seq<BukkitEntity> {
    match host
    case Success(hosts) => ToBukkit(hosts)
    case Failure(_) => []
  }

  /**
   * `getEntitySelector`: for the plural kinds a host syntax error is swallowed into an empty
   * list; for the singular kinds it propagates.
   */
  function GetEntitySelector(host: HostSelection, selector: EntitySelector): (r: Result<SelectorValue, SyntaxError>)
    ensures selector.IsPlural() ==> r.Success?
    ensures selector == ManyEntities ==> r.Success? && r.value.EntityList?
    ensures selector == ManyPlayers ==> r.Success? && r.value.PlayerList?
    ensures selector == OneEntity ==> (r.Success? <==> host.entity.Success?)
    ensures selector == OnePlayer ==> (r.Success? <==> host.player.Success?)
    ensures selector == OneEntity && host.entity.Failure? ==> r == Failure(host.entity.error)
    ensures selector == OnePlayer && host.player.Failure? ==> r == Failure(host.player.error)
    ensures selector == OneEntity && r.Success? ==> r.value == SingleEntity(BukkitEntity(host.entity.value))
    ensures selector == OnePlayer && r.Success? ==> r.value == SinglePlayer(BukkitEntity(host.player.value))
  {
    match selector
    case ManyEntities => Success(EntityList(ListOrEmpty(host.entities)))
    case ManyPlayers => Success(PlayerList(ListOrEmpty(host.players)))
    case OneEntity =>
      (match host.entity
       case Success(e) => Success(SingleEntity(BukkitEntity(e)))
       case Failure(err) => Failure(err))
    case OnePlayer =>
      (match host.player
       case Success(p) => Success(SinglePlayer(BukkitEntity(p)))
       case Failure(err) => Failure(err))
  }

  /** The host call a plural selector kind relies on: `ArgumentEntity.c` for entities, `d` for players. */
  function PluralCall(host: HostSelection, selector: EntitySelector): Result<seq<HostEntity>, SyntaxError>
    requires selector.IsPlural()
  {
    if selector == ManyEntities then host.entities else host.players
  }

  /** The list inside a plural value. */
  function Listed(v: SelectorValue): seq<BukkitEntity> {
    match v
    case EntityList(es) => es
    case PlayerList(ps) => ps
    case _ => []
  }

  /** A plural list holds the Bukkit view of each host match, in order, and is empty when the host threw. */
  lemma PluralListContents(host: HostSelection, selector: EntitySelector)
    requires selector.IsPlural()
    ensures PluralCall(host, selector).Failure? ==> Listed(GetEntitySelector(host, selector).value) == []
    ensures PluralCall(host, selector).Success? ==>
              |Listed(GetEntitySelector(host, selector).value)| == |PluralCall(host, selector).value|
    ensures PluralCall(host, selector).Success? ==>
              forall k :: 0 <= k < |PluralCall(host, selector).value| ==>
                Listed(GetEntitySelector(host, selector).value)[k].handle == PluralCall(host, selector).value[k]
  {
  }

  /**
   * The asymmetry when every host call throws: the plural kinds yield an empty list, the
   * singular kinds fail with the host's reason. A host call that succeeds with no matches
   * is covered by `PluralListContents`.
   */
  lemma NoMatchAsymmetry(host: HostSelection, reason: string)
    requires host.entities == Failure(SyntaxError(reason)) && host.players == Failure(SyntaxError(reason))
    requires host.entity == Failure(SyntaxError(reason)) && host.player == Failure(SyntaxError(reason))
    ensures GetEntitySelector(host, ManyEntities) == Success(EntityList([]))
    ensures GetEntitySelector(host, ManyPlayers) == Success(PlayerList([]))
    ensures GetEntitySelector(host, OneEntity) == Failure(SyntaxError(reason))
    ensures GetEntitySelector(host, OnePlayer) == Failure(SyntaxError(reason))
  {
  }
}
