/**
 * core/channel.go: `channelImpl`, one record behind every channel capability
 * interface (message, DM, guild, category, voice, text, news, store, stage).
 *
 * The record is never assigned after construction, so every method is a
 * function of the record and of the collaborators it reaches through the
 * client context. Those collaborators (entity caches, the entity builder,
 * the REST services and the audio controller) are given as an `Env` of
 * uninterpreted functions, and every use of one is logged as a `Call` in the
 * returned `Trace`. A Go panic is a `Panicked` outcome.
 *
 * The single-type predicates are modelled as the source writes them, with
 * `!=`: `IsX` holds for every type except X.
 */
module Channel {

  import opened Wrappers

  type Snowflake = string
  /** A permission bit set. */
  type PermissionBits = int
  /** A timestamp as the API sends it. */
  type Timestamp = string

  /** The channel discriminant. `OtherType` is any type the facade does not name (group DMs, threads). */
  datatype ChannelType = DM | Text | Voice | Category | News | Store | Stage | OtherType

  /**
   * The wire representation of a channel; every field but the identifier and
   * the type may be absent. `interactionPermissions` is what the API sends
   * with an interaction: the invoking member's permissions in the channel.
   */
  datatype RawChannel = RawChannel(
    id: Snowflake,
    channelType: ChannelType,
    name: Option<string>,
    guildId: Option<Snowflake>,
    position: Option<int>,
    interactionPermissions: Option<PermissionBits>,
    topic: Option<string>,
    nsfw: Option<bool>,
    lastMessageId: Option<Snowflake>,
    bitrate: Option<int>,
    parentId: Option<Snowflake>,
    lastPinTimestamp: Option<Timestamp>)

  /** `channelImpl`: the wire record plus the identifier of the channel's live stage instance, if any. */
  datatype ChannelImpl = ChannelImpl(channel: RawChannel, stageInstanceId: Option<Snowflake>)

  // Stand-ins for the entities and request values this file only passes along.
  datatype GuildEntity = GuildEntity(id: Snowflake)
  datatype Member = Member(userId: Snowflake)
  datatype RawMessage = RawMessage(id: Snowflake)
  datatype Message = Message(id: Snowflake)
  datatype RawStageInstance = RawStageInstance(id: Snowflake)
  datatype StageInstanceEntity = StageInstanceEntity(id: Snowflake)
  datatype MessageCreate = MessageCreate(content: string)
  datatype MessageUpdate = MessageUpdate(content: string)
  datatype StageInstanceCreate = StageInstanceCreate(channelId: Snowflake, topic: string)
  datatype RestError = RestError(status: int, payload: string)
  datatype AudioError = AudioError(text: string)

  /** How the entity builder treats the entity it constructs; this file only ever asks for `NoWs`. */
  datatype CacheStrategy = NoWs | OtherStrategy

  /** Why a call panicked: the plain capability panic, the one that names the type, or a nil dereference. */
  datatype Panic = Unsupported | UnsupportedFor(channelType: ChannelType) | NilDereference

  /** What a Go call does: return a value or panic. */
  datatype Outcome<+T> = Returned(value: T) | Panicked(panic: Panic)

  /**
   * A REST service's `(*T, rest.Error)` reply: a pointer that may be nil and
   * an error that may be nil. Both nil is a reply the type allows.
   */
  datatype ServiceReply<+T> = ServiceReply(value: Option<T>, err: Option<RestError>)

  /** The collaborators of the facade, reached through `Disgo()`. */
  datatype Env = Env(
    guildCache: Snowflake -> Option<GuildEntity>,
    categoryCache: Snowflake -> Option<ChannelImpl>,
    stageInstanceCache: Snowflake -> Option<StageInstanceEntity>,
    buildMessage: (RawMessage, CacheStrategy) -> Message,
    buildStageInstance: (RawStageInstance, CacheStrategy) -> StageInstanceEntity,
    createMessage: (Snowflake, MessageCreate) -> ServiceReply<RawMessage>,
    updateMessage: (Snowflake, Snowflake, MessageUpdate) -> ServiceReply<RawMessage>,
    deleteMessage: (Snowflake, Snowflake) -> Option<RestError>,
    bulkDeleteMessages: (Snowflake, seq<Snowflake>) -> Option<RestError>,
    crosspostMessage: (Snowflake, Snowflake) -> ServiceReply<RawMessage>,
    createStageInstance: StageInstanceCreate -> ServiceReply<RawStageInstance>,
    audioConnect: (Snowflake, Snowflake) -> Option<AudioError>)

  /** One use of a collaborator, with the arguments it was given. */
  datatype Call =
    | GuildLookup(guildId: Snowflake)
    | CategoryLookup(categoryId: Snowflake)
    | StageInstanceLookup(stageInstanceId: Snowflake)
    | BuildMessage(rawMessage: RawMessage, strategy: CacheStrategy)
    | BuildStageInstance(rawStageInstance: RawStageInstance, strategy: CacheStrategy)
    | CreateMessageCall(channelId: Snowflake, create: MessageCreate)
    | UpdateMessageCall(channelId: Snowflake, messageId: Snowflake, update: MessageUpdate)
    | DeleteMessageCall(channelId: Snowflake, messageId: Snowflake)
    | BulkDeleteMessagesCall(channelId: Snowflake, messageIds: seq<Snowflake>)
    | CrosspostMessageCall(channelId: Snowflake, messageId: Snowflake)
    | CreateStageInstanceCall(stageInstanceCreate: StageInstanceCreate)
    | AudioConnect(guildId: Snowflake, channelId: Snowflake)

  /** A remote call, as opposed to a local cache lookup or entity construction. */
  predicate IsRemote(call: Call) {
    call.CreateMessageCall? || call.UpdateMessageCall? || call.DeleteMessageCall? ||
    call.BulkDeleteMessagesCall? || call.CrosspostMessageCall? || call.CreateStageInstanceCall? ||
    call.AudioConnect?
  }

  /** The collaborator calls a facade method made, in order, and how it ended. */
  datatype Trace<+T> = Trace(calls: seq<Call>, outcome: Outcome<T>)

  /** Go's `*p`: the pointee, or a nil-dereference panic. */
  function Deref<T>(p: Option<T>): (r: Outcome<T>)
    ensures r.Panicked? <==> p.None?
    ensures r.Panicked? ==> r.panic == NilDereference
    ensures r.Returned? ==> p == Some(r.value)
  {
    match p
    case None => Panicked(NilDereference)
    case Some(v) => Returned(v)
  }

  function Type(c: ChannelImpl): ChannelType {
    c.channel.channelType
  }

  function ID(c: ChannelImpl): Snowflake {
    c.channel.id
  }

  // ---------------------------------------------------------------------
  // Type predicates, as written
  // ---------------------------------------------------------------------

  predicate IsDMChannel(c: ChannelImpl) { Type(c) != DM }
  predicate IsTextChannel(c: ChannelImpl) { Type(c) != Text }
  predicate IsVoiceChannel(c: ChannelImpl) { Type(c) != Voice }
  predicate IsCategory(c: ChannelImpl) { Type(c) != Category }
  predicate IsNewsChannel(c: ChannelImpl) { Type(c) != News }
  predicate IsStoreChannel(c: ChannelImpl) { Type(c) != Store }
  predicate IsStageChannel(c: ChannelImpl) { Type(c) != Stage }

  predicate IsMessageChannel(c: ChannelImpl) {
    IsTextChannel(c) || IsNewsChannel(c) || IsDMChannel(c)
  }

  predicate IsGuildChannel(c: ChannelImpl) {
    IsCategory(c) || IsNewsChannel(c) || IsTextChannel(c) || IsVoiceChannel(c)
  }

  /** The type a channel has, in the ordinary sense; used to state what the predicates do. */
  predicate HasType(c: ChannelImpl, t: ChannelType) { Type(c) == t }

  /** Every single-type predicate is the negation of "the channel has that type". */
  lemma SingleTypePredicatesInverted(c: ChannelImpl)
    ensures IsDMChannel(c) <==> !HasType(c, DM)
    ensures IsTextChannel(c) <==> !HasType(c, Text)
    ensures IsVoiceChannel(c) <==> !HasType(c, Voice)
    ensures IsCategory(c) <==> !HasType(c, Category)
    ensures IsNewsChannel(c) <==> !HasType(c, News)
    ensures IsStoreChannel(c) <==> !HasType(c, Store)
    ensures IsStageChannel(c) <==> !HasType(c, Stage)
  {
  }

  /** No channel is text, news and DM at once, so every channel passes the message-channel test. */
  lemma MessageChannelAlways(c: ChannelImpl)
    ensures IsMessageChannel(c)
    ensures !(HasType(c, Text) && HasType(c, News) && HasType(c, DM))
  {
  }

  /** Every channel passes the guild-channel test, so the guild accessors never raise their capability panic. */
  lemma GuildChannelAlways(c: ChannelImpl)
    ensures IsGuildChannel(c)
  {
  }

  // ---------------------------------------------------------------------
  // Local accessors
  // ---------------------------------------------------------------------

  /** The display name; a channel without one panics on the nil dereference. */
  function Name(c: ChannelImpl): (r: Outcome<string>)
    ensures r.Panicked? <==> c.channel.name.None?
    ensures r.Panicked? ==> r.panic == NilDereference
    ensures r.Returned? ==> c.channel.name == Some(r.value)
  {
    Deref(c.channel.name)
  }

  /** The guild identifier; panics with the capability panic exactly when the channel has none. */
  function GuildID(c: ChannelImpl): (r: Outcome<Snowflake>)
    ensures r.Panicked? <==> c.channel.guildId.None?
    ensures r.Panicked? ==> r.panic == Unsupported
    ensures r.Returned? ==> c.channel.guildId == Some(r.value)
  {
    if !IsGuildChannel(c) || c.channel.guildId.None? then Panicked(Unsupported)
    else Returned(c.channel.guildId.value)
  }

  /** The interaction permissions; only their absence (a nil dereference) makes it panic. */
  function Permissions(c: ChannelImpl): (r: Outcome<PermissionBits>)
    ensures r.Panicked? <==> c.channel.interactionPermissions.None?
    ensures r.Panicked? ==> r.panic == NilDereference
    ensures r.Returned? ==> c.channel.interactionPermissions == Some(r.value)
  {
    if !IsGuildChannel(c) then Panicked(Unsupported)
    else Deref(c.channel.interactionPermissions)
  }

  /** The parent identifier, as stored, on every channel. */
  function ParentID(c: ChannelImpl): (r: Outcome<Option<Snowflake>>)
    ensures r == Returned(c.channel.parentId)
  {
    if !IsGuildChannel(c) then Panicked(Unsupported)
    else Returned(c.channel.parentId)
  }

  /** The position, as stored, on every channel. */
  function Position(c: ChannelImpl): (r: Outcome<Option<int>>)
    ensures r == Returned(c.channel.position)
  {
    if !IsGuildChannel(c) then Panicked(Unsupported)
    else Returned(c.channel.position)
  }

  /** The bitrate: the capability panic on voice channels, otherwise the stored value, which must be present. */
  function Bitrate(c: ChannelImpl): (r: Outcome<int>)
    ensures HasType(c, Voice) ==> r == Panicked(UnsupportedFor(Voice))
    ensures !HasType(c, Voice) ==> (r.Returned? <==> c.channel.bitrate.Some?)
    ensures !HasType(c, Voice) && r.Panicked? ==> r.panic == NilDereference
    ensures r.Returned? ==> c.channel.bitrate == Some(r.value)
  {
    if !IsVoiceChannel(c) then Panicked(UnsupportedFor(Type(c)))
    else Deref(c.channel.bitrate)
  }

  /** The NSFW flag: the capability panic on text channels, otherwise the stored value, which must be present. */
  function NSFW(c: ChannelImpl): (r: Outcome<bool>)
    ensures HasType(c, Text) ==> r == Panicked(UnsupportedFor(Text))
    ensures !HasType(c, Text) ==> (r.Returned? <==> c.channel.nsfw.Some?)
    ensures !HasType(c, Text) && r.Panicked? ==> r.panic == NilDereference
    ensures r.Returned? ==> c.channel.nsfw == Some(r.value)
  {
    if !IsTextChannel(c) then Panicked(UnsupportedFor(Type(c)))
    else Deref(c.channel.nsfw)
  }

  /** The moderator check: panics on stage channels and answers true for every other channel and member. */
  function IsModerator(c: ChannelImpl, member: Member): (r: Outcome<bool>)
    ensures r.Panicked? <==> HasType(c, Stage)
    ensures r.Panicked? ==> r.panic == UnsupportedFor(Stage)
    ensures r.Returned? ==> r.value
  {
    if !IsStageChannel(c) then Panicked(UnsupportedFor(Type(c)))
    else Returned(true)
  }

  // ---------------------------------------------------------------------
  // Cache lookups
  // ---------------------------------------------------------------------

  /** The owning guild from the guild cache; a channel without a guild identifier panics before any lookup. */
  function Guild(c: ChannelImpl, env: Env): (r: Trace<Option<GuildEntity>>)
    ensures c.channel.guildId.None? ==> r == Trace([], Panicked(Unsupported))
    ensures c.channel.guildId.Some? ==>
      var id := c.channel.guildId.value;
      r == Trace([GuildLookup(id)], Returned(env.guildCache(id)))
  {
    match GuildID(c)
    case Panicked(p) => Trace([], Panicked(p))
    case Returned(id) => Trace([GuildLookup(id)], Returned(env.guildCache(id)))
  }

  /** The parent category: nil with no lookup when there is no parent identifier, else the category cache's answer. */
  function Parent(c: ChannelImpl, env: Env): (r: Trace<Option<ChannelImpl>>)
    ensures r.outcome.Returned?
    ensures c.channel.parentId.None? ==> r == Trace([], Returned(None))
    ensures c.channel.parentId.Some? ==>
      var id := c.channel.parentId.value;
      r == Trace([CategoryLookup(id)], Returned(env.categoryCache(id)))
  {
    match ParentID(c)
    case Panicked(p) => Trace([], Panicked(p))
    case Returned(parent) =>
      if parent.None? then Trace([], Returned(None))
      else
        var id := c.channel.parentId.value;
        Trace([CategoryLookup(id)], Returned(env.categoryCache(id)))
  }

  /**
   * The live stage instance: the capability panic on stage channels, nil
   * with no lookup when no instance identifier is held, else the
   * stage-instance cache's answer.
   */
  function StageInstance(c: ChannelImpl, env: Env): (r: Trace<Option<StageInstanceEntity>>)
    ensures HasType(c, Stage) ==> r == Trace([], Panicked(Unsupported))
    ensures !HasType(c, Stage) && c.stageInstanceId.None? ==> r == Trace([], Returned(None))
    ensures !HasType(c, Stage) && c.stageInstanceId.Some? ==>
      var id := c.stageInstanceId.value;
      r == Trace([StageInstanceLookup(id)], Returned(env.stageInstanceCache(id)))
  {
    if !IsStageChannel(c) then Trace([], Panicked(Unsupported))
    else if c.stageInstanceId.None? then Trace([], Returned(None))
    else
      var id := c.stageInstanceId.value;
      Trace([StageInstanceLookup(id)], Returned(env.stageInstanceCache(id)))
  }

  // ---------------------------------------------------------------------
  // Service-backed operations
  // ---------------------------------------------------------------------

  /**
   * The shape shared by the operations that make one service call and wrap
   * its reply: the call comes first; an error comes back unchanged with
   * nothing built; a reply with neither a message nor an error panics on the
   * dereference after the call; otherwise exactly one message is built, with
   * the `NoWs` strategy, and returned.
   */
  ghost predicate CallsThenWrapsMessage(r: Trace<Result<Message, RestError>>, call: Call,
                                        reply: ServiceReply<RawMessage>, env: Env)
  {
    if reply.err.Some? then
      r == Trace([call], Returned(Failure(reply.err.value)))
    else if reply.value.None? then
      r == Trace([call], Panicked(NilDereference))
    else
      var raw := reply.value.value;
      r == Trace([call, BuildMessage(raw, NoWs)], Returned(Success(env.buildMessage(raw, NoWs))))
  }

  /** One call to the channel service, then the message wrapped; on any channel type. */
  function CreateMessage(c: ChannelImpl, env: Env, create: MessageCreate): (r: Trace<Result<Message, RestError>>)
    ensures CallsThenWrapsMessage(r, CreateMessageCall(ID(c), create), env.createMessage(ID(c), create), env)
  {
    var call := CreateMessageCall(ID(c), create);
    var reply := env.createMessage(ID(c), create);
    if reply.err.Some? then Trace([call], Returned(Failure(reply.err.value)))
    else
      match Deref(reply.value)
      case Panicked(p) => Trace([call], Panicked(p))
      case Returned(raw) => Trace([call, BuildMessage(raw, NoWs)], Returned(Success(env.buildMessage(raw, NoWs))))
  }

  function UpdateMessage(c: ChannelImpl, env: Env, messageId: Snowflake, update: MessageUpdate)
    : (r: Trace<Result<Message, RestError>>)
    ensures CallsThenWrapsMessage(r, UpdateMessageCall(ID(c), messageId, update),
                                  env.updateMessage(ID(c), messageId, update), env)
  {
    var call := UpdateMessageCall(ID(c), messageId, update);
    var reply := env.updateMessage(ID(c), messageId, update);
    if reply.err.Some? then Trace([call], Returned(Failure(reply.err.value)))
    else
      match Deref(reply.value)
      case Panicked(p) => Trace([call], Panicked(p))
      case Returned(raw) => Trace([call, BuildMessage(raw, NoWs)], Returned(Success(env.buildMessage(raw, NoWs))))
  }

  function CrosspostMessage(c: ChannelImpl, env: Env, messageId: Snowflake): (r: Trace<Result<Message, RestError>>)
    ensures CallsThenWrapsMessage(r, CrosspostMessageCall(ID(c), messageId),
                                  env.crosspostMessage(ID(c), messageId), env)
  {
    var call := CrosspostMessageCall(ID(c), messageId);
    var reply := env.crosspostMessage(ID(c), messageId);
    if reply.err.Some? then Trace([call], Returned(Failure(reply.err.value)))
    else
      match Deref(reply.value)
      case Panicked(p) => Trace([call], Panicked(p))
      case Returned(raw) => Trace([call, BuildMessage(raw, NoWs)], Returned(Success(env.buildMessage(raw, NoWs))))
  }

  /** One call to the channel service; its error comes back unchanged. */
  function DeleteMessage(c: ChannelImpl, env: Env, messageId: Snowflake): (r: Trace<Option<RestError>>)
    ensures r.calls == [DeleteMessageCall(ID(c), messageId)]
    ensures r.outcome == Returned(env.deleteMessage(ID(c), messageId))
  {
    Trace([DeleteMessageCall(ID(c), messageId)], Returned(env.deleteMessage(ID(c), messageId)))
  }

  /** Exactly one remote call carrying every identifier, in order, however many there are. */
  function BulkDeleteMessages(c: ChannelImpl, env: Env, messageIds: seq<Snowflake>): (r: Trace<Option<RestError>>)
    ensures |r.calls| == 1 && IsRemote(r.calls[0])
    ensures r.calls[0].BulkDeleteMessagesCall? && r.calls[0].channelId == ID(c) && r.calls[0].messageIds == messageIds
    ensures r.outcome == Returned(env.bulkDeleteMessages(ID(c), messageIds))
  {
    Trace([BulkDeleteMessagesCall(ID(c), messageIds)], Returned(env.bulkDeleteMessages(ID(c), messageIds)))
  }

  /**
   * Creating a stage instance: the capability panic on stage channels, with no
   * call made; otherwise one call, whose error comes back unchanged with
   * nothing built; a reply with neither an instance nor an error panics on
   * the dereference; otherwise one stage instance built with `NoWs`.
   */
  function CreateStageInstance(c: ChannelImpl, env: Env, create: StageInstanceCreate)
    : (r: Trace<Result<StageInstanceEntity, RestError>>)
    ensures HasType(c, Stage) ==> r == Trace([], Panicked(UnsupportedFor(Stage)))
    ensures !HasType(c, Stage) ==> |r.calls| >= 1 && r.calls[0] == CreateStageInstanceCall(create)
    ensures !HasType(c, Stage) && env.createStageInstance(create).err.Some? ==>
      r == Trace([CreateStageInstanceCall(create)], Returned(Failure(env.createStageInstance(create).err.value)))
    ensures !HasType(c, Stage) && env.createStageInstance(create) == ServiceReply(None, None) ==>
      r == Trace([CreateStageInstanceCall(create)], Panicked(NilDereference))
    ensures !HasType(c, Stage) && env.createStageInstance(create).err.None? && env.createStageInstance(create).value.Some? ==>
      var raw := env.createStageInstance(create).value.value;
      r == Trace([CreateStageInstanceCall(create), BuildStageInstance(raw, NoWs)],
                 Returned(Success(env.buildStageInstance(raw, NoWs))))
  {
    if !IsStageChannel(c) then Trace([], Panicked(UnsupportedFor(Type(c))))
    else
      var call := CreateStageInstanceCall(create);
      var reply := env.createStageInstance(create);
      if reply.err.Some? then Trace([call], Returned(Failure(reply.err.value)))
      else
        match Deref(reply.value)
        case Panicked(p) => Trace([call], Panicked(p))
        case Returned(raw) =>
          Trace([call, BuildStageInstance(raw, NoWs)], Returned(Success(env.buildStageInstance(raw, NoWs))))
  }

  /**
   * Joining the voice channel: the capability panic on voice channels; a
   * channel without a guild identifier panics in `GuildID` before `Connect`
   * is called; otherwise one connect with the guild and channel
   * identifiers, whose error comes back unchanged.
   */
  function Connect(c: ChannelImpl, env: Env): (r: Trace<Option<AudioError>>)
    ensures HasType(c, Voice) ==> r == Trace([], Panicked(UnsupportedFor(Voice)))
    ensures !HasType(c, Voice) && c.channel.guildId.None? ==> r == Trace([], Panicked(Unsupported))
    ensures !HasType(c, Voice) && c.channel.guildId.Some? ==>
      var g := c.channel.guildId.value;
      r == Trace([AudioConnect(g, ID(c))], Returned(env.audioConnect(g, ID(c))))
  {
    if !IsVoiceChannel(c) then Trace([], Panicked(UnsupportedFor(Type(c))))
    else
      match GuildID(c)
      case Panicked(p) => Trace([], Panicked(p))
      case Returned(g) => Trace([AudioConnect(g, ID(c))], Returned(env.audioConnect(g, ID(c))))
  }

  // ---------------------------------------------------------------------
  // Properties across operations
  // ---------------------------------------------------------------------

  /**
   * A capability panic, and the panic of a missing guild identifier, come
   * before any collaborator call: no remote call, no lookup, no construction.
   * The only panic that follows a call is the dereference of an empty service
   * reply, and it follows exactly the one remote call.
   */
  lemma PanicsBeforeAnyCall(c: ChannelImpl, env: Env, create: StageInstanceCreate)
    ensures Guild(c, env).outcome.Panicked? ==> Guild(c, env).calls == []
    ensures StageInstance(c, env).outcome.Panicked? ==> StageInstance(c, env).calls == []
    ensures Connect(c, env).outcome.Panicked? ==> Connect(c, env).calls == []
    ensures CreateStageInstance(c, env, create).outcome.Panicked? ==>
      (CreateStageInstance(c, env, create).outcome.panic == NilDereference <==>
       CreateStageInstance(c, env, create).calls == [CreateStageInstanceCall(create)])
  {
  }

  /**
   * The capability gates are backwards: each type-gated operation raises its
   * capability panic on the very type it serves and on no other.
   */
  lemma GatesRejectOwnType(c: ChannelImpl, env: Env, member: Member, create: StageInstanceCreate)
    ensures StageInstance(c, env).outcome == Panicked(Unsupported) <==> HasType(c, Stage)
    ensures CreateStageInstance(c, env, create).outcome == Panicked(UnsupportedFor(Stage)) <==> HasType(c, Stage)
    ensures IsModerator(c, member) == Panicked(UnsupportedFor(Stage)) <==> HasType(c, Stage)
    ensures Bitrate(c) == Panicked(UnsupportedFor(Voice)) <==> HasType(c, Voice)
    ensures NSFW(c) == Panicked(UnsupportedFor(Text)) <==> HasType(c, Text)
    ensures Connect(c, env).outcome == Panicked(UnsupportedFor(Voice)) <==> HasType(c, Voice)
  {
  }
}
