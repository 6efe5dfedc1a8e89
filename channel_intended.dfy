/**
 * The capability predicates of core/channel.go as their names promise,
 * `Type() == X`, and the type-gated accessors rebuilt on them. The model of
 * the code as written is module `Channel`; this module exists to state what
 * the gates were evidently meant to do and to prove it of the corrected
 * definitions.
 */
module ChannelIntended {

  import opened Wrappers
  import Channel

  type ChannelImpl = Channel.ChannelImpl

  predicate IsDMChannel(c: ChannelImpl) { Channel.Type(c) == Channel.DM }
  predicate IsTextChannel(c: ChannelImpl) { Channel.Type(c) == Channel.Text }
  predicate IsVoiceChannel(c: ChannelImpl) { Channel.Type(c) == Channel.Voice }
  predicate IsCategory(c: ChannelImpl) { Channel.Type(c) == Channel.Category }
  predicate IsNewsChannel(c: ChannelImpl) { Channel.Type(c) == Channel.News }
  predicate IsStoreChannel(c: ChannelImpl) { Channel.Type(c) == Channel.Store }
  predicate IsStageChannel(c: ChannelImpl) { Channel.Type(c) == Channel.Stage }

  /** Each corrected predicate is the exact negation of the one the source ships. */
  lemma CorrectedIsNegationOfWritten(c: ChannelImpl)
    ensures IsDMChannel(c) == !Channel.IsDMChannel(c)
    ensures IsTextChannel(c) == !Channel.IsTextChannel(c)
    ensures IsVoiceChannel(c) == !Channel.IsVoiceChannel(c)
    ensures IsCategory(c) == !Channel.IsCategory(c)
    ensures IsNewsChannel(c) == !Channel.IsNewsChannel(c)
    ensures IsStoreChannel(c) == !Channel.IsStoreChannel(c)
    ensures IsStageChannel(c) == !Channel.IsStageChannel(c)
  {
  }

  /** The stage instance, gated on the channel being a stage channel. */
  function StageInstance(c: ChannelImpl, env: Channel.Env): (r: Channel.Trace<Option<Channel.StageInstanceEntity>>)
    ensures r.outcome.Panicked? <==> !Channel.HasType(c, Channel.Stage)
    ensures r.outcome.Panicked? ==> r.calls == []
    ensures Channel.HasType(c, Channel.Stage) && c.stageInstanceId.None? ==> r == Channel.Trace([], Channel.Returned(None))
    ensures Channel.HasType(c, Channel.Stage) && c.stageInstanceId.Some? ==>
      var id := c.stageInstanceId.value;
      r == Channel.Trace([Channel.StageInstanceLookup(id)], Channel.Returned(env.stageInstanceCache(id)))
  {
    if !IsStageChannel(c) then Channel.Trace([], Channel.Panicked(Channel.Unsupported))
    else if c.stageInstanceId.None? then Channel.Trace([], Channel.Returned(None))
    else
      var id := c.stageInstanceId.value;
      Channel.Trace([Channel.StageInstanceLookup(id)], Channel.Returned(env.stageInstanceCache(id)))
  }

  /** The bitrate, gated on the channel being a voice channel. */
  function Bitrate(c: ChannelImpl): (r: Channel.Outcome<int>)
    ensures !Channel.HasType(c, Channel.Voice) ==> r == Channel.Panicked(Channel.UnsupportedFor(Channel.Type(c)))
    ensures Channel.HasType(c, Channel.Voice) ==> (r.Returned? <==> c.channel.bitrate.Some?)
    ensures r.Returned? ==> Channel.HasType(c, Channel.Voice) && c.channel.bitrate == Some(r.value)
  {
    if !IsVoiceChannel(c) then Channel.Panicked(Channel.UnsupportedFor(Channel.Type(c)))
    else Channel.Deref(c.channel.bitrate)
  }

  /** The NSFW flag, gated on the channel being a text channel. */
  function NSFW(c: ChannelImpl): (r: Channel.Outcome<bool>)
    ensures !Channel.HasType(c, Channel.Text) ==> r == Channel.Panicked(Channel.UnsupportedFor(Channel.Type(c)))
    ensures Channel.HasType(c, Channel.Text) ==> (r.Returned? <==> c.channel.nsfw.Some?)
    ensures r.Returned? ==> Channel.HasType(c, Channel.Text) && c.channel.nsfw == Some(r.value)
  {
    if !IsTextChannel(c) then Channel.Panicked(Channel.UnsupportedFor(Channel.Type(c)))
    else Channel.Deref(c.channel.nsfw)
  }

  /** The moderator check, gated on the channel being a stage channel; still a placeholder that answers true. */
  function IsModerator(c: ChannelImpl, member: Channel.Member): (r: Channel.Outcome<bool>)
    ensures r.Panicked? <==> !Channel.HasType(c, Channel.Stage)
    ensures r.Panicked? ==> r.panic == Channel.UnsupportedFor(Channel.Type(c))
    ensures r.Returned? ==> r.value
  {
    if !IsStageChannel(c) then Channel.Panicked(Channel.UnsupportedFor(Channel.Type(c)))
    else Channel.Returned(true)
  }

  /** Creating a stage instance, gated on the channel being a stage channel; the rest as in the written version. */
  function CreateStageInstance(c: ChannelImpl, env: Channel.Env, create: Channel.StageInstanceCreate)
    : (r: Channel.Trace<Result<Channel.StageInstanceEntity, Channel.RestError>>)
    ensures !Channel.HasType(c, Channel.Stage) ==> r == Channel.Trace([], Channel.Panicked(Channel.UnsupportedFor(Channel.Type(c))))
    ensures Channel.HasType(c, Channel.Stage) ==> r.calls != [] && r.calls[0] == Channel.CreateStageInstanceCall(create)
    ensures Channel.HasType(c, Channel.Stage) ==> r.outcome.Returned? || r.outcome == Channel.Panicked(Channel.NilDereference)
  {
    if !IsStageChannel(c) then Channel.Trace([], Channel.Panicked(Channel.UnsupportedFor(Channel.Type(c))))
    else
      var call := Channel.CreateStageInstanceCall(create);
      var reply := env.createStageInstance(create);
      if reply.err.Some? then Channel.Trace([call], Channel.Returned(Failure(reply.err.value)))
      else
        match Channel.Deref(reply.value)
        case Panicked(p) => Channel.Trace([call], Channel.Panicked(p))
        case Returned(raw) =>
          Channel.Trace([call, Channel.BuildStageInstance(raw, Channel.NoWs)],
                        Channel.Returned(Success(env.buildStageInstance(raw, Channel.NoWs))))
  }

  /** Joining the voice channel, gated on the channel being a voice channel. */
  function Connect(c: ChannelImpl, env: Channel.Env): (r: Channel.Trace<Option<Channel.AudioError>>)
    ensures !Channel.HasType(c, Channel.Voice) ==> r == Channel.Trace([], Channel.Panicked(Channel.UnsupportedFor(Channel.Type(c))))
    ensures Channel.HasType(c, Channel.Voice) && c.channel.guildId.None? ==> r == Channel.Trace([], Channel.Panicked(Channel.Unsupported))
    ensures Channel.HasType(c, Channel.Voice) && c.channel.guildId.Some? ==>
      var g := c.channel.guildId.value;
      r == Channel.Trace([Channel.AudioConnect(g, Channel.ID(c))], Channel.Returned(env.audioConnect(g, Channel.ID(c))))
  {
    if !IsVoiceChannel(c) then Channel.Trace([], Channel.Panicked(Channel.UnsupportedFor(Channel.Type(c))))
    else
      match Channel.GuildID(c)
      case Panicked(p) => Channel.Trace([], Channel.Panicked(p))
      case Returned(g) => Channel.Trace([Channel.AudioConnect(g, Channel.ID(c))], Channel.Returned(env.audioConnect(g, Channel.ID(c))))
  }

  /**
   * On a channel of the type a gate serves, the corrected gate lets the call
   * through where the written one raises its capability panic.
   */
  lemma CorrectedGatesAdmitOwnType(c: ChannelImpl, env: Channel.Env, member: Channel.Member, create: Channel.StageInstanceCreate)
    ensures Channel.HasType(c, Channel.Stage) ==>
      && Channel.IsModerator(c, member).Panicked? && IsModerator(c, member) == Channel.Returned(true)
      && Channel.CreateStageInstance(c, env, create).calls == [] && CreateStageInstance(c, env, create).calls != []
    ensures Channel.HasType(c, Channel.Voice) && c.channel.guildId.Some? ==>
      Channel.Connect(c, env).calls == [] && Connect(c, env).calls == [Channel.AudioConnect(c.channel.guildId.value, Channel.ID(c))]
  {
  }

  /** A stage channel that holds an instance identifier: the written gate panics on it, the corrected one looks it up. */
  lemma WrittenStageGateRejectsStageChannel(c: ChannelImpl, env: Channel.Env)
    requires Channel.HasType(c, Channel.Stage) && c.stageInstanceId.Some?
    ensures Channel.StageInstance(c, env).outcome == Channel.Panicked(Channel.Unsupported)
    ensures StageInstance(c, env).outcome == Channel.Returned(env.stageInstanceCache(c.stageInstanceId.value))
  {
  }
}
