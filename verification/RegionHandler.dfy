// The WorldGuard session handler: its three callbacks publish on the channel.
module RegionHandler {
  import opened Options
  import opened Uuids
  import opened Events
  import opened RedisServer
  import opened Playback
  import Feed

  // What a callback does to the channel and to the recent-events list.
  function ChannelAfter(channel: seq<string>, cb: Callback): seq<string> {
    match Handle(cb)
    case Some(e) => channel + [ToJson(e)]
    case None => channel
  }

  function RecentAfter(recent: seq<string>, cb: Callback): seq<string> {
    match Handle(cb)
    case Some(e) => Trim([ToJson(e)] + recent, Feed.CAP - 1)
    case None => recent
  }

  // It is the publish step of the pipeline.
  lemma {:induction false} CallbackPublishes(s: System, cb: Callback)
    requires TabsInRange(s)
    ensures ChannelAfter(TextsOf(s.log), cb) == TextsOf(Step(s, Playback.Publish(Region(cb))).log)
    ensures Step(s, Playback.Publish(Region(cb))).connections == s.connections
  {
    hide ToJson;
  }

  method Publish(redis: Redis, event: Event)
    modifies redis`channel, redis`recent
    ensures redis.channel == old(redis.channel) + [ToJson(event)]
    ensures redis.recent == Trim([ToJson(event)] + old(redis.recent), Feed.CAP - 1)
  {
    Feed.PublishAndRecord(redis, ToJson(event));
  }

  method PublishPlay(redis: Redis, player: Uuid, src: string, regions: Regions)
    modifies redis`channel, redis`recent
    ensures redis.channel == old(redis.channel) + [ToJson(PlayEvent(player, src, regions))]
    ensures redis.recent == Trim([ToJson(PlayEvent(player, src, regions))] + old(redis.recent), Feed.CAP - 1)
  {
    hide ToJson;
    var hundredths := 100;
    if regions.volume.Some? && regions.volume.value >= 0 && regions.volume.value <= 100 {
      hundredths := regions.volume.value;
    }
    var loop := regions.loop == Some(Allow);
    Publish(redis, AudioPlay(player, src, hundredths, loop));
  }

  method OnInitialValue(redis: Redis, player: Uuid, src: Option<string>, regions: Regions)
    modifies redis`channel, redis`recent
    ensures redis.channel == ChannelAfter(old(redis.channel), Callback.OnInitialValue(player, src, regions))
    ensures redis.recent == RecentAfter(old(redis.recent), Callback.OnInitialValue(player, src, regions))
  {
    hide ToJson;
    if src.Some? {
      PublishPlay(redis, player, src.value, regions);
    }
  }

  // Movement is never cancelled.
  method OnSetValue(redis: Redis, player: Uuid, newSrc: string, regions: Regions) returns (allowed: bool)
    modifies redis`channel, redis`recent
    ensures allowed
    ensures redis.channel == ChannelAfter(old(redis.channel), Callback.OnSetValue(player, newSrc, regions))
    ensures redis.recent == RecentAfter(old(redis.recent), Callback.OnSetValue(player, newSrc, regions))
  {
    hide ToJson;
    PublishPlay(redis, player, newSrc, regions);
    allowed := true;
  }

  method OnAbsentValue(redis: Redis, player: Uuid) returns (allowed: bool)
    modifies redis`channel, redis`recent
    ensures allowed
    ensures redis.channel == ChannelAfter(old(redis.channel), Callback.OnAbsentValue(player))
    ensures redis.recent == RecentAfter(old(redis.recent), Callback.OnAbsentValue(player))
  {
    hide ToJson;
    Publish(redis, AudioStop(player));
    allowed := true;
  }
}
