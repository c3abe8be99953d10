/**
  * The per-guild state of the TypeScript port (src/music/playerState.ts): module-level maps
  * and sets keyed by guild id, which every command reads and updates in place, together with
  * the durable 24/7 file. Players and voice connections are library objects; the model keeps
  * only which guilds have one.
  */
module PlayerState {
  import opened Wrappers
  import Stay247

  /** `QueueTrack`: what the port stores per queued or playing track. */
  datatype QueueTrack = QueueTrack(title: string, artist: string, duration: int, thumbnail: string,
                                   url: string, requestedById: string)

  /**
    * All the maps at one moment. `connections` is the port's own map; `live` is the voice
    * library's registry that `getVoiceConnection` reads, which gains a guild when
    * `joinVoiceChannel` runs and loses it when the connection is destroyed.
    */
  datatype Maps = Maps(players: set<string>, connections: set<string>, live: set<string>,
                       queues: map<string, seq<QueueTrack>>, nowPlaying: map<string, QueueTrack>,
                       textChannels: map<string, string>, stayInVoice: set<string>,
                       stayChannels: map<string, string>)

  /**
    * What the handlers keep true: a registered connection or player belongs to a live
    * connection, and exactly the 24/7 guilds have a recorded channel.
    */
  predicate Consistent(m: Maps) {
    && m.connections <= m.live
    && m.players <= m.live
    && m.stayChannels.Keys == m.stayInVoice
  }

  /** `queues.get(guildId) ?? []`. */
  function QueueOf(m: Maps, g: string): seq<QueueTrack> {
    if g in m.queues then m.queues[g] else []
  }

  /** `connections.get(guildId) ?? getVoiceConnection(guildId)` finds a connection. */
  predicate HasConnection(m: Maps, g: string) {
    g in m.connections || g in m.live
  }

  /** Everything the maps hold for one guild. */
  datatype Slice = Slice(player: bool, connection: bool, live: bool, queue: Option<seq<QueueTrack>>,
                         nowPlaying: Option<QueueTrack>, textChannel: Option<string>, stay: bool,
                         stayChannel: Option<string>)

  function SliceOf(m: Maps, g: string): Slice {
    Slice(g in m.players, g in m.connections, g in m.live,
          if g in m.queues then Some(m.queues[g]) else None,
          if g in m.nowPlaying then Some(m.nowPlaying[g]) else None,
          if g in m.textChannels then Some(m.textChannels[g]) else None,
          g in m.stayInVoice,
          if g in m.stayChannels then Some(m.stayChannels[g]) else None)
  }

  /** Between `m` and `m'` no guild other than `g` sees any change. */
  ghost predicate OthersKept(m: Maps, m': Maps, g: string) {
    forall h :: h != g ==> SliceOf(m', h) == SliceOf(m, h)
  }

  /** The maps, with the persisted 24/7 file they are kept beside. */
  class PlayerState {
    var players: set<string>
    var connections: set<string>
    var live: set<string>
    var queues: map<string, seq<QueueTrack>>
    var nowPlaying: map<string, QueueTrack>
    var textChannels: map<string, string>
    var stayInVoice: set<string>
    var stayChannels: map<string, string>
    const store: Stay247.Store

    function Snapshot(): Maps
      reads this
    {
      Maps(players, connections, live, queues, nowPlaying, textChannels, stayInVoice, stayChannels)
    }

    ghost predicate Valid()
      reads this
    {
      Consistent(Snapshot())
    }

    /** At start-up every map and set is empty; the file is whatever is on disk. */
    constructor (store: Stay247.Store)
      ensures Valid() && this.store == store
      ensures Snapshot() == Maps({}, {}, {}, map[], map[], map[], {}, map[])
    {
      players, connections, live := {}, {}, {};
      queues, nowPlaying, textChannels := map[], map[], map[];
      stayInVoice, stayChannels := {}, map[];
      this.store := store;
    }
  }

  /**
    * `startNextTrack(guildId)` on the maps: nothing without a player and a connection; an
    * empty queue only clears the guild's now-playing entry; otherwise the head is shifted off
    * the queue and becomes the now-playing track.
    */
  function StartNext(m: Maps, g: string): (Maps, bool) {
    if g !in m.players || !HasConnection(m, g) then (m, false)
    else
      var q := QueueOf(m, g);
      if q == [] then (m.(nowPlaying := m.nowPlaying - {g}), false)
      else (m.(queues := m.queues[g := q[1..]], nowPlaying := m.nowPlaying[g := q[0]]), true)
  }

  /**
    * A track starts exactly when the guild has a player, a connection and a non-empty queue;
    * then the old queue is the started track followed by the new queue. Without a player or a
    * connection nothing changes; with an empty queue only the now-playing entry goes. No other
    * guild is touched and the invariant is kept.
    */
  lemma StartNextSpec(m: Maps, g: string)
    ensures var (m', started) := StartNext(m, g);
      && (started <==> g in m.players && HasConnection(m, g) && QueueOf(m, g) != [])
      && (started ==> g in m'.nowPlaying && QueueOf(m, g) == [m'.nowPlaying[g]] + QueueOf(m', g))
      && (!(g in m.players && HasConnection(m, g)) ==> m' == m)
      && (g in m.players && HasConnection(m, g) && QueueOf(m, g) == [] ==>
            g !in m'.nowPlaying && m' == m.(nowPlaying := m'.nowPlaying))
      && m'.players == m.players && m'.connections == m.connections && m'.live == m.live
      && m'.stayInVoice == m.stayInVoice && m'.stayChannels == m.stayChannels
      && OthersKept(m, m', g)
      && (Consistent(m) ==> Consistent(m'))
  {
    var (m', started) := StartNext(m, g);
    if started {
      var q := QueueOf(m, g);
      assert q == [q[0]] + q[1..];
    }
  }

  /** The tracks that `k` successive starts make current, as long as the player and connection stay. */
  function Starts(m: Maps, g: string, k: nat): seq<QueueTrack>
    decreases k
  {
    var (m', started) := StartNext(m, g);
    if k == 0 || !started then [] else [m'.nowPlaying[g]] + Starts(m', g, k - 1)
  }

  /** The queue is first in, first out: successive starts play its tracks in queue order. */
  lemma {:induction false} StartsInQueueOrder(m: Maps, g: string, k: nat)
    requires g in m.players && HasConnection(m, g)
    requires k <= |QueueOf(m, g)|
    ensures Starts(m, g, k) == QueueOf(m, g)[..k]
    decreases k
  {
    if k > 0 {
      var (m', started) := StartNext(m, g);
      StartNextSpec(m, g);
      StartsInQueueOrder(m', g, k - 1);
      var q := QueueOf(m, g);
      assert QueueOf(m', g) == q[1..];
      assert q[..k] == [q[0]] + q[1..][..k - 1];
    }
  }

  /** `startNextTrack` on the shared maps; the card, the player and the controls are not part of it. */
  method StartNextTrack(st: PlayerState, g: string) returns (started: bool)
    modifies st
    ensures (st.Snapshot(), started) == StartNext(old(st.Snapshot()), g)
  {
    var hasConnection := g in st.connections || g in st.live;
    if g !in st.players || !hasConnection {
      return false;
    }
    var queue := if g in st.queues then st.queues[g] else [];
    if |queue| == 0 {
      st.nowPlaying := st.nowPlaying - {g};
      return false;
    }
    var track := queue[0];
    st.queues := st.queues[g := queue[1..]];
    st.nowPlaying := st.nowPlaying[g := track];
    return true;
  }
}
