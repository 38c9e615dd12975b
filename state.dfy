/** The central state store: playback set, player status, flags, the two job maps, the
    broadcast sink, and the karaoke module's manual queue. */
module State {
  import opened Types

  /** Which process of a song's download the download map currently holds. `LoudnessStage`
      means the audio process has exited and the loudness analysis is still running (the
      map keeps the exited audio process until then). */
  datatype DownloadStage = VideoStage | AudioStage | LoudnessStage

  /** The payload of a `sync_state` broadcast: exactly these five fields. */
  datatype Snapshot = Snapshot(
    playlist: seq<Song>,
    currentPlaying: Option<Song>,
    playerStatus: PlayerStatus,
    history: seq<Song>,
    autoProcessKaraoke: bool)

  /** What the store sends to every connected client, in order. */
  datatype Broadcast =
    | SyncState(snapshot: Snapshot)
    | UpdateProgress(id: SongId, progress: real)
    | KaraokeProgress(id: SongId, percent: int)

  /** A deferred deletion: the copy of a finished song taken when it left the player, and
      the delay its timer was armed with. */
  datatype PendingDeletion = PendingDeletion(song: Song, delayMs: real)

  /** The song objects a list of ids refers to. */
  function Lookup(songs: map<SongId, Song>, ids: seq<SongId>): (r: seq<Song>)
    requires forall x :: x in ids ==> x in songs
    ensures |r| == |ids|
    ensures forall i :: 0 <= i < |ids| ==> r[i] == songs[ids[i]]
  {
    if ids == [] then [] else [songs[ids[0]]] + Lookup(songs, ids[1..])
  }

  function OptionSet(o: Option<SongId>): set<SongId>
  {
    if o.Some? then {o.value} else {}
  }

  /** Every song object is filed under its own id, is downloading exactly when it has a
      download job, is separating exactly when it has a separation job, and only ready
      songs have a separation job. */
  ghost predicate SongOk(s: Song, k: SongId, downloads: set<SongId>, separations: set<SongId>)
  {
    && s.id == k
    && (s.status == Downloading <==> k in downloads)
    && (s.karaokeProcessing <==> k in separations)
    && (k in separations ==> s.status == Ready)
  }

  ghost predicate SongsAgree(songs: map<SongId, Song>, downloads: set<SongId>, separations: set<SongId>)
  {
    && downloads <= songs.Keys
    && separations <= songs.Keys
    && (forall k :: k in songs ==> SongOk(songs[k], k, downloads, separations))
  }

  /** Replacing (or adding) one song object keeps the agreement when the new object and
      the two job sets agree at that id and nothing changes at any other id. */
  lemma SongsAgreeUpdate(songs: map<SongId, Song>, d: set<SongId>, k: set<SongId>,
                         id: SongId, s: Song, d': set<SongId>, k': set<SongId>)
    requires SongsAgree(songs, d, k)
    requires s.id == id
    requires s.status == Downloading <==> id in d'
    requires s.karaokeProcessing <==> id in k'
    requires id in k' ==> s.status == Ready
    requires d' - {id} == d - {id} && k' - {id} == k - {id}
    ensures SongsAgree(songs[id := s], d', k')
  {
    var m := songs[id := s];
    forall x | x in d' ensures x in m {
      if x != id { assert x in d - {id}; }
    }
    forall x | x in k' ensures x in m && m[x].status == Ready {
      if x != id { assert x in k - {id}; }
    }
    forall x | x in m && x != id
      ensures (m[x].status == Downloading <==> x in d') && (m[x].karaokeProcessing <==> x in k')
    {
      assert x in d <==> x in d - {id};
      assert x in d' <==> x in d' - {id};
      assert x in k <==> x in k - {id};
      assert x in k' <==> x in k' - {id};
    }
  }

  class StateStore {
    /** Every song object still reachable (queue, current song, job handlers), by id. */
    var songs: map<SongId, Song>
    var playlist: seq<SongId>
    /** Copies of finished songs, newest first. */
    var history: seq<Song>
    var currentPlaying: Option<SongId>
    var playerStatus: PlayerStatus
    var isDownloading: bool
    var autoProcessKaraoke: bool
    var isProcessingKaraoke: bool
    var currentDownloadingId: Option<SongId>
    /** `activeKaraokeProcesses`: ids with a registered separation job; the job's song is `songs[id]`. */
    var activeKaraokeProcesses: set<SongId>
    /** `activeDownloads`: id to the download process currently registered. */
    var activeDownloads: map<SongId, DownloadStage>
    /** Whether a broadcast sink has been attached (`setIO`). */
    var hasSink: bool
    /** Everything broadcast so far. */
    var log: seq<Broadcast>
    /** The karaoke module's `manualKaraokeQueue`: songs requested explicitly, served first. */
    var manualKaraokeQueue: seq<SongId>
    /** Deferred deletions: the song copies whose timers have not fired yet. */
    var pendingDeletions: seq<PendingDeletion>
    /** The separation process whose close event is still due (not a field of the source:
        the operating system's side of the single separation job). */
    ghost var runningSeparation: Option<SongId>

    /** The queue and the current song name known song objects. */
    ghost predicate PlaybackKnown()
      reads this`songs, this`playlist, this`currentPlaying
    {
      && (forall x :: x in playlist ==> x in songs)
      && (currentPlaying.Some? ==> currentPlaying.value in songs)
    }

    /** Every id the playback set, the manual queue and the running process refer to names
        a known song object (the job maps are covered by `SongsAgree`). */
    ghost predicate IdsKnown()
      reads this`songs, this`playlist, this`currentPlaying, this`manualKaraokeQueue, this`runningSeparation
    {
      && PlaybackKnown()
      && (forall x :: x in manualKaraokeQueue ==> x in songs)
      && (runningSeparation.Some? ==> runningSeparation.value in songs)
    }

    /** The playback set: bounded history, no repeated queue entries, and the current
        song never waiting in the queue. */
    ghost predicate QueueShape()
      reads this`history, this`playlist, this`currentPlaying, this`manualKaraokeQueue
    {
      && |history| <= 50
      && NoDup(playlist)
      && (currentPlaying.Some? ==> currentPlaying.value !in playlist)
      && NoDup(manualKaraokeQueue)
    }

    /** Work in flight agrees with the song flags: a song is downloading exactly when it
        has a download job, is separating exactly when it has a separation job, only ready
        songs separate, and at most the one running separation process has a job. */
    ghost predicate JobsMatch()
      reads this`songs, this`activeDownloads, this`activeKaraokeProcesses, this`runningSeparation
      reads this`currentDownloadingId, this`isDownloading
    {
      && SongsAgree(songs, activeDownloads.Keys, activeKaraokeProcesses)
      && activeKaraokeProcesses <= OptionSet(runningSeparation)
      && (currentDownloadingId.Some? ==> currentDownloadingId.value in activeDownloads)
      && (isDownloading <==> currentDownloadingId.Some?)
    }

    ghost predicate Coherent()
      reads this`songs, this`playlist, this`currentPlaying, this`manualKaraokeQueue, this`history
      reads this`activeDownloads, this`activeKaraokeProcesses, this`runningSeparation
      reads this`currentDownloadingId, this`isDownloading
    {
      IdsKnown() && QueueShape() && JobsMatch()
    }

    /** The store invariant: the single-flight flag is set exactly while a separation
        process is running. */
    ghost predicate Valid()
      reads this`songs, this`playlist, this`currentPlaying, this`manualKaraokeQueue, this`history
      reads this`activeDownloads, this`activeKaraokeProcesses, this`runningSeparation
      reads this`currentDownloadingId, this`isDownloading, this`isProcessingKaraoke
    {
      Coherent() && (isProcessingKaraoke <==> runningSeparation.Some?)
    }

    /** A fresh store: empty playback set, default player status, all flags off, both job
        maps empty, no sink. */
    constructor ()
      ensures Valid()
      ensures songs == map[] && playlist == [] && history == [] && currentPlaying == None
      ensures playerStatus == DefaultPlayerStatus
      ensures !isDownloading && !autoProcessKaraoke && !isProcessingKaraoke && currentDownloadingId == None
      ensures activeKaraokeProcesses == {} && activeDownloads == map[]
      ensures !hasSink && log == [] && manualKaraokeQueue == [] && pendingDeletions == []
    {
      songs := map[];
      playlist := [];
      history := [];
      currentPlaying := None;
      playerStatus := DefaultPlayerStatus;
      isDownloading := false;
      autoProcessKaraoke := false;
      isProcessingKaraoke := false;
      currentDownloadingId := None;
      activeKaraokeProcesses := {};
      activeDownloads := map[];
      hasSink := false;
      log := [];
      manualKaraokeQueue := [];
      pendingDeletions := [];
      runningSeparation := None;
    }

    /** setIO: attach the broadcast sink. */
    method SetIO()
      modifies this`hasSink
      ensures hasSink
    {
      hasSink := true;
    }

    /** The five fields a `sync_state` broadcast carries, read from the store. */
    function CurrentSnapshot(): (s: Snapshot)
      reads this`songs, this`playlist, this`currentPlaying
      reads this`playerStatus, this`history, this`autoProcessKaraoke
      requires PlaybackKnown()
      ensures |s.playlist| == |playlist|
      ensures forall i :: 0 <= i < |playlist| ==> s.playlist[i] == songs[playlist[i]]
      ensures s.currentPlaying.Some? <==> currentPlaying.Some?
      ensures currentPlaying.Some? ==> s.currentPlaying.value == songs[currentPlaying.value]
      ensures s.playerStatus == playerStatus && s.history == history
      ensures s.autoProcessKaraoke == autoProcessKaraoke
    {
      Snapshot(
        Lookup(songs, playlist),
        if currentPlaying.Some? then Some(songs[currentPlaying.value]) else None,
        playerStatus,
        history,
        autoProcessKaraoke)
    }

    /** emitSync: without a sink nothing happens; otherwise one `sync_state` snapshot is
        appended. Only the log changes. */
    method EmitSync()
      requires PlaybackKnown()
      modifies this`log
      ensures log == if hasSink then old(log) + [SyncState(CurrentSnapshot())] else old(log)
      ensures old(Valid()) ==> Valid()
    {
      if hasSink {
        log := log + [SyncState(CurrentSnapshot())];
      }
    }

    /** A `update_progress` or `karaoke_progress` broadcast, sent only when a sink is attached. */
    method EmitProgress(b: Broadcast)
      requires !b.SyncState?
      modifies this`log
      ensures log == if hasSink then old(log) + [b] else old(log)
    {
      if hasSink {
        log := log + [b];
      }
    }
  }
}
