/** The socket handlers of the server: promoting the next song, adding songs (batch,
    single, from history), queue management, shuffling, player controls, player ticks,
    the system reset, and the deferred deletion of finished songs. */
module Server {
  import opened Types
  import opened State
  import opened Config
  import opened Karaoke
  import opened SystemService
  import opened Downloader

  // ---------------------------------------------------------------------------
  // The line of songs: the current song followed by the waiting queue

  /** The current song (if any) followed by the queue, in playing order. */
  function Lineup(current: Option<SongId>, playlist: seq<SongId>): (r: seq<SongId>)
    ensures |r| == |playlist| + (if current.Some? then 1 else 0)
    ensures forall x :: x in r <==> x in playlist || current == Some(x)
  {
    (if current.Some? then [current.value] else []) + playlist
  }

  /** A song waits in the queue only while another one is current. */
  ghost predicate Seated(store: StateStore)
    reads store`currentPlaying, store`playlist
  {
    store.currentPlaying.None? ==> store.playlist == []
  }

  /** Appending a fresh id keeps a sequence free of duplicates. */
  lemma NoDupSnoc(s: seq<SongId>, x: SongId)
    requires NoDup(s) && x !in s
    ensures NoDup(s + [x])
  {
    var r := s + [x];
    forall i, j | 0 <= i < j < |r| ensures r[i] != r[j] {
      if j < |s| { assert r[i] == s[i] && r[j] == s[j]; }
      else { assert r[i] == s[i] && r[i] in s; }
    }
  }

  /** Prepending a fresh id keeps a sequence free of duplicates. */
  lemma NoDupCons(x: SongId, s: seq<SongId>)
    requires NoDup(s) && x !in s
    ensures NoDup([x] + s)
  {
    var r := [x] + s;
    forall i, j | 0 <= i < j < |r| ensures r[i] != r[j] {
      assert r[j] == s[j - 1];
      if i > 0 { assert r[i] == s[i - 1]; }
    }
  }

  /** Every song is as it was, or the same song with its download begun. */
  ghost predicate BegunOrKept(before: map<SongId, Song>, after: map<SongId, Song>)
  {
    && after.Keys == before.Keys
    && forall x :: x in before ==> after[x] == before[x] || after[x] == Begun(before[x])
  }

  /** What every handler does after changing the playback set: broadcast a snapshot and
      run the download scheduler (which only starts pending downloads). */
  method SyncAndSchedule(store: StateStore, cfg: Json)
    requires store.Valid()
    modifies store`songs, store`activeDownloads, store`currentDownloadingId, store`isDownloading, store`log
    ensures store.Valid()
    ensures store.songs.Keys == old(store.songs).Keys
    ensures forall x :: x in store.songs && store.songs[x].status != Downloading ==> store.songs[x] == old(store.songs)[x]
    ensures BegunOrKept(old(store.songs), store.songs)
  {
    store.EmitSync();
    ProcessDownloadQueue(store, cfg);
  }

  // ---------------------------------------------------------------------------
  // Promoting the next song

  /** `history.unshift(item)` followed by one `pop` when the history grew past 50. */
  function PushHistory(history: seq<Song>, s: Song): (r: seq<Song>)
    ensures |history| <= 50 ==> |r| <= 50
    ensures |r| > 0 && r[0] == s
    ensures r[1..] <= history
    ensures |r| == if |history| < 50 then |history| + 1 else |history|
  {
    var h := [s] + history;
    if |h| > 50 then h[..|h| - 1] else h
  }

  /** The finished song leaves the player: its copy goes to the front of the history and
      its files are scheduled for deletion after `system.deleteDelayMs`. */
  method RetireCurrent(store: StateStore, cfg: Json)
    requires store.Valid()
    modifies store`history, store`pendingDeletions
    ensures store.Valid()
    ensures store.currentPlaying.None? ==>
      store.history == old(store.history) && store.pendingDeletions == old(store.pendingDeletions)
    ensures store.currentPlaying.Some? ==>
      var s := store.songs[store.currentPlaying.value];
      && store.history == PushHistory(old(store.history), s)
      && store.pendingDeletions == old(store.pendingDeletions) + [PendingDeletion(s, DeleteDelayMs(cfg))]
  {
    if store.currentPlaying.Some? {
      var s := store.songs[store.currentPlaying.value];
      store.history := PushHistory(store.history, s);
      store.pendingDeletions := store.pendingDeletions + [PendingDeletion(s, DeleteDelayMs(cfg))];
    }
  }

  /** The head of the queue becomes the current song and starts from the beginning with
      pitch and vocal removal reset; with an empty queue the player stops. */
  method AdvanceQueue(store: StateStore)
    requires store.Valid()
    modifies store`playlist, store`currentPlaying, store`playerStatus
    ensures store.Valid() && Seated(store)
    ensures Lineup(store.currentPlaying, store.playlist) == old(store.playlist)
    ensures old(store.playlist) == [] ==>
      store.currentPlaying == None && store.playerStatus == old(store.playerStatus).(playing := false)
    ensures old(store.playlist) != [] ==>
      && store.currentPlaying == Some(old(store.playlist)[0])
      && store.playerStatus == old(store.playerStatus).(playing := true, currentTime := 0.0, pitch := 0.0, vocalRemoval := false)
  {
    if store.playlist != [] {
      assert store.playlist[0] !in store.playlist[1..] by {
        forall k | 0 <= k < |store.playlist| - 1 ensures store.playlist[1..][k] != store.playlist[0] {
          assert store.playlist[1..][k] == store.playlist[k + 1];
        }
      }
      assert NoDup(store.playlist[1..]) by {
        forall i, j | 0 <= i < j < |store.playlist| - 1 ensures store.playlist[1..][i] != store.playlist[1..][j] {
          assert store.playlist[1..][i] == store.playlist[i + 1] && store.playlist[1..][j] == store.playlist[j + 1];
        }
      }
      store.currentPlaying := Some(store.playlist[0]);
      store.playlist := store.playlist[1..];
      store.playerStatus := store.playerStatus.(playing := true, currentTime := 0.0, pitch := 0.0, vocalRemoval := false);
    } else {
      store.currentPlaying := None;
      store.playerStatus := store.playerStatus.(playing := false);
    }
  }

  /** The two state changes of a promotion, before anything is broadcast. */
  method ChangeSong(store: StateStore, cfg: Json)
    requires store.Valid()
    modifies store`history, store`pendingDeletions, store`playlist, store`currentPlaying, store`playerStatus
    ensures store.Valid() && Seated(store)
    ensures Lineup(store.currentPlaying, store.playlist) == old(store.playlist)
    ensures old(store.currentPlaying).Some? ==>
      var s := old(store.songs[store.currentPlaying.value]);
      && store.history == PushHistory(old(store.history), s)
      && store.pendingDeletions == old(store.pendingDeletions) + [PendingDeletion(s, DeleteDelayMs(cfg))]
    ensures old(store.currentPlaying).None? ==>
      store.history == old(store.history) && store.pendingDeletions == old(store.pendingDeletions)
    ensures old(store.playlist) == [] ==>
      store.currentPlaying == None && store.playerStatus == old(store.playerStatus).(playing := false)
    ensures old(store.playlist) != [] ==>
      store.playerStatus == old(store.playerStatus).(playing := true, currentTime := 0.0, pitch := 0.0, vocalRemoval := false)
  {
    RetireCurrent(store, cfg);
    AdvanceQueue(store);
  }

  /** promoteNextSong (also what `next_song` does): the current song moves to the history
      and is scheduled for deletion, the queue advances by one, a snapshot is broadcast
      and the download scheduler runs. */
  method PromoteNextSong(store: StateStore, cfg: Json)
    requires store.Valid()
    modifies store`history, store`pendingDeletions, store`playlist, store`currentPlaying, store`playerStatus
    modifies store`songs, store`activeDownloads, store`currentDownloadingId, store`isDownloading, store`log
    ensures store.Valid() && Seated(store)
    ensures Lineup(store.currentPlaying, store.playlist) == old(store.playlist)
    ensures old(store.currentPlaying).Some? ==>
      var s := old(store.songs[store.currentPlaying.value]);
      && store.history == PushHistory(old(store.history), s)
      && store.pendingDeletions == old(store.pendingDeletions) + [PendingDeletion(s, DeleteDelayMs(cfg))]
    ensures old(store.currentPlaying).None? ==>
      store.history == old(store.history) && store.pendingDeletions == old(store.pendingDeletions)
    ensures store.playerStatus.playing <==> old(store.playlist) != []
    ensures old(store.playlist) == [] ==> store.playerStatus == old(store.playerStatus).(playing := false)
    ensures old(store.playlist) != [] ==>
      store.playerStatus == old(store.playerStatus).(playing := true, currentTime := 0.0, pitch := 0.0, vocalRemoval := false)
  {
    ChangeSong(store, cfg);
    SyncAndSchedule(store, cfg);
  }

  // ---------------------------------------------------------------------------
  // Adding songs

  /** Where added songs go: with no current song the first one becomes current and
      playing, and every other one is appended to the queue, in order. */
  ghost predicate Placed(c0: Option<SongId>, p0: seq<SongId>, ps0: PlayerStatus,
                         c: Option<SongId>, p: seq<SongId>, ps: PlayerStatus, ids: seq<SongId>)
  {
    if c0.Some? then c == c0 && p == p0 + ids && ps == ps0
    else if ids == [] then c == None && p == p0 && ps == ps0
    else c == Some(ids[0]) && p == p0 + ids[1..] && ps == ps0.(playing := true)
  }

  /** One more song placed after `ids` extends the placement by that song. */
  lemma PlacedStep(c0: Option<SongId>, p0: seq<SongId>, ps0: PlayerStatus,
                   c: Option<SongId>, p: seq<SongId>, ps: PlayerStatus, ids: seq<SongId>,
                   c': Option<SongId>, p': seq<SongId>, ps': PlayerStatus, x: SongId)
    requires Placed(c0, p0, ps0, c, p, ps, ids)
    requires c.Some? ==> c' == c && p' == p + [x] && ps' == ps
    requires c.None? ==> c' == Some(x) && p' == p && ps' == ps.(playing := true)
    ensures Placed(c0, p0, ps0, c', p', ps', ids + [x])
  {
    if c0.Some? {
      assert p0 + ids + [x] == p0 + (ids + [x]);
    } else if ids != [] {
      assert (ids + [x])[1..] == ids[1..] + [x];
      assert p0 + ids[1..] + [x] == p0 + (ids[1..] + [x]);
    } else {
      assert (ids + [x])[1..] == [];
    }
  }

  /** Placing songs behind a seated line appends exactly those songs to the line, in
      order, and keeps the line seated. */
  lemma PlacedLineup(c0: Option<SongId>, p0: seq<SongId>, ps0: PlayerStatus,
                     c: Option<SongId>, p: seq<SongId>, ps: PlayerStatus, ids: seq<SongId>)
    requires Placed(c0, p0, ps0, c, p, ps, ids)
    requires c0.None? ==> p0 == []
    ensures Lineup(c, p) == Lineup(c0, p0) + ids
    ensures c.None? ==> p == []
  {
    if c0.Some? {
      assert [c0.value] + (p0 + ids) == [c0.value] + p0 + ids;
    } else if ids != [] {
      assert [ids[0]] + ([] + ids[1..]) == ids;
    }
  }

  /** One song joins the line: as the current song (playing) when there is none,
      otherwise at the end of the queue. */
  method Enqueue(store: StateStore, s: Song)
    requires store.Valid()
    requires s.id !in store.songs && s.status == Pending && !s.karaokeProcessing
    modifies store`songs, store`playlist, store`currentPlaying, store`playerStatus
    ensures store.Valid()
    ensures store.songs == old(store.songs)[s.id := s]
    ensures old(store.currentPlaying).Some? ==>
      && store.currentPlaying == old(store.currentPlaying)
      && store.playlist == old(store.playlist) + [s.id] && store.playerStatus == old(store.playerStatus)
    ensures old(store.currentPlaying).None? ==>
      && store.currentPlaying == Some(s.id)
      && store.playlist == old(store.playlist) && store.playerStatus == old(store.playerStatus).(playing := true)
  {
    SongsAgreeUpdate(store.songs, store.activeDownloads.Keys, store.activeKaraokeProcesses,
                     s.id, s, store.activeDownloads.Keys, store.activeKaraokeProcesses);
    store.songs := store.songs[s.id := s];
    if store.currentPlaying.None? {
      store.currentPlaying := Some(s.id);
      store.playerStatus := store.playerStatus.(playing := true);
    } else {
      NoDupSnoc(store.playlist, s.id);
      store.playlist := store.playlist + [s.id];
    }
  }

  /** After `k` entries of a batch: the song map holds the old songs unchanged and a new
      pending song under each of the first `k` ids, and nothing else. */
  ghost predicate Enlisted(songs0: map<SongId, Song>, songs: map<SongId, Song>,
                           metas: seq<SongMeta>, requester: string, ids: seq<SongId>, k: nat)
    requires |ids| == |metas| && k <= |ids|
  {
    && (forall x :: x in songs <==> x in songs0 || x in ids[..k])
    && (forall x :: x in songs0 ==> songs[x] == songs0[x])
    && (forall j :: 0 <= j < k ==> songs[ids[j]] == NewSong(ids[j], metas[j], requester))
  }

  /** Adding the next entry's song under its id extends `Enlisted` by one entry. */
  lemma EnlistedStep(songs0: map<SongId, Song>, songs: map<SongId, Song>,
                     metas: seq<SongMeta>, requester: string, ids: seq<SongId>, k: nat)
    requires |ids| == |metas| && k < |ids|
    requires NoDup(ids) && forall x :: x in ids ==> x !in songs0
    requires Enlisted(songs0, songs, metas, requester, ids, k)
    ensures ids[k] !in songs
    ensures Enlisted(songs0, songs[ids[k] := NewSong(ids[k], metas[k], requester)], metas, requester, ids, k + 1)
    ensures ids[..k + 1] == ids[..k] + [ids[k]]
  {
    assert ids[..k + 1] == ids[..k] + [ids[k]];
    assert ids[k] !in ids[..k];
    forall j | 0 <= j < k ensures ids[j] != ids[k] {
    }
  }

  /** The `forEach` of a batch add: a new pending song per listing entry, under the
      caller's fresh ids, placed in order. */
  method Enlist(store: StateStore, metas: seq<SongMeta>, requester: string, ids: seq<SongId>)
    requires store.Valid()
    requires |ids| == |metas| && NoDup(ids) && forall x :: x in ids ==> x !in store.songs
    modifies store`songs, store`playlist, store`currentPlaying, store`playerStatus
    ensures store.Valid()
    ensures Enlisted(old(store.songs), store.songs, metas, requester, ids, |ids|)
    ensures Placed(old(store.currentPlaying), old(store.playlist), old(store.playerStatus),
                   store.currentPlaying, store.playlist, store.playerStatus, ids)
  {
    var k := 0;
    while k < |ids|
      invariant 0 <= k <= |ids|
      invariant store.Valid()
      invariant Enlisted(old(store.songs), store.songs, metas, requester, ids, k)
      invariant Placed(old(store.currentPlaying), old(store.playlist), old(store.playerStatus),
                       store.currentPlaying, store.playlist, store.playerStatus, ids[..k])
    {
      EnlistedStep(old(store.songs), store.songs, metas, requester, ids, k);
      ghost var c, p, ps := store.currentPlaying, store.playlist, store.playerStatus;
      Enqueue(store, NewSong(ids[k], metas[k], requester));
      PlacedStep(old(store.currentPlaying), old(store.playlist), old(store.playerStatus),
                 c, p, ps, ids[..k], store.currentPlaying, store.playlist, store.playerStatus, ids[k]);
      k := k + 1;
    }
    assert ids[..k] == ids;
  }

  /** add_batch_songs: an empty batch changes nothing; otherwise every entry becomes a new
      pending song placed in order, a snapshot is broadcast and the scheduler runs.
      `ids` are the fresh ids the server draws from the clock. */
  method AddBatchSongs(store: StateStore, metas: seq<SongMeta>, requester: string, ids: seq<SongId>, cfg: Json)
    requires store.Valid()
    requires |ids| == |metas| && NoDup(ids) && forall x :: x in ids ==> x !in store.songs
    modifies store`songs, store`playlist, store`currentPlaying, store`playerStatus
    modifies store`activeDownloads, store`currentDownloadingId, store`isDownloading, store`log
    ensures store.Valid()
    ensures metas == [] ==> unchanged(store)
    ensures Placed(old(store.currentPlaying), old(store.playlist), old(store.playerStatus),
                   store.currentPlaying, store.playlist, store.playerStatus, ids)
    ensures BatchAdded(old(store.songs), store.songs, metas, requester, ids)
  {
    if metas == [] {
      return;
    }
    EnlistAndSchedule(store, metas, requester, ids, cfg);
  }

  /** A non-empty batch's work: enlist every entry, then broadcast and schedule. */
  method EnlistAndSchedule(store: StateStore, metas: seq<SongMeta>, requester: string, ids: seq<SongId>, cfg: Json)
    requires store.Valid()
    requires |ids| == |metas| && NoDup(ids) && forall x :: x in ids ==> x !in store.songs
    modifies store`songs, store`playlist, store`currentPlaying, store`playerStatus
    modifies store`activeDownloads, store`currentDownloadingId, store`isDownloading, store`log
    ensures store.Valid()
    ensures Placed(old(store.currentPlaying), old(store.playlist), old(store.playerStatus),
                   store.currentPlaying, store.playlist, store.playerStatus, ids)
    ensures BatchAdded(old(store.songs), store.songs, metas, requester, ids)
  {
    Enlist(store, metas, requester, ids);
    EnlistedIsBatchAdded(old(store.songs), store.songs, metas, requester, ids);
    ScheduleAfterBatch(store, old(store.songs), metas, requester, ids, cfg);
  }

  /** The broadcast and scheduling pass after a batch keeps the song map a batch add. */
  method ScheduleAfterBatch(store: StateStore, ghost songs0: map<SongId, Song>,
                            metas: seq<SongMeta>, requester: string, ids: seq<SongId>, cfg: Json)
    requires store.Valid() && |ids| == |metas| && BatchAdded(songs0, store.songs, metas, requester, ids)
    modifies store`songs, store`activeDownloads, store`currentDownloadingId, store`isDownloading, store`log
    ensures store.Valid()
    ensures BatchAdded(songs0, store.songs, metas, requester, ids)
  {
    ghost var mid := store.songs;
    SyncAndSchedule(store, cfg);
    BatchAddedThenScheduled(songs0, mid, store.songs, metas, requester, ids);
  }

  /** The song map after a batch add: the old songs and a new pending song under each id
      of the batch, each possibly with its download begun, and nothing else. */
  ghost predicate BatchAdded(songs0: map<SongId, Song>, songs: map<SongId, Song>,
                             metas: seq<SongMeta>, requester: string, ids: seq<SongId>)
    requires |ids| == |metas|
  {
    && (forall x :: x in songs <==> x in songs0 || x in ids)
    && (forall x :: x in songs0 ==> songs[x] == songs0[x] || songs[x] == Begun(songs0[x]))
    && (forall j :: 0 <= j < |ids| ==>
          ids[j] in songs && (songs[ids[j]] == NewSong(ids[j], metas[j], requester)
                              || songs[ids[j]] == Begun(NewSong(ids[j], metas[j], requester))))
  }

  /** A fully enlisted batch is a batch add in which no download has begun yet. */
  lemma EnlistedIsBatchAdded(songs0: map<SongId, Song>, songs: map<SongId, Song>,
                             metas: seq<SongMeta>, requester: string, ids: seq<SongId>)
    requires |ids| == |metas| && Enlisted(songs0, songs, metas, requester, ids, |ids|)
    ensures BatchAdded(songs0, songs, metas, requester, ids)
  {
    assert ids[..|ids|] == ids;
  }

  /** Beginning downloads after a batch add leaves a batch add: a begun song begun again
      is the same begun song. */
  lemma BatchAddedThenScheduled(songs0: map<SongId, Song>, mid: map<SongId, Song>, songs: map<SongId, Song>,
                                metas: seq<SongMeta>, requester: string, ids: seq<SongId>)
    requires |ids| == |metas|
    requires BatchAdded(songs0, mid, metas, requester, ids) && BegunOrKept(mid, songs)
    ensures BatchAdded(songs0, songs, metas, requester, ids)
  {
  }

  /** add_song: the first entry of the fetched listing is added as a batch of one; an
      empty or failed listing changes nothing (the requester gets an error message). */
  method AddSong(store: StateStore, listing: seq<SongMeta>, requester: string, id: SongId, cfg: Json)
    requires store.Valid() && id !in store.songs
    modifies store`songs, store`playlist, store`currentPlaying, store`playerStatus
    modifies store`activeDownloads, store`currentDownloadingId, store`isDownloading, store`log
    ensures store.Valid()
    ensures listing == [] ==> unchanged(store)
    ensures listing != [] ==>
      Placed(old(store.currentPlaying), old(store.playlist), old(store.playerStatus),
             store.currentPlaying, store.playlist, store.playerStatus, [id])
    ensures listing != [] ==>
      && id in store.songs
      && (store.songs[id] == NewSong(id, listing[0], requester) || store.songs[id] == Begun(NewSong(id, listing[0], requester)))
  {
    if listing == [] {
      return;
    }
    AddBatchSongs(store, listing[..1], requester, [id], cfg);
  }

  /** What re-adding a history entry should create: the entry's title, uploader, link and
      requester under a fresh id, pending, with no files, no gain and no karaoke state. */
  function Readded(item: Song, id: SongId): (s: Song)
    ensures s.id == id && s.status == Pending && s.progress == 0.0 && s.src == None
    ensures s.title == item.title && s.uploader == item.uploader
    ensures s.originalUrl == item.originalUrl && s.requester == item.requester
    ensures !s.karaokeReady && !s.karaokeProcessing && s.karaokeSrc == None && s.karaokeProgress == 0
    ensures s.audioSrc == None && s.localVideoPath == None && s.localAudioPath == None && s.loudnessGain == None
  {
    NewSong(id, SongMeta(item.title, item.uploader, item.originalUrl), item.requester)
  }

  /** readd_history's new song as the server builds it: the spread copies every field of
      the history entry and overrides only id, status, progress and `src`. */
  function ReaddedAsWritten(item: Song, id: SongId): Song
  {
    item.(id := id, status := Pending, progress := 0.0, src := None)
  }

  /** An entry copied while its song was being separated re-enters as a pending song that
      claims a separation no job performs; one copied after separation claims a karaoke
      track, named after the old id, that the deferred deletion removes. */
  lemma ReaddAsWrittenKeepsKaraokeState(item: Song, id: SongId, downloads: set<SongId>, separations: set<SongId>)
    requires id !in separations
    ensures item.karaokeProcessing ==> !SongOk(ReaddedAsWritten(item, id), id, downloads, separations)
    ensures item.karaokeReady ==>
      ReaddedAsWritten(item, id).karaokeReady && ReaddedAsWritten(item, id).karaokeSrc == item.karaokeSrc
    ensures item.karaokeReady ==> !Readded(item, id).karaokeReady
  {
  }

  /** A concrete history entry for the lemma above: copied while separating. */
  lemma ReaddAsWrittenWitness()
    ensures var item := Song(7, "t", "u", "r", "l", Ready, 100.0, Some(VideoFile(7)), Some(AudioFile(7)),
                             Some(VideoFile(7)), Some(AudioFile(7)), Some(1.0), false, true, 40, None);
      && SongOk(item, 7, {}, {7})
      && !SongOk(ReaddedAsWritten(item, 8), 8, {}, {})
      && SongOk(Readded(item, 8), 8, {}, {})
  {
  }

  /** readd_history: a fresh pending song built from the history entry joins the line, a
      snapshot is broadcast and the scheduler runs. */
  method ReaddHistory(store: StateStore, item: Song, id: SongId, cfg: Json)
    requires store.Valid() && id !in store.songs
    modifies store`songs, store`playlist, store`currentPlaying, store`playerStatus
    modifies store`activeDownloads, store`currentDownloadingId, store`isDownloading, store`log
    ensures store.Valid()
    ensures store.songs.Keys == old(store.songs).Keys + {id}
    ensures store.songs[id] == Readded(item, id) || store.songs[id] == Begun(Readded(item, id))
    ensures forall x :: x in old(store.songs) ==>
      store.songs[x] == old(store.songs)[x] || store.songs[x] == Begun(old(store.songs)[x])
    ensures Placed(old(store.currentPlaying), old(store.playlist), old(store.playerStatus),
                   store.currentPlaying, store.playlist, store.playerStatus, [id])
  {
    Enqueue(store, Readded(item, id));
    PlacedStep(old(store.currentPlaying), old(store.playlist), old(store.playerStatus),
               old(store.currentPlaying), old(store.playlist), old(store.playerStatus), [],
               store.currentPlaying, store.playlist, store.playerStatus, id);
    SyncAndSchedule(store, cfg);
    AddedThenScheduled(old(store.songs), store.songs, Readded(item, id));
  }

  /** One song added and then passed through the scheduler: it is as added or begun, and
      every other song as before or begun. */
  lemma AddedThenScheduled(songs0: map<SongId, Song>, songs: map<SongId, Song>, s: Song)
    requires BegunOrKept(songs0[s.id := s], songs)
    ensures songs.Keys == songs0.Keys + {s.id}
    ensures songs[s.id] == s || songs[s.id] == Begun(s)
    ensures forall x :: x in songs0 && x != s.id ==> songs[x] == songs0[x] || songs[x] == Begun(songs0[x])
  {
  }

  // ---------------------------------------------------------------------------
  // Queue management

  /** manage_queue's actions: `top` moves the song to the front, `delete` removes it and
      its files, and any other action only removes it. */
  datatype QueueAction = Top | Delete | Remove

  /** `findIndex` + `splice(index, 1)`: removing the element at its first index is what
      `RemoveFirst` computes. */
  lemma {:induction false} SpliceIsRemoveFirst(s: seq<SongId>, i: nat)
    requires i < |s| && s[i] !in s[..i]
    ensures RemoveFirst(s, s[i]) == s[..i] + s[i + 1..]
  {
    if i > 0 {
      assert s[0] != s[i] by { assert s[0] == s[..i][0]; }
      assert s[1..][i - 1] == s[i];
      assert s[1..][i - 1] !in s[1..][..i - 1] by {
        assert s[1..][..i - 1] == s[1..i];
        forall k | 0 <= k < i - 1 ensures s[1..i][k] != s[i] {
          assert s[1..i][k] == s[..i][k + 1];
        }
      }
      SpliceIsRemoveFirst(s[1..], i - 1);
      assert s[1..][..i - 1] + s[1..][i..] == s[1..i] + s[i + 1..];
      assert [s[0]] + (s[1..i] + s[i + 1..]) == s[..i] + s[i + 1..];
    }
  }

  /** The song leaves the queue, and comes back at its front for `top`; the other songs
      keep their order. */
  method Unlink(store: StateStore, action: QueueAction, id: SongId)
    requires store.Valid() && id in store.playlist
    modifies store`playlist
    ensures store.Valid()
    ensures store.playlist == if action.Top? then [id] + RemoveFirst(old(store.playlist), id)
                              else RemoveFirst(old(store.playlist), id)
  {
    RemoveFirstNoDup(store.playlist, id);
    var rest := RemoveFirst(store.playlist, id);
    if action.Top? {
      NoDupCons(id, rest);
      store.playlist := [id] + rest;
    } else {
      store.playlist := rest;
    }
  }

  /** The queue edit of manage_queue: unlink the song, and for `delete` terminate its
      separation and return its files for deletion. */
  method EditQueue(store: StateStore, action: QueueAction, id: SongId) returns (deleted: seq<Artifact>)
    requires store.Valid() && id in store.playlist
    modifies store`playlist, store`songs, store`activeKaraokeProcesses, store`manualKaraokeQueue
    ensures store.Valid()
    ensures store.playlist == if action.Top? then [id] + RemoveFirst(old(store.playlist), id)
                              else RemoveFirst(old(store.playlist), id)
    ensures action.Delete? ==> deleted == DeletionTargets(old(store.songs[id]))
    ensures action.Delete? && id != 0 ==> id !in store.activeKaraokeProcesses && id !in store.manualKaraokeQueue
    ensures !action.Delete? ==> deleted == [] && unchanged(store`songs, store`activeKaraokeProcesses, store`manualKaraokeQueue)
  {
    Unlink(store, action, id);
    deleted := [];
    if action.Delete? {
      deleted := DeleteOne(store, store.songs[id]);
    }
  }

  /** manage_queue: an id not in the queue changes nothing; otherwise the queue is edited,
      a snapshot is broadcast, the download scheduler runs, and the separation scheduler
      runs when automatic separation is on and idle. */
  method ManageQueue(store: StateStore, action: QueueAction, id: SongId, cfg: Json, disk: set<Artifact>)
    returns (deleted: seq<Artifact>)
    requires store.Valid()
    modifies store`playlist, store`songs, store`activeKaraokeProcesses, store`manualKaraokeQueue
    modifies store`activeDownloads, store`currentDownloadingId, store`isDownloading, store`log
    modifies store`isProcessingKaraoke, store`runningSeparation
    ensures store.Valid()
    ensures id !in old(store.playlist) ==> unchanged(store) && deleted == []
    ensures id in old(store.playlist) ==>
      store.playlist == if action.Top? then [id] + RemoveFirst(old(store.playlist), id)
                        else RemoveFirst(old(store.playlist), id)
    ensures id in old(store.playlist) && action.Delete? ==> deleted == DeletionTargets(old(store.songs[id]))
    ensures !action.Delete? ==> deleted == []
  {
    if id !in store.playlist {
      return [];
    }
    deleted := EditQueue(store, action, id);
    SyncAndSchedule(store, cfg);
    if store.autoProcessKaraoke && !store.isProcessingKaraoke {
      ProcessNextKaraoke(store, disk);
    }
  }

  /** Switching automatic separation on: store the flag and run one scheduling pass when
      idle. */
  method EnableAutoProcess(store: StateStore, disk: set<Artifact>)
    requires store.Valid()
    modifies store`autoProcessKaraoke, store`songs, store`activeKaraokeProcesses, store`manualKaraokeQueue
    modifies store`isProcessingKaraoke, store`runningSeparation, store`log
    ensures store.Valid() && store.autoProcessKaraoke
    ensures old(store.log) <= store.log
    ensures old(store.isProcessingKaraoke) ==>
      unchanged(store`songs, store`activeKaraokeProcesses, store`manualKaraokeQueue,
                store`isProcessingKaraoke, store`runningSeparation, store`log)
    ensures !old(store.isProcessingKaraoke) ==>
      var c := NextKaraoke(old(store.songs), old(store.manualKaraokeQueue), true,
                           old(store.currentPlaying), old(store.playlist));
      && store.manualKaraokeQueue == c.queue
      && SeparationLaunch(old(store.songs), old(store.activeKaraokeProcesses), old(store.runningSeparation), c.pick, disk,
                          store.songs, store.activeKaraokeProcesses, store.runningSeparation)
      && (store.isProcessingKaraoke <==>
            c.pick.Some? && c.pick.value in old(store.songs) && AudioPresent(old(store.songs)[c.pick.value], disk))
  {
    store.autoProcessKaraoke := true;
    QueueAllReadySongs(store, disk);
  }

  /** set_auto_process: store the flag; switching it on runs the separation scheduler
      (when idle); a snapshot is broadcast either way. */
  method SetAutoProcess(store: StateStore, enabled: bool, disk: set<Artifact>)
    requires store.Valid()
    modifies store`autoProcessKaraoke, store`songs, store`activeKaraokeProcesses, store`manualKaraokeQueue
    modifies store`isProcessingKaraoke, store`runningSeparation, store`log
    ensures store.Valid()
    ensures store.autoProcessKaraoke == enabled
    ensures !enabled || old(store.isProcessingKaraoke) ==>
      unchanged(store`songs, store`activeKaraokeProcesses, store`manualKaraokeQueue,
                store`isProcessingKaraoke, store`runningSeparation)
    ensures enabled && !old(store.isProcessingKaraoke) ==>
      var c := NextKaraoke(old(store.songs), old(store.manualKaraokeQueue), true,
                           old(store.currentPlaying), old(store.playlist));
      && store.manualKaraokeQueue == c.queue
      && SeparationLaunch(old(store.songs), old(store.activeKaraokeProcesses), old(store.runningSeparation), c.pick, disk,
                          store.songs, store.activeKaraokeProcesses, store.runningSeparation)
      && (store.isProcessingKaraoke <==>
            c.pick.Some? && c.pick.value in old(store.songs) && AudioPresent(old(store.songs)[c.pick.value], disk))
    ensures old(store.log) <= store.log
    ensures store.hasSink ==> store.log != [] && store.log[|store.log| - 1] == SyncState(store.CurrentSnapshot())
  {
    if enabled {
      EnableAutoProcess(store, disk);
    } else {
      store.autoProcessKaraoke := false;
    }
    store.EmitSync();
  }


  // ---------------------------------------------------------------------------
  // Shuffling

  /** Exchange two positions (`[a[i], a[j]] = [a[j], a[i]]`). */
  function Swap(s: seq<SongId>, i: nat, j: nat): (r: seq<SongId>)
    requires i < |s| && j < |s|
    ensures |r| == |s|
    ensures r[i] == s[j] && r[j] == s[i]
    ensures forall k :: 0 <= k < |s| && k != i && k != j ==> r[k] == s[k]
  {
    s[i := s[j]][j := s[i]]
  }

  /** Exchanging two positions permutes the sequence. */
  lemma SwapPermutes(s: seq<SongId>, i: nat, j: nat)
    requires i < |s| && j < |s|
    ensures multiset(Swap(s, i, j)) == multiset(s)
  {
  }

  /** Exchanging two positions keeps a sequence free of duplicates. */
  lemma SwapNoDup(s: seq<SongId>, i: nat, j: nat)
    requires i < |s| && j < |s| && NoDup(s)
    ensures NoDup(Swap(s, i, j))
  {
    var r := Swap(s, i, j);
    forall p, q | 0 <= p < q < |r| ensures r[p] != r[q] {
      var p' := if p == i then j else if p == j then i else p;
      var q' := if q == i then j else if q == j then i else q;
      assert r[p] == s[p'] && r[q] == s[q'] && p' != q';
    }
  }

  /** The random choices of a Fisher-Yates pass: the partner of position `i` lies in `[0, i]`. */
  ghost predicate Choices(js: seq<nat>, n: nat)
  {
    |js| == n && forall i :: 0 <= i < n ==> js[i] <= i
  }

  /** The Fisher-Yates pass from position `i` down to 1, each position exchanged with its
      chosen partner. */
  function Shuffled(s: seq<SongId>, js: seq<nat>, i: int): (r: seq<SongId>)
    requires Choices(js, |s|) && i < |s|
    ensures |r| == |s|
    decreases i
  {
    if i <= 0 then s else Shuffled(Swap(s, i, js[i]), js, i - 1)
  }

  /** A shuffle is a permutation of the queue. */
  lemma {:induction false} ShuffledPermutes(s: seq<SongId>, js: seq<nat>, i: int)
    requires Choices(js, |s|) && i < |s|
    ensures multiset(Shuffled(s, js, i)) == multiset(s)
    decreases i
  {
    if i > 0 {
      SwapPermutes(s, i, js[i]);
      ShuffledPermutes(Swap(s, i, js[i]), js, i - 1);
    }
  }

  /** A shuffle keeps a duplicate-free queue duplicate-free. */
  lemma {:induction false} ShuffledNoDup(s: seq<SongId>, js: seq<nat>, i: int)
    requires Choices(js, |s|) && i < |s| && NoDup(s)
    ensures NoDup(Shuffled(s, js, i))
    decreases i
  {
    if i > 0 {
      SwapNoDup(s, i, js[i]);
      ShuffledNoDup(Swap(s, i, js[i]), js, i - 1);
    }
  }

  /** When every position is its own partner the shuffle changes nothing. */
  lemma {:induction false} ShuffledIdentity(s: seq<SongId>, js: seq<nat>, i: int)
    requires Choices(js, |s|) && i < |s|
    requires forall k :: 0 <= k < |js| ==> js[k] == k
    ensures Shuffled(s, js, i) == s
    decreases i
  {
    if i > 0 {
      assert Swap(s, i, i) == s;
      ShuffledIdentity(s, js, i - 1);
    }
  }

  /** A queue replaced by its shuffle keeps the store valid. */
  lemma ShuffledKeepsShape(store: StateStore, before: seq<SongId>, js: seq<nat>)
    requires Choices(js, |before|) && NoDup(before)
    requires store.playlist == Shuffled(before, js, |before| - 1)
    requires forall x :: x in before ==> x in store.songs
    requires store.currentPlaying.Some? ==> store.currentPlaying.value !in before
    ensures NoDup(store.playlist)
    ensures forall x :: x in store.playlist <==> x in before
  {
    ShuffledNoDup(before, js, |before| - 1);
    ShuffledPermutes(before, js, |before| - 1);
    forall x ensures x in store.playlist <==> x in before {
      assert x in store.playlist <==> x in multiset(store.playlist);
      assert x in before <==> x in multiset(before);
    }
  }

  /** The shuffle loop over the queue, in place. */
  method Shuffle(store: StateStore, js: seq<nat>)
    requires store.Valid() && Choices(js, |store.playlist|)
    modifies store`playlist
    ensures store.Valid()
    ensures store.playlist == Shuffled(old(store.playlist), js, |old(store.playlist)| - 1)
  {
    var i := |store.playlist| - 1;
    while i > 0
      invariant i < |store.playlist| == |js|
      invariant Shuffled(store.playlist, js, i) == Shuffled(old(store.playlist), js, |old(store.playlist)| - 1)
    {
      store.playlist := Swap(store.playlist, i, js[i]);
      i := i - 1;
    }
    ShuffledKeepsShape(store, old(store.playlist), js);
  }

  /** shuffle_queue: a Fisher-Yates pass over the queue (the current song stays), a
      snapshot, and a separation pass when automatic separation is on and idle. `js` are
      the random partner choices. */
  method ShuffleQueue(store: StateStore, js: seq<nat>, disk: set<Artifact>)
    requires store.Valid() && Choices(js, |store.playlist|)
    modifies store`playlist, store`songs, store`activeKaraokeProcesses, store`manualKaraokeQueue
    modifies store`isProcessingKaraoke, store`runningSeparation, store`log
    ensures store.Valid()
    ensures store.playlist == Shuffled(old(store.playlist), js, |old(store.playlist)| - 1)
    ensures store.currentPlaying == old(store.currentPlaying)
    ensures store.songs.Keys == old(store.songs).Keys
    ensures old(store.log) <= store.log
    ensures !old(store.autoProcessKaraoke) || old(store.isProcessingKaraoke) ==>
      unchanged(store`songs, store`activeKaraokeProcesses, store`manualKaraokeQueue,
                store`isProcessingKaraoke, store`runningSeparation)
    ensures old(store.autoProcessKaraoke) && !old(store.isProcessingKaraoke) ==>
      var c := NextKaraoke(old(store.songs), old(store.manualKaraokeQueue), true,
                           store.currentPlaying, store.playlist);
      && store.manualKaraokeQueue == c.queue
      && SeparationLaunch(old(store.songs), old(store.activeKaraokeProcesses), old(store.runningSeparation), c.pick, disk,
                          store.songs, store.activeKaraokeProcesses, store.runningSeparation)
      && (store.isProcessingKaraoke <==>
            c.pick.Some? && c.pick.value in old(store.songs) && AudioPresent(old(store.songs)[c.pick.value], disk))
  {
    Shuffle(store, js);
    store.EmitSync();
    AutoPass(store, disk);
  }

  /** A separation scheduling pass when automatic separation is on and idle, as the
      shuffle handler runs it; otherwise nothing. */
  method AutoPass(store: StateStore, disk: set<Artifact>)
    requires store.Valid()
    modifies store`songs, store`activeKaraokeProcesses, store`manualKaraokeQueue
    modifies store`isProcessingKaraoke, store`runningSeparation, store`log
    ensures store.Valid()
    ensures old(store.log) <= store.log
    ensures !old(store.autoProcessKaraoke) || old(store.isProcessingKaraoke) ==>
      unchanged(store`songs, store`activeKaraokeProcesses, store`manualKaraokeQueue,
                store`isProcessingKaraoke, store`runningSeparation)
    ensures old(store.autoProcessKaraoke) && !old(store.isProcessingKaraoke) ==>
      var c := NextKaraoke(old(store.songs), old(store.manualKaraokeQueue), true,
                           old(store.currentPlaying), old(store.playlist));
      && store.manualKaraokeQueue == c.queue
      && SeparationLaunch(old(store.songs), old(store.activeKaraokeProcesses), old(store.runningSeparation), c.pick, disk,
                          store.songs, store.activeKaraokeProcesses, store.runningSeparation)
      && (store.isProcessingKaraoke <==>
            c.pick.Some? && c.pick.value in old(store.songs) && AudioPresent(old(store.songs)[c.pick.value], disk))
  {
    if store.autoProcessKaraoke && !store.isProcessingKaraoke {
      ProcessNextKaraoke(store, disk);
    }
  }

  // ---------------------------------------------------------------------------
  // Player controls

  /** control_action's kinds; any other kind is only relayed to the players. */
  datatype Control =
    | Toggle
    | Seek(time: real)
    | Volume(level: real)
    | Pitch(semitones: real)
    | VocalRemoval(on: bool)
    | Relay

  /** The player status after a control: each control sets its own field only. */
  function ApplyControl(ps: PlayerStatus, a: Control): (r: PlayerStatus)
    ensures r.duration == ps.duration
    ensures r.playing == (if a.Toggle? then !ps.playing else ps.playing)
    ensures r.currentTime == (if a.Seek? then a.time else ps.currentTime)
    ensures r.volume == (if a.Volume? then a.level else ps.volume)
    ensures r.pitch == (if a.Pitch? then a.semitones else ps.pitch)
    ensures r.vocalRemoval == (if a.VocalRemoval? then a.on else ps.vocalRemoval)
  {
    match a
    case Toggle => ps.(playing := !ps.playing)
    case Seek(t) => ps.(currentTime := t)
    case Volume(v) => ps.(volume := v)
    case Pitch(p) => ps.(pitch := p)
    case VocalRemoval(on) => ps.(vocalRemoval := on)
    case Relay => ps
  }

  /** Toggling twice restores the player status; every other control is idempotent. */
  lemma ControlTwice(ps: PlayerStatus, a: Control)
    ensures a.Toggle? ==> ApplyControl(ApplyControl(ps, a), a) == ps
    ensures !a.Toggle? ==> ApplyControl(ApplyControl(ps, a), a) == ApplyControl(ps, a)
  {
  }

  /** Whether switching vocal removal on asks for a separation of the current song: it is
      downloaded and neither separated nor separating. */
  predicate VocalTrigger(songs: map<SongId, Song>, current: Option<SongId>, a: Control)
  {
    && a.VocalRemoval? && a.on && current.Some? && current.value in songs
    && songs[current.value].status == Ready
    && !songs[current.value].karaokeReady && !songs[current.value].karaokeProcessing
  }

  /** control_action: vocal removal switched on for a downloaded, unseparated current song
      queues it for separation with priority; then the control is applied. */
  method ControlAction(store: StateStore, a: Control, disk: set<Artifact>)
    requires store.Valid()
    modifies store`playerStatus, store`songs, store`activeKaraokeProcesses, store`manualKaraokeQueue
    modifies store`isProcessingKaraoke, store`runningSeparation, store`log
    ensures store.Valid()
    ensures store.playerStatus == ApplyControl(old(store.playerStatus), a)
    ensures !old(VocalTrigger(store.songs, store.currentPlaying, a)) ==>
      unchanged(store`songs, store`activeKaraokeProcesses, store`manualKaraokeQueue, store`isProcessingKaraoke, store`log)
    ensures old(VocalTrigger(store.songs, store.currentPlaying, a)) && old(store.isProcessingKaraoke) ==>
      store.manualKaraokeQueue == Enqueued(old(store.manualKaraokeQueue), store.currentPlaying.value, true)
  {
    if VocalTrigger(store.songs, store.currentPlaying, a) {
      QueueKaraokeProcessing(store, store.currentPlaying.value, true, disk);
    }
    store.playerStatus := ApplyControl(store.playerStatus, a);
  }

  /** The fields a `player_tick` payload may carry; absent ones keep their value. */
  datatype StatusPatch = StatusPatch(
    playing: Option<bool>,
    currentTime: Option<real>,
    duration: Option<real>,
    volume: Option<real>,
    pitch: Option<real>,
    vocalRemoval: Option<bool>)

  function Or<T>(o: Option<T>, d: T): T
  {
    if o.Some? then o.value else d
  }

  /** `{ ...playerStatus, ...data }`: the payload's fields win. */
  function Patched(ps: PlayerStatus, p: StatusPatch): (r: PlayerStatus)
    ensures p.playing.Some? ==> r.playing == p.playing.value
    ensures p.playing.None? ==> r.playing == ps.playing
    ensures p.currentTime.Some? ==> r.currentTime == p.currentTime.value
    ensures p.currentTime.None? ==> r.currentTime == ps.currentTime
    ensures p.duration.Some? ==> r.duration == p.duration.value
    ensures p.duration.None? ==> r.duration == ps.duration
    ensures p.volume.Some? ==> r.volume == p.volume.value
    ensures p.volume.None? ==> r.volume == ps.volume
    ensures p.pitch.Some? ==> r.pitch == p.pitch.value
    ensures p.pitch.None? ==> r.pitch == ps.pitch
    ensures p.vocalRemoval.Some? ==> r.vocalRemoval == p.vocalRemoval.value
    ensures p.vocalRemoval.None? ==> r.vocalRemoval == ps.vocalRemoval
  {
    PlayerStatus(Or(p.playing, ps.playing), Or(p.currentTime, ps.currentTime), Or(p.duration, ps.duration),
                 Or(p.volume, ps.volume), Or(p.pitch, ps.pitch), Or(p.vocalRemoval, ps.vocalRemoval))
  }

  /** Applying the same tick twice is applying it once, and an empty tick changes nothing. */
  lemma PatchedIdempotent(ps: PlayerStatus, p: StatusPatch)
    ensures Patched(Patched(ps, p), p) == Patched(ps, p)
    ensures p == StatusPatch(None, None, None, None, None, None) ==> Patched(ps, p) == ps
  {
  }

  /** player_tick: merge the payload into the player status. */
  method PlayerTick(store: StateStore, p: StatusPatch)
    modifies store`playerStatus
    ensures store.playerStatus == Patched(old(store.playerStatus), p)
  {
    store.playerStatus := Patched(store.playerStatus, p);
  }

  // ---------------------------------------------------------------------------
  // System reset and deferred deletion

  /** All files the deletions of the given songs name, in order. */
  function TargetsOf(doomed: seq<Song>): (r: seq<Artifact>)
    ensures forall a :: a in r <==> exists s :: s in doomed && a in DeletionTargets(s)
  {
    if doomed == [] then []
    else TargetsOf(doomed[..|doomed| - 1]) + DeletionTargets(doomed[|doomed| - 1])
  }

  /** One deletion during a reset: the ids already cleared stay cleared. */
  method DeleteOne(store: StateStore, s: Song) returns (deleted: seq<Artifact>)
    requires store.Valid()
    modifies store`songs, store`activeKaraokeProcesses, store`manualKaraokeQueue
    ensures store.Valid()
    ensures deleted == DeletionTargets(s)
    ensures s.id != 0 ==> s.id !in store.activeKaraokeProcesses && s.id !in store.manualKaraokeQueue
    ensures store.activeKaraokeProcesses <= old(store.activeKaraokeProcesses)
    ensures forall x :: x in store.manualKaraokeQueue ==> x in old(store.manualKaraokeQueue)
  {
    RemoveFirstNoDup(store.manualKaraokeQueue, s.id);
    deleted := DeleteSongFile(store, Some(s));
  }

  /** deleteSongFile on each of the given songs, in order. */
  method DeleteAll(store: StateStore, doomed: seq<Song>) returns (deleted: seq<Artifact>)
    requires store.Valid()
    modifies store`songs, store`activeKaraokeProcesses, store`manualKaraokeQueue
    ensures store.Valid()
    ensures deleted == TargetsOf(doomed)
    ensures forall s :: s in doomed && s.id != 0 ==>
      s.id !in store.activeKaraokeProcesses && s.id !in store.manualKaraokeQueue
  {
    deleted := [];
    var k := 0;
    while k < |doomed|
      invariant 0 <= k <= |doomed|
      invariant store.Valid()
      invariant deleted == TargetsOf(doomed[..k])
      invariant forall j :: 0 <= j < k && doomed[j].id != 0 ==>
        doomed[j].id !in store.activeKaraokeProcesses && doomed[j].id !in store.manualKaraokeQueue
    {
      var t := DeleteOne(store, doomed[k]);
      assert doomed[..k + 1][..k] == doomed[..k];
      deleted := deleted + t;
      k := k + 1;
    }
    assert doomed[..k] == doomed;
  }

  /** Clear the playback set and the player, and switch automatic separation off. */
  method ClearPlayback(store: StateStore)
    requires store.Valid()
    modifies store`playlist, store`history, store`currentPlaying, store`playerStatus, store`autoProcessKaraoke
    ensures store.Valid() && Seated(store)
    ensures store.playlist == [] && store.history == [] && store.currentPlaying == None
    ensures store.playerStatus == DefaultPlayerStatus && !store.autoProcessKaraoke
  {
    store.playlist := [];
    store.history := [];
    store.currentPlaying := None;
    store.playerStatus := DefaultPlayerStatus;
    store.autoProcessKaraoke := false;
  }

  /** The songs a reset deletes: the queue, the current song, then the history copies. */
  function Doomed(songs: map<SongId, Song>, playlist: seq<SongId>, current: Option<SongId>,
                  history: seq<Song>): (r: seq<Song>)
    requires forall x :: x in playlist ==> x in songs
    requires current.Some? ==> current.value in songs
    ensures forall x :: x in playlist ==> songs[x] in r
    ensures current.Some? ==> songs[current.value] in r
    ensures forall s :: s in history ==> s in r
  {
    Lookup(songs, playlist) + (if current.Some? then [songs[current.value]] else []) + history
  }

  /** system_reset: every song of the queue, the player and the history is deleted, the
      playback set and player are cleared, automatic separation is switched off, and a
      snapshot is broadcast. The manual separation queue is not cleared as a whole. */
  method SystemReset(store: StateStore) returns (deleted: seq<Artifact>)
    requires store.Valid()
    modifies store`songs, store`activeKaraokeProcesses, store`manualKaraokeQueue
    modifies store`playlist, store`history, store`currentPlaying, store`playerStatus, store`autoProcessKaraoke
    modifies store`log
    ensures store.Valid() && Seated(store)
    ensures store.playlist == [] && store.history == [] && store.currentPlaying == None
    ensures store.playerStatus == DefaultPlayerStatus && !store.autoProcessKaraoke
    ensures var doomed := old(Doomed(store.songs, store.playlist, store.currentPlaying, store.history));
      && deleted == TargetsOf(doomed)
      && forall s :: s in doomed && s.id != 0 ==>
           s.id !in store.activeKaraokeProcesses && s.id !in store.manualKaraokeQueue
  {
    var doomed := Doomed(store.songs, store.playlist, store.currentPlaying, store.history);
    deleted := DeleteAll(store, doomed);
    ClearPlayback(store);
    store.EmitSync();
  }

  /** A deferred deletion's timer fires (timers may fire in any order): the entry is
      dropped and its song copy is deleted. */
  method FirePendingDeletion(store: StateStore, k: nat) returns (deleted: seq<Artifact>)
    requires store.Valid() && k < |store.pendingDeletions|
    modifies store`pendingDeletions, store`songs, store`activeKaraokeProcesses, store`manualKaraokeQueue
    ensures store.Valid()
    ensures store.pendingDeletions == old(store.pendingDeletions[..k] + store.pendingDeletions[k + 1..])
    ensures deleted == DeletionTargets(old(store.pendingDeletions[k]).song)
    ensures var id := old(store.pendingDeletions[k]).song.id;
      id != 0 ==> id !in store.activeKaraokeProcesses && id !in store.manualKaraokeQueue
  {
    var d := store.pendingDeletions[k];
    store.pendingDeletions := store.pendingDeletions[..k] + store.pendingDeletions[k + 1..];
    deleted := DeleteOne(store, d.song);
  }
}
