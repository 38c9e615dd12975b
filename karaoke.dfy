/** The single-flight vocal-separation scheduler: a manual FIFO queue served first, then
    an auto-scan of the current song followed by the playlist; one separation process at
    a time, guarded by `isProcessingKaraoke`. */
module Karaoke {
  import opened Types
  import opened State

  // ---------------------------------------------------------------------------
  // Choosing the next song (pure)

  /** A song the scheduler may pick: downloaded, not yet separated, not separating. */
  predicate Eligible(s: Song)
  {
    s.status == Ready && !s.karaokeReady && !s.karaokeProcessing
  }

  /** The index of the first eligible id, or `|ids|` when there is none. */
  function FirstEligible(songs: map<SongId, Song>, ids: seq<SongId>): (k: nat)
    requires forall x :: x in ids ==> x in songs
    ensures k <= |ids|
    ensures k < |ids| ==> Eligible(songs[ids[k]])
    ensures forall j :: 0 <= j < k ==> !Eligible(songs[ids[j]])
  {
    if ids == [] then 0
    else if Eligible(songs[ids[0]]) then 0
    else 1 + FirstEligible(songs, ids[1..])
  }

  /** The auto-scan order `[currentPlaying, ...playlist]`, an absent current song skipped. */
  function ScanOrder(current: Option<SongId>, playlist: seq<SongId>): seq<SongId>
  {
    (if current.Some? then [current.value] else []) + playlist
  }

  /** The auto-scan's `filter`: the eligible ids, in order. */
  function Candidates(songs: map<SongId, Song>, ids: seq<SongId>): (r: seq<SongId>)
    requires forall x :: x in ids ==> x in songs
    ensures forall x :: x in r <==> x in ids && Eligible(songs[x])
    ensures |r| <= |ids|
  {
    if ids == [] then []
    else if Eligible(songs[ids[0]]) then [ids[0]] + Candidates(songs, ids[1..])
    else Candidates(songs, ids[1..])
  }

  /** Filtering and taking the head picks the first eligible id of the scan. */
  lemma {:induction false} CandidatesHead(songs: map<SongId, Song>, ids: seq<SongId>)
    requires forall x :: x in ids ==> x in songs
    ensures |Candidates(songs, ids)| > 0 <==> FirstEligible(songs, ids) < |ids|
    ensures |Candidates(songs, ids)| > 0 ==> Candidates(songs, ids)[0] == ids[FirstEligible(songs, ids)]
  {
    if ids != [] && !Eligible(songs[ids[0]]) {
      CandidatesHead(songs, ids[1..]);
    }
  }

  /** What one scheduling pass leaves in the manual queue, and the song it picks. */
  datatype KaraokeChoice = KaraokeChoice(queue: seq<SongId>, pick: Option<SongId>)

  /** The manual-queue pass: shift entries until an eligible one is found. */
  function ManualPick(songs: map<SongId, Song>, q: seq<SongId>): KaraokeChoice
    requires forall x :: x in q ==> x in songs
  {
    if q == [] then KaraokeChoice([], None)
    else if Eligible(songs[q[0]]) then KaraokeChoice(q[1..], Some(q[0]))
    else ManualPick(songs, q[1..])
  }

  /** The manual pass is FIFO: it picks the first eligible entry, drops every entry before
      it, keeps every entry after it, and empties the queue when none is eligible. */
  lemma {:induction false} ManualPickIsFirstEligible(songs: map<SongId, Song>, q: seq<SongId>)
    requires forall x :: x in q ==> x in songs
    ensures var k := FirstEligible(songs, q);
      ManualPick(songs, q) == if k < |q| then KaraokeChoice(q[k + 1..], Some(q[k])) else KaraokeChoice([], None)
  {
    if q != [] && !Eligible(songs[q[0]]) {
      ManualPickIsFirstEligible(songs, q[1..]);
      var k := FirstEligible(songs, q[1..]);
      if k < |q| - 1 {
        assert q[1..][k + 1..] == q[k + 2..];
      }
    }
  }

  /** One call of the scheduler when it is idle: the manual queue first, then (only with
      auto-processing on) the first eligible song of the scan. */
  function NextKaraoke(songs: map<SongId, Song>, q: seq<SongId>, auto: bool,
                       current: Option<SongId>, playlist: seq<SongId>): KaraokeChoice
    requires forall x :: x in q ==> x in songs
    requires current.Some? ==> current.value in songs
    requires forall x :: x in playlist ==> x in songs
  {
    var m := ManualPick(songs, q);
    if m.pick.Some? then m
    else if auto then
      var c := Candidates(songs, ScanOrder(current, playlist));
      KaraokeChoice([], if |c| > 0 then Some(c[0]) else None)
    else KaraokeChoice([], None)
  }

  /** The scheduler's choice: a pick is always eligible; an eligible manual entry beats the
      scan; the scan runs only with auto-processing on and then takes the first eligible
      song of `[current, ...playlist]`; no pick means nothing anywhere was eligible. */
  lemma NextKaraokeSpec(songs: map<SongId, Song>, q: seq<SongId>, auto: bool,
                        current: Option<SongId>, playlist: seq<SongId>)
    requires forall x :: x in q ==> x in songs
    requires current.Some? ==> current.value in songs
    requires forall x :: x in playlist ==> x in songs
    ensures var c := NextKaraoke(songs, q, auto, current, playlist);
      var scan := ScanOrder(current, playlist);
      var km := FirstEligible(songs, q);
      var ks := FirstEligible(songs, scan);
      && (c.pick.Some? ==> c.pick.value in songs && Eligible(songs[c.pick.value]))
      && (km < |q| ==> c == KaraokeChoice(q[km + 1..], Some(q[km])))
      && (km == |q| && auto ==> c.queue == [] && c.pick == (if ks < |scan| then Some(scan[ks]) else None))
      && (km == |q| && !auto ==> c == KaraokeChoice([], None))
  {
    ManualPickIsFirstEligible(songs, q);
    var scan := ScanOrder(current, playlist);
    CandidatesHead(songs, scan);
  }

  /** A separation that ended without output leaves the song eligible again, so with
      auto-processing on and nothing else waiting, the very next pass picks it again. */
  lemma FailedSeparationIsPickedAgain(songs: map<SongId, Song>, id: SongId, code: Option<int>, outputExists: bool,
                                      playlist: seq<SongId>)
    requires id in songs && songs[id].status == Ready && !songs[id].karaokeReady
    requires !(code == Some(0) && outputExists)
    requires forall x :: x in playlist ==> x in songs
    ensures Eligible(Separated(songs[id], code, outputExists))
    ensures NextKaraoke(songs[id := Separated(songs[id], code, outputExists)], [], true, Some(id), playlist).pick == Some(id)
  {
  }

  // ---------------------------------------------------------------------------
  // Starting a separation

  /** The song's audio file is set and exists. */
  predicate AudioPresent(s: Song, disk: set<Artifact>)
  {
    s.localAudioPath.Some? && s.localAudioPath.value in disk
  }

  /** The guards of `processVocalSeparation`. */
  predicate Launchable(s: Song, disk: set<Artifact>)
  {
    AudioPresent(s, disk) && !s.karaokeReady && !s.karaokeProcessing
  }

  /** A song whose separation has just started. */
  function Started(s: Song): (r: Song)
    ensures r.karaokeProcessing && r.karaokeProgress == 0
    ensures r.(karaokeProcessing := s.karaokeProcessing, karaokeProgress := s.karaokeProgress) == s
  {
    s.(karaokeProcessing := true, karaokeProgress := 0)
  }

  /** The effect of one scheduling pass on songs, job set and running process (from
      `songs0`, `jobs0`, `run0` to `songs`, `jobs`, `run`), given the song it picked: when
      the picked song can be launched its separation is running; otherwise none of these
      changed. */
  predicate SeparationLaunch(songs0: map<SongId, Song>, jobs0: set<SongId>, run0: Option<SongId>,
                             pick: Option<SongId>, disk: set<Artifact>,
                             songs: map<SongId, Song>, jobs: set<SongId>, run: Option<SongId>)
  {
    var launched := pick.Some? && pick.value in songs0 && Launchable(songs0[pick.value], disk);
    && (launched ==>
          && songs == songs0[pick.value := Started(songs0[pick.value])]
          && jobs == jobs0 + {pick.value}
          && run == pick)
    && (!launched ==> songs == songs0 && jobs == jobs0 && run == run0)
  }

  /** `SeparationLaunch`, and a snapshot was broadcast exactly when the separation was
      launched. */
  twostate predicate LaunchOutcome(store: StateStore, pick: Option<SongId>, disk: set<Artifact>)
    reads store
  {
    && store.PlaybackKnown()
    && SeparationLaunch(old(store.songs), old(store.activeKaraokeProcesses), old(store.runningSeparation), pick, disk,
                        store.songs, store.activeKaraokeProcesses, store.runningSeparation)
    && var launched := pick.Some? && pick.value in old(store.songs) && Launchable(old(store.songs)[pick.value], disk);
    && (launched ==> store.log == old(store.log) + (if store.hasSink then [SyncState(store.CurrentSnapshot())] else []))
    && (!launched ==> store.log == old(store.log))
  }

  /** Registers the separation job of a ready song that is not separating: the song is
      marked separating with progress 0, the job is in the map, and its process runs. */
  method RegisterSeparation(store: StateStore, id: SongId)
    requires store.Coherent() && store.runningSeparation.None?
    requires id in store.songs && store.songs[id].status == Ready && !store.songs[id].karaokeProcessing
    modifies store`songs, store`activeKaraokeProcesses, store`runningSeparation
    ensures store.Coherent()
    ensures store.songs == old(store.songs)[id := Started(old(store.songs)[id])]
    ensures store.activeKaraokeProcesses == old(store.activeKaraokeProcesses) + {id}
    ensures store.runningSeparation == Some(id)
  {
    var song := store.songs[id];
    SongsAgreeUpdate(store.songs, store.activeDownloads.Keys, store.activeKaraokeProcesses,
                     id, Started(song), store.activeDownloads.Keys, store.activeKaraokeProcesses + {id});
    store.songs := store.songs[id := Started(song)];
    store.activeKaraokeProcesses := store.activeKaraokeProcesses + {id};
    store.runningSeparation := Some(id);
  }

  /** processVocalSeparation: when the audio file exists and the song is neither separated
      nor separating, marks it separating with progress 0, broadcasts, and registers the
      job; otherwise returns without doing anything. The caller has ruled out a running
      separation and passes a ready song. */
  method ProcessVocalSeparation(store: StateStore, id: SongId, disk: set<Artifact>) returns (started: bool)
    requires store.Coherent() && id in store.songs && store.songs[id].status == Ready
    requires store.runningSeparation.None?
    modifies store`songs, store`activeKaraokeProcesses, store`runningSeparation, store`log
    ensures started <==> Launchable(old(store.songs)[id], disk)
    ensures LaunchOutcome(store, Some(id), disk)
    ensures store.Coherent()
  {
    var song := store.songs[id];
    if !AudioPresent(song, disk) {
      return false;
    }
    if song.karaokeReady || song.karaokeProcessing {
      return false;
    }
    RegisterSeparation(store, id);
    store.EmitSync();
    started := true;
  }

  /** Sets the single-flight flag and hands the picked song to `ProcessVocalSeparation`;
      the flag is cleared again when the separation did not start. */
  method Launch(store: StateStore, id: SongId, disk: set<Artifact>)
    requires store.Valid() && !store.isProcessingKaraoke
    requires id in store.songs && Eligible(store.songs[id])
    modifies store`songs, store`activeKaraokeProcesses, store`runningSeparation, store`log, store`isProcessingKaraoke
    ensures store.Valid()
    ensures LaunchOutcome(store, Some(id), disk)
    ensures store.isProcessingKaraoke <==> AudioPresent(old(store.songs)[id], disk)
  {
    store.isProcessingKaraoke := true;
    var started := ProcessVocalSeparation(store, id, disk);
    if !started {
      store.isProcessingKaraoke := false;
    }
  }

  /** The manual-queue part of `processNextKaraoke`: shift the queue until an eligible
      entry comes out (each ineligible one makes the source call itself again on the
      shorter queue). */
  method ServeManualQueue(store: StateStore) returns (pick: Option<SongId>)
    requires store.Valid()
    modifies store`manualKaraokeQueue
    decreases |store.manualKaraokeQueue|
    ensures store.Valid()
    ensures KaraokeChoice(store.manualKaraokeQueue, pick) == ManualPick(store.songs, old(store.manualKaraokeQueue))
    ensures pick.Some? ==> pick.value in store.songs && Eligible(store.songs[pick.value])
    ensures pick.None? ==> store.manualKaraokeQueue == []
  {
    if |store.manualKaraokeQueue| == 0 {
      return None;
    }
    var next := store.manualKaraokeQueue[0];
    store.manualKaraokeQueue := store.manualKaraokeQueue[1..];
    if Eligible(store.songs[next]) {
      return Some(next);
    }
    pick := ServeManualQueue(store);
  }

  /** The launch as written: the flag is set and stays set whatever
      `ProcessVocalSeparation` does. */
  method LaunchAsWritten(store: StateStore, id: SongId, disk: set<Artifact>)
    requires store.Valid() && !store.isProcessingKaraoke
    requires id in store.songs && Eligible(store.songs[id])
    modifies store`songs, store`activeKaraokeProcesses, store`runningSeparation, store`log, store`isProcessingKaraoke
    ensures store.Coherent() && store.isProcessingKaraoke
    ensures LaunchOutcome(store, Some(id), disk)
    ensures store.runningSeparation.Some? <==> AudioPresent(old(store.songs)[id], disk)
  {
    store.isProcessingKaraoke := true;
    var _ := ProcessVocalSeparation(store, id, disk);
  }

  /** processNextKaraoke: a no-op while a separation runs; otherwise one scheduling pass as
      `NextKaraoke` describes, launching the picked song, and the flag left clear when no
      separation started. */
  method ProcessNextKaraoke(store: StateStore, disk: set<Artifact>)
    requires store.Valid()
    modifies store`songs, store`activeKaraokeProcesses, store`manualKaraokeQueue
    modifies store`isProcessingKaraoke, store`runningSeparation, store`log
    ensures store.Valid()
    ensures old(store.isProcessingKaraoke) ==> unchanged(store)
    ensures !old(store.isProcessingKaraoke) ==>
      var c := NextKaraoke(old(store.songs), old(store.manualKaraokeQueue), old(store.autoProcessKaraoke),
                           old(store.currentPlaying), old(store.playlist));
      && store.manualKaraokeQueue == c.queue
      && LaunchOutcome(store, c.pick, disk)
      && (store.isProcessingKaraoke <==>
            c.pick.Some? && c.pick.value in old(store.songs) && AudioPresent(old(store.songs)[c.pick.value], disk))
  {
    if store.isProcessingKaraoke {
      return;
    }
    var pick := ServeManualQueue(store);
    if pick.Some? {
      Launch(store, pick.value, disk);
      return;
    }
    if store.autoProcessKaraoke {
      var candidates := Candidates(store.songs, ScanOrder(store.currentPlaying, store.playlist));
      if |candidates| > 0 {
        assert candidates[0] in candidates;
        Launch(store, candidates[0], disk);
        return;
      }
    }
    store.isProcessingKaraoke := false;
  }

  /** The scheduler as written: the flag is set before `processVocalSeparation`, which can
      return at its audio-file guard, and nothing clears it. When the pick's audio file is
      missing the store is left with the flag set and no separation running, so every later
      pass is a no-op. */
  method ProcessNextKaraokeAsWritten(store: StateStore, disk: set<Artifact>)
    requires store.Valid()
    modifies store`songs, store`activeKaraokeProcesses, store`manualKaraokeQueue
    modifies store`isProcessingKaraoke, store`runningSeparation, store`log
    ensures store.Coherent()
    ensures !old(store.isProcessingKaraoke) ==>
      var c := NextKaraoke(old(store.songs), old(store.manualKaraokeQueue), old(store.autoProcessKaraoke),
                           old(store.currentPlaying), old(store.playlist));
      && store.manualKaraokeQueue == c.queue
      && LaunchOutcome(store, c.pick, disk)
      && (store.isProcessingKaraoke <==> c.pick.Some?)
      && (c.pick.Some? && c.pick.value in old(store.songs) && !AudioPresent(old(store.songs)[c.pick.value], disk) ==>
            store.isProcessingKaraoke && store.runningSeparation.None?)
  {
    if store.isProcessingKaraoke {
      return;
    }
    var pick := ServeManualQueue(store);
    if pick.Some? {
      LaunchAsWritten(store, pick.value, disk);
      return;
    }
    if store.autoProcessKaraoke {
      var candidates := Candidates(store.songs, ScanOrder(store.currentPlaying, store.playlist));
      if |candidates| > 0 {
        assert candidates[0] in candidates;
        LaunchAsWritten(store, candidates[0], disk);
        return;
      }
    }
    store.isProcessingKaraoke := false;
  }

  /** A ready song queued by hand whose audio file is gone (removed from the downloads
      folder by something other than the server) is still picked: the as-written pass then
      sets the flag and starts nothing. */
  lemma WedgeWitness()
    ensures var s := NewSong(7, SongMeta("t", "u", "https://www.youtube.com/watch?v=x"), "r")
                       .(status := Ready, localAudioPath := Some(AudioFile(7)));
      && NextKaraoke(map[7 := s], [7], false, None, []).pick == Some(7)
      && !AudioPresent(s, {})
  {
  }

  // ---------------------------------------------------------------------------
  // Entry points

  /** The manual queue after `queueKaraokeProcessing`: the id appended when prioritised and
      not already queued. */
  function Enqueued(q: seq<SongId>, id: SongId, prioritize: bool): (r: seq<SongId>)
    ensures NoDup(q) ==> NoDup(r)
    ensures id in q || !prioritize ==> r == q
    ensures prioritize ==> id in r
    ensures q <= r && |r| <= |q| + 1
  {
    if prioritize && id !in q then q + [id] else q
  }

  /** queueKaraokeProcessing: nothing for a song already separated or separating; otherwise
      queue it when prioritised (at most once) and run a scheduling pass if idle. */
  method QueueKaraokeProcessing(store: StateStore, id: SongId, prioritize: bool, disk: set<Artifact>)
    requires store.Valid() && id in store.songs
    modifies store`songs, store`activeKaraokeProcesses, store`manualKaraokeQueue
    modifies store`isProcessingKaraoke, store`runningSeparation, store`log
    ensures store.Valid()
    ensures old(store.songs[id].karaokeReady || store.songs[id].karaokeProcessing) ==> unchanged(store)
    ensures !old(store.songs[id].karaokeReady || store.songs[id].karaokeProcessing) ==>
      var q := Enqueued(old(store.manualKaraokeQueue), id, prioritize);
      if old(store.isProcessingKaraoke) then
        && store.manualKaraokeQueue == q && store.songs == old(store.songs) && store.log == old(store.log)
        && store.activeKaraokeProcesses == old(store.activeKaraokeProcesses)
        && store.isProcessingKaraoke && store.runningSeparation == old(store.runningSeparation)
      else
        var c := NextKaraoke(old(store.songs), q, old(store.autoProcessKaraoke),
                             old(store.currentPlaying), old(store.playlist));
        && store.manualKaraokeQueue == c.queue && LaunchOutcome(store, c.pick, disk)
        && (store.isProcessingKaraoke <==>
              c.pick.Some? && c.pick.value in old(store.songs) && AudioPresent(old(store.songs)[c.pick.value], disk))
  {
    var song := store.songs[id];
    if song.karaokeReady || song.karaokeProcessing {
      return;
    }
    if prioritize && id !in store.manualKaraokeQueue {
      store.manualKaraokeQueue := store.manualKaraokeQueue + [id];
    }
    if !store.isProcessingKaraoke {
      ProcessNextKaraoke(store, disk);
    }
  }

  /** queueAllReadySongsForKaraoke: one scheduling pass when idle. */
  method QueueAllReadySongs(store: StateStore, disk: set<Artifact>)
    requires store.Valid()
    modifies store`songs, store`activeKaraokeProcesses, store`manualKaraokeQueue
    modifies store`isProcessingKaraoke, store`runningSeparation, store`log
    ensures store.Valid()
    ensures old(store.isProcessingKaraoke) ==> unchanged(store)
    ensures !old(store.isProcessingKaraoke) ==>
      var c := NextKaraoke(old(store.songs), old(store.manualKaraokeQueue), old(store.autoProcessKaraoke),
                           old(store.currentPlaying), old(store.playlist));
      && store.manualKaraokeQueue == c.queue && LaunchOutcome(store, c.pick, disk)
      && (store.isProcessingKaraoke <==>
            c.pick.Some? && c.pick.value in old(store.songs) && AudioPresent(old(store.songs)[c.pick.value], disk))
  {
    if !store.isProcessingKaraoke {
      ProcessNextKaraoke(store, disk);
    }
  }

  // ---------------------------------------------------------------------------
  // Events of the running separation process

  /** `Math.round` on a non-negative percentage, capped at 99. */
  function ReportedPercent(p: real): (v: int)
    requires p >= 0.0
    ensures 0 <= v <= 99
    ensures v < 99 ==> (v as real) - 0.5 <= p < (v as real) + 0.5
  {
    var r := (p + 0.5).Floor;
    if r < 99 then r else 99
  }

  /** A progress line from the separation process: the rounded, capped percentage is taken
      and broadcast only when it exceeds the song's current progress. */
  method OnSeparationData(store: StateStore, id: SongId, p: real)
    requires store.Valid() && store.runningSeparation == Some(id)
    requires p >= 0.0
    modifies store`songs, store`log
    ensures store.Valid()
    ensures var v := ReportedPercent(p);
      var before := old(store.songs[id].karaokeProgress);
      && (v > before ==> store.songs == old(store.songs)[id := old(store.songs[id]).(karaokeProgress := v)]
                          && store.log == old(store.log) + (if store.hasSink then [KaraokeProgress(id, v)] else []))
      && (v <= before ==> store.songs == old(store.songs) && store.log == old(store.log))
    ensures store.songs[id].karaokeProgress >= old(store.songs[id].karaokeProgress)
    ensures old(store.songs[id].karaokeProgress) <= 99 ==> store.songs[id].karaokeProgress <= 99
  {
    var v := ReportedPercent(p);
    var song := store.songs[id];
    if v > song.karaokeProgress {
      SongsAgreeUpdate(store.songs, store.activeDownloads.Keys, store.activeKaraokeProcesses,
                       id, song.(karaokeProgress := v), store.activeDownloads.Keys, store.activeKaraokeProcesses);
      store.songs := store.songs[id := song.(karaokeProgress := v)];
      store.EmitProgress(KaraokeProgress(id, v));
    }
  }

  /** The song after its separation process closed: no longer separating, and separated
      (with its karaoke file and progress 100) exactly when the exit code is 0 and the
      `no_vocals` output exists. */
  function Separated(s: Song, code: Option<int>, outputExists: bool): (r: Song)
    ensures !r.karaokeProcessing
    ensures r.karaokeReady <==> s.karaokeReady || (code == Some(0) && outputExists)
    ensures code == Some(0) && outputExists ==> r.karaokeProgress == 100 && r.karaokeSrc == Some(KaraokeFile(s.id))
    ensures !(code == Some(0) && outputExists) ==> r == s.(karaokeProcessing := false)
    ensures r.id == s.id && r.status == s.status
  {
    if code == Some(0) && outputExists then
      s.(karaokeProcessing := false, karaokeSrc := Some(KaraokeFile(s.id)), karaokeReady := true, karaokeProgress := 100)
    else
      s.(karaokeProcessing := false)
  }

  /** What both handlers of the separation process do before their broadcast and
      scheduling pass: drop the job, store the song object `s` (no longer separating),
      clear the flag. */
  method ReleaseSeparation(store: StateStore, id: SongId, s: Song)
    requires store.Valid() && store.runningSeparation == Some(id)
    requires s.id == id && s.status == store.songs[id].status && !s.karaokeProcessing
    modifies store`songs, store`activeKaraokeProcesses, store`isProcessingKaraoke, store`runningSeparation
    ensures store.Valid()
    ensures store.songs == old(store.songs)[id := s]
    ensures store.activeKaraokeProcesses == old(store.activeKaraokeProcesses) - {id}
    ensures !store.isProcessingKaraoke && store.runningSeparation.None?
  {
    SongsAgreeUpdate(store.songs, store.activeDownloads.Keys, store.activeKaraokeProcesses,
                     id, s, store.activeDownloads.Keys, store.activeKaraokeProcesses - {id});
    store.activeKaraokeProcesses := store.activeKaraokeProcesses - {id};
    store.songs := store.songs[id := s];
    store.isProcessingKaraoke := false;
    store.runningSeparation := None;
  }

  /** The close handler up to its scheduling pass: drop the job, update the song, broadcast,
      clear the flag. */
  method FinishSeparation(store: StateStore, id: SongId, code: Option<int>, outputExists: bool)
    requires store.Valid() && store.runningSeparation == Some(id)
    modifies store`songs, store`activeKaraokeProcesses, store`isProcessingKaraoke, store`runningSeparation, store`log
    ensures store.Valid()
    ensures store.songs == old(store.songs)[id := Separated(old(store.songs[id]), code, outputExists)]
    ensures store.activeKaraokeProcesses == old(store.activeKaraokeProcesses) - {id}
    ensures !store.isProcessingKaraoke && store.runningSeparation.None?
    ensures store.log == old(store.log) + (if store.hasSink then [SyncState(store.CurrentSnapshot())] else [])
  {
    ReleaseSeparation(store, id, Separated(store.songs[id], code, outputExists));
    store.EmitSync();
  }

  /** The separation process closed (`code` is `None` when it was killed by a signal):
      the job is gone, the song is separated exactly on a clean exit with output, and the
      next scheduling pass runs. */
  method OnSeparationClose(store: StateStore, id: SongId, code: Option<int>, outputExists: bool, disk: set<Artifact>)
    requires store.Valid() && store.runningSeparation == Some(id)
    modifies store`songs, store`activeKaraokeProcesses, store`manualKaraokeQueue
    modifies store`isProcessingKaraoke, store`runningSeparation, store`log
    ensures store.Valid()
    ensures id in store.songs
    ensures store.songs[id].karaokeReady <==> old(store.songs[id].karaokeReady) || (code == Some(0) && outputExists)
  {
    FinishSeparation(store, id, code, outputExists);
    ProcessNextKaraoke(store, disk);
  }

  /** The separation process failed to spawn: the job is gone, the song is no longer
      separating and its progress is back to 0, the flag is clear (no broadcast), and the
      next scheduling pass runs. */
  method OnSeparationError(store: StateStore, id: SongId, disk: set<Artifact>)
    requires store.Valid() && store.runningSeparation == Some(id)
    modifies store`songs, store`activeKaraokeProcesses, store`manualKaraokeQueue
    modifies store`isProcessingKaraoke, store`runningSeparation, store`log
    ensures store.Valid()
    ensures id in store.songs && store.songs[id].karaokeReady == old(store.songs[id].karaokeReady)
  {
    ReleaseSeparation(store, id, store.songs[id].(karaokeProcessing := false, karaokeProgress := 0));
    ProcessNextKaraoke(store, disk);
  }

  /** The effect of terminating a song's separation: the job is gone, the song (when it had
      a job) is no longer separating and its progress is back to 0, and its first manual
      queue entry is removed. The process itself still closes later. */
  twostate predicate Terminated(store: StateStore, id: SongId)
    reads store
  {
    && store.activeKaraokeProcesses == old(store.activeKaraokeProcesses) - {id}
    && store.manualKaraokeQueue == RemoveFirst(old(store.manualKaraokeQueue), id)
    && (id in old(store.activeKaraokeProcesses) ==>
          id in old(store.songs) &&
          store.songs == old(store.songs)[id := old(store.songs)[id].(karaokeProcessing := false, karaokeProgress := 0)])
    && (id !in old(store.activeKaraokeProcesses) ==> store.songs == old(store.songs))
  }

  /** terminateKaraokeProcess: kill the song's separation job if it has one (its close
      event still follows), reset the song's flag and progress, and drop the song from the
      manual queue. */
  method TerminateKaraokeProcess(store: StateStore, id: SongId)
    requires store.Valid()
    modifies store`songs, store`activeKaraokeProcesses, store`manualKaraokeQueue
    ensures store.Valid()
    ensures Terminated(store, id)
    ensures id !in store.activeKaraokeProcesses && id !in store.manualKaraokeQueue
    ensures id in store.songs ==> !store.songs[id].karaokeProcessing
  {
    if id in store.activeKaraokeProcesses {
      SongsAgreeUpdate(store.songs, store.activeDownloads.Keys, store.activeKaraokeProcesses,
                       id, store.songs[id].(karaokeProcessing := false, karaokeProgress := 0),
                       store.activeDownloads.Keys, store.activeKaraokeProcesses - {id});
      store.songs := store.songs[id := store.songs[id].(karaokeProcessing := false, karaokeProgress := 0)];
      store.activeKaraokeProcesses := store.activeKaraokeProcesses - {id};
    }
    RemoveFirstNoDup(store.manualKaraokeQueue, id);
    store.manualKaraokeQueue := RemoveFirst(store.manualKaraokeQueue, id);
  }
}
