/** The bounded-concurrency download scheduler and the per-song download state machine:
    pending, then a video stage (0-50%), an audio stage (50-80%), a loudness analysis
    (95%), and finally ready (100%) or error. */
module Downloader {
  import opened Types
  import opened State
  import opened Config
  import opened Karaoke
  import opened SystemService

  // ---------------------------------------------------------------------------
  // Which songs to start (pure)

  /** The pending ids of `ids`, in order (`forEach` with a status test). */
  function PendingIn(songs: map<SongId, Song>, ids: seq<SongId>): (r: seq<SongId>)
    requires forall x :: x in ids ==> x in songs
    ensures forall x :: x in r <==> x in ids && songs[x].status == Pending
    ensures |r| <= |ids|
  {
    if ids == [] then []
    else PendingIn(songs, ids[..|ids| - 1])
         + (if songs[ids[|ids| - 1]].status == Pending then [ids[|ids| - 1]] else [])
  }

  /** Filtering one more entry of `ids` appends it when it is pending. */
  lemma PendingInSnoc(songs: map<SongId, Song>, ids: seq<SongId>, i: nat, head: seq<SongId>)
    requires i < |ids| && forall x :: x in ids ==> x in songs
    ensures head + PendingIn(songs, ids[..i + 1])
            == head + PendingIn(songs, ids[..i]) + (if songs[ids[i]].status == Pending then [ids[i]] else [])
  {
    assert ids[..i + 1][..i] == ids[..i];
  }

  /** Filtering a duplicate-free list keeps it duplicate-free. */
  lemma {:induction false} PendingInNoDup(songs: map<SongId, Song>, ids: seq<SongId>)
    requires forall x :: x in ids ==> x in songs
    requires NoDup(ids)
    ensures NoDup(PendingIn(songs, ids))
  {
    if ids != [] {
      var init := ids[..|ids| - 1];
      var last := ids[|ids| - 1];
      assert NoDup(init) by {
        forall i, j | 0 <= i < j < |init| ensures init[i] != init[j] {
          assert init[i] == ids[i] && init[j] == ids[j];
        }
      }
      PendingInNoDup(songs, init);
      assert last !in init by {
        forall i | 0 <= i < |init| ensures init[i] != last {
          assert init[i] == ids[i];
        }
      }
      var p := PendingIn(songs, init);
      var r := p + (if songs[last].status == Pending then [last] else []);
      forall i, j | 0 <= i < j < |r| ensures r[i] != r[j] {
        if j >= |p| {
          assert r[i] == p[i] && p[i] in p;
        } else {
          assert r[i] == p[i] && r[j] == p[j];
        }
      }
    }
  }

  /** The download candidates: the current song first when it is pending, then the
      pending queue entries in queue order. */
  function DownloadCandidates(songs: map<SongId, Song>, current: Option<SongId>, playlist: seq<SongId>): (r: seq<SongId>)
    requires forall x :: x in playlist ==> x in songs
    requires current.Some? ==> current.value in songs
    ensures forall x :: x in r <==> (current == Some(x) || x in playlist) && songs[x].status == Pending
    ensures current.Some? && songs[current.value].status == Pending ==> r[0] == current.value
  {
    (if current.Some? && songs[current.value].status == Pending then [current.value] else [])
    + PendingIn(songs, playlist)
  }

  /** With the current song never in the queue and no queue entry repeated, no candidate
      is repeated. */
  lemma CandidatesNoDup(songs: map<SongId, Song>, current: Option<SongId>, playlist: seq<SongId>)
    requires forall x :: x in playlist ==> x in songs
    requires current.Some? ==> current.value in songs && current.value !in playlist
    requires NoDup(playlist)
    ensures NoDup(DownloadCandidates(songs, current, playlist))
  {
    PendingInNoDup(songs, playlist);
    var p := PendingIn(songs, playlist);
    var r := DownloadCandidates(songs, current, playlist);
    if current.Some? && songs[current.value].status == Pending {
      forall i, j | 0 <= i < j < |r| ensures r[i] != r[j] {
        assert r[j] == p[j - 1] && p[j - 1] in p;
        if i > 0 {
          assert r[i] == p[i - 1];
        }
      }
    }
  }

  /** The candidates not already downloading (`activeDownloads.has` skips the others). */
  function Fresh(pending: seq<SongId>, active: set<SongId>): (r: seq<SongId>)
    ensures forall x :: x in r <==> x in pending && x !in active
  {
    if pending == [] then []
    else if pending[0] in active then Fresh(pending[1..], active)
    else [pending[0]] + Fresh(pending[1..], active)
  }

  /** The songs one pass of `processDownloadQueue` starts, given the candidates, the ids
      already downloading and the cap: skip an id already downloading, stop once the job
      map is full, otherwise start the song (its id joins the job map). */
  function Admit(pending: seq<SongId>, active: set<SongId>, cap: real): (r: seq<SongId>)
    ensures forall x :: x in r ==> x in pending && x !in active
  {
    if pending == [] then []
    else if pending[0] in active then Admit(pending[1..], active, cap)
    else if |active| as real >= cap then []
    else [pending[0]] + Admit(pending[1..], active + {pending[0]}, cap)
  }

  /** With the job map already full, a pass starts nothing. */
  lemma {:induction false} AdmitFull(pending: seq<SongId>, active: set<SongId>, cap: real)
    requires |active| as real >= cap
    ensures Admit(pending, active, cap) == []
  {
    if pending != [] {
      AdmitFull(pending[1..], active, cap);
    }
  }

  /** An id that does not occur in the list does not change which entries are fresh. */
  lemma {:induction false} FreshIgnores(pending: seq<SongId>, active: set<SongId>, x: SongId)
    requires x !in pending
    ensures Fresh(pending, active + {x}) == Fresh(pending, active)
  {
    if pending != [] {
      FreshIgnores(pending[1..], active, x);
    }
  }

  /** The scheduler starts candidates in order and only while there is room: what it
      starts is a prefix of the fresh candidates, each start happened while fewer than
      `cap` downloads were registered, and a fresh candidate is left over only when the
      job map is full. */
  lemma {:induction false} AdmitSpec(pending: seq<SongId>, active: set<SongId>, cap: real)
    requires NoDup(pending)
    ensures var r := Admit(pending, active, cap);
      var f := Fresh(pending, active);
      && |r| <= |f| && r == f[..|r|]
      && (r != [] ==> ((|active| + |r| - 1) as real) < cap)
      && (|r| < |f| ==> ((|active| + |r|) as real) >= cap)
  {
    if pending != [] {
      var x := pending[0];
      var rest := pending[1..];
      assert NoDup(rest) by {
        forall i, j | 0 <= i < j < |rest| ensures rest[i] != rest[j] {
          assert rest[i] == pending[i + 1] && rest[j] == pending[j + 1];
        }
      }
      if x in active {
        AdmitSpec(rest, active, cap);
      } else if |active| as real < cap {
        assert x !in rest by {
          forall i | 0 <= i < |rest| ensures rest[i] != x {
            assert rest[i] == pending[i + 1];
          }
        }
        AdmitSpec(rest, active + {x}, cap);
        FreshIgnores(rest, active, x);
        assert |active + {x}| == |active| + 1;
      }
    }
  }

  // ---------------------------------------------------------------------------
  // Song values along the way

  /** A song whose download has just started. */
  function Begun(s: Song): (r: Song)
    ensures r.status == Downloading && r.progress == 0.0
    ensures r.(status := s.status, progress := s.progress) == s
  {
    s.(status := Downloading, progress := 0.0)
  }

  /** The song objects after the given downloads have started, one after the other. */
  function BeginAll(songs: map<SongId, Song>, ids: seq<SongId>): (r: map<SongId, Song>)
    ensures r.Keys == songs.Keys
    ensures forall k :: k in songs ==> r[k] == if k in ids then Begun(songs[k]) else songs[k]
  {
    if ids == [] then songs
    else
      var m := BeginAll(songs, ids[..|ids| - 1]);
      var last := ids[|ids| - 1];
      if last in m then m[last := Begun(m[last])] else m
  }

  /** The job map after the given downloads have registered their video processes. */
  function RegisterAll(jobs: map<SongId, DownloadStage>, ids: seq<SongId>): (r: map<SongId, DownloadStage>)
    ensures forall k :: k in r <==> k in jobs || k in ids
    ensures forall k :: k in r ==> r[k] == if k in ids then VideoStage else jobs[k]
  {
    if ids == [] then jobs
    else RegisterAll(jobs, ids[..|ids| - 1])[ids[|ids| - 1] := VideoStage]
  }

  /** The scheduler's walk over the candidates as a state transformer on the song
      objects and the job map: skip an id already downloading, stop once the job map is
      full, otherwise start the song and go on. */
  function Walk(pending: seq<SongId>, songs: map<SongId, Song>, jobs: map<SongId, DownloadStage>, cap: real)
    : (r: (map<SongId, Song>, map<SongId, DownloadStage>))
    requires forall x :: x in pending ==> x in songs
    ensures r.0.Keys == songs.Keys
  {
    if pending == [] then (songs, jobs)
    else
      var x := pending[0];
      if x in jobs then Walk(pending[1..], songs, jobs, cap)
      else if |jobs| as real >= cap then (songs, jobs)
      else Walk(pending[1..], songs[x := Begun(songs[x])], jobs[x := VideoStage], cap)
  }

  /** Starting `x` and then the rest is starting `[x] + rest`. */
  lemma BeginCons(songs: map<SongId, Song>, x: SongId, rest: seq<SongId>)
    requires x in songs && x !in rest
    ensures BeginAll(songs[x := Begun(songs[x])], rest) == BeginAll(songs, [x] + rest)
  {
    var a := BeginAll(songs[x := Begun(songs[x])], rest);
    var b := BeginAll(songs, [x] + rest);
    forall k | k in songs ensures a[k] == b[k] {
      assert k in [x] + rest <==> k == x || k in rest;
    }
  }

  /** Registering `x` and then the rest is registering `[x] + rest`. */
  lemma RegisterCons(jobs: map<SongId, DownloadStage>, x: SongId, rest: seq<SongId>)
    ensures RegisterAll(jobs[x := VideoStage], rest) == RegisterAll(jobs, [x] + rest)
  {
    var c := RegisterAll(jobs[x := VideoStage], rest);
    var d := RegisterAll(jobs, [x] + rest);
    forall k ensures k in c <==> k in d {
      assert k in [x] + rest <==> k == x || k in rest;
    }
    forall k | k in c ensures c[k] == d[k] {
      assert k in [x] + rest <==> k == x || k in rest;
    }
  }

  /** The walk starts exactly the songs `Admit` names: its songs are `BeginAll` of them
      and its job map `RegisterAll` of them. */
  lemma {:induction false} WalkIsAdmit(pending: seq<SongId>, songs: map<SongId, Song>, jobs: map<SongId, DownloadStage>, cap: real)
    requires forall x :: x in pending ==> x in songs
    ensures var started := Admit(pending, jobs.Keys, cap);
      Walk(pending, songs, jobs, cap) == (BeginAll(songs, started), RegisterAll(jobs, started))
  {
    if pending != [] {
      var x := pending[0];
      if x in jobs {
        WalkIsAdmit(pending[1..], songs, jobs, cap);
      } else if |jobs| as real >= cap {
        assert |jobs.Keys| == |jobs|;
      } else {
        var songs', jobs' := songs[x := Begun(songs[x])], jobs[x := VideoStage];
        assert |jobs.Keys| == |jobs|;
        assert jobs'.Keys == jobs.Keys + {x};
        WalkIsAdmit(pending[1..], songs', jobs', cap);
        var rest := Admit(pending[1..], jobs.Keys + {x}, cap);
        BeginCons(songs, x, rest);
        RegisterCons(jobs, x, rest);
      }
    }
  }

  /** One step of the walk from position `i`. */
  lemma WalkAt(pending: seq<SongId>, i: nat, songs: map<SongId, Song>, jobs: map<SongId, DownloadStage>, cap: real)
    requires i < |pending| && forall x :: x in pending ==> x in songs
    ensures var x := pending[i];
      Walk(pending[i..], songs, jobs, cap) ==
        if x in jobs then Walk(pending[i + 1..], songs, jobs, cap)
        else if |jobs| as real >= cap then (songs, jobs)
        else Walk(pending[i + 1..], songs[x := Begun(songs[x])], jobs[x := VideoStage], cap)
  {
    assert pending[i..][0] == pending[i];
    assert pending[i..][1..] == pending[i + 1..];
  }

  /** The first stage's share of the progress bar: half of the reported percentage. */
  function VideoPercent(p: real): (v: real)
    ensures 0.0 <= p <= 100.0 ==> 0.0 <= v <= 50.0
  {
    p * 0.5
  }

  /** The second stage's share: 50 plus 30% of the reported percentage. */
  function AudioPercent(p: real): (v: real)
    ensures 0.0 <= p <= 100.0 ==> 50.0 <= v <= 80.0
  {
    50.0 + p * 0.3
  }

  /** Both stage maps are strictly increasing, and every audio-stage value of a
      percentage in [0, 100] is at least every video-stage value. */
  lemma StagePercentsOrdered(p: real, q: real)
    ensures p < q ==> VideoPercent(p) < VideoPercent(q) && AudioPercent(p) < AudioPercent(q)
    ensures 0.0 <= p <= 100.0 && 0.0 <= q <= 100.0 ==> VideoPercent(p) <= AudioPercent(q)
  {
  }

  /** A song whose download finished: ready at 100% with both files and its gain, and not
      (yet) separated. */
  function Completed(s: Song, gain: real): (r: Song)
    ensures r.id == s.id && r.status == Ready && r.progress == 100.0
    ensures r.src == Some(VideoFile(s.id)) && r.localVideoPath == Some(VideoFile(s.id))
    ensures r.audioSrc == Some(AudioFile(s.id)) && r.localAudioPath == Some(AudioFile(s.id))
    ensures r.loudnessGain == Some(gain) && !r.karaokeReady && r.karaokeSrc == None
    ensures r.karaokeProcessing == s.karaokeProcessing && r.title == s.title && r.originalUrl == s.originalUrl
  {
    s.(status := Ready, progress := 100.0,
       src := Some(VideoFile(s.id)), audioSrc := Some(AudioFile(s.id)),
       localVideoPath := Some(VideoFile(s.id)), localAudioPath := Some(AudioFile(s.id)),
       loudnessGain := Some(gain), karaokeReady := false, karaokeSrc := None)
  }

  /** A pass of the scheduler starts only pending songs: a song that is not pending is
      not started and its object is the same afterwards. */
  lemma StartsOnlyPending(songs: map<SongId, Song>, current: Option<SongId>, playlist: seq<SongId>,
                          active: set<SongId>, cap: real, k: SongId)
    requires forall x :: x in playlist ==> x in songs
    requires current.Some? ==> current.value in songs
    requires k in songs && songs[k].status != Pending
    ensures var started := Admit(DownloadCandidates(songs, current, playlist), active, cap);
      k !in started && BeginAll(songs, started)[k] == songs[k]
  {
  }

  // ---------------------------------------------------------------------------
  // Starting downloads

  /** The song is downloading from 0% and its video process is registered. */
  method RegisterDownload(store: StateStore, id: SongId)
    requires store.Valid() && id in store.songs && id !in store.activeDownloads
    requires store.songs[id].status != Ready
    modifies store`songs, store`activeDownloads
    ensures store.Valid()
    ensures store.songs == old(store.songs)[id := Begun(old(store.songs)[id])]
    ensures store.activeDownloads == old(store.activeDownloads)[id := VideoStage]
  {
    SongsAgreeUpdate(store.songs, store.activeDownloads.Keys, store.activeKaraokeProcesses,
                     id, Begun(store.songs[id]), store.activeDownloads.Keys + {id}, store.activeKaraokeProcesses);
    store.songs := store.songs[id := Begun(store.songs[id])];
    store.activeDownloads := store.activeDownloads[id := VideoStage];
  }

  /** The current song's download becomes the tracked one. */
  method TrackDownload(store: StateStore, id: SongId)
    requires store.Valid() && id in store.activeDownloads
    modifies store`currentDownloadingId, store`isDownloading
    ensures store.Valid()
    ensures store.currentDownloadingId == Some(id) && store.isDownloading
  {
    store.isDownloading := true;
    store.currentDownloadingId := Some(id);
  }

  /** The state change of a start: the song is downloading from 0%, its video process is
      registered, and it becomes the tracked download when it is the current song. */
  method BeginDownload(store: StateStore, id: SongId)
    requires store.Valid() && id in store.songs && id !in store.activeDownloads
    requires store.songs[id].status != Ready
    modifies store`songs, store`activeDownloads, store`currentDownloadingId, store`isDownloading
    ensures store.Valid()
    ensures store.songs == old(store.songs)[id := Begun(old(store.songs)[id])]
    ensures store.activeDownloads == old(store.activeDownloads)[id := VideoStage]
    ensures store.currentDownloadingId == if store.currentPlaying == Some(id) then Some(id) else old(store.currentDownloadingId)
  {
    RegisterDownload(store, id);
    if store.currentPlaying == Some(id) {
      TrackDownload(store, id);
    }
  }

  /** startDownload: a no-op for an id that already has a download job; otherwise the song
      is downloading from 0%, a snapshot is broadcast, and the video process is
      registered. */
  method StartDownload(store: StateStore, id: SongId)
    requires store.Valid() && id in store.songs && store.songs[id].status != Ready
    modifies store`songs, store`activeDownloads, store`currentDownloadingId, store`isDownloading, store`log
    ensures store.Valid()
    ensures id in old(store.activeDownloads) ==> unchanged(store)
    ensures id !in old(store.activeDownloads) ==>
      && store.songs == old(store.songs)[id := Begun(old(store.songs)[id])]
      && store.activeDownloads == old(store.activeDownloads)[id := VideoStage]
      && store.currentDownloadingId == (if store.currentPlaying == Some(id) then Some(id) else old(store.currentDownloadingId))
      && store.log == old(store.log) + (if store.hasSink then [SyncState(store.CurrentSnapshot())] else [])
  {
    if id in store.activeDownloads {
      return;
    }
    BeginDownload(store, id);
    store.EmitSync();
  }

  /** Builds the candidate list: the current song when pending, then each pending queue
      entry (`pending.push` in a `forEach`). */
  method CollectPending(store: StateStore) returns (pending: seq<SongId>)
    requires store.PlaybackKnown()
    ensures pending == DownloadCandidates(store.songs, store.currentPlaying, store.playlist)
  {
    var songs, current, playlist := store.songs, store.currentPlaying, store.playlist;
    pending := [];
    if current.Some? && songs[current.value].status == Pending {
      pending := [current.value];
    }
    ghost var head := pending;
    var i := 0;
    while i < |playlist|
      invariant 0 <= i <= |playlist|
      invariant pending == head + PendingIn(songs, playlist[..i])
    {
      PendingInSnoc(songs, playlist, i, head);
      if songs[playlist[i]].status == Pending {
        pending := pending + [playlist[i]];
      }
      i := i + 1;
    }
    assert playlist[..i] == playlist;
  }

  /** `startDownload` as the scheduler's loop sees it: a fresh id is started and leaves
      one broadcast when a sink is attached. */
  method StartFresh(store: StateStore, id: SongId)
    requires store.Valid() && id in store.songs && store.songs[id].status != Ready
    requires id !in store.activeDownloads
    modifies store`songs, store`activeDownloads, store`currentDownloadingId, store`isDownloading, store`log
    ensures store.Valid()
    ensures store.songs == old(store.songs)[id := Begun(old(store.songs)[id])]
    ensures store.activeDownloads == old(store.activeDownloads)[id := VideoStage]
    ensures store.activeDownloads.Keys == old(store.activeDownloads).Keys + {id}
    ensures |store.activeDownloads| == |old(store.activeDownloads)| + 1
    ensures store.currentPlaying == old(store.currentPlaying) && store.hasSink == old(store.hasSink)
    ensures store.currentDownloadingId == if store.currentPlaying == Some(id) then Some(id) else old(store.currentDownloadingId)
    ensures old(store.log) <= store.log && |store.log| == |old(store.log)| + (if store.hasSink then 1 else 0)
  {
    StartDownload(store, id);
  }

  /** One candidate of the scheduler's loop: skipped when already downloading, the end
      of the walk when the job map is full, otherwise started. */
  method WalkStep(store: StateStore, pending: seq<SongId>, i: nat, cap: real) returns (stop: bool)
    requires store.Valid() && i < |pending|
    requires forall x :: x in pending ==> x in store.songs && store.songs[x].status != Ready
    modifies store`songs, store`activeDownloads, store`currentDownloadingId, store`isDownloading, store`log
    ensures store.Valid()
    ensures store.currentPlaying == old(store.currentPlaying) && store.hasSink == old(store.hasSink)
    ensures forall x :: x in pending ==> x in store.songs && store.songs[x].status != Ready
    ensures stop ==> Walk(pending[i..], old(store.songs), old(store.activeDownloads), cap) == (store.songs, store.activeDownloads)
    ensures !stop ==> Walk(pending[i..], old(store.songs), old(store.activeDownloads), cap)
                      == Walk(pending[i + 1..], store.songs, store.activeDownloads, cap)
    ensures old(store.activeDownloads).Keys <= store.activeDownloads.Keys
    ensures store.currentDownloadingId ==
      if store.currentPlaying.Some? && store.currentPlaying.value in store.activeDownloads
         && store.currentPlaying.value !in old(store.activeDownloads)
      then store.currentPlaying else old(store.currentDownloadingId)
    ensures old(store.log) <= store.log
    ensures |store.log| == |old(store.log)| + (if store.hasSink then |store.activeDownloads| - |old(store.activeDownloads)| else 0)
  {
    var id := pending[i];
    WalkAt(pending, i, store.songs, store.activeDownloads, cap);
    if id in store.activeDownloads {
      return false;
    }
    if |store.activeDownloads| as real >= cap {
      return true;
    }
    StartFresh(store, id);
    return false;
  }

  /** The loop of `processDownloadQueue` over a candidate list: the song objects and the
      job map end as the walk over the list says, the tracked download becomes the
      current song when its download was started, and one broadcast per start is sent. */
  method StartAdmitted(store: StateStore, pending: seq<SongId>, cap: real)
    requires store.Valid()
    requires forall x :: x in pending ==> x in store.songs && store.songs[x].status == Pending
    modifies store`songs, store`activeDownloads, store`currentDownloadingId, store`isDownloading, store`log
    ensures store.Valid()
    ensures var started := Admit(pending, old(store.activeDownloads).Keys, cap);
      && store.songs == BeginAll(old(store.songs), started)
      && store.activeDownloads == RegisterAll(old(store.activeDownloads), started)
    ensures store.currentDownloadingId ==
      if store.currentPlaying.Some? && store.currentPlaying.value in store.activeDownloads
         && store.currentPlaying.value !in old(store.activeDownloads)
      then store.currentPlaying else old(store.currentDownloadingId)
    ensures old(store.log) <= store.log
    ensures |store.log| == |old(store.log)| + (if store.hasSink then |store.activeDownloads| - |old(store.activeDownloads)| else 0)
  {
    ghost var songs0, jobs0 := store.songs, store.activeDownloads;
    ghost var dl0, log0 := store.currentDownloadingId, store.log;
    ghost var cur, sink := store.currentPlaying, store.hasSink;
    WalkIsAdmit(pending, songs0, jobs0, cap);
    assert pending[0..] == pending;
    var i := 0;
    while i < |pending|
      invariant 0 <= i <= |pending|
      invariant store.Valid()
      invariant store.currentPlaying == cur && store.hasSink == sink
      invariant forall x :: x in pending ==> x in store.songs && store.songs[x].status != Ready
      invariant Walk(pending[i..], store.songs, store.activeDownloads, cap) == Walk(pending, songs0, jobs0, cap)
      invariant jobs0.Keys <= store.activeDownloads.Keys
      invariant store.currentDownloadingId ==
        if cur.Some? && cur.value in store.activeDownloads && cur.value !in jobs0 then cur else dl0
      invariant log0 <= store.log
      invariant |store.log| == |log0| + (if sink then |store.activeDownloads| - |jobs0| else 0)
    {
      var stop := WalkStep(store, pending, i, cap);
      if stop {
        return;
      }
      i := i + 1;
    }
  }

  /** processDownloadQueue: with `cap` = `DownloadCap(cfg)`, nothing when the job map is
      already full; otherwise the candidates are walked in order, ids already downloading
      are skipped, the walk stops as soon as the job map is full, and every other candidate
      is started. Exactly the songs `Admit` names are started, and no song that was not
      pending changes. */
  method ProcessDownloadQueue(store: StateStore, cfg: Json)
    requires store.Valid()
    modifies store`songs, store`activeDownloads, store`currentDownloadingId, store`isDownloading, store`log
    ensures store.Valid()
    ensures var started := Admit(old(DownloadCandidates(store.songs, store.currentPlaying, store.playlist)),
                                 old(store.activeDownloads).Keys, DownloadCap(cfg));
      && store.songs == BeginAll(old(store.songs), started)
      && store.activeDownloads == RegisterAll(old(store.activeDownloads), started)
    ensures store.currentDownloadingId ==
      if store.currentPlaying.Some? && store.currentPlaying.value in store.activeDownloads
         && store.currentPlaying.value !in old(store.activeDownloads)
      then store.currentPlaying else old(store.currentDownloadingId)
    ensures old(store.log) <= store.log
    ensures |store.log| == |old(store.log)| + (if store.hasSink then |store.activeDownloads| - |old(store.activeDownloads)| else 0)
  {
    var cap := DownloadCap(cfg);
    var pending := CollectPending(store);
    if |store.activeDownloads| as real >= cap {
      AdmitFull(pending, store.activeDownloads.Keys, cap);
      return;
    }
    StartAdmitted(store, pending, cap);
  }

  // ---------------------------------------------------------------------------
  // Progress events

  /** A stage's progress report is accepted only when it is strictly above the song's
      progress; an accepted value is stored and broadcast as `update_progress`. */
  method AcceptProgress(store: StateStore, id: SongId, v: real)
    requires id in store.songs
    modifies store`songs, store`log
    ensures var before := old(store.songs)[id].progress;
      && store.songs == old(store.songs)[id := old(store.songs)[id].(progress := if v > before then v else before)]
      && store.log == old(store.log) + (if v > before && store.hasSink then [UpdateProgress(id, v)] else [])
    ensures store.songs[id].progress >= old(store.songs)[id].progress
  {
    if v > store.songs[id].progress {
      store.songs := store.songs[id := store.songs[id].(progress := v)];
      store.EmitProgress(UpdateProgress(id, v));
    }
  }

  /** A percentage printed by the video process: worth half of it, kept only when it
      raises the progress bar. */
  method OnVideoData(store: StateStore, id: SongId, p: real)
    requires store.Valid() && id in store.activeDownloads && store.activeDownloads[id] == VideoStage
    modifies store`songs, store`log
    ensures store.Valid()
    ensures var before := old(store.songs)[id].progress;
      && store.songs == old(store.songs)[id := old(store.songs)[id].(progress := if VideoPercent(p) > before then VideoPercent(p) else before)]
      && store.log == old(store.log) + (if VideoPercent(p) > before && store.hasSink then [UpdateProgress(id, VideoPercent(p))] else [])
  {
    AcceptProgress(store, id, VideoPercent(p));
    SongsAgreeUpdate(old(store.songs), store.activeDownloads.Keys, store.activeKaraokeProcesses,
                     id, store.songs[id], store.activeDownloads.Keys, store.activeKaraokeProcesses);
  }

  /** A percentage printed by the audio process: 50 plus 30% of it, kept only when it
      raises the progress bar. */
  method OnAudioData(store: StateStore, id: SongId, p: real)
    requires store.Valid() && id in store.activeDownloads && store.activeDownloads[id] == AudioStage
    modifies store`songs, store`log
    ensures store.Valid()
    ensures var before := old(store.songs)[id].progress;
      && store.songs == old(store.songs)[id := old(store.songs)[id].(progress := if AudioPercent(p) > before then AudioPercent(p) else before)]
      && store.log == old(store.log) + (if AudioPercent(p) > before && store.hasSink then [UpdateProgress(id, AudioPercent(p))] else [])
  {
    AcceptProgress(store, id, AudioPercent(p));
    SongsAgreeUpdate(old(store.songs), store.activeDownloads.Keys, store.activeKaraokeProcesses,
                     id, store.songs[id], store.activeDownloads.Keys, store.activeKaraokeProcesses);
  }

  /** A fixed progress value set and broadcast unconditionally (80 after the audio stage,
      95 once the loudness is known). */
  method SetProgress(store: StateStore, id: SongId, v: real)
    requires store.Valid() && id in store.songs
    modifies store`songs, store`log
    ensures store.Valid()
    ensures store.songs == old(store.songs)[id := old(store.songs)[id].(progress := v)]
    ensures store.log == old(store.log) + (if store.hasSink then [UpdateProgress(id, v)] else [])
  {
    SongsAgreeUpdate(store.songs, store.activeDownloads.Keys, store.activeKaraokeProcesses,
                     id, store.songs[id].(progress := v), store.activeDownloads.Keys, store.activeKaraokeProcesses);
    store.songs := store.songs[id := store.songs[id].(progress := v)];
    store.EmitProgress(UpdateProgress(id, v));
  }

  /** The download map now holds the process of the next stage. */
  method SetStage(store: StateStore, id: SongId, stage: DownloadStage)
    requires store.Valid() && id in store.activeDownloads
    modifies store`activeDownloads
    ensures store.Valid()
    ensures store.activeDownloads == old(store.activeDownloads)[id := stage]
  {
    assert store.activeDownloads[id := stage].Keys == store.activeDownloads.Keys;
    store.activeDownloads := store.activeDownloads[id := stage];
  }

  // ---------------------------------------------------------------------------
  // The end of a download

  /** The tracked download is cleared when it is this one. */
  method Untrack(store: StateStore, id: SongId)
    requires store.Valid()
    modifies store`currentDownloadingId, store`isDownloading
    ensures store.Valid()
    ensures store.currentDownloadingId == if old(store.currentDownloadingId) == Some(id) then None else old(store.currentDownloadingId)
    ensures store.isDownloading == store.currentDownloadingId.Some?
  {
    if store.currentDownloadingId == Some(id) {
      store.currentDownloadingId := None;
      store.isDownloading := false;
    }
  }

  /** The job leaves the download map and the song object becomes `s`, which no longer
      downloads. */
  method Unregister(store: StateStore, id: SongId, s: Song)
    requires store.Valid() && id in store.activeDownloads && store.currentDownloadingId != Some(id)
    requires s.id == id && s.status != Downloading && s.status != Ready
    requires s.karaokeProcessing == store.songs[id].karaokeProcessing
    modifies store`songs, store`activeDownloads
    ensures store.Valid()
    ensures store.songs == old(store.songs)[id := s]
    ensures store.activeDownloads == old(store.activeDownloads) - {id}
  {
    assert store.songs[id].status == Downloading && !s.karaokeProcessing;
    SongsAgreeUpdate(store.songs, store.activeDownloads.Keys, store.activeKaraokeProcesses,
                     id, s, store.activeDownloads.Keys - {id}, store.activeKaraokeProcesses);
    store.songs := store.songs[id := s];
    store.activeDownloads := store.activeDownloads - {id};
  }

  /** The first half of `handleDownloadError`: the job leaves the download map, the
      tracked download is cleared when it is this one, the song is in error, and a
      snapshot is broadcast. */
  method FailDownload(store: StateStore, id: SongId)
    requires store.Valid() && id in store.activeDownloads
    modifies store`songs, store`activeDownloads, store`currentDownloadingId, store`isDownloading, store`log
    ensures store.Valid()
    ensures store.songs == old(store.songs)[id := old(store.songs)[id].(status := Error)]
    ensures store.activeDownloads == old(store.activeDownloads) - {id}
    ensures store.currentDownloadingId == if old(store.currentDownloadingId) == Some(id) then None else old(store.currentDownloadingId)
    ensures store.log == old(store.log) + (if store.hasSink then [SyncState(store.CurrentSnapshot())] else [])
  {
    Untrack(store, id);
    Unregister(store, id, store.songs[id].(status := Error));
    store.EmitSync();
  }

  /** handleDownloadError: the job leaves the download map, the tracked download is
      cleared when it is this one, the song is in error (no later stage starts), a
      snapshot is broadcast, and the queue is scanned again. */
  method HandleDownloadError(store: StateStore, id: SongId, cfg: Json)
    requires store.Valid() && id in store.activeDownloads
    modifies store`songs, store`activeDownloads, store`currentDownloadingId, store`isDownloading, store`log
    ensures store.Valid()
    ensures id !in store.activeDownloads
    ensures id in store.songs && store.songs[id] == old(store.songs)[id].(status := Error)
    ensures old(store.currentDownloadingId) == Some(id) ==> store.currentDownloadingId != Some(id)
  {
    FailDownload(store, id);
    StartsOnlyPending(store.songs, store.currentPlaying, store.playlist, store.activeDownloads.Keys, DownloadCap(cfg), id);
    ProcessDownloadQueue(store, cfg);
  }

  // ---------------------------------------------------------------------------
  // Stage transitions

  /** The video process closed: with exit code 0 the audio process replaces it in the
      download map; any other code (or none, after a signal) is a download error. */
  method OnVideoClose(store: StateStore, id: SongId, code: Option<int>, cfg: Json)
    requires store.Valid() && id in store.activeDownloads && store.activeDownloads[id] == VideoStage
    modifies store`songs, store`activeDownloads, store`currentDownloadingId, store`isDownloading, store`log
    ensures store.Valid()
    ensures code == Some(0) ==>
      store.activeDownloads == old(store.activeDownloads)[id := AudioStage] && unchanged(store`songs, store`log)
    ensures code != Some(0) ==>
      id !in store.activeDownloads && id in store.songs && store.songs[id] == old(store.songs)[id].(status := Error)
  {
    if code != Some(0) {
      HandleDownloadError(store, id, cfg);
      return;
    }
    SetStage(store, id, AudioStage);
  }

  /** The video process could not be spawned: a download error. */
  method OnVideoError(store: StateStore, id: SongId, cfg: Json)
    requires store.Valid() && id in store.activeDownloads && store.activeDownloads[id] == VideoStage
    modifies store`songs, store`activeDownloads, store`currentDownloadingId, store`isDownloading, store`log
    ensures store.Valid()
    ensures id !in store.activeDownloads && id in store.songs && store.songs[id] == old(store.songs)[id].(status := Error)
  {
    HandleDownloadError(store, id, cfg);
  }

  /** The audio process closed: with exit code 0 the progress is set to 80 and broadcast
      and the loudness analysis starts; any other code is a download error. */
  method OnAudioClose(store: StateStore, id: SongId, code: Option<int>, cfg: Json)
    requires store.Valid() && id in store.activeDownloads && store.activeDownloads[id] == AudioStage
    modifies store`songs, store`activeDownloads, store`currentDownloadingId, store`isDownloading, store`log
    ensures store.Valid()
    ensures code == Some(0) ==>
      && store.activeDownloads == old(store.activeDownloads)[id := LoudnessStage]
      && store.songs == old(store.songs)[id := old(store.songs)[id].(progress := 80.0)]
      && store.log == old(store.log) + (if store.hasSink then [UpdateProgress(id, 80.0)] else [])
    ensures code != Some(0) ==>
      id !in store.activeDownloads && id in store.songs && store.songs[id] == old(store.songs)[id].(status := Error)
  {
    if code != Some(0) {
      HandleDownloadError(store, id, cfg);
      return;
    }
    SetProgress(store, id, 80.0);
    SetStage(store, id, LoudnessStage);
  }

  /** The audio process could not be spawned: a download error. */
  method OnAudioError(store: StateStore, id: SongId, cfg: Json)
    requires store.Valid() && id in store.activeDownloads && store.activeDownloads[id] == AudioStage
    modifies store`songs, store`activeDownloads, store`currentDownloadingId, store`isDownloading, store`log
    ensures store.Valid()
    ensures id !in store.activeDownloads && id in store.songs && store.songs[id] == old(store.songs)[id].(status := Error)
  {
    HandleDownloadError(store, id, cfg);
  }

  /** The song object when the download completes. */
  method CompleteDownload(store: StateStore, id: SongId, gain: real)
    requires store.Valid() && id in store.activeDownloads && store.currentDownloadingId != Some(id)
    modifies store`songs, store`activeDownloads
    ensures store.Valid()
    ensures store.songs == old(store.songs)[id := Completed(old(store.songs)[id], gain)]
    ensures store.activeDownloads == old(store.activeDownloads) - {id}
  {
    var s := Completed(store.songs[id], gain);
    assert store.songs[id].status == Downloading && !s.karaokeProcessing;
    SongsAgreeUpdate(store.songs, store.activeDownloads.Keys, store.activeKaraokeProcesses,
                     id, s, store.activeDownloads.Keys - {id}, store.activeKaraokeProcesses);
    store.songs := store.songs[id := s];
    store.activeDownloads := store.activeDownloads - {id};
  }

  /** The player starts when the finished song is the current one. */
  method PlayIfCurrent(store: StateStore, id: SongId)
    requires store.Valid()
    modifies store`playerStatus
    ensures store.Valid()
    ensures store.playerStatus ==
      if store.currentPlaying == Some(id) then old(store.playerStatus).(playing := true) else old(store.playerStatus)
  {
    if store.currentPlaying == Some(id) {
      store.playerStatus := store.playerStatus.(playing := true);
    }
  }

  /** The loudness callback's 95% report: the song's progress becomes 95, which is
      broadcast, and the tracked download is cleared when it is this one. */
  method ReportAnalysed(store: StateStore, id: SongId)
    requires store.Valid() && id in store.songs
    modifies store`songs, store`currentDownloadingId, store`isDownloading, store`log
    ensures store.Valid()
    ensures store.songs == old(store.songs)[id := old(store.songs)[id].(progress := 95.0)]
    ensures store.currentDownloadingId == if old(store.currentDownloadingId) == Some(id) then None else old(store.currentDownloadingId)
    ensures store.log == old(store.log) + (if store.hasSink then [UpdateProgress(id, 95.0)] else [])
  {
    SetProgress(store, id, 95.0);
    Untrack(store, id);
  }

  /** A song's progress before completion does not show in the completed song. */
  lemma CompletedForgetsProgress(s: Song, v: real, gain: real)
    ensures Completed(s.(progress := v), gain) == Completed(s, gain)
  {
  }

  /** The first half of the loudness callback: 95% broadcast, the job leaves the download
      map, the tracked download is cleared when it is this one, and the song is ready with
      both files and the gain `LoudnessGain(cfg, run)`. */
  method FinishDownload(store: StateStore, id: SongId, run: LoudnessRun, cfg: Json)
    requires store.Valid() && id in store.activeDownloads && store.activeDownloads[id] == LoudnessStage
    modifies store`songs, store`activeDownloads, store`currentDownloadingId, store`isDownloading, store`log
    ensures store.Valid()
    ensures store.songs == old(store.songs)[id := Completed(old(store.songs)[id], LoudnessGain(cfg, run))]
    ensures store.activeDownloads == old(store.activeDownloads) - {id}
    ensures store.currentDownloadingId == if old(store.currentDownloadingId) == Some(id) then None else old(store.currentDownloadingId)
    ensures store.log == old(store.log) + (if store.hasSink then [UpdateProgress(id, 95.0)] else [])
  {
    CompletedForgetsProgress(store.songs[id], 95.0, LoudnessGain(cfg, run));
    ReportAnalysed(store, id);
    CompleteDownload(store, id, LoudnessGain(cfg, run));
  }

  /** A finished song is handed to the separation scheduler when automatic separation
      is on; the scheduler may start it (or another song). */
  method HandOver(store: StateStore, id: SongId, disk: set<Artifact>)
    requires store.Valid() && id in store.songs
    modifies store`songs, store`activeKaraokeProcesses, store`manualKaraokeQueue
    modifies store`isProcessingKaraoke, store`runningSeparation, store`log
    ensures store.Valid()
    ensures id in store.songs && (store.songs[id] == old(store.songs[id]) || store.songs[id] == Started(old(store.songs[id])))
    ensures !store.autoProcessKaraoke ==>
      && store.songs == old(store.songs)
      && store.manualKaraokeQueue == old(store.manualKaraokeQueue)
      && store.activeKaraokeProcesses == old(store.activeKaraokeProcesses)
  {
    if store.autoProcessKaraoke {
      QueueKaraokeProcessing(store, id, false, disk);
    }
  }

  /** The download finishes and, when automatic separation is on, the ready song is
      handed to the separation scheduler (which may start it or another song). */
  method CompleteAndHandOver(store: StateStore, id: SongId, run: LoudnessRun, cfg: Json, disk: set<Artifact>)
    requires store.Valid() && id in store.activeDownloads && store.activeDownloads[id] == LoudnessStage
    modifies store`songs, store`activeDownloads, store`currentDownloadingId, store`isDownloading, store`log
    modifies store`activeKaraokeProcesses, store`manualKaraokeQueue, store`isProcessingKaraoke, store`runningSeparation
    ensures store.Valid()
    ensures store.activeDownloads == old(store.activeDownloads) - {id}
    ensures store.currentDownloadingId == if old(store.currentDownloadingId) == Some(id) then None else old(store.currentDownloadingId)
    ensures var done := Completed(old(store.songs)[id], LoudnessGain(cfg, run));
      id in store.songs && (store.songs[id] == done || store.songs[id] == Started(done))
    ensures !store.autoProcessKaraoke ==>
      && store.songs == old(store.songs)[id := Completed(old(store.songs)[id], LoudnessGain(cfg, run))]
      && store.manualKaraokeQueue == old(store.manualKaraokeQueue)
      && store.activeKaraokeProcesses == old(store.activeKaraokeProcesses)
  {
    FinishDownload(store, id, run, cfg);
    HandOver(store, id, disk);
  }

  /** The download finishes, the song is handed to the separation scheduler when
      automatic separation is on, and the player starts when it is the current song. */
  method CompleteAndPlay(store: StateStore, id: SongId, run: LoudnessRun, cfg: Json, disk: set<Artifact>)
    requires store.Valid() && id in store.activeDownloads && store.activeDownloads[id] == LoudnessStage
    modifies store`songs, store`activeDownloads, store`currentDownloadingId, store`isDownloading, store`log
    modifies store`activeKaraokeProcesses, store`manualKaraokeQueue, store`isProcessingKaraoke
    modifies store`runningSeparation, store`playerStatus
    ensures store.Valid()
    ensures id !in store.activeDownloads
    ensures var done := Completed(old(store.songs)[id], LoudnessGain(cfg, run));
      id in store.songs && (store.songs[id] == done || store.songs[id] == Started(done))
    ensures !store.autoProcessKaraoke ==>
      && store.songs[id] == Completed(old(store.songs)[id], LoudnessGain(cfg, run))
      && store.manualKaraokeQueue == old(store.manualKaraokeQueue)
      && store.activeKaraokeProcesses == old(store.activeKaraokeProcesses)
    ensures store.playerStatus == if store.currentPlaying == Some(id) then old(store.playerStatus).(playing := true) else old(store.playerStatus)
    ensures old(store.currentDownloadingId) == Some(id) ==> store.currentDownloadingId == None
  {
    CompleteAndHandOver(store, id, run, cfg, disk);
    PlayIfCurrent(store, id);
  }

  /** The loudness analysis reported (its every failure yields gain 0): the download
      finishes and is handed over as `CompleteAndPlay` says, a snapshot is broadcast, and
      the queue is scanned again, which leaves the finished song as it is. */
  method OnLoudnessDone(store: StateStore, id: SongId, run: LoudnessRun, cfg: Json, disk: set<Artifact>)
    requires store.Valid() && id in store.activeDownloads && store.activeDownloads[id] == LoudnessStage
    modifies store`songs, store`activeDownloads, store`currentDownloadingId, store`isDownloading, store`log
    modifies store`activeKaraokeProcesses, store`manualKaraokeQueue, store`isProcessingKaraoke
    modifies store`runningSeparation, store`playerStatus
    ensures store.Valid()
    ensures id !in store.activeDownloads
    ensures var done := Completed(old(store.songs)[id], LoudnessGain(cfg, run));
      id in store.songs && (store.songs[id] == done || store.songs[id] == Started(done))
  {
    CompleteAndPlay(store, id, run, cfg, disk);
    store.EmitSync();
    StartsOnlyPending(store.songs, store.currentPlaying, store.playlist, store.activeDownloads.Keys, DownloadCap(cfg), id);
    ProcessDownloadQueue(store, cfg);
  }
}
