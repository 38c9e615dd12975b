/** Values shared by every part of the karaoke server's job-scheduling core. */
module Types {

  datatype Option<T> = None | Some(value: T)

  /** Song ids come from Date.now(); the model takes them as naturals. */
  type SongId = nat

  /** The four values of `song.status`. */
  datatype Status = Pending | Downloading | Ready | Error

  /** Files a song owns. Their names are derived from the song id alone
      (`{id}_video.mp4`, `{id}_audio.m4a`, `{id}_karaoke.mp3`). */
  datatype Artifact = VideoFile(id: SongId) | AudioFile(id: SongId) | KaraokeFile(id: SongId)

  /** One queued, playing or detached song object. Fields the source leaves
      undefined until they are first written are `None`, `false` or `0`. */
  datatype Song = Song(
    id: SongId,
    title: string,
    uploader: string,
    requester: string,
    originalUrl: string,
    status: Status,
    progress: real,
    src: Option<Artifact>,
    audioSrc: Option<Artifact>,
    localVideoPath: Option<Artifact>,
    localAudioPath: Option<Artifact>,
    loudnessGain: Option<real>,
    karaokeReady: bool,
    karaokeProcessing: bool,
    karaokeProgress: int,
    karaokeSrc: Option<Artifact>)

  /** What the playback client reports about itself. */
  datatype PlayerStatus = PlayerStatus(
    playing: bool,
    currentTime: real,
    duration: real,
    volume: real,
    pitch: real,
    vocalRemoval: bool)

  /** The player status of a fresh store and of a full reset. */
  const DefaultPlayerStatus := PlayerStatus(false, 0.0, 0.0, 0.8, 0.0, false)

  /** A resolved listing entry: what the fetcher produces and a batch add consumes. */
  datatype SongMeta = SongMeta(title: string, uploader: string, originalUrl: string)

  /** A song as a batch or single add creates it: pending, no progress, no files. */
  function NewSong(id: SongId, meta: SongMeta, requester: string): (s: Song)
    ensures s.id == id && s.status == Pending && s.progress == 0.0 && s.src == None
    ensures s.title == meta.title && s.uploader == meta.uploader && s.originalUrl == meta.originalUrl
    ensures s.requester == requester
    ensures !s.karaokeReady && !s.karaokeProcessing && s.localVideoPath == None && s.localAudioPath == None
  {
    Song(id, meta.title, meta.uploader, requester, meta.originalUrl, Pending, 0.0,
         None, None, None, None, None, false, false, 0, None)
  }

  predicate NoDup<T(==)>(s: seq<T>)
  {
    forall i, j :: 0 <= i < j < |s| ==> s[i] != s[j]
  }

  /** The sequence without its first occurrence of `x` (JS findIndex + splice). */
  function RemoveFirst<T(==)>(s: seq<T>, x: T): (r: seq<T>)
    ensures x !in s ==> r == s
    ensures x in s ==> |r| == |s| - 1
    ensures forall y :: y in r ==> y in s
    ensures forall y :: y in s && y != x ==> y in r
  {
    if s == [] then []
    else if s[0] == x then s[1..]
    else [s[0]] + RemoveFirst(s[1..], x)
  }

  /** Removing the only occurrence of `x` from a duplicate-free sequence leaves none. */
  lemma {:induction false} RemoveFirstNoDup<T>(s: seq<T>, x: T)
    requires NoDup(s)
    ensures NoDup(RemoveFirst(s, x)) && x !in RemoveFirst(s, x)
  {
    if s != [] && s[0] != x {
      RemoveFirstNoDup(s[1..], x);
      var rest := RemoveFirst(s[1..], x);
      assert s[0] !in s[1..] by {
        forall k | 0 <= k < |s| - 1 ensures s[1..][k] != s[0] {
          assert s[1..][k] == s[k + 1];
        }
      }
      var r := [s[0]] + rest;
      forall i, j | 0 <= i < j < |r| ensures r[i] != r[j] {
        assert r[j] == rest[j - 1];
        if i > 0 { assert r[i] == rest[i - 1]; }
      }
    } else if s != [] {
      assert forall k :: 0 <= k < |s| - 1 ==> s[1..][k] == s[k + 1];
    }
  }
}
