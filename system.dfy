/** Host-facing helpers: the loudness gain, cookie-file routing, the network interface
    list, and deleting a song's files and jobs. */
module SystemService {
  import opened Types
  import opened State
  import opened Config
  import opened Karaoke

  // ---------------------------------------------------------------------------
  // Loudness analysis

  /** What the loudness analyser's report yields: no JSON object with `input_i` in it, a
      match that does not parse, or the measured input loudness in LUFS. */
  datatype LoudnessReport = NoMatch | Unparsable | InputLoudness(lufs: real)

  /** How an analyser run ended: it failed to spawn, or it closed with an exit code (`None`
      for a signal) and the report it printed. */
  datatype LoudnessRun = SpawnFailed | Closed(code: Option<int>, report: LoudnessReport)

  /** `Math.max(-b, Math.min(b, x))`: the point of `[-b, b]` nearest to `x`. */
  function Clamp(x: real, b: real): (r: real)
    requires b >= 0.0
    ensures -b <= r <= b
    ensures -b <= x <= b ==> r == x
    ensures x > b ==> r == b
    ensures x < -b ==> r == -b
  {
    Max(-b, Min(b, x))
  }

  /** The gain handed to the download's completion callback: the distance from the measured
      loudness to the target, clamped to the configured bound; 0 on every failure path. */
  function LoudnessGain(cfg: Json, run: LoudnessRun): (g: real)
    ensures -LoudnessBound(cfg) <= g <= LoudnessBound(cfg)
    ensures !(run.Closed? && run.code == Some(0) && run.report.InputLoudness?) ==> g == 0.0
    ensures run.Closed? && run.code == Some(0) && run.report.InputLoudness? ==>
      g == Clamp(LoudnessTarget(cfg) - run.report.lufs, LoudnessBound(cfg))
  {
    match run
    case SpawnFailed => 0.0
    case Closed(code, report) =>
      if code != Some(0) then 0.0
      else match report
        case InputLoudness(lufs) => Clamp(LoudnessTarget(cfg) - lufs, LoudnessBound(cfg))
        case _ => 0.0
  }

  /** With the default settings a measured gain lies within 12 dB of zero, and a track
      measured at -20 LUFS is raised by 4 dB. */
  lemma DefaultGain(lufs: real)
    ensures -12.0 <= LoudnessGain(DefaultAdvancedConfig, Closed(Some(0), InputLoudness(lufs))) <= 12.0
    ensures LoudnessGain(DefaultAdvancedConfig, Closed(Some(0), InputLoudness(-20.0))) == 4.0
  {
    DefaultSettings();
  }

  // ---------------------------------------------------------------------------
  // Cookie files

  /** `String.prototype.includes`, computed left to right. */
  function Includes(s: string, part: string): bool
    decreases |s|
  {
    if |part| > |s| then false
    else if s[..|part|] == part then true
    else Includes(s[1..], part)
  }

  /** `part` occurs in `s` at some position. */
  ghost predicate OccursAt(s: string, part: string, i: int)
  {
    0 <= i && i + |part| <= |s| && s[i..i + |part|] == part
  }

  /** `Includes` holds exactly when `part` occurs somewhere in `s`. */
  lemma {:induction false} IncludesOccurs(s: string, part: string)
    ensures Includes(s, part) <==> exists i :: OccursAt(s, part, i)
    decreases |s|
  {
    if |part| > |s| {
      forall i ensures !OccursAt(s, part, i) {
      }
    } else if s[..|part|] == part {
      assert OccursAt(s, part, 0);
    } else {
      IncludesOccurs(s[1..], part);
      if Includes(s[1..], part) {
        var i :| OccursAt(s[1..], part, i);
        assert s[1..][i..i + |part|] == s[i + 1..i + 1 + |part|];
        assert OccursAt(s, part, i + 1);
      } else {
        forall i | OccursAt(s, part, i) ensures false {
          if i > 0 {
            assert s[1..][i - 1..i - 1 + |part|] == s[i..i + |part|];
            assert OccursAt(s[1..], part, i - 1);
          }
        }
      }
    }
  }

  /** The two cookie files the server may hand to yt-dlp. */
  datatype CookieFile = BilibiliCookies | YoutubeCookies

  /** getCookiesPath: a URL naming bilibili.com gets the bilibili cookie file, otherwise a
      youtube.com or youtu.be URL gets the YouTube one; a file is returned only when it
      exists (`existing`). */
  function CookiesPath(url: string, existing: set<CookieFile>): (r: Option<CookieFile>)
  {
    if Includes(url, "bilibili.com") then
      (if BilibiliCookies in existing then Some(BilibiliCookies) else None)
    else if Includes(url, "youtube.com") || Includes(url, "youtu.be") then
      (if YoutubeCookies in existing then Some(YoutubeCookies) else None)
    else None
  }

  /** The routing, stated on occurrences: a returned file exists; the bilibili file goes to
      exactly the URLs naming bilibili.com; the YouTube file to exactly the other URLs that
      name youtube.com or youtu.be; every other URL gets none. */
  lemma CookiesPathSpec(url: string, existing: set<CookieFile>)
    ensures var r := CookiesPath(url, existing);
      var bili := exists i :: OccursAt(url, "bilibili.com", i);
      var yt := (exists i :: OccursAt(url, "youtube.com", i)) || (exists i :: OccursAt(url, "youtu.be", i));
      && (r.Some? ==> r.value in existing)
      && (r == Some(BilibiliCookies) <==> bili && BilibiliCookies in existing)
      && (r == Some(YoutubeCookies) <==> !bili && yt && YoutubeCookies in existing)
      && (!bili && !yt ==> r == None)
  {
    IncludesOccurs(url, "bilibili.com");
    IncludesOccurs(url, "youtube.com");
    IncludesOccurs(url, "youtu.be");
  }

  /** The bilibili test comes first: a URL naming bilibili.com never gets the YouTube
      cookie file, whatever else it names. */
  lemma BilibiliCheckedFirst(before: string, after: string, existing: set<CookieFile>)
    ensures CookiesPath(before + "bilibili.com" + after, existing) != Some(YoutubeCookies)
  {
    var url := before + "bilibili.com" + after;
    assert url[|before|..|before| + |"bilibili.com"|] == "bilibili.com";
    assert OccursAt(url, "bilibili.com", |before|);
    IncludesOccurs(url, "bilibili.com");
  }

  // ---------------------------------------------------------------------------
  // Network interfaces

  /** One address of an interface as the operating system lists it. */
  datatype NetAddress = NetAddress(family: string, internal: bool, address: string)

  /** An interface name with its addresses (`os.networkInterfaces()`, in key order). */
  datatype Interface = Interface(name: string, addresses: seq<NetAddress>)

  /** One entry of the result: the interface name and an address on it. */
  datatype NetInfo = NetInfo(name: string, ip: string)

  const LocalhostEntry := NetInfo("Localhost", "127.0.0.1")

  /** An address the server advertises: IPv4 and not internal. */
  predicate External(a: NetAddress)
  {
    a.family == "IPv4" && !a.internal
  }

  /** The advertised entries of one interface, in order. */
  function ListedOn(name: string, addrs: seq<NetAddress>): seq<NetInfo>
  {
    if addrs == [] then []
    else ListedOn(name, addrs[..|addrs| - 1])
         + (if External(addrs[|addrs| - 1]) then [NetInfo(name, addrs[|addrs| - 1].address)] else [])
  }

  /** The advertised entries of all interfaces, interface by interface. */
  function Listed(nets: seq<Interface>): seq<NetInfo>
  {
    if nets == [] then []
    else Listed(nets[..|nets| - 1]) + ListedOn(nets[|nets| - 1].name, nets[|nets| - 1].addresses)
  }

  /** An interface's entries are exactly its external addresses under its name. */
  lemma {:induction false} ListedOnMembers(name: string, addrs: seq<NetAddress>)
    ensures forall x :: x in ListedOn(name, addrs) <==>
      x.name == name && exists j :: 0 <= j < |addrs| && External(addrs[j]) && addrs[j].address == x.ip
  {
    if addrs != [] {
      var init := addrs[..|addrs| - 1];
      ListedOnMembers(name, init);
      forall x ensures x in ListedOn(name, addrs) <==>
        x.name == name && exists j :: 0 <= j < |addrs| && External(addrs[j]) && addrs[j].address == x.ip
      {
        if x.name == name && exists j :: 0 <= j < |addrs| && External(addrs[j]) && addrs[j].address == x.ip {
          var j :| 0 <= j < |addrs| && External(addrs[j]) && addrs[j].address == x.ip;
          if j < |addrs| - 1 {
            assert init[j] == addrs[j];
          }
        }
        if x in ListedOn(name, init) {
          var j :| 0 <= j < |init| && External(init[j]) && init[j].address == x.ip;
          assert addrs[j] == init[j];
        }
      }
    }
  }

  /** Every listed entry is an external address of the interface it names, and every
      external address is listed. */
  lemma {:induction false} ListedMembers(nets: seq<Interface>)
    ensures forall x :: x in Listed(nets) ==>
      exists k :: 0 <= k < |nets| && nets[k].name == x.name && x in ListedOn(nets[k].name, nets[k].addresses)
    ensures forall k, j :: 0 <= k < |nets| && 0 <= j < |nets[k].addresses| && External(nets[k].addresses[j]) ==>
      NetInfo(nets[k].name, nets[k].addresses[j].address) in Listed(nets)
  {
    if nets != [] {
      var init := nets[..|nets| - 1];
      var last := nets[|nets| - 1];
      ListedMembers(init);
      ListedOnMembers(last.name, last.addresses);
      forall x | x in Listed(nets)
        ensures exists k :: 0 <= k < |nets| && nets[k].name == x.name && x in ListedOn(nets[k].name, nets[k].addresses)
      {
        if x in Listed(init) {
          var k :| 0 <= k < |init| && init[k].name == x.name && x in ListedOn(init[k].name, init[k].addresses);
          assert nets[k] == init[k];
        } else {
          assert nets[|nets| - 1] == last;
        }
      }
      forall k, j | 0 <= k < |nets| && 0 <= j < |nets[k].addresses| && External(nets[k].addresses[j])
        ensures NetInfo(nets[k].name, nets[k].addresses[j].address) in Listed(nets)
      {
        if k < |nets| - 1 {
          assert init[k] == nets[k];
        }
      }
    }
  }

  /** getNetworkInterfaces: the advertised entries in iteration order, or the localhost
      entry alone when there are none. */
  method GetNetworkInterfaces(nets: seq<Interface>) returns (r: seq<NetInfo>)
    ensures r == if Listed(nets) != [] then Listed(nets) else [LocalhostEntry]
    ensures r != []
  {
    var results: seq<NetInfo> := [];
    var k := 0;
    while k < |nets|
      invariant 0 <= k <= |nets|
      invariant results == Listed(nets[..k])
    {
      var addrs := nets[k].addresses;
      var j := 0;
      while j < |addrs|
        invariant 0 <= j <= |addrs|
        invariant results == Listed(nets[..k]) + ListedOn(nets[k].name, addrs[..j])
      {
        if External(addrs[j]) {
          results := results + [NetInfo(nets[k].name, addrs[j].address)];
        }
        assert addrs[..j + 1][..j] == addrs[..j];
        j := j + 1;
      }
      assert addrs[..j] == addrs;
      assert nets[..k + 1][..k] == nets[..k];
      k := k + 1;
    }
    assert nets[..k] == nets;
    r := if |results| > 0 then results else [LocalhostEntry];
  }

  // ---------------------------------------------------------------------------
  // Deleting a song's files

  /** How the delete attempts on one file went: how many `unlink` calls were made and
      whether one of them removed the file. */
  datatype DeleteRun = DeleteRun(attempts: nat, deleted: bool)

  /** tryDelete(path, retries): nothing when the file is gone; otherwise one `unlink`
      (attempt `k`), and on failure one more try a second later while retries remain.
      `present(k)` and `unlinkOk(k)` are the file system's answers at attempt `k`. */
  function TryDelete(present: nat -> bool, unlinkOk: nat -> bool, k: nat, retries: nat): (r: DeleteRun)
    ensures r.attempts <= retries + 1
    ensures r.deleted ==> r.attempts >= 1 && unlinkOk(k + r.attempts - 1)
    ensures !r.deleted && r.attempts > 0 ==> !unlinkOk(k + r.attempts - 1)
    ensures r.attempts > 0 ==> present(k)
    decreases retries
  {
    if !present(k) then DeleteRun(0, false)
    else if unlinkOk(k) then DeleteRun(1, true)
    else if retries > 0 then
      var rest := TryDelete(present, unlinkOk, k + 1, retries - 1);
      DeleteRun(1 + rest.attempts, rest.deleted)
    else DeleteRun(1, false)
  }

  /** With the default three retries a file is tried at most four times, and a file that
      stays present and locked is tried exactly four times and then left in place. */
  lemma {:induction false} TryDeleteGivesUp(present: nat -> bool, unlinkOk: nat -> bool, k: nat, retries: nat)
    requires forall i :: k <= i <= k + retries ==> present(i) && !unlinkOk(i)
    ensures TryDelete(present, unlinkOk, k, retries) == DeleteRun(retries + 1, false)
    decreases retries
  {
    if retries > 0 {
      TryDeleteGivesUp(present, unlinkOk, k + 1, retries - 1);
    }
  }

  /** The files `deleteSongFile` tries to delete: the video and audio files when set, and
      the karaoke file when the id is truthy (non-zero). */
  function DeletionTargets(s: Song): (r: seq<Artifact>)
    ensures forall a :: a in r <==>
      (s.localVideoPath == Some(a)) || (s.localAudioPath == Some(a)) || (s.id != 0 && a == KaraokeFile(s.id))
    ensures |r| <= 3
  {
    (if s.localVideoPath.Some? then [s.localVideoPath.value] else [])
    + (if s.localAudioPath.Some? then [s.localAudioPath.value] else [])
    + (if s.id != 0 then [KaraokeFile(s.id)] else [])
  }

  /** deleteSongFile (the server's copy): nothing for no song; otherwise the download
      process is killed but keeps its map entry (its close handler cleans up), a truthy id
      has its separation terminated as `TerminateKaraokeProcess` does, and the song's
      files are returned as the ones to delete. */
  method DeleteSongFile(store: StateStore, song: Option<Song>) returns (targets: seq<Artifact>)
    requires store.Valid()
    modifies store`songs, store`activeKaraokeProcesses, store`manualKaraokeQueue
    ensures store.Valid()
    ensures song.None? ==> targets == [] && unchanged(store)
    ensures song.Some? ==> targets == DeletionTargets(song.value)
    ensures song.Some? && song.value.id != 0 ==> Terminated(store, song.value.id)
    ensures song.Some? && song.value.id == 0 ==> unchanged(store)
  {
    if song.None? {
      return [];
    }
    if song.value.id != 0 {
      TerminateKaraokeProcess(store, song.value.id);
    }
    targets := DeletionTargets(song.value);
  }

  /** deleteSongFile as the services module writes it: the separation job's map entry is
      dropped (whatever the id), but the song stays marked separating and stays in the
      manual queue. */
  method DeleteSongFileAsWritten(store: StateStore, song: Option<Song>) returns (targets: seq<Artifact>)
    modifies store`activeKaraokeProcesses
    ensures song.None? ==> targets == [] && unchanged(store)
    ensures song.Some? ==> targets == DeletionTargets(song.value)
    ensures song.Some? ==> store.activeKaraokeProcesses == old(store.activeKaraokeProcesses) - {song.value.id}
  {
    if song.None? {
      return [];
    }
    store.activeKaraokeProcesses := store.activeKaraokeProcesses - {song.value.id};
    targets := DeletionTargets(song.value);
  }

  /** Deleting a separating song as written leaves a song marked separating with no job:
      the agreement between `karaokeProcessing` and the job map no longer holds. */
  lemma DeleteAsWrittenBreaksAgreement(songs: map<SongId, Song>, d: set<SongId>, k: set<SongId>, id: SongId)
    requires SongsAgree(songs, d, k) && id in k
    ensures id in songs && songs[id].karaokeProcessing
    ensures !SongsAgree(songs, d, k - {id})
  {
    assert SongOk(songs[id], id, d, k);
  }
}
