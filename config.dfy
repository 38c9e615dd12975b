/** The advanced configuration: a JSON document with four sections (ytdlp, demucs,
    ffmpeg, system), merged key by key onto a full default document. */
module Config {
  import opened Types

  datatype Json =
    | JNull
    | JBool(b: bool)
    | JNum(n: real)
    | JStr(s: string)
    | JArr(items: seq<Json>)
    | JObj(fields: map<string, Json>)

  /** JavaScript truthiness of a JSON value (objects and arrays are always truthy). */
  predicate Truthy(j: Json)
  {
    match j
    case JNull => false
    case JBool(b) => b
    case JNum(n) => n != 0.0
    case JStr(s) => s != ""
    case _ => true
  }

  // ---------------------------------------------------------------------------
  // deepMerge(target, source)

  /** The value deepMerge leaves at one key. `t` is the target's value there (None when
      the key is absent), `s` the source's. A source object merges into a target object,
      and replaces any other target value by a fresh `{}` first; a null source leaves the
      target alone; arrays and scalars overwrite. */
  function MergeAt(t: Option<Json>, s: Json): Json
    requires t.Some? || !s.JNull?
    decreases s, 1
  {
    match s
    case JObj(sm) =>
      if t.Some? && t.value.JObj? then JObj(MergeFields(t.value.fields, sm))
      else if t.Some? && t.value.JArr? then t.value
      else JObj(MergeFields(map[], sm))
    case JNull => t.value
    case _ => s
  }

  /** deepMerge on the fields of two objects: only the source's keys are visited. */
  function MergeFields(tm: map<string, Json>, sm: map<string, Json>): map<string, Json>
    decreases JObj(sm), 0
  {
    map k | k in tm.Keys + sm.Keys && (k in tm || !sm[k].JNull?) ::
      if k in sm then MergeAt(if k in tm then Some(tm[k]) else None, sm[k]) else tm[k]
  }

  /** What deepMerge does key by key: target keys the source lacks are untouched, a null
      source value changes nothing, arrays and scalars overwrite, objects stay objects,
      and no key appears that neither side had. */
  lemma MergeFieldsSpec(tm: map<string, Json>, sm: map<string, Json>)
    ensures var r := MergeFields(tm, sm);
      && (forall k :: k in tm ==> k in r)
      && (forall k :: k in tm && k !in sm ==> r[k] == tm[k])
      && (forall k :: k in sm && sm[k].JNull? ==> (k in r <==> k in tm) && (k in tm ==> r[k] == tm[k]))
      && (forall k :: k in sm && !sm[k].JNull? && !sm[k].JObj? ==> k in r && r[k] == sm[k])
      && (forall k :: k in sm && sm[k].JObj? && !(k in tm && tm[k].JArr?) ==> k in r && r[k].JObj?)
      && (forall k :: k in r ==> k in tm || k in sm)
  {
  }

  /** The value MergeFields leaves at one key. */
  lemma FieldAt(tm: map<string, Json>, sm: map<string, Json>, k: string)
    requires k in tm || (k in sm && !sm[k].JNull?)
    ensures k in MergeFields(tm, sm)
    ensures MergeFields(tm, sm)[k] ==
      if k in sm then MergeAt(if k in tm then Some(tm[k]) else None, sm[k]) else tm[k]
  {
  }

  /** The decimal digit `d` as a character. */
  function Digit(d: nat): (c: char)
    requires d < 10
    ensures '0' <= c <= '9'
  {
    (48 + d) as char
  }

  /** The property name JavaScript gives array index `i`: its decimal digits. */
  function IndexKey(i: nat): (s: string)
    ensures 1 <= |s| && s[|s| - 1] == Digit(i % 10)
    ensures i < 10 <==> |s| == 1
    ensures forall k :: 0 <= k < |s| ==> '0' <= s[k] <= '9'
    ensures |s| > 1 ==> s[0] != '0'
  {
    if i < 10 then [Digit(i)] else IndexKey(i / 10) + [Digit(i % 10)]
  }

  /** Distinct indices have distinct property names. */
  lemma {:induction false} IndexKeyInjective(i: nat, j: nat)
    requires IndexKey(i) == IndexKey(j)
    ensures i == j
  {
    assert i % 10 == j % 10 by {
      assert Digit(i % 10) == Digit(j % 10);
    }
    if i >= 10 {
      var s := IndexKey(i);
      assert IndexKey(i / 10) == s[..|s| - 1] && IndexKey(j / 10) == s[..|s| - 1];
      IndexKeyInjective(i / 10, j / 10);
    }
  }

  /** `Object.keys` of an array with its values, built index by index. */
  function IndexFields(items: seq<Json>): map<string, Json>
  {
    if items == [] then map[] else IndexFields(items[..|items| - 1])[IndexKey(|items| - 1) := items[|items| - 1]]
  }

  /** Every entry of an array is among its fields, under its index name. */
  lemma {:induction false} IndexFieldsValues(items: seq<Json>)
    ensures forall i :: 0 <= i < |items| ==> IndexKey(i) in IndexFields(items) && IndexFields(items)[IndexKey(i)] == items[i]
  {
    if items != [] {
      var n := |items| - 1;
      var prefix := items[..n];
      IndexFieldsValues(prefix);
      forall i | 0 <= i < n
        ensures IndexKey(i) in IndexFields(items) && IndexFields(items)[IndexKey(i)] == items[i]
      {
        if IndexKey(i) == IndexKey(n) { IndexKeyInjective(i, n); }
        assert prefix[i] == items[i];
      }
    }
  }

  /** An array has no field but its index names. */
  lemma {:induction false} IndexFieldsKeys(items: seq<Json>)
    ensures forall k :: k in IndexFields(items) ==> exists i :: 0 <= i < |items| && k == IndexKey(i)
  {
    if items != [] {
      var n := |items| - 1;
      var m := IndexFields(items[..n]);
      IndexFieldsKeys(items[..n]);
      assert IndexFields(items) == m[IndexKey(n) := items[n]];
      forall k | k in IndexFields(items) ensures exists i :: 0 <= i < |items| && k == IndexKey(i) {
        if k == IndexKey(n) {
          assert 0 <= n < |items| && k == IndexKey(n);
        } else {
          assert k in m;
          var i :| 0 <= i < |items[..n]| && k == IndexKey(i);
          assert 0 <= i < |items| && k == IndexKey(i);
        }
      }
      assert forall k :: k in IndexFields(items) ==> exists i :: 0 <= i < |items| && k == IndexKey(i);
    } else {
      assert IndexFields(items) == map[];
    }
  }

  /** deepMerge(target, source) for an object target. An object source is merged key by
      key. An array source is an object too in JavaScript, so its entries are merged
      under their index names. Any other source leaves the target as it is. */
  function DeepMerge(target: Json, source: Json): (r: Json)
    requires target.JObj?
    ensures r.JObj? && target.fields.Keys <= r.fields.Keys
    ensures !source.JObj? && !source.JArr? ==> r == target
    ensures source.JArr? ==>
      && (forall i :: 0 <= i < |source.items| && !source.items[i].JNull? && !source.items[i].JObj? ==>
            IndexKey(i) in r.fields && r.fields[IndexKey(i)] == source.items[i])
      && (forall k :: k in target.fields && k !in IndexFields(source.items) ==> r.fields[k] == target.fields[k])
      && (forall k :: k in r.fields ==> k in target.fields || k in IndexFields(source.items))
  {
    if source.JObj? then MergeFieldsSpec(target.fields, source.fields); JObj(MergeFields(target.fields, source.fields))
    else if source.JArr? then
      var sm := IndexFields(source.items);
      IndexFieldsValues(source.items);
      MergeFieldsSpec(target.fields, sm);
      JObj(MergeFields(target.fields, sm))
    else target
  }

  /** Saving the array `["a"]` keeps the target's keys and adds the key "0". */
  lemma ArraySourceWritesIndexKeys()
    ensures DeepMerge(JObj(map["system" := JObj(map[])]), JArr([JStr("a")]))
         == JObj(map["system" := JObj(map[]), "0" := JStr("a")])
  {
    assert IndexKey(0) == "0";
    assert IndexFields([JStr("a")]) == map["0" := JStr("a")] by {
      assert [JStr("a")][..0] == [];
    }
    var r := DeepMerge(JObj(map["system" := JObj(map[])]), JArr([JStr("a")]));
    assert r.fields.Keys == {"system", "0"};
  }

  /** Merging an object onto itself changes nothing. */
  lemma {:induction false} MergeSelf(m: map<string, Json>)
    ensures MergeFields(m, m) == m
    decreases JObj(m)
  {
    forall k | k in m ensures MergeFields(m, m)[k] == m[k] {
      if m[k].JObj? {
        MergeSelf(m[k].fields);
      }
    }
  }

  /** Merging the same source twice is the same as merging it once. */
  lemma {:induction false} MergeIdempotent(tm: map<string, Json>, sm: map<string, Json>)
    ensures MergeFields(MergeFields(tm, sm), sm) == MergeFields(tm, sm)
    decreases JObj(sm)
  {
    var once := MergeFields(tm, sm);
    forall k | k in once ensures MergeFields(once, sm)[k] == once[k] {
      if k in sm && sm[k].JObj? {
        if k in tm && tm[k].JObj? {
          MergeIdempotent(tm[k].fields, sm[k].fields);
        } else if !(k in tm && tm[k].JArr?) {
          MergeIdempotent(map[], sm[k].fields);
        }
      }
    }
  }

  /** Merging a merge result back onto the same target is a no-op: a document built by
      merging onto the defaults reads back unchanged when merged onto them again. */
  lemma {:induction false} MergeReapply(tm: map<string, Json>, sm: map<string, Json>)
    ensures MergeFields(tm, MergeFields(tm, sm)) == MergeFields(tm, sm)
    decreases JObj(sm), 1
  {
    var once := MergeFields(tm, sm);
    var twice := MergeFields(tm, once);
    forall k | k in once ensures k in twice && twice[k] == once[k] {
      MergeReapplyAt(tm, sm, k);
    }
    assert twice.Keys == once.Keys;
  }

  /** One key of MergeReapply. */
  lemma {:induction false} MergeReapplyAt(tm: map<string, Json>, sm: map<string, Json>, k: string)
    requires k in MergeFields(tm, sm)
    ensures k in MergeFields(tm, MergeFields(tm, sm))
    ensures MergeFields(tm, MergeFields(tm, sm))[k] == MergeFields(tm, sm)[k]
    decreases JObj(sm), 0
  {
    var once := MergeFields(tm, sm);
    var v := once[k];
    FieldAt(tm, once, k);
    if k in sm && sm[k].JObj? {
      FieldAt(tm, sm, k);
      if k in tm && tm[k].JObj? {
        MergeReapply(tm[k].fields, sm[k].fields);
      } else if !(k in tm && tm[k].JArr?) {
        MergeReapply(map[], sm[k].fields);
      }
    } else if k in tm && tm[k].JObj? {
      FieldAt(tm, sm, k);
      MergeSelf(tm[k].fields);
    }
  }

  /** Every key path of `t` is present in `r`: object sections of `t` are object sections
      of `r` that again contain every key path of the section. */
  ghost predicate HasAllPaths(r: map<string, Json>, t: map<string, Json>)
    decreases JObj(t)
  {
    forall k :: k in t ==>
      k in r && (t[k].JObj? ==> r[k].JObj? && HasAllPaths(r[k].fields, t[k].fields))
  }

  /** The source never puts a scalar or an array where the target has an object. */
  ghost predicate Conforms(s: map<string, Json>, t: map<string, Json>)
    decreases JObj(s)
  {
    forall k :: k in s && k in t && t[k].JObj? ==>
      (s[k].JObj? || s[k].JNull?) && (s[k].JObj? ==> Conforms(s[k].fields, t[k].fields))
  }

  /** A source shaped like the target (possibly partial) leaves every key path of the
      target in place: loading a file holding one section yields a full document. */
  lemma {:induction false} MergeKeepsAllPaths(tm: map<string, Json>, sm: map<string, Json>)
    requires Conforms(sm, tm)
    ensures HasAllPaths(MergeFields(tm, sm), tm)
    decreases JObj(sm)
  {
    var r := MergeFields(tm, sm);
    forall k | k in tm && tm[k].JObj?
      ensures r[k].JObj? && HasAllPaths(r[k].fields, tm[k].fields)
    {
      if k in sm && sm[k].JObj? {
        assert Conforms(sm[k].fields, tm[k].fields);
        FieldAt(tm, sm, k);
        MergeKeepsAllPaths(tm[k].fields, sm[k].fields);
      } else {
        assert k in sm ==> sm[k].JNull?;
        FieldAt(tm, sm, k);
        SelfHasAllPaths(tm[k].fields);
      }
    }
  }

  lemma {:induction false} SelfHasAllPaths(m: map<string, Json>)
    ensures HasAllPaths(m, m)
    decreases JObj(m)
  {
    forall k | k in m && m[k].JObj? ensures HasAllPaths(m[k].fields, m[k].fields) {
      SelfHasAllPaths(m[k].fields);
    }
  }

  // ---------------------------------------------------------------------------
  // The default document

  const DefaultYtdlp: map<string, Json> := map[
    "videoFormat" := JStr("bestvideo[ext=mp4]/bestvideo"),
    "audioFormat" := JStr("bestaudio[ext=m4a]/bestaudio"),
    "concurrentFragments" := JNum(16.0),
    "httpChunkSize" := JStr("10M"),
    "noPlaylist" := JBool(true),
    "proxy" := JStr(""),
    "socketTimeout" := JNum(0.0),
    "retries" := JNum(10.0),
    "fragmentRetries" := JNum(10.0),
    "userAgent" := JStr(""),
    "extractorArgs" := JStr(""),
    "postprocessorArgs" := JStr(""),
    "noCheckCertificates" := JBool(false),
    "limitRate" := JStr(""),
    "geoBypass" := JBool(true),
    "addHeader" := JArr([]),
    "mergeOutputFormat" := JStr(""),
    "flatPlaylist" := JBool(true),
    "dumpJson" := JBool(true),
    "noWarnings" := JBool(false),
    "ignoreErrors" := JBool(false),
    "abortOnError" := JBool(false),
    "noPart" := JBool(false),
    "restrictFilenames" := JBool(false),
    "windowsFilenames" := JBool(false),
    "noOverwrites" := JBool(false),
    "forceIPv4" := JBool(false),
    "forceIPv6" := JBool(false)]

  const DefaultDemucs: map<string, Json> := map[
    "model" := JStr("htdemucs"),
    "twoStems" := JStr("vocals"),
    "outputFormat" := JStr("mp3"),
    "overlap" := JNum(0.25),
    "segment" := JNum(7.8),
    "shifts" := JNum(1.0),
    "overlapOutput" := JBool(false),
    "float32" := JBool(false),
    "clipMode" := JStr("rescale"),
    "noSegment" := JBool(false),
    "jobs" := JNum(0.0),
    "device" := JStr(""),
    "repo" := JStr("")]

  const DefaultFfmpeg: map<string, Json> := map[
    "loudnessI" := JNum(-16.0),
    "loudnessTP" := JNum(-1.5),
    "loudnessLRA" := JNum(11.0),
    "loudnessGainClamp" := JNum(12.0)]

  const DefaultSystem: map<string, Json> := map[
    "deleteDelayMs" := JNum(20000.0),
    "maxConcurrentDownloads" := JNum(1.0)]

  /** DEFAULT_ADVANCED_CONFIG as written. */
  const DefaultAdvancedConfig: Json := JObj(map[
    "ytdlp" := JObj(DefaultYtdlp),
    "demucs" := JObj(DefaultDemucs),
    "ffmpeg" := JObj(DefaultFfmpeg),
    "system" := JObj(DefaultSystem)])

  /** Whatever is merged onto the defaults, the four sections stay present. */
  lemma SectionsAlwaysPresent(source: Json)
    ensures var r := DeepMerge(DefaultAdvancedConfig, source);
      "ytdlp" in r.fields && "demucs" in r.fields && "ffmpeg" in r.fields && "system" in r.fields
  {
  }

  // ---------------------------------------------------------------------------
  // Reading values out of a configuration

  function Max(a: real, b: real): real { if a >= b then a else b }
  function Min(a: real, b: real): real { if a <= b then a else b }

  /** `cfg[name] || {}` as a field map: anything but an object section reads as empty. */
  function Section(cfg: Json, name: string): map<string, Json>
  {
    if cfg.JObj? && name in cfg.fields && cfg.fields[name].JObj? then cfg.fields[name].fields else map[]
  }

  /** `Math.max(1, Math.min(5, system.maxConcurrentDownloads || 1))`. */
  function DownloadCap(cfg: Json): (cap: real)
    ensures 1.0 <= cap <= 5.0
    ensures var s := Section(cfg, "system");
      ("maxConcurrentDownloads" in s && s["maxConcurrentDownloads"].JNum? &&
       1.0 <= s["maxConcurrentDownloads"].n <= 5.0) ==> cap == s["maxConcurrentDownloads"].n
    ensures var s := Section(cfg, "system");
      !("maxConcurrentDownloads" in s && Truthy(s["maxConcurrentDownloads"])) ==> cap == 1.0
  {
    var s := Section(cfg, "system");
    var v := if "maxConcurrentDownloads" in s && s["maxConcurrentDownloads"].JNum? && s["maxConcurrentDownloads"].n != 0.0
             then s["maxConcurrentDownloads"].n else 1.0;
    Max(1.0, Min(5.0, v))
  }

  /** A numeric setting with a default for a missing or null value (`x != null ? x : d`). */
  function NumberOr(section: map<string, Json>, key: string, default: real): real
  {
    if key in section && section[key].JNum? then section[key].n else default
  }

  /** `system.deleteDelayMs ?? 20000`. */
  function DeleteDelayMs(cfg: Json): real
  {
    NumberOr(Section(cfg, "system"), "deleteDelayMs", 20000.0)
  }

  /** The loudness target `ffmpeg.loudnessI`, default -16 LUFS. */
  function LoudnessTarget(cfg: Json): real
  {
    NumberOr(Section(cfg, "ffmpeg"), "loudnessI", -16.0)
  }

  /** The symmetric gain bound `Math.max(0, ffmpeg.loudnessGainClamp ?? 12)`. */
  function LoudnessBound(cfg: Json): (b: real)
    ensures b >= 0.0
    ensures !("loudnessGainClamp" in Section(cfg, "ffmpeg")) ==> b == 12.0
  {
    Max(0.0, NumberOr(Section(cfg, "ffmpeg"), "loudnessGainClamp", 12.0))
  }

  lemma DefaultSettings()
    ensures DownloadCap(DefaultAdvancedConfig) == 1.0
    ensures DeleteDelayMs(DefaultAdvancedConfig) == 20000.0
    ensures LoudnessTarget(DefaultAdvancedConfig) == -16.0
    ensures LoudnessBound(DefaultAdvancedConfig) == 12.0
  {
  }

  // ---------------------------------------------------------------------------
  // The configuration store (module state of the config manager)

  /** What reading `advanced-config.json` yields: no file, a file that does not parse
      (or cannot be read), or a parsed document. */
  datatype ConfigFile = Missing | Unreadable | Stored(doc: Json)

  /** How DEFAULT_ADVANCED_CONFIG looks after loading `loaded` with the shallow copy
      `{ ...DEFAULT_ADVANCED_CONFIG }`: the copy shares the default sections, and
      deepMerge merges the file's object sections into them in place. */
  function DefaultsAfterShallowLoad(defaults: Json, loaded: Json): (r: Json)
    requires defaults.JObj?
    ensures r.JObj? && r.fields.Keys == defaults.fields.Keys
    ensures !loaded.JObj? ==> r == defaults
  {
    if !loaded.JObj? then defaults
    else JObj(map k | k in defaults.fields ::
      if k in loaded.fields && loaded.fields[k].JObj? && defaults.fields[k].JObj?
      then MergeAt(Some(defaults.fields[k]), loaded.fields[k])
      else defaults.fields[k])
  }

  /** The file that shows the shared-default problem: it sets one system value. */
  const SystemOnlyFile: Json := JObj(map["system" := JObj(map["maxConcurrentDownloads" := JNum(3.0)])])

  /** Loading that file rewrites the default itself: a later reset to defaults then
      restores a cap of 3 instead of 1. */
  lemma ShallowLoadPollutesDefaults()
    ensures DownloadCap(DefaultsAfterShallowLoad(DefaultAdvancedConfig, SystemOnlyFile)) == 3.0
    ensures DownloadCap(DefaultAdvancedConfig) == 1.0
  {
    var d := DefaultsAfterShallowLoad(DefaultAdvancedConfig, SystemOnlyFile);
    assert d.fields["system"] == MergeAt(Some(JObj(DefaultSystem)), JObj(map["maxConcurrentDownloads" := JNum(3.0)]));
    assert Section(d, "system")["maxConcurrentDownloads"] == JNum(3.0);
  }

  class ConfigManager {
    /** `advancedConfig`: null until the first load. */
    var advancedConfig: Option<Json>
    /** The object DEFAULT_ADVANCED_CONFIG refers to; LoadAsWritten can change it. */
    var defaults: Json
    /** The contents of `advanced-config.json` as the next read sees them. */
    var file: ConfigFile

    ghost predicate Valid()
      reads this
    {
      defaults.JObj? && (advancedConfig.Some? ==> advancedConfig.value.JObj?)
    }

    constructor (onDisk: ConfigFile)
      ensures Valid()
      ensures advancedConfig == None && defaults == DefaultAdvancedConfig && file == onDisk
    {
      advancedConfig := None;
      defaults := DefaultAdvancedConfig;
      file := onDisk;
    }

    /** loadAdvancedConfig as intended: merge the file onto a deep copy of the defaults;
        a missing or unparsable file gives a copy of the defaults. */
    method Load() returns (cfg: Json)
      requires Valid()
      modifies this`advancedConfig
      ensures Valid() && advancedConfig == Some(cfg)
      ensures file.Stored? ==> cfg == DeepMerge(defaults, file.doc)
      ensures !file.Stored? ==> cfg == defaults
      ensures defaults.fields.Keys <= cfg.fields.Keys
    {
      if file.Stored? {
        cfg := DeepMerge(defaults, file.doc);
      } else {
        cfg := defaults;
      }
      advancedConfig := Some(cfg);
    }

    /** loadAdvancedConfig as written: the same result, but the shallow spread lets the
        merge write into the default sections themselves. */
    method LoadAsWritten() returns (cfg: Json)
      requires Valid()
      modifies this`advancedConfig, this`defaults
      ensures Valid() && advancedConfig == Some(cfg)
      ensures file.Stored? ==> cfg == DeepMerge(old(defaults), file.doc)
      ensures !file.Stored? ==> cfg == old(defaults)
      ensures defaults == if file.Stored? then DefaultsAfterShallowLoad(old(defaults), file.doc) else old(defaults)
    {
      if file.Stored? {
        cfg := DeepMerge(defaults, file.doc);
        defaults := DefaultsAfterShallowLoad(defaults, file.doc);
      } else {
        cfg := defaults;
      }
      advancedConfig := Some(cfg);
    }

    /** saveAdvancedConfig: merge onto a fresh copy of the defaults, write, and adopt the
        result only when the write succeeded. */
    method Save(config: Json, writeOk: bool) returns (ok: bool)
      requires Valid()
      modifies this`advancedConfig, this`file
      ensures Valid() && ok == writeOk
      ensures ok ==> advancedConfig == Some(DeepMerge(defaults, config)) && file == Stored(DeepMerge(defaults, config))
      ensures !ok ==> advancedConfig == old(advancedConfig) && file == old(file)
    {
      var toSave := DeepMerge(defaults, config);
      if writeOk {
        file := Stored(toSave);
        advancedConfig := Some(toSave);
        ok := true;
      } else {
        ok := false;
      }
    }

    /** getAdvancedConfig: load on first use, then hand out a copy. The first use runs the
        corrected `Load`, not `LoadAsWritten`. */
    method Get() returns (cfg: Json)
      requires Valid()
      modifies this`advancedConfig
      ensures Valid() && advancedConfig == Some(cfg) && cfg.JObj?
      ensures old(advancedConfig).Some? ==> cfg == old(advancedConfig).value
      ensures old(advancedConfig).None? && file.Stored? ==> cfg == DeepMerge(defaults, file.doc)
      ensures old(advancedConfig).None? && !file.Stored? ==> cfg == defaults
    {
      if advancedConfig.None? {
        var loaded := Load();
      }
      cfg := advancedConfig.value;
    }

    /** resetAdvancedConfigToDefault: the in-memory config becomes the defaults even
        when the write then fails. */
    method Reset(writeOk: bool) returns (ok: bool)
      requires Valid()
      modifies this`advancedConfig, this`file
      ensures Valid() && ok == writeOk
      ensures advancedConfig == Some(defaults)
      ensures ok ==> file == Stored(defaults)
      ensures !ok ==> file == old(file)
    {
      advancedConfig := Some(defaults);
      if writeOk {
        file := Stored(defaults);
        ok := true;
      } else {
        ok := false;
      }
    }
  }

  /** What is saved reads back as the same configuration (defaults unchanged). */
  lemma SaveThenLoad(defaults: Json, config: Json)
    requires defaults.JObj?
    ensures DeepMerge(defaults, DeepMerge(defaults, config)) == DeepMerge(defaults, config)
  {
    if config.JObj? {
      MergeReapply(defaults.fields, config.fields);
    } else if config.JArr? {
      MergeReapply(defaults.fields, IndexFields(config.items));
    } else {
      MergeSelf(defaults.fields);
    }
  }
}
