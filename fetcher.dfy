/** Resolving a link into listing entries: the yt-dlp listing (argument list, line
    parsing, item normalisation) and the Bilibili favourites pager with its yt-dlp
    fallback. */
module Fetcher {
  import opened Types
  import opened Config
  import opened SystemService

  // ---------------------------------------------------------------------------
  // yt-dlp listing arguments

  /** The option words a listing run may pass. */
  datatype Switch =
    | FlatPlaylist | DumpJson | NoPlaylist
    | Proxy | SocketTimeout | UserAgent | NoCheckCertificates | NoWarnings
    | CookiesOption

  /** The word yt-dlp reads for each option. */
  function SwitchText(w: Switch): string
  {
    match w
    case FlatPlaylist => "--flat-playlist"
    case DumpJson => "--dump-json"
    case NoPlaylist => "--no-playlist"
    case Proxy => "--proxy"
    case SocketTimeout => "--socket-timeout"
    case UserAgent => "--user-agent"
    case NoCheckCertificates => "--no-check-certificates"
    case NoWarnings => "--no-warnings"
    case CookiesOption => "--cookies"
  }

  /** One option element of yt-dlp's argument vector: an option word, the configured
      value of an option (passed as `String(value)`), or a cookie file. */
  datatype Arg = Opt(w: Switch) | Setting(of: Switch) | Cookies(file: CookieFile)

  /** A whole argument vector: the option elements in push order, then the link. */
  datatype Argv = Argv(options: seq<Arg>, link: string)

  /** `cfg[key] !== false`: an option is on unless explicitly set to `false`. */
  predicate NotFalse(section: map<string, Json>, key: string)
  {
    key !in section || section[key] != JBool(false)
  }

  /** `cfg[key]`, when truthy. */
  function SetValue(section: map<string, Json>, key: string): (r: Option<Json>)
    ensures r.Some? <==> key in section && Truthy(section[key])
    ensures r.Some? ==> r.value == section[key]
  {
    if key in section && Truthy(section[key]) then Some(section[key]) else None
  }

  /** The `ytdlp` settings a listing run reads. */
  datatype ListingOptions = ListingOptions(
    flatPlaylist: bool,
    dumpJson: bool,
    noPlaylist: bool,
    proxy: Option<Json>,
    socketTimeout: Option<Json>,
    userAgent: Option<Json>,
    noCheckCertificates: bool,
    noWarnings: bool)

  /** Reading the `ytdlp` section: the three listing switches are on unless explicitly
      `false`; the other settings count only when truthy. */
  function ReadListingOptions(cfg: Json): (o: ListingOptions)
    ensures o.flatPlaylist == NotFalse(Section(cfg, "ytdlp"), "flatPlaylist")
    ensures o.dumpJson == NotFalse(Section(cfg, "ytdlp"), "dumpJson")
    ensures o.noPlaylist == NotFalse(Section(cfg, "ytdlp"), "noPlaylist")
    ensures o.proxy == SetValue(Section(cfg, "ytdlp"), "proxy")
  {
    var y := Section(cfg, "ytdlp");
    ListingOptions(NotFalse(y, "flatPlaylist"), NotFalse(y, "dumpJson"), NotFalse(y, "noPlaylist"),
                   SetValue(y, "proxy"), SetValue(y, "socketTimeout"), SetValue(y, "userAgent"),
                   SetValue(y, "noCheckCertificates").Some?, SetValue(y, "noWarnings").Some?)
  }

  /** The three listing switches, each pushed when on. */
  function ListingSwitches(o: ListingOptions): (r: seq<Arg>)
    ensures forall a :: a in r ==> a == Opt(FlatPlaylist) || a == Opt(DumpJson) || a == Opt(NoPlaylist)
    ensures Opt(FlatPlaylist) in r <==> o.flatPlaylist
    ensures Opt(DumpJson) in r <==> o.dumpJson
    ensures Opt(NoPlaylist) in r <==> o.noPlaylist
  {
    (if o.flatPlaylist then [Opt(FlatPlaylist)] else [])
    + (if o.dumpJson then [Opt(DumpJson)] else [])
    + (if o.noPlaylist then [Opt(NoPlaylist)] else [])
  }

  /** The other configured options, each pushed (with its value) only when set. */
  function ConfiguredOptions(o: ListingOptions): (r: seq<Arg>)
    ensures forall a :: a in r ==>
      a.Setting? || (a.Opt? && a.w != FlatPlaylist && a.w != DumpJson && a.w != NoPlaylist && a.w != CookiesOption)
    ensures Opt(Proxy) in r <==> o.proxy.Some?
    ensures o.proxy.Some? ==> Setting(Proxy) in r
  {
    (if o.proxy.Some? then [Opt(Proxy), Setting(Proxy)] else [])
    + (if o.socketTimeout.Some? then [Opt(SocketTimeout), Setting(SocketTimeout)] else [])
    + (if o.userAgent.Some? then [Opt(UserAgent), Setting(UserAgent)] else [])
    + (if o.noCheckCertificates then [Opt(NoCheckCertificates)] else [])
    + (if o.noWarnings then [Opt(NoWarnings)] else [])
  }

  /** The cookie option and its file, pushed when a cookie file applies. */
  function CookieArgs(cookies: Option<CookieFile>): (r: seq<Arg>)
    ensures forall a :: a in r ==> a == Opt(CookiesOption) || a.Cookies?
    ensures Opt(CookiesOption) in r <==> cookies.Some?
    ensures cookies.Some? ==> Cookies(cookies.value) in r
  {
    if cookies.Some? then [Opt(CookiesOption), Cookies(cookies.value)] else []
  }

  /** The arguments of a listing run, in push order: the listing switches, the other
      configured options, the cookie file when one applies, and the link last. */
  function ListingArgs(o: ListingOptions, url: string, cookies: Option<CookieFile>): (args: Argv)
    ensures args.link == url
    ensures Opt(FlatPlaylist) in args.options <==> o.flatPlaylist
    ensures Opt(DumpJson) in args.options <==> o.dumpJson
    ensures Opt(NoPlaylist) in args.options <==> o.noPlaylist
  {
    var s, t, c := ListingSwitches(o), ConfiguredOptions(o), CookieArgs(cookies);
    assert Opt(FlatPlaylist) !in t && Opt(DumpJson) !in t && Opt(NoPlaylist) !in t;
    Argv(s + t + c, url)
  }

  /** The proxy option and its value appear exactly when a proxy is set. */
  lemma ListingArgsProxy(o: ListingOptions, url: string, cookies: Option<CookieFile>)
    ensures Opt(Proxy) in ListingArgs(o, url, cookies).options <==> o.proxy.Some?
    ensures o.proxy.Some? ==> Setting(Proxy) in ListingArgs(o, url, cookies).options
  {
    var s, t, c := ListingSwitches(o), ConfiguredOptions(o), CookieArgs(cookies);
    assert ListingArgs(o, url, cookies).options == s + t + c;
    assert Opt(Proxy) !in s && Opt(Proxy) !in c;
  }

  /** The cookie option and file appear exactly when a cookie file applies. */
  lemma ListingArgsCookies(o: ListingOptions, url: string, cookies: Option<CookieFile>)
    ensures Opt(CookiesOption) in ListingArgs(o, url, cookies).options <==> cookies.Some?
    ensures cookies.Some? ==> Cookies(cookies.value) in ListingArgs(o, url, cookies).options
  {
    var s, t, c := ListingSwitches(o), ConfiguredOptions(o), CookieArgs(cookies);
    assert ListingArgs(o, url, cookies).options == s + t + c;
    assert Opt(CookiesOption) !in s && Opt(CookiesOption) !in t;
  }

  /** runYtDlp's argument vector: the options read from the configuration and the cookie
      file `getCookiesPath` picks for the link among the `existing` ones. */
  function RunArgs(cfg: Json, url: string, existing: set<CookieFile>): (args: Argv)
    ensures args.link == url
    ensures Opt(NoPlaylist) in args.options <==> NotFalse(Section(cfg, "ytdlp"), "noPlaylist")
    ensures Opt(CookiesOption) in args.options <==> CookiesPath(url, existing).Some?
  {
    ListingArgsCookies(ReadListingOptions(cfg), url, CookiesPath(url, existing));
    ListingArgs(ReadListingOptions(cfg), url, CookiesPath(url, existing))
  }

  // ---------------------------------------------------------------------------
  // yt-dlp listing output

  /** The fields of one parsed output line that the normalisation reads; an empty string
      stands for a missing or empty field. */
  datatype Entry = Entry(
    url: string,
    webpageUrl: string,
    id: string,
    ieKey: string,
    title: string,
    uploader: string,
    uploaderId: string)

  /** One output line: a parsed entry, or a line `JSON.parse` rejects (or parses to a
      falsy value), which the filter drops. */
  datatype Line = Parsed(entry: Entry) | Dropped

  /** How a listing run ended: the process could not be spawned, or it closed with an
      exit code (none when killed by a signal) after printing its lines. */
  datatype ListingRun = SpawnError | Closed(code: Option<int>, lines: seq<Line>)

  function YoutubeWatch(id: string): string
  {
    "https://www.youtube.com/watch?v=" + id
  }

  function BilibiliVideo(id: string): string
  {
    "https://www.bilibili.com/video/" + id
  }

  /** The item's link: `url`, else `webpage_url`, else one built from the id (YouTube for
      a YouTube or missing extractor key, Bilibili for BiliBili, the input link for any
      other extractor), else the input link. */
  function ItemUrl(e: Entry, input: string): (r: string)
    ensures e.url != "" ==> r == e.url
    ensures e.url == "" && e.webpageUrl != "" ==> r == e.webpageUrl
    ensures e.url == "" && e.webpageUrl == "" && e.id == "" ==> r == input
    ensures e.url == "" && e.webpageUrl == "" && e.id != "" ==>
      r == if e.ieKey == "Youtube" || e.ieKey == "" then YoutubeWatch(e.id)
           else if e.ieKey == "BiliBili" then BilibiliVideo(e.id)
           else input
    ensures input != "" ==> r != ""
  {
    var direct := if e.url != "" then e.url else e.webpageUrl;
    var built :=
      if direct == "" && e.id != "" then
        (if e.ieKey == "Youtube" || e.ieKey == "" then YoutubeWatch(e.id)
         else if e.ieKey == "BiliBili" then BilibiliVideo(e.id)
         else input)
      else direct;
    if built != "" then built else input
  }

  /** `title`, else "Video <id>", else "Unknown Title"; never empty. */
  function ItemTitle(e: Entry): (r: string)
    ensures r != ""
    ensures e.title != "" ==> r == e.title
    ensures e.title == "" && e.id != "" ==> r == "Video " + e.id
  {
    if e.title != "" then e.title
    else if e.id != "" then "Video " + e.id
    else "Unknown Title"
  }

  /** `uploader || uploader_id || 'Unknown'`; never empty. */
  function ItemUploader(e: Entry): (r: string)
    ensures r != ""
    ensures r == e.uploader || (e.uploader == "" && (r == e.uploaderId || (e.uploaderId == "" && r == "Unknown")))
  {
    if e.uploader != "" then e.uploader
    else if e.uploaderId != "" then e.uploaderId
    else "Unknown"
  }

  /** The listing entry made from one parsed line. */
  function Normalize(e: Entry, input: string): (m: SongMeta)
    ensures m.title != "" && m.uploader != ""
    ensures input != "" ==> m.originalUrl != ""
    ensures m.originalUrl == ItemUrl(e, input)
  {
    SongMeta(ItemTitle(e), ItemUploader(e), ItemUrl(e, input))
  }

  /** The lines that parsed, in order. */
  function Entries(lines: seq<Line>): (r: seq<Entry>)
    ensures |r| <= |lines|
    ensures forall e :: e in r <==> Parsed(e) in lines
  {
    if lines == [] then []
    else (if lines[0].Parsed? then [lines[0].entry] else []) + Entries(lines[1..])
  }

  /** Some line parsed. */
  predicate AnyParsed(lines: seq<Line>)
  {
    exists i :: 0 <= i < |lines| && lines[i].Parsed?
  }

  /** There are entries exactly when some line parsed. */
  lemma {:induction false} EntriesNonEmpty(lines: seq<Line>)
    ensures Entries(lines) != [] <==> AnyParsed(lines)
  {
    if AnyParsed(lines) {
      var i :| 0 <= i < |lines| && lines[i].Parsed?;
      assert lines[i] in lines;
      assert lines[i].entry in Entries(lines);
    }
    if Entries(lines) != [] {
      var e := Entries(lines)[0];
      assert Parsed(e) in lines;
    }
  }

  /** The normalised listing, one entry per parsed line. */
  function NormalizeAll(entries: seq<Entry>, input: string): (r: seq<SongMeta>)
    ensures |r| == |entries|
    ensures forall i :: 0 <= i < |entries| ==> r[i] == Normalize(entries[i], input)
  {
    seq(|entries|, i requires 0 <= i < |entries| => Normalize(entries[i], input))
  }

  /** runYtDlp's outcome: nothing after a spawn error, a non-zero (or missing) exit code,
      or output in which no line parsed; otherwise the normalised entries. */
  function RunYtDlp(run: ListingRun, input: string): (r: Option<seq<SongMeta>>)
    ensures r.Some? <==> run.Closed? && run.code == Some(0) && AnyParsed(run.lines)
    ensures r.Some? ==> r.value != [] && r.value == NormalizeAll(Entries(run.lines), input)
  {
    EntriesNonEmpty(if run.Closed? then run.lines else []);
    if run.SpawnError? || run.code != Some(0) then None
    else
      var items := Entries(run.lines);
      if items == [] then None else Some(NormalizeAll(items, input))
  }

  // ---------------------------------------------------------------------------
  // Bilibili favourites

  /** One favourite as the API lists it. */
  datatype Media = Media(title: string, upper: Option<string>, bvid: string)

  /** One API page: its media and `has_more`. A failed request, an error code or an
      unreadable body arrive as an empty page without more. */
  datatype FavPage = FavPage(medias: seq<Media>, hasMore: bool)

  /** The pages the pager collects from page `pn` on: it stops after page 5, at an empty
      page, and after a page that says there is no more. */
  function Collected(fetch: nat -> FavPage, pn: nat): seq<Media>
    decreases 6 - pn
  {
    if pn > 5 then []
    else
      var page := fetch(pn);
      if page.medias == [] then []
      else page.medias + (if page.hasMore then Collected(fetch, pn + 1) else [])
  }

  /** With pages of at most `n` media the pager collects at most `n` per remaining page:
      at most 100 favourites with the API's 20-item pages. */
  lemma {:induction false} CollectedBound(fetch: nat -> FavPage, pn: nat, n: nat)
    requires 1 <= pn <= 6
    requires forall p :: |fetch(p).medias| <= n
    ensures |Collected(fetch, pn)| <= n * (6 - pn)
    decreases 6 - pn
  {
    if pn <= 5 && fetch(pn).medias != [] && fetch(pn).hasMore {
      CollectedBound(fetch, pn + 1, n);
    }
  }

  /** The collected media start with page `pn`'s, and nothing is collected past an empty
      page. */
  lemma CollectedFirstPage(fetch: nat -> FavPage, pn: nat)
    requires 1 <= pn <= 5
    ensures fetch(pn).medias <= Collected(fetch, pn)
    ensures fetch(pn).medias == [] ==> Collected(fetch, pn) == []
  {
  }

  /** Collecting on from a page that has media: the media so far grow by that page, and
      collecting goes on from the next page only when it says there is more. */
  lemma CollectedAppend(fetch: nat -> FavPage, pn: nat, all: seq<Media>)
    requires 1 <= pn <= 5 && fetch(pn).medias != []
    ensures all + Collected(fetch, pn)
         == (all + fetch(pn).medias) + (if fetch(pn).hasMore then Collected(fetch, pn + 1) else [])
  {
    var page := fetch(pn);
    assert Collected(fetch, pn) == page.medias + (if page.hasMore then Collected(fetch, pn + 1) else []);
  }

  /** The pager loop (`while (hasMore && pn <= 5)`), with `fetch` answering each page
      request. */
  method FetchFavlist(fetch: nat -> FavPage) returns (all: seq<Media>)
    ensures all == Collected(fetch, 1)
  {
    all := [];
    var pn := 1;
    var hasMore := true;
    while hasMore && pn <= 5
      invariant 1 <= pn <= 6
      invariant (if hasMore then all + Collected(fetch, pn) else all) == Collected(fetch, 1)
      decreases 6 - pn, hasMore
    {
      var page := fetch(pn);
      if |page.medias| > 0 {
        CollectedAppend(fetch, pn, all);
        all := all + page.medias;
        hasMore := page.hasMore;
        pn := pn + 1;
      } else {
        hasMore := false;
      }
    }
  }

  /** A favourite as a listing entry: its title, its uploader's name (else "Unknown"),
      and its video link. */
  function FavItem(m: Media): (r: SongMeta)
    ensures r.title == m.title && r.originalUrl == BilibiliVideo(m.bvid)
    ensures m.upper.None? ==> r.uploader == "Unknown"
  {
    SongMeta(m.title, if m.upper.Some? then m.upper.value else "Unknown", BilibiliVideo(m.bvid))
  }

  function FavItems(medias: seq<Media>): (r: seq<SongMeta>)
    ensures |r| == |medias|
    ensures forall i :: 0 <= i < |medias| ==> r[i] == FavItem(medias[i])
  {
    seq(|medias|, i requires 0 <= i < |medias| => FavItem(medias[i]))
  }

  /** fetchUrlInfo: a favourites link (`fav`, the matched list id) is paged through the
      API and listed when that yields any favourite; otherwise, and for every other link,
      the yt-dlp listing decides. */
  method FetchUrlInfo(url: string, fav: Option<string>, fetch: nat -> FavPage, run: ListingRun)
    returns (r: Option<seq<SongMeta>>)
    ensures fav.None? ==> r == RunYtDlp(run, url)
    ensures fav.Some? && Collected(fetch, 1) != [] ==> r == Some(FavItems(Collected(fetch, 1)))
    ensures fav.Some? && Collected(fetch, 1) == [] ==> r == RunYtDlp(run, url)
    ensures r.Some? ==> r.value != []
  {
    if fav.Some? {
      var all := FetchFavlist(fetch);
      if |all| > 0 {
        return Some(FavItems(all));
      }
    }
    r := RunYtDlp(run, url);
  }
}
