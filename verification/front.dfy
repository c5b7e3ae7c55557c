/** The front-end's own logic (main.py): turning the form into the list of
    URLs and the options record handed to the download worker, the settings
    alert, the choice among the transcoder builds auto-detection finds, and
    the two history actions. Widgets, dialogs, the file system and the
    worker thread are parameters: what the user typed or answered, and
    whether a path exists. */
module Front {
  import opened Wrappers
  import opened Text
  import opened Config
  import opened History
  import opened Command
  import opened Seqs

  // ----- URLs -----

  /** The URL entry after `strip()`: empty, kept as it is when it already
      names http or https, otherwise given "https://". */
  function MainUrl(field: string): (r: string)
    ensures r == [] <==> Strip(field) == []
    ensures r != [] ==> StartsWith(r, "http://") || StartsWith(r, "https://")
    ensures r != [] ==> EndsWith(r, Strip(field))
  {
    var raw := Strip(field);
    if raw == [] then []
    else if StartsWith(raw, "http://") || StartsWith(raw, "https://") then raw
    else
      assert ("https://" + raw)[|"https://" + raw| - |raw|..] == raw;
      assert ("https://" + raw)[..8] == "https://";
      "https://" + raw
  }

  /** A URL the front-end produced is trimmed. */
  lemma MainUrlTrimmed(field: string)
    ensures Trimmed(MainUrl(field))
  {
    var raw := Strip(field);
    StripIsTrimmed(field);
    if raw != [] {
      var r := MainUrl(field);
      assert r[|r| - 1] == raw[|raw| - 1];
      assert r[0] == 'h';
    }
  }

  /** Normalising a normalised URL changes nothing. */
  lemma MainUrlIdempotent(field: string)
    ensures MainUrl(MainUrl(field)) == MainUrl(field)
  {
    var r := MainUrl(field);
    MainUrlTrimmed(field);
    StripTrimmed(r);
  }

  /** The batch lines that are not blank, each stripped, in order. */
  function Kept(batch: seq<string>): seq<string>
    decreases |batch|
  {
    if batch == [] then []
    else
      var last := Strip(batch[|batch| - 1]);
      Kept(batch[..|batch| - 1]) + (if last != [] then [last] else [])
  }

  lemma KeptStep(batch: seq<string>, i: nat)
    requires i < |batch|
    ensures Kept(batch[..i + 1]) == Kept(batch[..i]) + (if Strip(batch[i]) != [] then [Strip(batch[i])] else [])
  {
    assert batch[..i + 1][..i] == batch[..i];
  }

  /** Every kept line is non-empty and trimmed, none is invented, and
      nothing is kept exactly when every line is blank. */
  lemma {:induction false} KeptProperties(batch: seq<string>)
    ensures |Kept(batch)| <= |batch|
    ensures forall i :: 0 <= i < |Kept(batch)| ==> Kept(batch)[i] != [] && Trimmed(Kept(batch)[i])
    ensures Kept(batch) == [] <==> forall i :: 0 <= i < |batch| ==> Strip(batch[i]) == []
    decreases |batch|
  {
    if batch != [] {
      var init := batch[..|batch| - 1];
      KeptProperties(init);
      StripIsTrimmed(batch[|batch| - 1]);
      assert forall i :: 0 <= i < |init| ==> init[i] == batch[i];
    }
  }

  /** The URL list `start_download_thread` hands on. */
  function Collected(field: string, batch: seq<string>): seq<string> {
    (if MainUrl(field) == [] then [] else [MainUrl(field)]) + Kept(batch)
  }

  /** Nothing is collected exactly when the URL entry and every batch
      line are blank. */
  lemma CollectedEmpty(field: string, batch: seq<string>)
    ensures Collected(field, batch) == [] <==> Strip(field) == [] && forall i :: 0 <= i < |batch| ==> Strip(batch[i]) == []
  {
    KeptProperties(batch);
  }

  /** Building the URL list: the main URL, if any, then each non-blank batch
      line, stripped. */
  method CollectUrls(field: string, batch: seq<string>) returns (urls: seq<string>)
    ensures urls == Collected(field, batch)
    ensures urls == [] <==> Strip(field) == [] && forall i :: 0 <= i < |batch| ==> Strip(batch[i]) == []
  {
    var main := MainUrl(field);
    urls := KeepLines(if main != [] then [main] else [], batch);
    CollectedEmpty(field, batch);
  }

  /** Append to `head` each batch line, stripped, that is not blank. */
  method KeepLines(head: seq<string>, batch: seq<string>) returns (urls: seq<string>)
    ensures urls == head + Kept(batch)
  {
    urls := head;
    for i := 0 to |batch|
      invariant urls == head + Kept(batch[..i])
    {
      KeptStep(batch, i);
      var u := Strip(batch[i]);
      if u != [] {
        Regroup(head, Kept(batch[..i]), [u]);
        urls := urls + [u];
      }
    }
    assert batch[..|batch|] == batch;
  }

  // ----- Options -----

  /** The download form as the user left it. */
  datatype Form = Form(
    url: string,
    targetFolder: string,
    mode: string,
    debug: bool,
    isPlaylist: bool,
    advanced: bool,
    template: string,
    useSubs: bool,
    format: string,
    quality: string,
    audioFmt: string,
    metadata: bool,
    artist: string,
    album: string)

  /** The quality label the worker expects: only "Best" is renamed. */
  function QualityName(choice: string): (r: string)
    ensures choice == "Best" ==> r == "Best Possible"
    ensures choice != "Best" ==> r == choice
  {
    if choice == "Best" then "Best Possible" else choice
  }

  /** The options record built from the form and the two configured paths. */
  function MapOptions(f: Form, ytPath: string, ffPath: string): (o: Options)
    ensures o.ytPath == ytPath && o.ffPath == ffPath
    ensures o.targetFolder == Strip(f.targetFolder) && o.mode == Lower(f.mode)
    ensures o.customTmpl == (if f.advanced then Strip(f.template) else [])
    ensures o.metaArtist == (if f.metadata then Strip(f.artist) else [])
    ensures o.metaAlbum == (if f.metadata then Strip(f.album) else [])
    ensures o.quality == QualityName(f.quality)
  {
    Options(
      ytPath := ytPath,
      ffPath := ffPath,
      targetFolder := Strip(f.targetFolder),
      mode := Lower(f.mode),
      debug := f.debug,
      isPlaylist := f.isPlaylist,
      customTmpl := if f.advanced then Strip(f.template) else [],
      useSubs := f.useSubs,
      format := f.format,
      quality := QualityName(f.quality),
      audioFmt := f.audioFmt,
      metaArtist := if f.metadata then Strip(f.artist) else [],
      metaAlbum := if f.metadata then Strip(f.album) else [])
  }

  /** With the advanced options hidden, whatever is in the template entry
      does not reach the command. */
  lemma TemplateHiddenUnlessAdvanced(f: Form, t: string, ytPath: string, ffPath: string, url: string, ffExists: bool)
    requires !f.advanced
    ensures BuildCommand(MapOptions(f, ytPath, ffPath), url, ffExists)
         == BuildCommand(MapOptions(f.(template := t), ytPath, ffPath), url, ffExists)
  {
  }

  /** With "Tag Metadata" unticked, whatever is in the artist and album
      entries does not reach the command. */
  lemma TagsHiddenUnlessMetadata(f: Form, artist: string, album: string, ytPath: string, ffPath: string,
                                 url: string, ffExists: bool)
    requires !f.metadata
    ensures BuildCommand(MapOptions(f, ytPath, ffPath), url, ffExists)
         == BuildCommand(MapOptions(f.(artist := artist, album := album), ytPath, ffPath), url, ffExists)
  {
  }

  /** The segmented button's "Video" selects video mode, and its "Best"
      quality then asks for the unrestricted format. */
  lemma BestVideoUnrestricted(f: Form, ytPath: string, ffPath: string, url: string, ffExists: bool)
    requires f.mode == "Video" && f.quality == "Best"
    ensures var o := MapOptions(f, ytPath, ffPath);
      var r := BuildCommand(o, url, ffExists);
      var m := MediaStart(o, ffExists);
      m + 1 < |r| && r[m] == "-f" && r[m + 1] == "bv+ba/b"
  {
    var o := MapOptions(f, ytPath, ffPath);
    assert Lower("Video") == "video";
    MediaSection(o, url, ffExists);
    VideoFormat(o.quality, o.format);
  }

  // ----- Starting a download -----

  /** What pressing the download button leads to. */
  datatype Start =
    | NoUrl                                  // "Error: No URL provided."
    | BadDownloaderPath                      // "Error: yt-dlp path invalid (Check Settings)"
    | Launch(urls: seq<string>, options: Options)

  function StatusText(s: Start): string
    requires !s.Launch?
  {
    if s.NoUrl? then "Error: No URL provided." else "Error: yt-dlp path invalid (Check Settings)"
  }

  /** `start_download_thread`: collect the URLs, refuse an empty list, refuse
      a downloader path that does not exist, else hand the URLs and the
      options to the worker. `ytExists` is whether the configured downloader
      path exists. */
  method StartDownload(f: Form, batch: seq<string>, config: seq<Pair>, ytExists: bool) returns (s: Start)
    requires Get(config, "ytdlp_path").Some? && Get(config, "ffmpeg_path").Some?
    ensures s.NoUrl? <==> Collected(f.url, batch) == []
    ensures s.BadDownloaderPath? <==> Collected(f.url, batch) != [] && !ytExists
    ensures s.Launch? ==> s.urls == Collected(f.url, batch) && s.urls != []
    ensures s.Launch? ==> s.options == MapOptions(f, Get(config, "ytdlp_path").value, Get(config, "ffmpeg_path").value)
  {
    var urls := CollectUrls(f.url, batch);
    if urls == [] {
      return NoUrl;
    }
    var ytPath := Get(config, "ytdlp_path").value;
    if !ytExists {
      return BadDownloaderPath;
    }
    var ffPath := Get(config, "ffmpeg_path").value;
    s := Launch(urls, MapOptions(f, ytPath, ffPath));
  }

  /** Every URL handed to the worker is non-empty and trimmed. */
  lemma LaunchedUrlsClean(field: string, batch: seq<string>)
    ensures forall i :: 0 <= i < |Collected(field, batch)| ==>
      Collected(field, batch)[i] != [] && Trimmed(Collected(field, batch)[i])
  {
    KeptProperties(batch);
    MainUrlTrimmed(field);
    var head := if MainUrl(field) == [] then [] else [MainUrl(field)];
    assert forall i :: 0 <= i < |Collected(field, batch)| ==>
      Collected(field, batch)[i] == if i < |head| then head[i] else Kept(batch)[i - |head|];
  }

  // ----- The settings alert -----

  /** The alert banner is shown while either tool path is empty. */
  function AlertShown(config: seq<Pair>): (r: bool)
    requires Get(config, "ytdlp_path").Some? && Get(config, "ffmpeg_path").Some?
    ensures r <==> Get(config, "ytdlp_path").value == [] || Get(config, "ffmpeg_path").value == []
  {
    Get(config, "ytdlp_path").value == [] || Get(config, "ffmpeg_path").value == []
  }

  /** Without a settings file, the alert is shown. */
  lemma FirstRunShowsAlert(home: string)
    ensures Get(Loaded(None, home), "ytdlp_path") == Some([])
    ensures Get(Loaded(None, home), "ffmpeg_path") == Some([])
    ensures AlertShown(Loaded(None, home))
  {
  }

  /** After settings with both tool paths filled in are saved and loaded
      again, the alert is hidden. */
  lemma SavedPathsHideAlert(c: seq<Pair>, home: string)
    requires Keys(c) == Keys(Defaults(home))
    requires forall i :: 0 <= i < |c| ==> ValueClean(c[i].1)
    requires |c| >= 2 && c[0].1 != [] && c[1].1 != []
    ensures Get(Loaded(Some(Serialised(c)), home), "ytdlp_path") == Some(c[0].1)
    ensures Get(Loaded(Some(Serialised(c)), home), "ffmpeg_path") == Some(c[1].1)
    ensures !AlertShown(Loaded(Some(Serialised(c)), home))
  {
    SaveLoadRoundTrip(c, home);
    DefaultKeyOrder(c, home);
    ToolPaths(c);
  }

  /** Where the two tool paths sit in settings that start with them. */
  lemma ToolPaths(c: seq<Pair>)
    requires |c| >= 2 && c[0].0 == "ytdlp_path" && c[1].0 == "ffmpeg_path"
    ensures Get(c, "ytdlp_path") == Some(c[0].1)
    ensures Get(c, "ffmpeg_path") == Some(c[1].1)
  {
    assert c[1..][0] == c[1];
  }

  // ----- Choosing a transcoder build -----

  /** The three tiers of auto-detection, best first: a Gyan shared build,
      then any Gyan or full build, then anything; SolidWorks' bundled copy
      is never picked by a tier. Matching ignores letter case. */
  predicate InTier(p: string, tier: nat) {
    var l := Lower(p);
    && !Contains(l, "solidworks")
    && (tier == 1 ==> Contains(l, "gyan") && Contains(l, "shared"))
    && (tier == 2 ==> Contains(l, "gyan") || Contains(l, "full"))
  }

  /** The first path of a tier, if any. */
  function FirstInTier(ps: seq<string>, tier: nat, i: nat): (r: Option<nat>)
    requires i <= |ps|
    ensures r.Some? ==> i <= r.value < |ps| && InTier(ps[r.value], tier)
    ensures forall j :: i <= j < |ps| && (r.None? || j < r.value) ==> !InTier(ps[j], tier)
    decreases |ps| - i
  {
    if i == |ps| then None
    else if InTier(ps[i], tier) then Some(i)
    else FirstInTier(ps, tier, i + 1)
  }

  /** The choice: the first path of the best tier that has one, falling
      back to the first path when no tier has one or when the third tier's
      first path is empty (an empty choice counts as none). */
  function Chosen(ps: seq<string>): string
    requires ps != []
  {
    match FirstInTier(ps, 1, 0)
    case Some(i) => ps[i]
    case None =>
      match FirstInTier(ps, 2, 0)
      case Some(i) => ps[i]
      case None =>
        match FirstInTier(ps, 3, 0)
        case Some(i) => if ps[i] == [] then ps[0] else ps[i]
        case None => ps[0]
  }

  /** The choice is one of the detected paths, comes from the best tier that
      has a path, and is the first path of that tier; when only the third
      tier has one, its first path is chosen unless it is empty, and with no
      tier at all the first path is. */
  lemma ChosenProperties(ps: seq<string>)
    requires ps != []
    ensures Chosen(ps) in ps
    ensures (exists i :: 0 <= i < |ps| && InTier(ps[i], 1)) ==>
      exists i :: 0 <= i < |ps| && InTier(ps[i], 1) && Chosen(ps) == ps[i]
        && forall j :: 0 <= j < i ==> !InTier(ps[j], 1)
    ensures (forall i :: 0 <= i < |ps| ==> !InTier(ps[i], 1)) && (exists i :: 0 <= i < |ps| && InTier(ps[i], 2)) ==>
      exists i :: 0 <= i < |ps| && InTier(ps[i], 2) && Chosen(ps) == ps[i]
        && forall j :: 0 <= j < i ==> !InTier(ps[j], 2)
    ensures (forall i :: 0 <= i < |ps| ==> !InTier(ps[i], 1) && !InTier(ps[i], 2)) ==>
      && (forall i :: 0 <= i < |ps| && InTier(ps[i], 3) && (forall j :: 0 <= j < i ==> !InTier(ps[j], 3)) ==>
            Chosen(ps) == if ps[i] == [] then ps[0] else ps[i])
      && ((forall i :: 0 <= i < |ps| ==> !InTier(ps[i], 3)) ==> Chosen(ps) == ps[0])
  {
    ChosenNamedTiers(ps);
    ChosenLastTier(ps);
  }

  /** The first two tiers of the choice. */
  lemma ChosenNamedTiers(ps: seq<string>)
    requires ps != []
    ensures Chosen(ps) in ps
    ensures (exists i :: 0 <= i < |ps| && InTier(ps[i], 1)) ==>
      exists i :: 0 <= i < |ps| && InTier(ps[i], 1) && Chosen(ps) == ps[i]
        && forall j :: 0 <= j < i ==> !InTier(ps[j], 1)
    ensures (forall i :: 0 <= i < |ps| ==> !InTier(ps[i], 1)) && (exists i :: 0 <= i < |ps| && InTier(ps[i], 2)) ==>
      exists i :: 0 <= i < |ps| && InTier(ps[i], 2) && Chosen(ps) == ps[i]
        && forall j :: 0 <= j < i ==> !InTier(ps[j], 2)
  {
    match FirstInTier(ps, 1, 0)
    case Some(i) =>
      assert Chosen(ps) == ps[i];
    case None =>
      match FirstInTier(ps, 2, 0)
      case Some(i) =>
        assert Chosen(ps) == ps[i];
      case None =>
        assert Chosen(ps) in ps;
  }

  /** The third tier of the choice and the fallback. */
  lemma ChosenLastTier(ps: seq<string>)
    requires ps != []
    ensures (forall i :: 0 <= i < |ps| ==> !InTier(ps[i], 1) && !InTier(ps[i], 2)) ==>
      && (forall i :: 0 <= i < |ps| && InTier(ps[i], 3) && (forall j :: 0 <= j < i ==> !InTier(ps[j], 3)) ==>
            Chosen(ps) == if ps[i] == [] then ps[0] else ps[i])
      && ((forall i :: 0 <= i < |ps| ==> !InTier(ps[i], 3)) ==> Chosen(ps) == ps[0])
  {
    if FirstInTier(ps, 1, 0).None? && FirstInTier(ps, 2, 0).None? {
      match FirstInTier(ps, 3, 0)
      case Some(k) =>
        assert Chosen(ps) == if ps[k] == [] then ps[0] else ps[k];
      case None =>
        assert Chosen(ps) == ps[0];
    }
  }

  /** With no empty path among them, SolidWorks' copy is chosen only when
      every path found is a SolidWorks one. */
  lemma SolidWorksLastResort(ps: seq<string>)
    requires ps != [] && forall i :: 0 <= i < |ps| ==> ps[i] != []
    requires Contains(Lower(Chosen(ps)), "solidworks")
    ensures Chosen(ps) == ps[0]
    ensures forall i :: 0 <= i < |ps| ==> Contains(Lower(ps[i]), "solidworks")
  {
  }

  /** A path of the first two tiers names "gyan" or "full", so it is never
      empty. */
  lemma NamedTierNonEmpty(p: string, tier: nat)
    requires (tier == 1 || tier == 2) && InTier(p, tier)
    ensures p != []
  {
  }

  /** One tier's scan: the first path of the tier, if any. */
  method ScanTier(ps: seq<string>, tier: nat) returns (found: Option<nat>)
    ensures found == FirstInTier(ps, tier, 0)
  {
    found := None;
    var i := 0;
    while i < |ps|
      invariant 0 <= i <= |ps|
      invariant FirstInTier(ps, tier, 0) == FirstInTier(ps, tier, i)
    {
      if InTier(ps[i], tier) {
        return Some(i);
      }
      i := i + 1;
    }
  }

  /** The auto-detection's choice among the transcoder paths found, or none
      when none was found. */
  method PickFfmpeg(ps: seq<string>) returns (best: Option<string>)
    ensures ps == [] <==> best.None?
    ensures best.Some? ==> best.value == Chosen(ps) && best.value in ps
  {
    if ps == [] {
      return None;
    }
    var choice: string := [];
    var t1 := ScanTier(ps, 1);
    if t1.Some? {
      choice := ps[t1.value];
      NamedTierNonEmpty(choice, 1);
    }
    if choice == [] {
      var t2 := ScanTier(ps, 2);
      if t2.Some? {
        choice := ps[t2.value];
        NamedTierNonEmpty(choice, 2);
      }
    }
    if choice == [] {
      var t3 := ScanTier(ps, 3);
      if t3.Some? {
        choice := ps[t3.value];
      }
    }
    if choice == [] {
      choice := ps[0];
    }
    ChosenProperties(ps);
    best := Some(choice);
  }

  // ----- History actions -----

  /** What the delete button of a history card leads to. */
  datatype Deletion =
    | Declined                             // the user answered no
    | CannotDelete                         // the file exists and removing it failed
    | Deleted(history: seq<Entry>)         // the list saved afterwards

  /** `delete_ui_action`: after confirmation, remove the file when it
      exists (stopping on failure), then save the history without every
      entry for that path. `h` is the stored history, `fileExists` and
      `removed` what the file system reports. */
  function DeleteEntry(h: seq<Entry>, e: Entry, confirmed: bool, fileExists: bool, removed: bool): (r: Deletion)
    ensures r.Declined? <==> !confirmed
    ensures r.CannotDelete? <==> confirmed && fileExists && !removed
    ensures r.Deleted? ==> PathAbsent(r.history, e.path) && |r.history| <= |h|
    ensures r.Deleted? ==> forall x :: x in r.history <==> x in h && x.path != e.path
  {
    if !confirmed then Declined
    else if fileExists && !removed then CannotDelete
    else Deleted(WithoutPath(h, e.path))
  }

  /** Deleting keeps the stored list's invariant, and removes exactly one
      entry when the path was stored once. */
  lemma DeleteKeepsInvariant(h: seq<Entry>, e: Entry, fileExists: bool, removed: bool, j: nat)
    requires UniquePaths(h) && |h| <= Cap
    requires DeleteEntry(h, e, true, fileExists, removed).Deleted?
    ensures UniquePaths(DeleteEntry(h, e, true, fileExists, removed).history)
    ensures j < |h| && h[j].path == e.path ==>
      DeleteEntry(h, e, true, fileExists, removed).history == h[..j] + h[j + 1..]
  {
    WithoutPathUnique(h, e.path);
    if j < |h| && h[j].path == e.path {
      WithoutStoredPath(h, e.path, j);
    }
  }

  /** `delete_all_action`: nothing happens for an empty history; otherwise,
      after confirmation, the empty list is saved. The result is the list
      saved, if any. */
  function ClearHistory(h: seq<Entry>, confirmed: bool): (r: Option<seq<Entry>>)
    ensures r.Some? <==> h != [] && confirmed
    ensures r.Some? ==> r.value == []
  {
    if h == [] then None
    else if confirmed then Some([])
    else None
  }
}
