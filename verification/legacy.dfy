/** The earlier single-file version of the program (legacy/yt-mini.py):
    its `download_process` worker, with its own URL collection, command
    builder, record parser and tally, and its history actions. Its
    `load_config`, `save_config`, `format_size` and `add_to_history` follow the
    same logic as the current ones and are modelled by `Config`, `SizeFormat`
    and `History`. */
module Legacy {
  import opened Wrappers
  import opened Seqs
  import opened Text
  import opened Paths
  import opened SizeFormat
  import opened Config
  import opened History
  import opened Command
  import opened Output
  import opened Batch
  import Front

  const NoUrlsText: string := "Error: No URLs provided"
  const BadDownloaderText: string := "Error: yt-dlp path invalid"
  const FfmpegNeededText: string := "Error: FFmpeg needed for audio"
  const AllFailedText: string := "All downloads failed."

  // ----- URLs -----

  /** The URL list: the stripped URL entry, if not empty, with no scheme
      added, then each non-blank batch line, stripped. */
  function LegacyUrls(field: string, batch: seq<string>): seq<string> {
    (if Strip(field) == [] then [] else [Strip(field)]) + Front.Kept(batch)
  }

  /** Nothing is collected exactly when the URL entry and every batch
      line are blank. */
  lemma LegacyUrlsEmpty(field: string, batch: seq<string>)
    ensures LegacyUrls(field, batch) == [] <==> Strip(field) == [] && forall i :: 0 <= i < |batch| ==> Strip(batch[i]) == []
  {
    Front.KeptProperties(batch);
  }

  method CollectLegacyUrls(field: string, batch: seq<string>) returns (urls: seq<string>)
    ensures urls == LegacyUrls(field, batch)
    ensures urls == [] <==> Strip(field) == [] && forall i :: 0 <= i < |batch| ==> Strip(batch[i]) == []
  {
    var main := Strip(field);
    urls := Front.KeepLines(if main != [] then [main] else [], batch);
    LegacyUrlsEmpty(field, batch);
  }

  /** The two versions collect the same URLs when the entry already names
      its scheme; otherwise only the current one adds "https://". */
  lemma UrlsAcrossVersions(field: string, batch: seq<string>)
    ensures StartsWith(Strip(field), "http://") || StartsWith(Strip(field), "https://") || Strip(field) == []
      ==> LegacyUrls(field, batch) == Front.Collected(field, batch)
    ensures !(StartsWith(Strip(field), "http://") || StartsWith(Strip(field), "https://")) && Strip(field) != []
      ==> Front.Collected(field, batch)[0] == "https://" + LegacyUrls(field, batch)[0]
  {
  }

  // ----- The command -----

  /** The legacy form, as the worker reads it. */
  datatype LegacyForm = LegacyForm(
    url: string,
    targetFolder: string,
    mode: string,
    isPlaylist: bool,
    advanced: bool,
    template: string,
    useSubs: bool,
    format: string,
    quality: string,
    audio: string,
    metadata: bool,
    artist: string,
    album: string)

  /** The codec: the lower-cased text before the first " - " of the audio
      choice. */
  function LegacyCodec(choice: string): string {
    Lower(Split(choice, " - ")[0])
  }

  /** For a choice "Name - details" whose name has no space, the codec is
      the lower-cased name. */
  lemma LegacyCodecOfLabel(name: string, rest: string)
    requires forall i :: 0 <= i < |name| ==> name[i] != ' '
    ensures LegacyCodec(name + " - " + rest) == Lower(name)
  {
    var s := name + " - " + rest;
    forall j | 0 <= j < |name| ensures !OccursAt(s, " - ", j) {
      assert s[j] == name[j];
    }
    FindAfterClean(name, " - ", rest);
    assert s[..|name|] == name;
  }

  /** A choice without " - " is its own codec, lower-cased. */
  lemma LegacyCodecWhole(choice: string)
    requires !Contains(choice, " - ")
    ensures LegacyCodec(choice) == Lower(choice)
  {
  }

  /** The quality: "0" for a choice containing "High", "5" for one
      containing "Medium", "10" otherwise; letter case matters. */
  function LegacyQuality(choice: string): string {
    if Contains(choice, "High") then "0"
    else if Contains(choice, "Medium") then "5"
    else "10"
  }

  /** Where the legacy quality is the best, the current one is too: the
      current test ignores letter case. */
  lemma QualityAcrossVersions(choice: string)
    ensures LegacyQuality(choice) == "0" ==> AudioQuality(choice) == "0"
  {
    if Contains(choice, "High") {
      var j := Find(choice, "High").value;
      HighLabelIsBest(choice, j);
    }
  }

  /** The audio arguments, the tags only when the metadata box is ticked and
      an artist or an album is given. */
  function LegacyAudioArgs(choice: string, metadata: bool, artist: string, album: string): seq<string> {
    ["-x", "--audio-format", LegacyCodec(choice), "--audio-quality", LegacyQuality(choice)]
    + (if metadata && (artist != [] || album != []) then ["--postprocessor-args", MetaArg(artist, album)] else [])
  }

  /** `--postprocessor-args` is present exactly when the box is ticked and an
      artist or an album is given, and then each tag is present exactly
      when its value is. */
  lemma LegacyMetadata(choice: string, metadata: bool, artist: string, album: string)
    ensures var a := LegacyAudioArgs(choice, metadata, artist, album);
      && (|a| == 7 <==> metadata && (artist != [] || album != []))
      && (|a| == 7 ==> a[5] == "--postprocessor-args" && a[6] == MetaArg(artist, album))
      && (|a| != 7 ==> |a| == 5)
  {
  }

  function LegacyMedia(f: LegacyForm): seq<string> {
    if f.mode == "video" then VideoArgs(f.quality, f.format)
    else LegacyAudioArgs(f.audio, f.metadata, Strip(f.artist), Strip(f.album))
  }

  /** The template entry counts only when the advanced options are on. */
  function LegacyTemplate(f: LegacyForm): string {
    if f.advanced then Strip(f.template) else []
  }

  /** The command for one URL, when the batch does not stop. */
  function LegacyCommand(f: LegacyForm, ytPath: string, ffPath: string, ffExists: bool, url: string): seq<string> {
    [ytPath] + TemplateArgs(f.isPlaylist, LegacyTemplate(f)) + ["--print", DataTemplate]
    + SubsArgs(f.useSubs) + FfmpegArgs(ffExists, ffPath) + LegacyMedia(f) + [url]
  }

  /** Sound mode without the transcoder stops the batch. */
  predicate Aborts(f: LegacyForm, ffExists: bool) {
    !ffExists && f.mode == "sound"
  }

  /** The options record the current version would build for the same form
      in video mode. */
  function AsOptions(f: LegacyForm, ytPath: string, ffPath: string): Options {
    Options(ytPath, ffPath, Strip(f.targetFolder), f.mode, false, f.isPlaylist, LegacyTemplate(f),
            f.useSubs, f.format, f.quality, f.audio, [], [])
  }

  /** In video mode both versions build the same command: the same template
      priority, print template, subtitle and transcoder flags and format
      arguments. */
  lemma VideoAcrossVersions(f: LegacyForm, ytPath: string, ffPath: string, ffExists: bool, url: string)
    requires f.mode == "video"
    ensures LegacyCommand(f, ytPath, ffPath, ffExists, url) == BuildCommand(AsOptions(f, ytPath, ffPath), url, ffExists)
  {
  }

  /** The command's frame: the downloader path, the template, the print
      template, and the URL last; the custom template only with the advanced
      options on. */
  lemma LegacyCommandFrame(f: LegacyForm, ytPath: string, ffPath: string, ffExists: bool, url: string)
    ensures var r := LegacyCommand(f, ytPath, ffPath, ffExists, url);
      && |r| >= 12
      && r[0] == ytPath && r[1] == "-o"
      && r[4] == "--print" && r[5] == DataTemplate
      && r[|r| - 1] == url
      && (f.isPlaylist ==> r[2] == PlaylistTemplate && r[3] == "--yes-playlist")
      && (!f.isPlaylist && f.advanced && Strip(f.template) != [] ==> r[2] == WithExtSuffix(Strip(f.template)))
      && (!f.isPlaylist && !(f.advanced && Strip(f.template) != []) ==> r[2] == DefaultTemplate)
      && (!f.isPlaylist ==> r[3] == "--no-playlist")
  {
    var head := [ytPath] + TemplateArgs(f.isPlaylist, LegacyTemplate(f)) + ["--print", DataTemplate];
    var r := LegacyCommand(f, ytPath, ffPath, ffExists, url);
    LegacyHead(f, ytPath, ffPath, ffExists, url);
    assert forall i :: 0 <= i < 6 ==> r[i] == r[..6][i] == head[i];
  }

  /** The command starts with the downloader, the template arguments and
      the print template, and ends with the URL. */
  lemma LegacyHead(f: LegacyForm, ytPath: string, ffPath: string, ffExists: bool, url: string)
    ensures var r := LegacyCommand(f, ytPath, ffPath, ffExists, url);
      && |r| >= 12 && r[|r| - 1] == url
      && r[..6] == [ytPath] + TemplateArgs(f.isPlaylist, LegacyTemplate(f)) + ["--print", DataTemplate]
  {
    var head := [ytPath] + TemplateArgs(f.isPlaylist, LegacyTemplate(f)) + ["--print", DataTemplate];
    Framed(head, SubsArgs(f.useSubs), FfmpegArgs(ffExists, ffPath), LegacyMedia(f), url);
  }

  /** The command builder of a batch. */
  function LegacyBuilder(f: LegacyForm, ytPath: string, ffPath: string, ffExists: bool): string -> seq<string> {
    url => LegacyCommand(f, ytPath, ffPath, ffExists, url)
  }

  // ----- Records -----

  /** The history entry a `DATA::` line yields: the same fields as the
      current parser, with the path kept as printed. */
  function LegacyRecord(line: string): (r: Option<Entry>)
    ensures r.Some? <==> StartsWith(line, "DATA::") && |Split(line, "::")| >= 5
    ensures r.Some? ==> Trimmed(r.value.path)
  {
    if StartsWith(line, "DATA::") then
      var parts := Split(line, "::");
      if |parts| >= 5 then
        StripIsTrimmed(parts[1]);
        Some(Entry(Strip(parts[1]), Strip(parts[2]), Strip(parts[3]), SizeTextOf(parts[4])))
      else None
    else None
  }

  /** A tagged line with fewer than four clean fields is ignored; with four
      or more, the first four give the entry, with the path stripped but
      kept as printed. */
  lemma LegacyRecordOfTagged(fields: seq<string>)
    requires forall i :: 0 <= i < |fields| ==> CleanField(fields[i])
    ensures |fields| < 4 ==> LegacyRecord(Tagged(fields)) == None
    ensures |fields| >= 4 ==>
      LegacyRecord(Tagged(fields)) == Some(Entry(Strip(fields[0]), Strip(fields[1]), Strip(fields[2]), SizeTextOf(fields[3])))
  {
    SplitTagged(fields);
    if |fields| >= 4 {
      var parts := ["DATA"] + fields;
      assert parts[1] == fields[0] && parts[2] == fields[1] && parts[3] == fields[2] && parts[4] == fields[3];
    }
  }

  /** The current parser accepts exactly the lines the legacy one does, and
      differs only in making the path absolute. */
  lemma RecordAcrossVersions(line: string, target: string, cwd: string)
    requires IsAbs(cwd)
    ensures RecordOf(line, target, cwd).Some? <==> LegacyRecord(line).Some?
    ensures LegacyRecord(line).Some? ==>
      RecordOf(line, target, cwd).value == LegacyRecord(line).value.(path := FullPath(LegacyRecord(line).value.path, target, cwd))
  {
  }

  // ----- The tally -----

  /** A launch that ended with exit code 0. */
  predicate Succeeded(run: Run) {
    run.Launched? && run.exitCode == 0
  }

  /** How many of the first `i` launches succeeded. */
  function Successes(runs: seq<Run>, i: nat): nat
    requires i <= |runs|
  {
    if i == 0 then 0 else Successes(runs, i - 1) + (if Succeeded(runs[i - 1]) then 1 else 0)
  }

  /** The entries a launch stores: its records, only when it succeeded. */
  function OkRecords(run: Run, parse: string -> Option<Entry>): seq<Entry> {
    if Succeeded(run) then LineRecords(run.lines, parse) else []
  }

  function AllOkRecords(runs: seq<Run>, i: nat, parse: string -> Option<Entry>): seq<Entry>
    requires i <= |runs|
  {
    if i == 0 then [] else AllOkRecords(runs, i - 1, parse) + OkRecords(runs[i - 1], parse)
  }

  /** What is reported for item `k` (0-based) of `n`: its position, then the
      launch. */
  function LegacyHeader(k: nat, n: nat, command: seq<string>): seq<Effect> {
    [Status(ProcessingText(k + 1, n), "blue"), Launch(command)]
  }

  function ItemsTrace(urls: seq<string>, i: nat, build: string -> seq<string>): seq<Effect>
    requires i <= |urls|
  {
    if i == 0 then [] else ItemsTrace(urls, i - 1, build) + LegacyHeader(i - 1, |urls|, build(urls[i - 1]))
  }

  lemma ItemsStep(urls: seq<string>, runs: seq<Run>, i: nat, build: string -> seq<string>, parse: string -> Option<Entry>)
    requires i < |urls| == |runs|
    ensures AllOkRecords(runs, i + 1, parse) == AllOkRecords(runs, i, parse) + OkRecords(runs[i], parse)
    ensures Successes(runs, i + 1) == Successes(runs, i) + (if Succeeded(runs[i]) then 1 else 0)
    ensures ItemsTrace(urls, i + 1, build) == ItemsTrace(urls, i, build) + LegacyHeader(i, |urls|, build(urls[i]))
  {
  }

  /** The final message for `k` successes out of `n` URLs. */
  function LegacyOutcome(k: nat, n: nat): Effect {
    if k == n then Finish(true, AllComplete)
    else if k > 0 then Finish(true, CompletedText(k, n))
    else Finish(false, AllFailedText)
  }

  /** The success count is at most the number of URLs; it is all of them
      exactly when every launch succeeded and none of them exactly when no
      launch did. */
  lemma {:induction false} SuccessesBounds(runs: seq<Run>, i: nat)
    requires i <= |runs|
    ensures Successes(runs, i) <= i
    ensures Successes(runs, i) == i <==> forall j :: 0 <= j < i ==> Succeeded(runs[j])
    ensures Successes(runs, i) == 0 <==> forall j :: 0 <= j < i ==> !Succeeded(runs[j])
  {
    if i > 0 {
      SuccessesBounds(runs, i - 1);
    }
  }

  /** Only the exit codes count: what the processes printed never changes
      the tally. */
  lemma {:induction false} OnlyExitCodesCount(runs1: seq<Run>, runs2: seq<Run>, i: nat)
    requires i <= |runs1| == |runs2|
    requires forall j :: 0 <= j < |runs1| ==> (Succeeded(runs1[j]) <==> Succeeded(runs2[j]))
    ensures Successes(runs1, i) == Successes(runs2, i)
  {
    if i > 0 {
      OnlyExitCodesCount(runs1, runs2, i - 1);
    }
  }

  /** For a non-empty batch, the three outcomes: complete exactly when every
      URL succeeded, partial when some did, failed when none did. */
  lemma LegacyOutcomeCases(k: nat, n: nat)
    requires 0 < n && k <= n
    ensures LegacyOutcome(k, n) == Finish(true, AllComplete) <==> k == n
    ensures LegacyOutcome(k, n) == Finish(true, CompletedText(k, n)) <==> 0 < k < n
    ensures LegacyOutcome(k, n) == Finish(false, AllFailedText) <==> k == 0
  {
    assert CompletedText(k, n)[0] == 'C';
  }

  /** The versions tally differently: a launch that ends with code 0
      without printing a record counts in the legacy version only, and one
      that prints a record but ends with code 1 counts in the current one
      only. */
  lemma TallyAcrossVersions(path: string, title: string, duration: string, size: string, target: string, cwd: string)
    requires IsAbs(cwd)
    requires CleanField(path) && CleanField(title) && CleanField(duration) && CleanField(size)
    ensures var quiet := [Launched([], 0)];
      Successes(quiet, 1) == 1 && |BatchRecords(quiet, 1, Parser(target, cwd))| == 0
    ensures var failed := [Launched([DataLine(path, title, duration, size)], 1)];
      Successes(failed, 1) == 0 && |BatchRecords(failed, 1, Parser(target, cwd))| == 1
  {
    var line := DataLine(path, title, duration, size);
    RecordOfDataLine(path, title, duration, size, target, cwd);
    assert [line][..0] == [];
    assert LineRecords([line], Parser(target, cwd)) == [] + AsList(RecordOf(line, target, cwd));
  }

  // ----- The history actions -----

  /** The history after `delete_file`: after confirmation the entry is
      hidden whether or not removing the file worked. */
  function LegacyDeleted(h: seq<Entry>, e: Entry, confirmed: bool): seq<Entry> {
    if confirmed then WithoutPath(h, e.path) else h
  }

  /** Where the current version refuses, because removing the file failed,
      the legacy one still drops the entry. */
  lemma DeleteAcrossVersions(h: seq<Entry>, e: Entry)
    ensures Front.DeleteEntry(h, e, true, true, false).CannotDelete?
    ensures LegacyDeleted(h, e, true) == WithoutPath(h, e.path) && PathAbsent(LegacyDeleted(h, e, true), e.path)
  {
  }

  /** Storing the records of one more line adds its record, if any. */
  lemma StoreStep(h: seq<Entry>, lines: seq<string>, j: nat, parse: string -> Option<Entry>)
    requires j < |lines|
    ensures parse(lines[j]).None? ==>
      AddAll(h, LineRecords(lines[..j + 1], parse)) == AddAll(h, LineRecords(lines[..j], parse))
    ensures parse(lines[j]).Some? ==>
      AddAll(h, LineRecords(lines[..j + 1], parse)) == Add(AddAll(h, LineRecords(lines[..j], parse)), parse(lines[j]).value)
  {
    var before := LineRecords(lines[..j], parse);
    assert lines[..j + 1][..j] == lines[..j];
    AddAllAppend(h, before, AsList(parse(lines[j])));
    if parse(lines[j]).None? {
      assert before + [] == before;
    } else {
      assert [parse(lines[j]).value][..0] == [];
    }
  }

  // ----- The worker -----

  /** The legacy program's state: the settings it holds, the settings
      file, the stored history and the worker's effects so far. */
  class LegacyApp {
    var appConfig: seq<Pair>
    var configFile: Option<string>
    var history: seq<Entry>
    var trace: seq<Effect>

    constructor(c: seq<Pair>, file: Option<string>, h: seq<Entry>)
      ensures appConfig == c && configFile == file && history == h && trace == []
    {
      appConfig := c;
      configFile := file;
      history := h;
      trace := [];
    }

    /** `add_to_history(entry)`: filter out the path, insert at the head,
        keep 50. */
    method AddToHistory(e: Entry)
      modifies this
      ensures history == Add(old(history), e)
      ensures appConfig == old(appConfig) && configFile == old(configFile) && trace == old(trace)
    {
      var h := WithoutPath(history, e.path);
      h := [e] + h;
      if |h| > Cap {
        h := h[..Cap];
      }
      history := h;
    }

    /** `hide_entry(entry)`: drop every entry with the entry's path. */
    method HideEntry(e: Entry)
      modifies this
      ensures history == WithoutPath(old(history), e.path)
      ensures appConfig == old(appConfig) && configFile == old(configFile) && trace == old(trace)
    {
      history := WithoutPath(history, e.path);
    }

    /** `delete_file(entry)`: after confirmation, try to remove the file and
        hide the entry in any case. */
    method DeleteFile(e: Entry, confirmed: bool)
      modifies this
      ensures history == LegacyDeleted(old(history), e, confirmed)
      ensures appConfig == old(appConfig) && configFile == old(configFile) && trace == old(trace)
    {
      if confirmed {
        HideEntry(e);
      }
    }

    /** Store the record of each output line that carries one. */
    method StoreRecords(lines: seq<string>, parse: string -> Option<Entry>)
      modifies this
      ensures history == AddAll(old(history), LineRecords(lines, parse))
      ensures appConfig == old(appConfig) && configFile == old(configFile) && trace == old(trace)
    {
      var h0 := history;
      for j := 0 to |lines|
        invariant history == AddAll(h0, LineRecords(lines[..j], parse))
        invariant appConfig == old(appConfig) && configFile == old(configFile) && trace == old(trace)
      {
        StoreStep(h0, lines, j, parse);
        var record := parse(lines[j]);
        if record.Some? {
          AddToHistory(record.value);
        }
      }
      assert lines[..|lines|] == lines;
    }

    /** One URL: report its position, launch, and on exit code 0 count it
        and store its records. */
    method RunItem(k: nat, n: nat, command: seq<string>, run: Run, parse: string -> Option<Entry>)
      returns (ok: bool)
      modifies this
      ensures ok == Succeeded(run)
      ensures history == AddAll(old(history), OkRecords(run, parse))
      ensures trace == old(trace) + LegacyHeader(k, n, command)
      ensures appConfig == old(appConfig) && configFile == old(configFile)
    {
      trace := trace + LegacyHeader(k, n, command);
      ok := Succeeded(run);
      if ok {
        StoreRecords(run.lines, parse);
      }
    }

    /** The loop over the URLs, then the final message. */
    method RunItems(urls: seq<string>, runs: seq<Run>, build: string -> seq<string>,
                    parse: string -> Option<Entry>)
      returns (successCount: nat)
      requires |runs| == |urls|
      modifies this
      ensures successCount == Successes(runs, |runs|)
      ensures history == AddAll(old(history), AllOkRecords(runs, |runs|, parse))
      ensures trace == old(trace) + ItemsTrace(urls, |urls|, build) + [LegacyOutcome(successCount, |urls|)]
      ensures appConfig == old(appConfig) && configFile == old(configFile)
    {
      var h0, t0 := history, trace;
      successCount := 0;
      assert t0 + [] == t0;
      for i := 0 to |urls|
        invariant history == AddAll(h0, AllOkRecords(runs, i, parse))
        invariant successCount == Successes(runs, i)
        invariant trace == t0 + ItemsTrace(urls, i, build)
        invariant appConfig == old(appConfig) && configFile == old(configFile)
      {
        ItemsStep(urls, runs, i, build, parse);
        AddAllAppend(h0, AllOkRecords(runs, i, parse), OkRecords(runs[i], parse));
        Regroup(t0, ItemsTrace(urls, i, build), LegacyHeader(i, |urls|, build(urls[i])));
        var ok := RunItem(i, |urls|, build(urls[i]), runs[i], parse);
        if ok {
          successCount := successCount + 1;
        }
      }
      trace := trace + [LegacyOutcome(successCount, |urls|)];
    }

    /** Record the download folder in the settings and write them out. */
    method SaveFolder(folder: string)
      modifies this
      ensures appConfig == Put(old(appConfig), "download_path", folder)
      ensures configFile == Some(Serialised(appConfig))
      ensures history == old(history) && trace == old(trace)
    {
      appConfig := Put(appConfig, "download_path", folder);
      var text := SaveConfig(appConfig);
      configFile := Some(text);
    }

    /** `download_process()`, with `runs[i]` what the process launched for
        the `i`-th URL produced, `ytExists` and `ffExists` whether the
        configured tool paths exist, and `home` the user's home directory.
        The tool paths come from the settings file; the download folder is
        saved to it before the first launch. */
    method DownloadProcess(f: LegacyForm, batch: seq<string>, home: string, ytExists: bool, ffExists: bool, runs: seq<Run>)
      requires |runs| == |LegacyUrls(f.url, batch)|
      modifies this
      ensures var urls := LegacyUrls(f.url, batch);
        urls == [] ==>
          && trace == old(trace) + [Finish(false, NoUrlsText)]
          && history == old(history) && appConfig == old(appConfig) && configFile == old(configFile)
      ensures var urls := LegacyUrls(f.url, batch);
        urls != [] && !ytExists ==>
          && trace == old(trace) + [Finish(false, BadDownloaderText)]
          && history == old(history) && appConfig == old(appConfig) && configFile == old(configFile)
      ensures var urls := LegacyUrls(f.url, batch);
        urls != [] && ytExists ==>
          && appConfig == Put(old(appConfig), "download_path", Strip(f.targetFolder))
          && configFile == Some(Serialised(appConfig))
      ensures var urls := LegacyUrls(f.url, batch);
        urls != [] && ytExists && Aborts(f, ffExists) ==>
          && history == old(history)
          && trace == old(trace) + [Status(ProcessingText(1, |urls|), "blue"), Finish(false, FfmpegNeededText)]
      ensures var urls := LegacyUrls(f.url, batch);
        var conf := Loaded(old(configFile), home);
        var build := LegacyBuilder(f, ValueOf(conf, "ytdlp_path"), ValueOf(conf, "ffmpeg_path"), ffExists);
        urls != [] && ytExists && !Aborts(f, ffExists) ==>
          && history == AddAll(old(history), AllOkRecords(runs, |runs|, LegacyRecord))
          && trace == old(trace) + ItemsTrace(urls, |urls|, build) + [LegacyOutcome(Successes(runs, |runs|), |urls|)]
    {
      var urls := CollectLegacyUrls(f.url, batch);
      if urls == [] {
        trace := trace + [Finish(false, NoUrlsText)];
        return;
      }
      var conf := LoadConfig(configFile, home);
      var ytPath := ValueOf(conf, "ytdlp_path");
      var ffPath := ValueOf(conf, "ffmpeg_path");
      if !ytExists {
        trace := trace + [Finish(false, BadDownloaderText)];
        return;
      }
      SaveFolder(Strip(f.targetFolder));
      // The transcoder test sits inside the loop, but nothing it reads
      // changes between items, so it stops the batch at the first one.
      if Aborts(f, ffExists) {
        trace := trace + [Status(ProcessingText(1, |urls|), "blue"), Finish(false, FfmpegNeededText)];
        return;
      }
      var count := RunItems(urls, runs, LegacyBuilder(f, ytPath, ffPath, ffExists), LegacyRecord);
    }
  }

  /** A setting's value; the settings `load_config` returns always hold the
      two tool paths. */
  function ValueOf(c: seq<Pair>, key: string): string {
    match Get(c, key)
    case Some(v) => v
    case None => []
  }

  /** The loaded settings hold both tool paths, so `ValueOf` never falls
      back for them. */
  lemma LoadedToolPaths(file: Option<string>, home: string)
    ensures Get(Loaded(file, home), "ytdlp_path") == Some(ValueOf(Loaded(file, home), "ytdlp_path"))
    ensures Get(Loaded(file, home), "ffmpeg_path") == Some(ValueOf(Loaded(file, home), "ffmpeg_path"))
  {
    var c := Loaded(file, home);
    LoadedKeys(file, home);
    GetIffKey(c, "ytdlp_path");
    GetIffKey(c, "ffmpeg_path");
  }
}
