/** The argument vector `run_download_logic` builds for one URL before it
    launches the downloader (logic.py). The options record is the dictionary
    the front-end passes in; whether the transcoder path exists on disk is a
    parameter. */
module Command {
  import opened Wrappers
  import opened Text
  import opened Seqs

  /** The `options` dictionary. */
  datatype Options = Options(
    ytPath: string,
    ffPath: string,
    targetFolder: string,
    mode: string,
    debug: bool,
    isPlaylist: bool,
    customTmpl: string,
    useSubs: bool,
    format: string,
    quality: string,
    audioFmt: string,
    metaArtist: string,
    metaAlbum: string)

  const PlaylistTemplate: string := "%(playlist_title)s/%(playlist_index)s - %(title)s.%(ext)s"
  const DefaultTemplate: string := "%(title)s.%(ext)s"
  const ExtSuffix: string := ".%(ext)s"

  /** The `--print` template: after the file is moved into place the
      downloader prints one `DATA::path::title::duration::size` line. */
  const DataTemplate: string := "after_move:DATA::%(filepath)s::%(title)s::%(duration_string)s::%(filesize,filesize_approx)s"

  const SubsFlags: seq<string> := ["--write-subs", "--sub-langs", "en,.*"]

  /** A custom template with `.%(ext)s` appended unless it already ends so. */
  function WithExtSuffix(t: string): string {
    if EndsWith(t, ExtSuffix) then t else t + ExtSuffix
  }

  /** The output template and the playlist switch, by priority: playlist,
      then a non-empty custom template, then the title template. */
  function TemplateArgs(isPlaylist: bool, customTmpl: string): seq<string> {
    if isPlaylist then ["-o", PlaylistTemplate, "--yes-playlist"]
    else if customTmpl != "" then ["-o", WithExtSuffix(customTmpl), "--no-playlist"]
    else ["-o", DefaultTemplate, "--no-playlist"]
  }

  function SubsArgs(useSubs: bool): seq<string> {
    if useSubs then SubsFlags else []
  }

  function FfmpegArgs(ffExists: bool, ffPath: string): seq<string> {
    if ffExists then ["--ffmpeg-location", ffPath] else []
  }

  /** The quality-choice-to-height table; labels not in it mean 720. */
  const HeightTable: map<string, string> := map[
    "144" := "144", "240" := "240", "360" := "360", "720" := "720",
    "1440" := "1440", "2k" := "1440", "4k" := "2160"]

  function HeightFor(quality: string): string {
    if quality in HeightTable then HeightTable[quality] else "720"
  }

  /** The `-f` format expression for a quality choice. */
  function FormatExpr(quality: string): string {
    if quality == "Best Possible" then "bv+ba/b"
    else
      var h := HeightFor(quality);
      "bv*[height<=" + h + "]+ba/b[height<=" + h + "]"
  }

  function VideoArgs(quality: string, format: string): seq<string> {
    ["-f", FormatExpr(quality)]
    + (if Contains(format, "WebM") then ["-S", "vcodec:vp9", "--merge-output-format", "webm"]
       else ["-S", "vcodec:h264", "--merge-output-format", "mp4"])
  }

  /** The codec keywords, in the order they are tried. */
  const CodecKeywords: seq<string> := ["opus", "aac", "m4a", "vorbis", "wav"]

  /** The index of the first keyword from `i` on that occurs in `text`. */
  function FirstKeyword(text: string, keywords: seq<string>, i: nat): (r: Option<nat>)
    requires i <= |keywords|
    ensures r.Some? ==> i <= r.value < |keywords| && Contains(text, keywords[r.value])
    ensures forall j :: i <= j < |keywords| && (r.None? || j < r.value) ==> !Contains(text, keywords[j])
    decreases |keywords| - i
  {
    if i == |keywords| then None
    else if Contains(text, keywords[i]) then Some(i)
    else FirstKeyword(text, keywords, i + 1)
  }

  /** The codec named by an audio choice: the first keyword found in the
      lower-cased choice, else mp3. */
  function AudioCodec(choice: string): string {
    match FirstKeyword(Lower(choice), CodecKeywords, 0)
    case Some(i) => CodecKeywords[i]
    case None => "mp3"
  }

  /** The downloader's quality scale: "0" best, "10" worst. */
  function AudioQuality(choice: string): string {
    var raw := Lower(choice);
    if Contains(raw, "high") then "0"
    else if Contains(raw, "medium") then "5"
    else "10"
  }

  /** One `-metadata name="value" ` tag, or nothing for an empty value. */
  function MetaTag(name: string, value: string): string {
    if value == "" then "" else "-metadata " + name + "=\"" + value + "\" "
  }

  /** The `--postprocessor-args` value: the artist tag, then the album tag. */
  function MetaArg(artist: string, album: string): string {
    "ffmpeg:" + MetaTag("artist", artist) + MetaTag("album", album)
  }

  function AudioArgs(audioFmt: string, artist: string, album: string): seq<string> {
    ["-x", "--audio-format", AudioCodec(audioFmt), "--audio-quality", AudioQuality(audioFmt)]
    + (if artist != "" || album != "" then ["--postprocessor-args", MetaArg(artist, album)] else [])
  }

  function MediaArgs(o: Options): seq<string> {
    if o.mode == "video" then VideoArgs(o.quality, o.format)
    else AudioArgs(o.audioFmt, o.metaArtist, o.metaAlbum)
  }

  /** `command` as `run_download_logic` assembles it for `url`. */
  function BuildCommand(o: Options, url: string, ffExists: bool): seq<string> {
    [o.ytPath] + TemplateArgs(o.isPlaylist, o.customTmpl) + ["--print", DataTemplate]
    + SubsArgs(o.useSubs) + FfmpegArgs(ffExists, o.ffPath) + MediaArgs(o) + [url]
  }

  /** Where the mode-specific arguments start. */
  function MediaStart(o: Options, ffExists: bool): nat {
    6 + |SubsArgs(o.useSubs)| + |FfmpegArgs(ffExists, o.ffPath)|
  }

  // ----- Properties of the argument vector -----

  /** The vector starts with the downloader path, then `-o` and a template,
      always carries `--print` with the DATA template, and ends with the URL. */
  lemma CommandFrame(o: Options, url: string, ffExists: bool)
    ensures var r := BuildCommand(o, url, ffExists);
      && |r| >= 12
      && r[0] == o.ytPath && r[1] == "-o"
      && r[4] == "--print" && r[5] == DataTemplate
      && r[|r| - 1] == url
  {
    var head := [o.ytPath] + TemplateArgs(o.isPlaylist, o.customTmpl) + ["--print", DataTemplate];
    Framed(head, SubsArgs(o.useSubs), FfmpegArgs(ffExists, o.ffPath), MediaArgs(o), url);
    MediaHead(o);
    var r := BuildCommand(o, url, ffExists);
    assert r[0] == r[..6][0] && r[1] == r[..6][1] && r[4] == r[..6][4] && r[5] == r[..6][5];
  }

  /** The template priority: the playlist flag wins over everything, then a
      non-empty custom template (with `.%(ext)s` ensured), then the title
      template; the two non-playlist cases switch playlists off. */
  lemma TemplatePriority(o: Options, url: string, ffExists: bool)
    ensures var r := BuildCommand(o, url, ffExists);
      && (o.isPlaylist ==> r[2] == PlaylistTemplate && r[3] == "--yes-playlist")
      && (!o.isPlaylist && o.customTmpl != "" ==> r[2] == WithExtSuffix(o.customTmpl) && r[3] == "--no-playlist")
      && (!o.isPlaylist && o.customTmpl == "" ==> r[2] == DefaultTemplate && r[3] == "--no-playlist")
  {
    var head := [o.ytPath] + TemplateArgs(o.isPlaylist, o.customTmpl) + ["--print", DataTemplate];
    Framed(head, SubsArgs(o.useSubs), FfmpegArgs(ffExists, o.ffPath), MediaArgs(o), url);
    var r := BuildCommand(o, url, ffExists);
    assert r[2] == r[..6][2] && r[3] == r[..6][3];
  }

  /** `.%(ext)s` is appended exactly when missing, so it is never doubled. */
  lemma ExtSuffixOnce(t: string)
    ensures EndsWith(WithExtSuffix(t), ExtSuffix)
    ensures EndsWith(t, ExtSuffix) ==> WithExtSuffix(t) == t
    ensures !EndsWith(t, ExtSuffix) ==> WithExtSuffix(t) == t + ExtSuffix
    ensures WithExtSuffix(WithExtSuffix(t)) == WithExtSuffix(t)
  {
    if !EndsWith(t, ExtSuffix) {
      var u := t + ExtSuffix;
      assert u[|u| - |ExtSuffix|..] == ExtSuffix;
    }
  }

  /** The subtitle flags follow the template and print arguments exactly when
      subtitles were asked for. */
  lemma SubsIff(o: Options, url: string, ffExists: bool)
    ensures var r := BuildCommand(o, url, ffExists);
      |r| >= 9 && (r[6..9] == SubsFlags <==> o.useSubs)
  {
    var head := [o.ytPath] + TemplateArgs(o.isPlaylist, o.customTmpl) + ["--print", DataTemplate];
    var rest := FfmpegArgs(ffExists, o.ffPath) + MediaArgs(o) + [url];
    Regroup(head + SubsArgs(o.useSubs) + FfmpegArgs(ffExists, o.ffPath), MediaArgs(o), [url]);
    Regroup(head + SubsArgs(o.useSubs), FfmpegArgs(ffExists, o.ffPath), MediaArgs(o) + [url]);
    Regroup(FfmpegArgs(ffExists, o.ffPath), MediaArgs(o), [url]);
    MediaHead(o);
    SliceAfter(head, SubsArgs(o.useSubs), rest, SubsFlags);
  }

  /** `--ffmpeg-location ff_path` comes next exactly when the transcoder
      exists. */
  lemma FfmpegIff(o: Options, url: string, ffExists: bool)
    ensures var r := BuildCommand(o, url, ffExists);
      var k := 6 + |SubsArgs(o.useSubs)|;
      k + 2 <= |r| && (r[k..k + 2] == ["--ffmpeg-location", o.ffPath] <==> ffExists)
  {
    var head := [o.ytPath] + TemplateArgs(o.isPlaylist, o.customTmpl) + ["--print", DataTemplate]
      + SubsArgs(o.useSubs);
    var ff := FfmpegArgs(ffExists, o.ffPath);
    Regroup(head + ff, MediaArgs(o), [url]);
    MediaHead(o);
    SliceAfter(head, ff, MediaArgs(o) + [url], ["--ffmpeg-location", o.ffPath]);
  }

  /** Between the transcoder location and the URL come exactly the
      mode-specific arguments: video when the mode is "video", audio
      otherwise. */
  lemma MediaSection(o: Options, url: string, ffExists: bool)
    ensures var r := BuildCommand(o, url, ffExists);
      var m := MediaStart(o, ffExists);
      m <= |r| - 1 && r[m..|r| - 1] == MediaArgs(o)
  {
    var r := BuildCommand(o, url, ffExists);
    var head := [o.ytPath] + TemplateArgs(o.isPlaylist, o.customTmpl) + ["--print", DataTemplate]
      + SubsArgs(o.useSubs) + FfmpegArgs(ffExists, o.ffPath);
    assert r == head + MediaArgs(o) + [url];
    assert |head| == MediaStart(o, ffExists);
  }

  /** Video mode: "Best Possible" is unrestricted; any other choice is capped
      at the table's height (2k is 1440, 4k is 2160, anything unlisted 720);
      a choice containing "WebM" asks for VP9 in WebM, anything else for H.264
      in MP4. */
  lemma VideoFormat(quality: string, format: string)
    ensures var v := VideoArgs(quality, format);
      && |v| == 6 && v[0] == "-f" && v[2] == "-S" && v[4] == "--merge-output-format"
      && (quality == "Best Possible" ==> v[1] == "bv+ba/b")
      && (quality != "Best Possible" ==>
            v[1] == "bv*[height<=" + HeightFor(quality) + "]+ba/b[height<=" + HeightFor(quality) + "]")
      && (Contains(format, "WebM") <==> v[3] == "vcodec:vp9")
      && (v[5] == "webm" <==> Contains(format, "WebM"))
  {
  }

  /** The height table: the documented tiers, the 2k/4k aliases, and the 720
      fallback for a choice it lacks, such as "1080". */
  lemma HeightTableEntries()
    ensures HeightFor("144") == "144" && HeightFor("240") == "240" && HeightFor("360") == "360"
    ensures HeightFor("720") == "720" && HeightFor("1440") == "1440"
    ensures HeightFor("2k") == "1440" && HeightFor("4k") == "2160"
    ensures HeightFor("1080") == "720"
  {
  }

  /** The codec is the first keyword (opus, aac, m4a, vorbis, wav) found in
      the lower-cased choice, or mp3 when none is. */
  lemma AudioCodecChoice(choice: string)
    ensures var c := AudioCodec(choice);
      && (c == "mp3" <==> forall j :: 0 <= j < |CodecKeywords| ==> !Contains(Lower(choice), CodecKeywords[j]))
      && (c != "mp3" ==>
            (exists i :: 0 <= i < |CodecKeywords| && c == CodecKeywords[i]
              && Contains(Lower(choice), c)
              && (forall j :: 0 <= j < i ==> !Contains(Lower(choice), CodecKeywords[j]))))
  {
    match FirstKeyword(Lower(choice), CodecKeywords, 0)
    case Some(i) =>
      assert CodecKeywords[i] != "mp3";
    case None =>
  }

  /** Lower-casing maps an occurrence of a text to an occurrence of its
      lower-cased form. */
  lemma LowerKeepsOccurrence(s: string, pat: string, j: nat)
    requires OccursAt(s, pat, j)
    ensures OccursAt(Lower(s), Lower(pat), j)
  {
    assert Lower(s)[j..j + |pat|] == Lower(pat);
  }

  /** Quality "0" for a choice that says "High" (in any letter case), "5" for
      "Medium" without "High", "10" otherwise. */
  lemma AudioQualityChoice(choice: string)
    ensures var q := AudioQuality(choice);
      && (q == "0" <==> Contains(Lower(choice), "high"))
      && (q == "5" <==> !Contains(Lower(choice), "high") && Contains(Lower(choice), "medium"))
      && (q == "10" <==> !Contains(Lower(choice), "high") && !Contains(Lower(choice), "medium"))
  {
  }

  lemma HighLabelIsBest(choice: string, j: nat)
    requires OccursAt(choice, "High", j)
    ensures AudioQuality(choice) == "0"
  {
    LowerKeepsOccurrence(choice, "High", j);
    assert Lower("High") == "high";
    ContainsAt(Lower(choice), "high", j);
  }

  /** `--postprocessor-args` is present exactly when an artist or an album is
      given, and then it is the last audio argument. */
  lemma MetadataPresent(audioFmt: string, artist: string, album: string)
    ensures var a := AudioArgs(audioFmt, artist, album);
      && (|a| == 7 <==> artist != "" || album != "")
      && (|a| == 7 ==> a[5] == "--postprocessor-args" && a[6] == MetaArg(artist, album))
      && (|a| != 7 ==> |a| == 5)
  {
  }

  /** The tags value: the artist tag comes first, the album tag last, and
      a tag is empty exactly when its value is. */
  lemma MetaArgTags(artist: string, album: string)
    ensures var m := MetaArg(artist, album);
      && StartsWith(m, "ffmpeg:" + MetaTag("artist", artist))
      && EndsWith(m, MetaTag("album", album))
      && (MetaTag("artist", artist) == "" <==> artist == "")
      && (MetaTag("album", album) == "" <==> album == "")
      && (artist == "" && album == "" ==> m == "ffmpeg:")
  {
    var head := "ffmpeg:" + MetaTag("artist", artist);
    var tail := MetaTag("album", album);
    ConcatEnds(head, tail);
  }

  /** The mode-specific arguments start with a flag of their own. */
  lemma MediaHead(o: Options)
    ensures |MediaArgs(o)| >= 5 && MediaArgs(o)[0] in {"-f", "-x"}
  {
  }

  lemma ConcatEnds(a: string, b: string)
    ensures StartsWith(a + b, a) && EndsWith(a + b, b)
  {
    assert (a + b)[..|a|] == a;
    assert (a + b)[|a + b| - |b|..] == b;
  }
}
