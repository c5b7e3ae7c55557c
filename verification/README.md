# yt-mini, modelled in Dafny

yt-mini is a small desktop front end for the `yt-dlp` downloader, with
`ffmpeg` as the transcoder. The user enters a URL (plus an optional batch of
URLs) and picks a mode: video, with a quality and container, or audio, with a
codec and quality. The program builds one `yt-dlp` command line per URL and
runs the commands one after another. It watches each process's output for
progress lines and for the `DATA::` line it asked `yt-dlp` to print after each
download. From those lines it keeps a history of at most 50 downloaded files,
at most one entry per path. Settings live in a `key=value` file.

This project models the decision logic of the program, not its widgets. It
covers six parts:

- **The download worker** (`logic.py`), in modules `Command`, `Output`,
  `SizeFormat` and `Batch`. `Command` builds the argument vector. `Output`
  classifies output lines. `Batch` is the per-URL loop with its success
  count, exactly one final message, and the cancel handle.
- **The settings file and the history list** (`config.py`), in modules
  `Config` and `History`.
- **The selection rules of the main window** (`main.py`), in module `Front`:
  - URL normalisation and collection;
  - option mapping;
  - the start checks;
  - the setup alert;
  - the tiered choice among detected `ffmpeg` builds;
  - deleting and clearing history.
- **The earlier single-file version** (`legacy/yt-mini.py`), in module
  `Legacy`. Its worker differs from the current one, and lemmas compare the
  two versions.

Supporting modules:

- `Text`: Python's `strip`, `find`, `split`, `lower` and `in`.
- `Numbers`: decimal numerals and the subset of `float()` the program relies
  on.
- `Paths`: POSIX `isabs`, `join` and `abspath`.
- `Seqs`: a few generic sequence identities used in proofs.
- `Wrappers`: `Option`.

The external world enters only as parameters:

- Each launched process is its output lines plus its exit code (`Run`).
- Whether a configured path exists is a boolean.
- The settings file is an `Option<string>` holding its text.
- The working directory and the home directory are strings.
- The user-interface callbacks of the worker are recorded, in order, as a
  trace of `Effect`s: `Status`, `Progress`, `Launch`, `RefreshHistory` and
  `Finish`.

Code that updates state in place is modelled with classes:

- `Batch.Downloader` holds the current process handle, the stored history
  and the trace.
- `Legacy.LegacyApp` holds the settings, the settings file, the history and
  the trace.

Loops are `while` and `for` loops with invariants, each proved against a
recursive specification function:

- `SizeFormat.FormatSize`;
- `Config.LoadConfig` and `Config.SaveConfig`;
- `Front.KeepLines`, `Front.ScanTier` and `Front.PickFfmpeg`;
- `Batch.Downloader.ReadOutput` and `Batch.Downloader.RunBatch`;
- `Legacy.LegacyApp.StoreRecords` and `Legacy.LegacyApp.RunItems`.

Pure decision code, such as the command builder, the line parser and the
history update, is modelled as functions.

Behaviour the model follows from the code:

- **Progress is not clamped.** A progress line reporting `150%` yields
  150.0 (`Output.ProgressNotClamped`).
- **The history path is not always absolute.** Only the current worker
  makes stored paths absolute. The legacy worker stores the path exactly as
  printed (`Legacy.RecordAcrossVersions`).
- **The height table has no "1080" entry.** The main window offers
  "1080", and the builder maps it to 720 through the table's fallback
  (`Command.HeightTableEntries`).
- **The current worker counts records, not exit codes.** It counts accepted
  `DATA::` lines and ignores the exit code:
  - A playlist download that prints two records for one URL ends with
    "Completed 2/1" (`Batch.PlaylistOvercount`).
  - A non-zero exit code changes nothing (`Batch.ExitCodeIgnored`).
- **The legacy worker counts exit codes.** It counts URLs whose process
  exited with 0, and parses their records only in that case
  (`Legacy.TallyAcrossVersions`).
- **The legacy worker stops the whole batch in sound mode without
  `ffmpeg`.** It reports the first item, then stops before launching
  anything.

## Model

| member | source | states |
|---|---|---|
| Text.Strip | main.py:105 | Python's `strip()`: leading and trailing whitespace removed, the middle kept (specified by `Text.StripIsTrimmed`, `Text.StripPadded` and `Text.StripTrimmed`) |
| Text.StripIsTrimmed | main.py:105 | `strip` leaves no leading or trailing whitespace (Python's whitespace set) |
| Text.StripPadded | logic.py:216 | stripping whitespace padding around a trimmed string gives that string back |
| Text.StripTrimmed | main.py:105 | stripping an already trimmed string changes nothing |
| Text.Find | config.py:64 | the result is the first occurrence of the pattern, or none when there is none |
| Text.FindFrom | config.py:64 | the result is the first occurrence at or after the start index, or none |
| Text.Split | logic.py:214 | `split(sep)` yields at least one field and no field contains the separator; without an occurrence the text is the only field, otherwise the first field is the text before the leftmost occurrence |
| Text.SplitLeftmost | logic.py:214 | the cut is made at the leftmost occurrence: `":::".split("::")` is `["", ":"]` |
| Text.JoinSplit | logic.py:214 | joining the fields of a split with the separator gives the original string back |
| Text.JoinMerge | logic.py:214 | joining two parts with the separator and then the rest gives the join of the parts and the rest |
| Text.Lower | logic.py:148 | Python's `lower()` on ASCII letters: same length, letters lowered one by one (specified by `Command.LowerKeepsOccurrence`) |
| Numbers.ParseNumber | logic.py:14 | `float()` of a sign, digits and at most one point, surrounded by whitespace; none for any other text (specified by `Numbers.ParseNatToString` and `Numbers.NoDigitsNoNumber`) |
| Numbers.NatToString | logic.py:114 | the decimal numeral of n is non-empty, made of digits, denotes n and has no leading zero |
| Numbers.ParseNatToString | logic.py:14 | `float()` of a decimal numeral, with trailing whitespace, is that number |
| Numbers.NoDigitsNoNumber | logic.py:13-19 | text without a digit is not a number, so it takes the `except` path |
| Numbers.UnsignedDecimal | logic.py:209 | an unsigned decimal token parses to a non-negative value |
| Paths.Join | logic.py:220 | joining onto an absolute second part gives that part; otherwise the result starts with the folder and ends with the name |
| Paths.AbsPath | logic.py:222 | `abspath` gives an absolute path, and leaves an absolute path unchanged apart from the normalisation it does not model |
| SizeFormat.UnitFor | logic.py:15-18 | the unit the division loop stops at for a value (its choice is specified, through the size text, by `SizeFormat.ScaledAmount`) |
| SizeFormat.SizeTextOf | logic.py:12-19 | the size text: "N/A" for a non-number, else the scaled amount and unit (specified by `SizeFormat.NotAvailableIffNoNumber`, `SizeFormat.ScaledAmount` and `SizeFormat.FormatSizeExamples`) |
| SizeFormat.ScaleOf | logic.py:15-18 | a value is shown in the unit that the successive divisions by 1024 select |
| SizeFormat.FormatSize | logic.py:12-19 | the dividing loop returns the specified amount and unit, or "N/A" |
| SizeFormat.ScaledAmount | logic.py:14-18 | amount times the unit's factor is the parsed size; the amount is below 1024 unless the unit is TB, and at least 1 unless it is B |
| SizeFormat.NotAvailableIffNoNumber | logic.py:13-19 | "N/A" is returned exactly when the input does not parse as a number |
| SizeFormat.SizeOfNumeral | logic.py:14 | a byte count written in decimal is scaled from its own value |
| SizeFormat.FormatSizeExamples | logic.py:15-18 | 0 is 0 B, 1023 stays B, 1536 is 1.5 KB, 10 MiB is 10 MB, 1 GiB is 1 GB, 2 TiB is 2 TB, "NA" is N/A |
| History.Add | config.py:102-107 | drop the entries with the new path, put the new entry first, keep at most 50 (specified by `History.AddProperties` and `History.AddKeepsInvariant`) |
| History.AddAll | logic.py:233 | the records of one output added one after the other (specified by `History.AddAllKeepsInvariant` and `History.AddAllAppend`) |
| History.WithoutPath | config.py:104 | the filter keeps exactly the entries whose path differs, and never grows the list |
| History.WithoutPathAppend | config.py:104 | filtering a concatenation filters each part |
| History.WithoutAbsentPath | config.py:104 | filtering out a path not in the list changes nothing |
| History.WithoutPathUnique | config.py:104 | filtering keeps paths unique |
| History.AddProperties | config.py:102-107 | after an add, the entry is at the head, its path occurs nowhere else, the length is min(50, filtered+1), and the rest is the filtered list's prefix in its old order |
| History.AddKeepsInvariant | config.py:102-107 | adding keeps paths unique and the list at most 50 long |
| History.AddReplaces | config.py:102-107 | adding an entry whose path is stored moves it to the head and keeps the others in order |
| History.WithoutStoredPath | main.py:217-219 | deleting a stored path from a unique list removes exactly that one entry |
| History.WithoutMiddle | config.py:104 | the filter removes the one entry with the path and keeps both sides |
| History.StoredOnce | config.py:104 | in a unique list, no entry before or after a stored path has that path |
| History.AddToFullDropsOldest | config.py:106 | adding a new path to a full list drops its last (oldest) entry |
| History.AddAllKeepsInvariant | logic.py:233 | a sequence of adds keeps paths unique and the list bounded, and the last added entry ends at the head |
| History.AddAllAppend | logic.py:233 | adding two sequences of entries is adding the first and then the second |
| Config.BreakAt | config.py:62 | a line runs up to the first "\n" or "\r" from its start, or to the end of the text |
| Config.LinesOfLine | config.py:61-62 | the file is read with universal newlines: "\n", "\r\n" and a lone "\r" each end a line, which is read ending in "\n" |
| Config.ParseLine | config.py:63-65 | a line is a setting only if it holds `=`; the stripped line is cut at its first `=` into key and value, so `a =b` gives the key `a ` (specified by `Config.ParseSavedLine` and `Config.LastLineWins`) |
| Config.Step | config.py:63-66 | one line updates the value of a known key and leaves every other key alone (specified by `Config.StepOther` and `Config.LastLineWins`) |
| Config.ApplyLines | config.py:62-66 | the lines are applied in file order, so the last line for a key wins (specified by `Config.LastLineWins` and `Config.UntouchedKey`) |
| Config.Loaded | config.py:57-69 | the defaults when there is no file, else the defaults updated by the file's lines (specified by `Config.LoadedKeys` and `Config.SaveLoadRoundTrip`) |
| Config.Serialised | config.py:71-77 | one `key=value` line per setting in order (specified by `Config.ReadBack` and `Config.SaveLoadRoundTrip`) |
| Config.Put | legacy/yt-mini.py:154 | the dictionary assignment of one key (specified by `Config.PutProperties`) |
| Config.LoadConfig | config.py:57-69 | the reading loop returns the specified settings: the defaults updated line by line, or the defaults when there is no file |
| Config.SaveConfig | config.py:71-77 | the writing loop emits one `key=value` line per setting, in order |
| Config.ApplyKeepsKeys | config.py:63-66 | applying lines never adds, drops or reorders a key |
| Config.LoadedKeys | config.py:57-69 | the loaded settings have exactly the four default keys, in default order |
| Config.DefaultKeys | config.py:33-38 | the defaults hold `ytdlp_path`, `ffmpeg_path`, `download_path`, `theme`, in that order |
| Config.GetSet | config.py:66 | setting a known key changes that key's value and no other; an unknown key is ignored |
| Config.GetIffKey | config.py:65 | a lookup succeeds exactly for the keys present |
| Config.PutProperties | legacy/yt-mini.py:154 | assigning a key gives it the new value and leaves every other key's value alone |
| Config.StepOther | config.py:63-66 | a line without `=` or for another key leaves a key's value alone |
| Config.UntouchedKey | config.py:63-66 | a key no line sets keeps its default |
| Config.LastLineWins | config.py:63-66 | the last line setting a known key decides its value, and the value may contain `=` |
| Config.ParseSavedLine | config.py:64-66 | a saved line parses back to its key and value |
| Config.ReadBack | config.py:57-77 | reading a saved file over settings with the same keys reproduces the saved values, when keys are non-empty with no `=`, line break ("\n" or "\r") or leading whitespace, and values no line break or edge whitespace |
| Config.DefaultKeyOrder | config.py:33-38 | settings with the default keys are exactly the four default keys in order |
| Config.SaveLoadRoundTrip | config.py:57-77 | loading what was saved gives the same settings back, when values have no line break ("\n" or "\r") and no edge whitespace |
| Command.BuildCommand | logic.py:117-178 | the whole argument vector for one URL (specified by `Command.CommandFrame`, `Command.TemplatePriority`, `Command.SubsIff`, `Command.FfmpegIff` and `Command.MediaSection`) |
| Command.TemplateArgs | logic.py:119-127 | the output template arguments (specified, inside the command, by `Command.TemplatePriority`; the suffix rule by `Command.ExtSuffixOnce`) |
| Command.VideoArgs | logic.py:138-145 | the video format arguments (specified by `Command.VideoFormat`; the height table by `Command.HeightTableEntries`) |
| Command.AudioCodec | logic.py:148-162 | the audio codec of a label (specified by `Command.AudioCodecChoice`) |
| Command.AudioQuality | logic.py:165-167 | the audio quality of a label (specified by `Command.AudioQualityChoice` and `Command.HighLabelIsBest`) |
| Command.MetaArg | logic.py:172-176 | the `ffmpeg` metadata argument (specified by `Command.MetaArgTags`) |
| Command.FirstKeyword | logic.py:151-162 | the chosen keyword is the first of the list contained in the label, or none |
| Command.CommandFrame | logic.py:117-178 | the vector starts with the downloader path, then `-o` and a template, then `--print` and the DATA template, and ends with the URL |
| Command.TemplatePriority | logic.py:119-127 | the playlist template with `--yes-playlist` wins, else the custom template, else the default one, both with `--no-playlist` |
| Command.ExtSuffixOnce | logic.py:124 | `.%(ext)s` is appended only when it is not already the suffix, so it never appears twice |
| Command.SubsIff | logic.py:132-133 | the subtitle flags follow the print template iff subtitles are on |
| Command.FfmpegIff | logic.py:135-136 | `--ffmpeg-location` and the path come next iff the path exists |
| Command.MediaSection | logic.py:138-178 | the mode's format arguments sit between those flags and the URL |
| Command.VideoFormat | logic.py:138-145 | "Best Possible" gives `bv+ba/b`, else a height-capped expression; "WebM" selects vp9 and webm, anything else h264 and mp4 |
| Command.HeightTableEntries | logic.py:141 | the height table's entries, with "2k" as 1440, "4k" as 2160 and "1080" falling back to 720 |
| Command.AudioCodecChoice | logic.py:148-162 | the codec is the first of opus, aac, m4a, vorbis, wav found in the lowercased label, and mp3 iff none is |
| Command.LowerKeepsOccurrence | logic.py:148 | a substring of the label is still found after lowercasing both |
| Command.AudioQualityChoice | logic.py:165-167 | quality "0" iff "high" is in the lowercased label, "5" iff only "medium" is, "10" otherwise |
| Command.HighLabelIsBest | logic.py:165 | a label containing "High" gets quality "0" |
| Command.MetadataPresent | logic.py:172-176 | `--postprocessor-args` appears iff artist or album is non-empty |
| Command.MetaArgTags | logic.py:173-176 | the argument starts with `ffmpeg:` and the artist tag and ends with the album tag; each tag is present iff its value is |
| Output.DigitRunEnd | logic.py:206 | the digit run ends at the first non-digit |
| Output.MatchAt | logic.py:206 | a match at a position is a `\d+\.?\d*` token followed by `%` |
| Output.TokenMatch | logic.py:206 | every such token at a position is the one matched there |
| Output.MatchAtComplete | logic.py:206 | the match at a position is found whenever a token exists there |
| Output.FindPercent | logic.py:206 | the search finds the leftmost token before a `%` |
| Output.TokenParses | logic.py:209 | a matched token always converts with `float()` |
| Output.ProgressOf | logic.py:205-211 | a reported progress value is never negative |
| Output.ProgressCharacterised | logic.py:205-210 | a value is reported iff the line has `[download]` and a number before a `%`; the value is the leftmost such number |
| Output.ProgressNotClamped | logic.py:205-210 | a number before `%` is reported as it is, including values above 100 |
| Output.FullPath | logic.py:216-224 | the stored path is absolute; an absolute path is kept and a relative one is joined onto the target folder |
| Output.RecordOf | logic.py:213-232 | a record is made iff the line starts with `DATA::` and splits on `::` into at least five fields; its path is absolute and its title and duration stripped |
| Output.SplitTagged | logic.py:214 | a `DATA` tag joined with fields that hold no `::` and do not end with `:` splits back into the tag and those fields |
| Output.RecordOfTagged | logic.py:213-232 | with fewer than four fields after the tag there is no record; otherwise the record is the full path of the first field, the stripped second and third, and the size text of the fourth |
| Output.TitleWithSeparator | logic.py:214-218 | a title holding `::` is cut there: the record takes its first part as the title and its second as the duration, and the size from the duration field |
| Output.SplitJoinClean | logic.py:214 | fields that hold no `::` and do not end with `:` are split back exactly from their join |
| Output.SplitDataLine | logic.py:129 | a line printed by the DATA template splits into the tag and its four fields |
| Output.RecordOfDataLine | logic.py:213-232 | the record of a printed DATA line has the full path, the stripped title and duration, and the formatted size |
| Batch.EffectsOf | logic.py:205-236 | the effects of one output line: its progress report, then a refresh for an accepted record (specified by `Batch.Downloader.ReadLine`; counted over an output by `Batch.LinesRefreshes`) |
| Batch.LineRecords | logic.py:213-235 | the records of the accepted lines of one output, in order (specified by `Batch.Downloader.ReadOutput` and `Batch.LinesRefreshes`; `Batch.TwoRecords` gives an instance) |
| Batch.Outcome | logic.py:246-248 | the final message of a run (specified by `Batch.OutcomeCases`) |
| Batch.LinesTraceNoFinish | logic.py:198-236 | reading output never reports a final outcome |
| Batch.BatchTraceNoFinish | logic.py:113-244 | no item reports a final outcome |
| Batch.FinishOnceLast | logic.py:246-248 | exactly one final outcome is reported, and it is the last effect |
| Batch.LinesRefreshes | logic.py:233-235 | one history refresh is reported per stored record |
| Batch.ItemRefreshes | logic.py:113-244 | an item reports as many refreshes as it stores records |
| Batch.CountIsRefreshes | logic.py:234-235 | the success count equals the number of history refreshes reported |
| Batch.ExitCodeIgnored | logic.py:238-239 | runs with the same output but different exit codes store the same records and report the same effects |
| Batch.OutcomeCases | logic.py:246-248 | "All Downloads Complete!" iff k = n, "Completed k/n" iff 0 < k ≠ n, failure iff k = 0 < n |
| Batch.TwoRecords | logic.py:213-235 | an output with two accepted DATA lines stores two records |
| Batch.CompletedTwoOfOne | logic.py:247 | two records for one URL are reported as "Completed 2/1" |
| Batch.PlaylistOvercount | logic.py:213-247 | one URL printing two DATA lines counts two successes and finishes with "Completed 2/1" |
| Batch.Downloader.constructor | logic.py:10 | the worker starts with no process held |
| Batch.Downloader.Cancel | logic.py:90-100 | cancelling succeeds and clears the handle iff a process is held and terminating it works; otherwise nothing changes |
| Batch.Downloader.ReadLine | logic.py:205-236 | one line reports its progress, and for an accepted DATA line adds the record to the history and reports a refresh |
| Batch.Downloader.ReadOutput | logic.py:198-236 | the read loop stores the records of all lines, in order, and counts them |
| Batch.Downloader.RunItem | logic.py:114-244 | an item reports its position, resets progress, launches, reads its output, and always ends with no process held |
| Batch.Downloader.RunBatch | logic.py:113-248 | the loop stores all records in order; the count is the number of records; the trace is every item's effects, then one outcome |
| Batch.Downloader.RunDownloadLogic | logic.py:102-248 | the worker, with the builder, parser and progress reader of the options bound in |
| Front.MainUrl | main.py:105-110 | the main URL is empty iff the stripped entry is; otherwise it has an http(s) scheme and ends with the entry |
| Front.MainUrlTrimmed | main.py:105-110 | the main URL has no surrounding whitespace |
| Front.MainUrlIdempotent | main.py:107-110 | normalising a normalised URL changes nothing |
| Front.Kept | main.py:113-114 | the stripped non-blank batch lines (specified by `Front.KeptProperties`) |
| Front.Collected | main.py:105-118 | the main URL, if any, then the kept batch lines (specified by `Front.CollectedEmpty` and `Front.LaunchedUrlsClean`) |
| Front.KeptProperties | main.py:113-114 | batch lines are kept stripped, non-blank and in order, and none are kept iff all are blank |
| Front.CollectedEmpty | main.py:112-118 | the URL list is empty iff the entry and every batch line are blank |
| Front.CollectUrls | main.py:105-118 | the collecting loop returns the main URL then the kept batch lines, empty iff all inputs are blank |
| Front.KeepLines | main.py:113-114 | the append loop adds exactly the stripped non-blank batch lines, in order |
| Front.QualityName | main.py:126-138 | "Best" maps to "Best Possible"; other labels pass through |
| Front.MapOptions | main.py:126-142 | the options record: stripped folder, lowercased mode, template only when advanced, tags only when metadata is on |
| Front.TemplateHiddenUnlessAdvanced | main.py:135 | with advanced off, the template entry does not affect the command |
| Front.TagsHiddenUnlessMetadata | main.py:140-141 | with metadata off, the artist and album entries do not affect the command |
| Front.BestVideoUnrestricted | main.py:126-138 | choosing "Video" and "Best" asks for `bv+ba/b` |
| Front.StartDownload | main.py:104-154 | no URL gives the no-URL error; a missing downloader gives the path error; otherwise the collected URLs and mapped options are launched |
| Front.LaunchedUrlsClean | main.py:105-114 | every URL handed to the worker is non-empty and trimmed |
| Front.AlertShown | main.py:64-67 | the setup alert is shown iff a tool path is empty |
| Front.FirstRunShowsAlert | main.py:64 | with no settings file, both tool paths are empty and the alert is shown |
| Front.SavedPathsHideAlert | main.py:64-67 | after saving two non-empty tool paths, loading them hides the alert |
| Front.ToolPaths | main.py:120-130 | settings in default order give the two tool paths by lookup |
| Front.Chosen | main.py:240-267 | the `ffmpeg` build chosen from the detected paths (specified by `Front.ChosenProperties` and `Front.SolidWorksLastResort`) |
| Front.FirstInTier | main.py:244-263 | the result is the first path of the tier, or none |
| Front.ChosenProperties | main.py:240-267 | the choice is one of the paths: the first of tier 1 if tier 1 has one, else the first of tier 2 if that has one, else the first non-SolidWorks path (the first path if that one is empty), else the first path |
| Front.SolidWorksLastResort | main.py:258-267 | a SolidWorks build is chosen only when every path is one, and then it is the first path |
| Front.NamedTierNonEmpty | main.py:246-256 | a path of tier 1 or 2 is never empty, so `not best_choice` is false after it |
| Front.ScanTier | main.py:244-263 | one scanning loop returns the first path of its tier |
| Front.PickFfmpeg | main.py:237-267 | the three loops and the fallback choose `Chosen(ps)`, a member of the list; nothing is chosen from an empty list |
| Front.DeleteEntry | main.py:207-220 | declining does nothing; a failed removal stops; otherwise every entry with the path is dropped and nothing else |
| Front.DeleteKeepsInvariant | main.py:217-219 | deleting keeps paths unique and removes exactly the stored entry |
| Front.ClearHistory | main.py:222-226 | an empty list is saved iff the history is non-empty and the user confirms |
| Legacy.LegacyUrls | legacy/yt-mini.py:132-137 | the stripped entry, if any, then the stripped non-blank batch lines (specified by `Legacy.LegacyUrlsEmpty` and `Legacy.UrlsAcrossVersions`) |
| Legacy.LegacyCommand | legacy/yt-mini.py:162-212 | the legacy argument vector (specified by `Legacy.LegacyCommandFrame`, `Legacy.LegacyHead` and `Legacy.VideoAcrossVersions`) |
| Legacy.LegacyUrlsEmpty | legacy/yt-mini.py:132-140 | the legacy URL list is empty iff the entry and every batch line are blank |
| Legacy.CollectLegacyUrls | legacy/yt-mini.py:132-137 | the collecting loop returns the stripped entry, with no scheme added, then the kept batch lines |
| Legacy.UrlsAcrossVersions | legacy/yt-mini.py:132-137 | both versions collect the same URLs when the entry has a scheme or is blank; otherwise the current one adds "https://" |
| Legacy.LegacyCodecOfLabel | legacy/yt-mini.py:197 | the codec is the lowercased text before the first " - " |
| Legacy.LegacyCodecWhole | legacy/yt-mini.py:197 | a label without " - " is lowercased whole |
| Legacy.QualityAcrossVersions | legacy/yt-mini.py:198-200 | the case-sensitive "High" test implies the current version's quality "0" too |
| Legacy.LegacyMetadata | legacy/yt-mini.py:203-210 | metadata arguments appear iff the box is checked and artist or album is non-empty |
| Legacy.VideoAcrossVersions | legacy/yt-mini.py:162-194 | in video mode the legacy command equals the current builder's for the same form |
| Legacy.LegacyCommandFrame | legacy/yt-mini.py:162-212 | downloader path first, URL last, print template at 4-5; the custom template is used only when advanced is on and non-empty |
| Legacy.LegacyHead | legacy/yt-mini.py:162-175 | the command's first six arguments are the path, the template arguments and the print template |
| Legacy.LegacyRecord | legacy/yt-mini.py:224-232 | a record is made iff the line starts with `DATA::` and splits on `::` into at least five fields; its path is stripped as printed |
| Legacy.LegacyRecordOfTagged | legacy/yt-mini.py:224-232 | with fewer than four fields after the tag there is no record; otherwise the record is the first three fields stripped, with the path not made absolute, and the size text of the fourth |
| Legacy.RecordAcrossVersions | legacy/yt-mini.py:224-232 | both versions accept the same lines; the current one only makes the path absolute |
| Legacy.Successes | legacy/yt-mini.py:221-222 | the number of runs that exited with 0 (specified by `Legacy.SuccessesBounds` and `Legacy.OnlyExitCodesCount`) |
| Legacy.LegacyOutcome | legacy/yt-mini.py:241-246 | the legacy final message (specified by `Legacy.LegacyOutcomeCases`) |
| Legacy.SuccessesBounds | legacy/yt-mini.py:221-222 | successes are at most the URLs; all iff every exit code is 0; none iff no exit code is |
| Legacy.OnlyExitCodesCount | legacy/yt-mini.py:221-222 | the count depends only on which runs exited with 0 |
| Legacy.LegacyOutcomeCases | legacy/yt-mini.py:241-246 | "All Downloads Complete!" iff k = n, "Completed k/n" iff 0 < k < n, "All downloads failed." iff k = 0 |
| Legacy.TallyAcrossVersions | legacy/yt-mini.py:221-233 | a silent run with exit code 0 counts only in the legacy worker; a DATA line with exit code 1 counts only in the current one |
| Legacy.DeleteAcrossVersions | legacy/yt-mini.py:270-276 | a failed removal keeps the entry in the current version but the legacy one drops it anyway |
| Legacy.StoreStep | legacy/yt-mini.py:223-233 | storing one more line adds its record, if any, to the history |
| Legacy.LegacyApp.constructor | legacy/yt-mini.py:415 | the application starts from the settings it loaded, the settings file and the stored history, with an empty trace |
| Legacy.LegacyApp.AddToHistory | legacy/yt-mini.py:69-74 | the history becomes the dedupe, head-insert, cap-50 update of the old one; nothing else changes |
| Legacy.LegacyApp.HideEntry | legacy/yt-mini.py:278-282 | every entry with the path is removed; nothing else changes |
| Legacy.LegacyApp.DeleteFile | legacy/yt-mini.py:270-276 | after confirmation the entry is hidden whether or not removal worked |
| Legacy.LegacyApp.StoreRecords | legacy/yt-mini.py:223-233 | the loop adds every record of the output, in order |
| Legacy.LegacyApp.RunItem | legacy/yt-mini.py:161-237 | an item reports its position and launch, succeeds iff exit code 0, and stores its records only then |
| Legacy.LegacyApp.RunItems | legacy/yt-mini.py:157-246 | the loop counts exit-code successes, stores the succeeded runs' records in order, then reports one outcome |
| Legacy.LegacyApp.SaveFolder | legacy/yt-mini.py:154-155 | the folder is stored under `download_path` and the settings file is rewritten from the settings |
| Legacy.LegacyApp.DownloadProcess | legacy/yt-mini.py:131-246 | no URLs or a missing downloader stops with its message; else the folder is saved; sound mode without ffmpeg stops at the first item; else every item runs with the loaded tool paths |
| Legacy.LoadedToolPaths | legacy/yt-mini.py:148-150 | the loaded settings always hold both tool paths |

## Left out

- **The user interface.** Widgets, layout, themes, tooltips, history cards
  and the progress bar are not modelled. `toggle_theme` and settings saving
  from the settings window are not modelled. The callbacks are recorded as a
  trace instead.
- **The batch list is consumed by a run.** This is not modelled: a run takes
  the batch lines as a parameter and the model keeps no batch list.
  - `finish_ui_reset` (main.py:160-166) clears `batch_urls` (main.py:163) after
    every run, together with the status text, the button and the progress bar.
  - The legacy worker clears it through `reset_advanced_ui_threadsafe`
    (legacy/yt-mini.py:239, 263-267) only after a run that went through its
    items; its early returns leave the batch in place.
- **Threads and the cancel race.** `threading.Thread` and `app.after`
  marshalling are not modelled. The race between a cancel and a process
  ending on its own is concurrency.
  - `Batch.Downloader.Cancel` models `cancel_download` as one atomic step.
    The outcome of `terminate` is a parameter.
  - `cancel_process` (main.py:156-158) only shows a status line on success.
  - A cancel does not stop the batch. `cancel_download` sets the handle to
    `None` (logic.py:96), so the worker's next `readline` or `poll` raises;
    logic.py:241 catches that and the loop goes on to the next URL. In the
    model a cancelled item is a `Launched` run whose output lines stop early.
- **Launching and reading processes.** `subprocess.Popen`, the
  `readline`/`poll` loop and `communicate` are foreign OS calls. Each process
  is given as its output lines and exit code, or as a failure to launch.
  Universal-newline splitting of the output is not modelled.
- **Debug mode.** Printing the command and all logging are output only.
  Writing `last_command.txt` (logic.py:186-188) is not modelled either; it is
  the one step of an item outside the `try` that opens at logic.py:191.
- Batch.FinishOnceLast: assumes the debug write of `last_command.txt`
  succeeds. If it raises (a read-only working directory, say), the exception
  leaves `run_download_logic`: the worker ends with no final outcome and the
  remaining URLs are not run.
- **Tool discovery and installation.** These are file-system walks and shell
  commands: `auto_detect_ytdlp`, `get_all_ffmpeg_paths`, the `winget`
  installs, `update_tools`, `open_file`, `open_folder`, `factory_reset` and
  `load_batch_file`. Only the choice among the detected paths is modelled.
- **The history file.** JSON loading and dumping, and the temp-file rename
  in `save_history_list`, are not modelled. The stored history is a sequence
  held by the worker or the application. A corrupt or unreadable file
  reading as empty is not modelled.
- **I/O errors while reading or writing settings.** An exception part way
  through reading leaves a partly updated result. The legacy `save_config`
  has no `try`. Neither case is modelled; the settings file is either absent
  or a complete text.
- **Quoting of metadata values.** They are spliced into the
  `-metadata artist="…"` text as they are, with no escaping in the source
  either. The model keeps the same text but does not reason about how
  `ffmpeg` splits it.
- Paths.Join: POSIX semantics only; Windows drive letters and separators
  are not modelled.
- Paths.AbsPath: does no `normpath` normalisation, and is POSIX only. `.`,
  `..`, repeated separators and a trailing separator are kept, whereas
  `abspath("/a//b/")` is `"/a/b"`.
- Output.FullPath: inherits that gap from `Paths.AbsPath`; the stored path is
  absolute but not normalised.
- SizeFormat.FormatSize: returns the amount and the unit rather than the
  `.1f` text, because rounding a binary float to one decimal is floating
  point.
- SizeFormat.ScaleOf: keeps the amount as an exact rational, not the binary
  float Python divides.
- Numbers.ParseNumber: accepts an optional sign, digits and one point, which
  is what the downloader prints. Python's `float()` also accepts exponents,
  `inf`, `nan` and underscores; those forms are not modelled.
- Output.ProgressOf: returns the value of the matched digits rather than a
  binary float.
- Text.Lower: lowers ASCII letters only; Unicode case mapping is not
  modelled, nor `\d` matching non-ASCII digits.
- Text.Strip: removes Python's whitespace set, which `Text.IsSpace` lists.
- Legacy.ValueOf: falls back to the empty string for a missing key.
  `Legacy.LoadedToolPaths` shows that the fallback never happens for loaded
  settings, in which Python would raise `KeyError`.
