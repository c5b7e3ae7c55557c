/** How `run_download_logic` reads one line of the downloader's output
    (logic.py): a progress line yields a percentage, a `DATA::` line yields a
    history entry. The regular expression `(\d+\.?\d*)%` is modelled with
    `re.search`'s leftmost-match semantics over ASCII digits. */
module Output {
  import opened Wrappers
  import opened Text
  import opened Numbers
  import opened Paths
  import opened SizeFormat
  import opened History

  // ----- The progress percentage -----

  /** `\d+\.?\d*` as a whole: a digit first, then digits and at most one
      decimal point. */
  predicate DecimalToken(t: string) {
    && |t| > 0 && IsDigit(t[0])
    && (forall k :: 0 <= k < |t| ==> IsDigit(t[k]) || t[k] == '.')
    && (forall j, k :: 0 <= j < k < |t| && t[j] == '.' ==> t[k] != '.')
  }

  /** `s[i..e]` matches `\d+\.?\d*` and a `%` follows it. */
  predicate IsTokenAt(s: string, i: int, e: int) {
    0 <= i < e < |s| && s[e] == '%' && DecimalToken(s[i..e])
  }

  /** The end of the run of digits that starts at `i`. */
  function DigitRunEnd(s: string, i: nat): (e: nat)
    requires i <= |s|
    ensures i <= e <= |s|
    ensures forall k :: i <= k < e ==> IsDigit(s[k])
    ensures e < |s| ==> !IsDigit(s[e])
    decreases |s| - i
  {
    if i < |s| && IsDigit(s[i]) then DigitRunEnd(s, i + 1) else i
  }

  /** Where the match attempt that `re.search` makes at `i` ends (the index
      of the `%`): greedy digits, then an optional point and more digits;
      backtracking never finds another match, so this is the only one. */
  function MatchAt(s: string, i: nat): (r: Option<nat>)
    requires i <= |s|
    ensures r.Some? ==> IsTokenAt(s, i, r.value)
  {
    if i == |s| || !IsDigit(s[i]) then None
    else
      var e1 := DigitRunEnd(s, i);
      if e1 < |s| && s[e1] == '%' then
        assert forall k :: 0 <= k < e1 - i ==> s[i..e1][k] == s[i + k];
        Some(e1)
      else if e1 < |s| && s[e1] == '.' then
        var e2 := DigitRunEnd(s, e1 + 1);
        if e2 < |s| && s[e2] == '%' then
          assert DecimalToken(s[i..e2]) by {
            var t := s[i..e2];
            forall k | 0 <= k < |t| ensures IsDigit(t[k]) || t[k] == '.' {
              assert t[k] == s[i + k];
            }
            forall j, k | 0 <= j < k < |t| && t[j] == '.' ensures t[k] != '.' {
              assert t[j] == s[i + j] && t[k] == s[i + k];
            }
          }
          Some(e2)
        else None
      else None
  }

  /** Every token is found by the match attempt at its start: the token at a
      given start is unique, and `MatchAt` finds it. */
  lemma TokenMatch(s: string, i: nat, e: nat)
    requires IsTokenAt(s, i, e)
    ensures MatchAt(s, i) == Some(e)
  {
    var t := s[i..e];
    var e1 := DigitRunEnd(s, i);
    assert IsDigit(s[i]) by { assert t[0] == s[i]; }
    assert !IsDigit(s[e]);
    assert e1 <= e;
    if e1 < e {
      assert t[e1 - i] == s[e1];
      var e2 := DigitRunEnd(s, e1 + 1);
      forall k | e1 < k < e ensures IsDigit(s[k]) {
        assert t[k - i] == s[k];
        assert t[e1 - i] == '.';
      }
      assert e2 == e;
    }
  }

  /** `MatchAt` misses no token. */
  lemma MatchAtComplete(s: string, i: nat)
    requires i <= |s|
    ensures forall e :: IsTokenAt(s, i, e) ==> MatchAt(s, i) == Some(e)
  {
    forall e | IsTokenAt(s, i, e) ensures MatchAt(s, i) == Some(e) {
      TokenMatch(s, i, e);
    }
  }

  /** `re.search(r"(\d+\.?\d*)%", s[from..])`: the leftmost start from
      `from` on at which a match exists, with the match's end. */
  function FindPercent(s: string, from: nat): (r: Option<(nat, nat)>)
    requires from <= |s|
    ensures r.Some? ==> from <= r.value.0 && IsTokenAt(s, r.value.0, r.value.1)
    ensures forall i, e :: from <= i && (r.None? || i < r.value.0) ==> !IsTokenAt(s, i, e)
    decreases |s| - from
  {
    MatchAtComplete(s, from);
    match MatchAt(s, from)
    case Some(e) => Some((from, e))
    case None =>
      if from == |s| then None else FindPercent(s, from + 1)
  }

  /** A token is always a number `float()` accepts, and never negative. */
  lemma TokenParses(t: string)
    requires DecimalToken(t)
    ensures ParseNumber(t) == UnsignedDecimal(t)
    ensures UnsignedDecimal(t).Some?
  {
    assert Trimmed(t) by {
      assert !IsSpace(t[0]);
      assert IsDigit(t[|t| - 1]) || t[|t| - 1] == '.';
    }
    StripTrimmed(t);
    assert t[0] != '-' && t[0] != '+';
    TokenUnsigned(t);
  }

  lemma TokenUnsigned(t: string)
    requires DecimalToken(t)
    ensures UnsignedDecimal(t).Some?
  {
    if !AllDigits(t) {
      var p :| 0 <= p < |t| && !IsDigit(t[p]);
      DotAt(t, p);
      var k := Find(t, ".").value;
      DotAt(t, k);
      DigitsBeforeDot(t, k);
      DigitsAfterDot(t, k);
    }
  }

  /** A one-character pattern occurs where that character is. */
  lemma DotAt(t: string, k: nat)
    requires k < |t|
    ensures OccursAt(t, ".", k) <==> t[k] == '.'
  {
    assert t[k..k + 1] == [t[k]];
  }

  /** Before the first decimal point of a token come only digits, at least
      one. */
  lemma DigitsBeforeDot(t: string, k: nat)
    requires DecimalToken(t) && k <= |t|
    requires forall j :: 0 <= j < k ==> !OccursAt(t, ".", j)
    ensures AllDigits(t[..k])
  {
    forall j | 0 <= j < k ensures IsDigit(t[..k][j]) {
      DotAt(t, j);
    }
  }

  /** After a token's decimal point come only digits. */
  lemma DigitsAfterDot(t: string, k: nat)
    requires DecimalToken(t) && k < |t| && t[k] == '.'
    ensures AllDigits(t[k + 1..])
  {
    var f := t[k + 1..];
    forall j | 0 <= j < |f| ensures IsDigit(f[j]) {
      assert f[j] == t[k + 1 + j];
      assert t[k + 1 + j] != '.';
    }
  }

  /** The percentage a line reports, if any: only lines that mention
      `[download]` and `%` are searched; the value is not clamped. */
  function ProgressOf(line: string): (r: Option<real>)
    ensures r.Some? ==> r.value >= 0.0
  {
    if Contains(line, "[download]") && Contains(line, "%") then
      match FindPercent(line, 0)
      case None => None
      case Some((i, e)) =>
        TokenParses(line[i..e]);
        ParseNumber(line[i..e])
    else None
  }

  /** A `%` at `e` means the line contains "%". */
  lemma PercentAt(line: string, e: nat)
    requires e < |line| && line[e] == '%'
    ensures Contains(line, "%")
  {
    assert line[e..e + 1] == "%";
    ContainsAt(line, "%", e);
  }

  /** A line reports progress exactly when it mentions `[download]` and has a
      number right before a `%`; the value is the number of the leftmost
      such match. */
  lemma ProgressCharacterised(line: string)
    ensures ProgressOf(line).Some? <==>
      Contains(line, "[download]") && exists i, e :: IsTokenAt(line, i, e)
    ensures ProgressOf(line).Some? ==>
      exists i, e :: IsTokenAt(line, i, e) && ParseNumber(line[i..e]) == ProgressOf(line)
        && (forall i', e' :: 0 <= i' < i ==> !IsTokenAt(line, i', e'))
  {
    var f := FindPercent(line, 0);
    if f.Some? {
      var i, e := f.value.0, f.value.1;
      PercentAt(line, e);
      TokenParses(line[i..e]);
      assert Contains(line, "[download]") ==> ProgressOf(line) == ParseNumber(line[i..e]);
    } else {
      assert forall i, e :: !IsTokenAt(line, i, e);
    }
  }

  /** A number after a `[download]` marker is reported as it is, with no
      clamping: a line may report more than 100 percent. */
  lemma ProgressNotClamped(pre: string, n: nat, post: string)
    requires Contains(pre, "[download]")
    requires forall k :: 0 <= k < |pre| ==> !IsDigit(pre[k])
    ensures ProgressOf(pre + NatToString(n) + "%" + post) == Some(n as real)
  {
    var d := NatToString(n);
    var line := pre + d + "%" + post;
    var i, e := |pre|, |pre| + |d|;
    assert Contains(line, "[download]") by {
      var at := Find(pre, "[download]").value;
      assert line[at..at + 10] == pre[at..at + 10];
      ContainsAt(line, "[download]", at);
    }
    assert line[i..e] == d;
    assert IsTokenAt(line, i, e) by {
      assert line[e] == '%';
      assert forall k :: 0 <= k < |d| ==> IsDigit(line[i..e][k]);
    }
    PercentAt(line, e);
    forall i', e' | 0 <= i' < i && e' < |line| ensures !IsTokenAt(line, i', e') {
      assert line[i'] == pre[i'];
      assert i' < e' ==> line[i'..e'][0] == line[i'];
    }
    var f := FindPercent(line, 0);
    assert f.Some? && f.value.0 == i;
    TokenMatch(line, i, e);
    TokenMatch(line, i, f.value.1);
    assert ProgressOf(line) == ParseNumber(d);
    ParseNatToString(n, "");
    assert d + "" == d;
  }

  // ----- The DATA record -----

  /** The path stored for a reported file: an absolute path as it is, a
      relative one joined to the target folder and made absolute against the
      working directory `cwd`. */
  function FullPath(raw: string, target: string, cwd: string): (r: string)
    requires IsAbs(cwd)
    ensures IsAbs(r)
    ensures IsAbs(raw) ==> r == raw
    ensures !IsAbs(raw) && IsAbs(target) ==> r == Join(target, raw)
  {
    if IsAbs(raw) then raw else AbsPath(cwd, Join(target, raw))
  }

  /** The history entry a `DATA::` line yields: it needs at least five
      `::`-separated fields; path, title and duration are stripped and the
      size is formatted. */
  function RecordOf(line: string, target: string, cwd: string): (r: Option<Entry>)
    requires IsAbs(cwd)
    ensures r.Some? <==> StartsWith(line, "DATA::") && |Split(line, "::")| >= 5
    ensures r.Some? ==> IsAbs(r.value.path)
    ensures r.Some? ==> Trimmed(r.value.title) && Trimmed(r.value.duration)
  {
    if StartsWith(line, "DATA::") then
      var parts := Split(line, "::");
      if |parts| >= 5 then
        StripIsTrimmed(parts[2]);
        StripIsTrimmed(parts[3]);
        Some(Entry(FullPath(Strip(parts[1]), target, cwd), Strip(parts[2]), Strip(parts[3]),
                   SizeTextOf(parts[4])))
      else None
    else None
  }

  /** A field the DATA template can carry through `split("::")` unchanged:
      it holds no `::` and does not end with `:`. */
  predicate CleanField(f: string) {
    !Contains(f, "::") && (f == [] || f[|f| - 1] != ':')
  }

  /** The line the `--print` template makes the downloader print. */
  function DataLine(path: string, title: string, duration: string, size: string): string {
    JoinWith(["DATA", path, title, duration, size], "::")
  }

  /** A clean field holds no `::`, even with `::` after it, before its
      end. */
  lemma NoSeparatorIn(a: string, b: string, j: nat)
    requires CleanField(a) && j < |a|
    ensures !OccursAt(a + "::" + b, "::", j)
  {
    var s := a + "::" + b;
    if j + 1 < |a| {
      assert s[j..j + 2] == a[j..j + 2];
      if a[j..j + 2] == "::" {
        ContainsAt(a, "::", j);
      }
    } else {
      assert s[j] == a[|a| - 1];
    }
  }

  /** A clean field before the first `::` is split off whole. */
  lemma SplitCleanHead(a: string, b: string)
    requires CleanField(a)
    ensures Split(a + "::" + b, "::") == [a] + Split(b, "::")
  {
    var s := a + "::" + b;
    forall j | 0 <= j < |a| ensures !OccursAt(s, "::", j) {
      NoSeparatorIn(a, b, j);
    }
    FindAfterClean(a, "::", b);
    assert s[..|a|] == a;
    assert s[|a| + 2..] == b;
  }

  /** Splitting clean fields joined with `::` gives them back. */
  lemma {:induction false} SplitJoinClean(parts: seq<string>)
    requires |parts| >= 1
    requires forall i :: 0 <= i < |parts| ==> CleanField(parts[i])
    ensures Split(JoinWith(parts, "::"), "::") == parts
    decreases |parts|
  {
    if |parts| == 1 {
      assert Find(parts[0], "::").None?;
    } else {
      var rest := parts[1..];
      forall i | 0 <= i < |rest| ensures CleanField(rest[i]) {
        assert rest[i] == parts[i + 1];
      }
      SplitJoinClean(rest);
      SplitCleanHead(parts[0], JoinWith(rest, "::"));
      assert parts == [parts[0]] + rest;
    }
  }

  lemma DataTagClean()
    ensures CleanField("DATA")
  {
    forall j | 0 <= j <= 2 ensures !OccursAt("DATA", "::", j) {
      assert "DATA"[j..j + 2][0] == "DATA"[j] != ':';
    }
    assert Find("DATA", "::").None?;
  }

  /** Printed DATA lines start with the `DATA::` tag and split back into
      their five fields. */
  lemma SplitDataLine(path: string, title: string, duration: string, size: string)
    requires CleanField(path) && CleanField(title) && CleanField(duration) && CleanField(size)
    ensures StartsWith(DataLine(path, title, duration, size), "DATA::")
    ensures Split(DataLine(path, title, duration, size), "::") == ["DATA", path, title, duration, size]
  {
    var fields := [path, title, duration, size];
    assert forall i :: 0 <= i < |fields| ==> CleanField(fields[i]);
    DataLineTagged(path, title, duration, size);
    SplitTagged(fields);
  }

  /** A `DATA::` line with any number of clean fields after the tag. */
  function Tagged(fields: seq<string>): string {
    JoinWith(["DATA"] + fields, "::")
  }

  /** A tagged line with at least one clean field starts with `DATA::` and
      splits into the tag and its fields. */
  lemma SplitTagged(fields: seq<string>)
    requires forall i :: 0 <= i < |fields| ==> CleanField(fields[i])
    ensures |fields| >= 1 ==> StartsWith(Tagged(fields), "DATA::")
    ensures Split(Tagged(fields), "::") == ["DATA"] + fields
  {
    var parts := ["DATA"] + fields;
    DataTagClean();
    forall i | 0 <= i < |parts| ensures CleanField(parts[i]) {
      if i > 0 {
        assert parts[i] == fields[i - 1];
      }
    }
    SplitJoinClean(parts);
    if |fields| >= 1 {
      assert parts[1..] == fields;
      assert Tagged(fields) == "DATA" + "::" + JoinWith(fields, "::");
      assert Tagged(fields)[..6] == "DATA::";
    }
  }

  /** A tagged line with fewer than four fields is ignored; with four or
      more, the first four give the entry (path made absolute, title and
      duration stripped, size formatted) and the others are dropped. */
  lemma RecordOfTagged(fields: seq<string>, target: string, cwd: string)
    requires IsAbs(cwd)
    requires forall i :: 0 <= i < |fields| ==> CleanField(fields[i])
    ensures |fields| < 4 ==> RecordOf(Tagged(fields), target, cwd) == None
    ensures |fields| >= 4 ==>
      RecordOf(Tagged(fields), target, cwd) == Some(Entry(FullPath(Strip(fields[0]), target, cwd), Strip(fields[1]), Strip(fields[2]),
                    SizeTextOf(fields[3])))
  {
    SplitTagged(fields);
    if |fields| >= 4 {
      var parts := ["DATA"] + fields;
      assert parts[1] == fields[0] && parts[2] == fields[1] && parts[3] == fields[2] && parts[4] == fields[3];
    }
  }

  /** The printed line is the tagged line of its four fields. */
  lemma DataLineTagged(path: string, title: string, duration: string, size: string)
    ensures DataLine(path, title, duration, size) == Tagged([path, title, duration, size])
  {
    assert ["DATA", path, title, duration, size] == ["DATA"] + [path, title, duration, size];
  }

  /** Reading back a printed DATA line: its clean fields come back as the
      entry's path (made absolute), title, duration and size. */
  lemma RecordOfDataLine(path: string, title: string, duration: string, size: string,
                         target: string, cwd: string)
    requires IsAbs(cwd)
    requires CleanField(path) && CleanField(title) && CleanField(duration) && CleanField(size)
    ensures RecordOf(DataLine(path, title, duration, size), target, cwd)
      == Some(Entry(FullPath(Strip(path), target, cwd), Strip(title), Strip(duration), SizeTextOf(size)))
  {
    var fields := [path, title, duration, size];
    DataLineTagged(path, title, duration, size);
    assert forall i :: 0 <= i < |fields| ==> CleanField(fields[i]);
    RecordOfTagged(fields, target, cwd);
  }

  /** A title holding `::` shifts the fields: its second half is stored as
      the duration and the duration is formatted as the size. */
  lemma TitleWithSeparator(path: string, t1: string, t2: string, duration: string, size: string,
                           target: string, cwd: string)
    requires IsAbs(cwd)
    requires CleanField(path) && CleanField(t1) && CleanField(t2) && CleanField(duration) && CleanField(size)
    ensures RecordOf(DataLine(path, t1 + "::" + t2, duration, size), target, cwd)
      == Some(Entry(FullPath(Strip(path), target, cwd), Strip(t1), Strip(t2), SizeTextOf(duration)))
  {
    var fields := [path, t1, t2, duration, size];
    MergedTitle(path, t1, t2, duration, size);
    assert forall i :: 0 <= i < |fields| ==> CleanField(fields[i]);
    RecordOfTagged(fields, target, cwd);
  }

  /** A title holding `::` prints the same line as two fields. */
  lemma MergedTitle(path: string, t1: string, t2: string, duration: string, size: string)
    ensures DataLine(path, t1 + "::" + t2, duration, size) == Tagged([path, t1, t2, duration, size])
  {
    var rest := [duration, size];
    DataLineTagged(path, t1 + "::" + t2, duration, size);
    JoinMerge(t1, t2, rest, "::");
    assert [path, t1 + "::" + t2, duration, size] == [path] + ([t1 + "::" + t2] + rest);
    assert [path, t1, t2, duration, size] == [path] + ([t1, t2] + rest);
    JoinCons(path, [t1 + "::" + t2] + rest, "::");
    JoinCons(path, [t1, t2] + rest, "::");
    JoinCons("DATA", [path] + ([t1 + "::" + t2] + rest), "::");
    JoinCons("DATA", [path] + ([t1, t2] + rest), "::");
    assert ["DATA"] + [path, t1 + "::" + t2, duration, size] == ["DATA"] + ([path] + ([t1 + "::" + t2] + rest));
    assert ["DATA"] + [path, t1, t2, duration, size] == ["DATA"] + ([path] + ([t1, t2] + rest));
  }
}
