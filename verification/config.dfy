/** The settings file (config.py, `load_config` and `save_config`): a text
    file of `key=value` lines over a fixed set of keys. A settings value is
    modelled as Python's insertion-ordered dictionary, a sequence of
    key/value pairs; the file is modelled as its text, or `None` when it
    does not exist. */
module Config {
  import opened Wrappers
  import opened Text
  import opened Paths
  import opened Seqs

  type Pair = (string, string)

  /** The keys of a settings value, in order. */
  function Keys(c: seq<Pair>): seq<string>
    decreases |c|
  {
    if c == [] then [] else [c[0].0] + Keys(c[1..])
  }

  /** No key is repeated: what a dictionary guarantees. */
  predicate Distinct(ks: seq<string>) {
    forall i, j :: 0 <= i < j < |ks| ==> ks[i] != ks[j]
  }

  /** `DEFAULT_CONFIG`, with `home` the user's home directory. */
  function Defaults(home: string): seq<Pair> {
    [("ytdlp_path", ""), ("ffmpeg_path", ""), ("download_path", Join(home, "Desktop")), ("theme", "dark")]
  }

  /** `config[key]`, or `None` when the key is absent. */
  function Get(c: seq<Pair>, key: string): Option<string>
    decreases |c|
  {
    if c == [] then None
    else if c[0].0 == key then Some(c[0].1)
    else Get(c[1..], key)
  }

  /** `config[key] = value` for a key already present: the value changes in
      place and the order of the keys is kept. */
  function Set(c: seq<Pair>, key: string, value: string): seq<Pair>
    decreases |c|
  {
    if c == [] then []
    else [if c[0].0 == key then (key, value) else c[0]] + Set(c[1..], key, value)
  }

  /** How one line of the file is read: a line holding "=" is stripped and
      split at its first "=" into a key and a value (which may itself hold
      "="); any other line is skipped. */
  function ParseLine(line: string): Option<Pair> {
    if !Contains(line, "=") then None
    else
      var s := Strip(line);
      match Find(s, "=")
      case Some(i) => Some((s[..i], s[i + 1..]))
      case None => None
  }

  /** What one line does to the settings: only a known key is updated. */
  function Step(c: seq<Pair>, line: string): seq<Pair> {
    match ParseLine(line)
    case None => c
    case Some(kv) => if kv.0 in Keys(c) then Set(c, kv.0, kv.1) else c
  }

  /** The settings after reading `lines` in order, starting from `c`. */
  function ApplyLines(c: seq<Pair>, lines: seq<string>): seq<Pair>
    decreases |lines|
  {
    if lines == [] then c else ApplyLines(Step(c, lines[0]), lines[1..])
  }

  /** The file is read in text mode, with universal newlines: "\n", "\r\n"
      and a lone "\r" each end a line, and each is read as "\n". */
  predicate IsBreak(c: char) {
    c == '\n' || c == '\r'
  }

  /** Where the line starting at `i` ends: at its first line break, or at
      the end of the text. */
  function BreakAt(s: string, i: nat): (k: nat)
    requires i <= |s|
    ensures i <= k <= |s|
    ensures forall j :: i <= j < k ==> !IsBreak(s[j])
    ensures k < |s| ==> IsBreak(s[k])
    decreases |s| - i
  {
    if i == |s| || IsBreak(s[i]) then i else BreakAt(s, i + 1)
  }

  /** How many characters the line break at `k` takes: two for "\r\n". */
  function BreakLength(s: string, k: nat): nat
    requires k <= |s|
  {
    if k == |s| then 0
    else if s[k] == '\r' && k + 1 < |s| && s[k + 1] == '\n' then 2
    else 1
  }

  /** The lines `for line in f` yields: each ends with "\n", except possibly
      the last. */
  function FileLines(text: string): seq<string>
    decreases |text|
  {
    if text == [] then []
    else
      var k := BreakAt(text, 0);
      var line := if k == |text| then text else text[..k] + "\n";
      [line] + FileLines(text[k + BreakLength(text, k)..])
  }

  /** What `load_config()` returns for the file's content. */
  function Loaded(file: Option<string>, home: string): seq<Pair> {
    match file
    case None => Defaults(home)
    case Some(text) => ApplyLines(Defaults(home), FileLines(text))
  }

  /** One line of the file `save_config` writes. */
  function ConfigLine(kv: Pair): string {
    kv.0 + "=" + kv.1 + "\n"
  }

  /** The text `save_config` writes. */
  function Serialised(c: seq<Pair>): string
    decreases |c|
  {
    if c == [] then [] else ConfigLine(c[0]) + Serialised(c[1..])
  }

  /** `load_config()`: start from a copy of the defaults and, when the file
      exists, update the known keys line by line. */
  method LoadConfig(file: Option<string>, home: string) returns (config: seq<Pair>)
    ensures config == Loaded(file, home)
  {
    config := Defaults(home);
    if file.None? {
      return;
    }
    var lines := FileLines(file.value);
    for j := 0 to |lines|
      invariant ApplyLines(config, lines[j..]) == ApplyLines(Defaults(home), lines)
    {
      assert lines[j..][0] == lines[j] && lines[j..][1..] == lines[j + 1..];
      var parsed := ParseLine(lines[j]);
      match parsed {
        case None =>
        case Some(kv) =>
          if kv.0 in Keys(config) {
            config := Set(config, kv.0, kv.1);
          }
      }
    }
    assert lines[|lines|..] == [];
  }

  /** `save_config(config_data)`: one `key=value` line per entry, in order. */
  method SaveConfig(c: seq<Pair>) returns (text: string)
    ensures text == Serialised(c)
  {
    text := [];
    for i := 0 to |c|
      invariant text + Serialised(c[i..]) == Serialised(c)
    {
      assert c[i..][0] == c[i] && c[i..][1..] == c[i + 1..];
      assert text + ConfigLine(c[i]) + Serialised(c[i + 1..]) == text + Serialised(c[i..]);
      text := text + ConfigLine(c[i]);
    }
    assert c[|c|..] == [];
    assert text + [] == text;
  }

  // ----- Keys -----

  lemma {:induction false} KeysAppend(a: seq<Pair>, b: seq<Pair>)
    ensures Keys(a + b) == Keys(a) + Keys(b)
    decreases |a|
  {
    if a == [] {
      assert a + b == b;
    } else {
      assert (a + b)[0] == a[0] && (a + b)[1..] == a[1..] + b;
      KeysAppend(a[1..], b);
      assert [a[0].0] + (Keys(a[1..]) + Keys(b)) == [a[0].0] + Keys(a[1..]) + Keys(b);
    }
  }

  lemma {:induction false} KeysLength(c: seq<Pair>)
    ensures |Keys(c)| == |c|
    ensures forall i :: 0 <= i < |c| ==> Keys(c)[i] == c[i].0
    decreases |c|
  {
    if c != [] {
      KeysLength(c[1..]);
    }
  }

  /** Updating a key changes no key. */
  lemma {:induction false} SetKeepsKeys(c: seq<Pair>, key: string, value: string)
    ensures Keys(Set(c, key, value)) == Keys(c)
    decreases |c|
  {
    if c != [] {
      SetKeepsKeys(c[1..], key, value);
    }
  }

  /** Reading lines never adds, drops or reorders a key: the loaded settings
      have exactly the keys they started with. */
  lemma {:induction false} ApplyKeepsKeys(c: seq<Pair>, lines: seq<string>)
    ensures Keys(ApplyLines(c, lines)) == Keys(c)
    decreases |lines|
  {
    if lines != [] {
      match ParseLine(lines[0]) {
        case None =>
        case Some(kv) => SetKeepsKeys(c, kv.0, kv.1);
      }
      ApplyKeepsKeys(Step(c, lines[0]), lines[1..]);
    }
  }

  /** `load_config()` returns exactly the default keys, in their order, with
      or without a file. */
  lemma LoadedKeys(file: Option<string>, home: string)
    ensures Keys(Loaded(file, home)) == ["ytdlp_path", "ffmpeg_path", "download_path", "theme"]
  {
    DefaultKeys(home);
    if file.Some? {
      ApplyKeepsKeys(Defaults(home), FileLines(file.value));
    }
  }

  /** The defaults hold the four settings in their fixed order. */
  lemma DefaultKeys(home: string)
    ensures Keys(Defaults(home)) == ["ytdlp_path", "ffmpeg_path", "download_path", "theme"]
  {
    KeysLength(Defaults(home));
  }

  // ----- Reading values -----

  lemma {:induction false} GetSet(c: seq<Pair>, key: string, value: string, k: string)
    ensures Get(Set(c, key, value), k) == if k == key && k in Keys(c) then Some(value) else Get(c, k)
    decreases |c|
  {
    if c != [] {
      GetSet(c[1..], key, value, k);
    }
  }

  /** A key has a value exactly when it is present. */
  lemma {:induction false} GetIffKey(c: seq<Pair>, k: string)
    ensures Get(c, k).Some? <==> k in Keys(c)
    decreases |c|
  {
    if c != [] {
      GetIffKey(c[1..], k);
    }
  }

  /** Looking up a key in settings extended at the end. */
  lemma {:induction false} GetAppendOne(c: seq<Pair>, kv: Pair, k: string)
    ensures Get(c + [kv], k) == if Get(c, k).Some? then Get(c, k) else if k == kv.0 then Some(kv.1) else None
    decreases |c|
  {
    if c == [] {
      assert c + [kv] == [kv];
    } else {
      assert (c + [kv])[0] == c[0] && (c + [kv])[1..] == c[1..] + [kv];
      GetAppendOne(c[1..], kv, k);
    }
  }

  /** `config[key] = value` on a dictionary: a present key keeps its place,
      a new one goes last. */
  function Put(c: seq<Pair>, key: string, value: string): seq<Pair> {
    if key in Keys(c) then Set(c, key, value) else c + [(key, value)]
  }

  /** After the assignment the key has the new value, every other key keeps
      its value, and a key is added only when it was missing. */
  lemma PutProperties(c: seq<Pair>, key: string, value: string)
    ensures Keys(Put(c, key, value)) == if key in Keys(c) then Keys(c) else Keys(c) + [key]
    ensures Get(Put(c, key, value), key) == Some(value)
    ensures forall k :: k != key ==> Get(Put(c, key, value), k) == Get(c, k)
  {
    if key in Keys(c) {
      SetKeepsKeys(c, key, value);
      forall k ensures Get(Put(c, key, value), k) == if k == key then Some(value) else Get(c, k) {
        GetSet(c, key, value, k);
      }
    } else {
      KeysAppend(c, [(key, value)]);
      GetIffKey(c, key);
      forall k ensures Get(Put(c, key, value), k) == if k == key then Some(value) else Get(c, k) {
        GetAppendOne(c, (key, value), k);
        GetIffKey(c, k);
      }
    }
  }

  /** A line whose key is not `k` leaves the value of `k` alone. */
  lemma StepOther(c: seq<Pair>, line: string, k: string)
    requires ParseLine(line).None? || ParseLine(line).value.0 != k
    ensures Get(Step(c, line), k) == Get(c, k)
  {
    if ParseLine(line).Some? {
      GetSet(c, ParseLine(line).value.0, ParseLine(line).value.1, k);
    }
  }

  /** Lines that never name `k` leave its value alone: unknown keys, lines
      without "=" and other keys change nothing about `k`. */
  lemma {:induction false} UntouchedKey(c: seq<Pair>, lines: seq<string>, k: string)
    requires forall j :: 0 <= j < |lines| ==> ParseLine(lines[j]).None? || ParseLine(lines[j]).value.0 != k
    ensures Get(ApplyLines(c, lines), k) == Get(c, k)
    decreases |lines|
  {
    if lines != [] {
      StepOther(c, lines[0], k);
      UntouchedKey(Step(c, lines[0]), lines[1..], k);
    }
  }

  /** The last line that names a known key decides its value: later lines
      override earlier ones. */
  lemma {:induction false} LastLineWins(c: seq<Pair>, lines: seq<string>, j: nat, k: string, v: string)
    requires k in Keys(c)
    requires j < |lines| && ParseLine(lines[j]) == Some((k, v))
    requires forall j' :: j < j' < |lines| ==> ParseLine(lines[j']).None? || ParseLine(lines[j']).value.0 != k
    ensures Get(ApplyLines(c, lines), k) == Some(v)
    decreases |lines|
  {
    var d := Step(c, lines[0]);
    if j == 0 {
      GetSet(c, k, v, k);
      UntouchedKey(d, lines[1..], k);
    } else {
      match ParseLine(lines[0]) {
        case None =>
        case Some(kv) => SetKeepsKeys(c, kv.0, kv.1);
      }
      LastLineWins(d, lines[1..], j - 1, k, v);
    }
  }

  // ----- Reading back what was saved -----

  /** A key `save_config` can write and `load_config` read back. */
  predicate KeyClean(k: string) {
    && |k| > 0 && !IsSpace(k[0])
    && (forall i :: 0 <= i < |k| ==> k[i] != '=' && !IsBreak(k[i]))
  }

  /** A value that survives the round trip: without a line break, and not
      ending in whitespace (which the strip would remove). */
  predicate ValueClean(v: string) {
    && (forall i :: 0 <= i < |v| ==> !IsBreak(v[i]))
    && (v == [] || !IsSpace(v[|v| - 1]))
  }

  /** Every entry of `c` can be written and read back. */
  predicate AllClean(c: seq<Pair>)
    decreases |c|
  {
    c == [] || (KeyClean(c[0].0) && ValueClean(c[0].1) && AllClean(c[1..]))
  }

  /** `AllClean` holds exactly when every entry is clean. */
  lemma {:induction false} AllCleanOf(c: seq<Pair>)
    requires forall i :: 0 <= i < |c| ==> KeyClean(c[i].0) && ValueClean(c[i].1)
    ensures AllClean(c)
    decreases |c|
  {
    if c != [] {
      assert forall i :: 0 <= i < |c[1..]| ==> c[1..][i] == c[i + 1];
      AllCleanOf(c[1..]);
    }
  }

  /** Stripping a saved line removes exactly its "\n". */
  lemma StripSavedLine(k: string, v: string)
    requires KeyClean(k) && ValueClean(v)
    ensures Strip(ConfigLine((k, v))) == k + "=" + v
  {
    var m := k + "=" + v;
    assert Trimmed(m) by {
      assert m[0] == k[0];
      if v == [] {
        assert m[|m| - 1] == '=';
      } else {
        assert m[|m| - 1] == v[|v| - 1];
      }
    }
    assert AllSpace("\n");
    StripPadded([], m, "\n");
    assert [] + m + "\n" == ConfigLine((k, v));
  }

  /** The first "=" of `k=v` is the one after the key. */
  lemma FirstEquals(k: string, v: string)
    requires KeyClean(k)
    ensures Find(k + "=" + v, "=") == Some(|k|)
  {
    forall j | 0 <= j < |k|
      ensures !OccursAt(k + "=" + v, "=", j)
    {
      assert (k + "=" + v)[j] == k[j];
    }
    FindAfterClean(k, "=", v);
  }

  /** A line of the saved file splits into the key and value it was written
      from, even when the value holds "=". */
  lemma ParseSavedLine(k: string, v: string)
    requires KeyClean(k) && ValueClean(v)
    ensures ParseLine(ConfigLine((k, v))) == Some((k, v))
  {
    var m := k + "=" + v;
    var line := ConfigLine((k, v));
    assert OccursAt(line, "=", |k|) by {
      assert line[|k|..|k| + 1] == "=";
    }
    ContainsAt(line, "=", |k|);
    StripSavedLine(k, v);
    FirstEquals(k, v);
    assert m[..|k|] == k && m[|k| + 1..] == v;
  }

  /** A line without a break, ended by "\n", "\r\n" or a lone "\r", is read
      as one line ending in "\n". */
  lemma LinesOfLine(a: string, brk: string, rest: string)
    requires forall i :: 0 <= i < |a| ==> !IsBreak(a[i])
    requires brk == "\n" || brk == "\r\n" || (brk == "\r" && (rest == [] || rest[0] != '\n'))
    ensures FileLines(a + brk + rest) == [a + "\n"] + FileLines(rest)
  {
    var s := a + brk + rest;
    assert forall j :: 0 <= j < |a| ==> s[j] == a[j];
    assert s[|a|] == brk[0];
    assert BreakAt(s, 0) == |a|;
    assert BreakLength(s, |a|) == |brk|;
    assert s[..|a|] == a;
    assert s[|a| + |brk|..] == rest;
  }

  /** Updating a key that occurs once, at the start of `q`, after a prefix
      without it. */
  lemma {:induction false} SetAt(p: seq<Pair>, q: seq<Pair>, kv: Pair)
    requires q != [] && q[0].0 == kv.0
    requires kv.0 !in Keys(p) && kv.0 !in Keys(q[1..])
    ensures Set(p + q, kv.0, kv.1) == p + [kv] + q[1..]
    decreases |p|
  {
    if p == [] {
      assert p + q == q;
      SetAbsent(q[1..], kv.0, kv.1);
    } else {
      assert (p + q)[0] == p[0] && (p + q)[1..] == p[1..] + q;
      SetAt(p[1..], q, kv);
    }
  }

  lemma {:induction false} SetAbsent(c: seq<Pair>, key: string, value: string)
    requires key !in Keys(c)
    ensures Set(c, key, value) == c
    decreases |c|
  {
    if c != [] {
      SetAbsent(c[1..], key, value);
    }
  }

  /** The saved text is read as one line per entry. */
  lemma SavedLines(c: seq<Pair>)
    requires c != [] && KeyClean(c[0].0) && ValueClean(c[0].1)
    ensures FileLines(Serialised(c)) == [ConfigLine(c[0])] + FileLines(Serialised(c[1..]))
  {
    var a := c[0].0 + "=" + c[0].1;
    assert forall i :: 0 <= i < |a| ==> !IsBreak(a[i]) by {
      forall i | 0 <= i < |a| ensures !IsBreak(a[i]) {
        if i < |c[0].0| {
          assert a[i] == c[0].0[i];
        } else if i > |c[0].0| {
          assert a[i] == c[0].1[i - |c[0].0| - 1];
        }
      }
    }
    LinesOfLine(a, "\n", Serialised(c[1..]));
    assert a + "\n" + Serialised(c[1..]) == Serialised(c);
  }

  /** In settings without repeated keys, the first key of `q` occurs
      nowhere else in `p + q`. */
  lemma DistinctSplit(p: seq<Pair>, q: seq<Pair>)
    requires q != [] && Distinct(Keys(p + q))
    ensures q[0].0 in Keys(p + q)
    ensures q[0].0 !in Keys(p) && q[0].0 !in Keys(q[1..])
  {
    var ks := Keys(p + q);
    KeysLength(p + q);
    KeysLength(p);
    KeysLength(q[1..]);
    assert ks[|p|] == q[0].0;
    forall i | 0 <= i < |p| ensures Keys(p)[i] != q[0].0 {
      assert Keys(p)[i] == p[i].0 == ks[i];
    }
    forall i | 0 <= i < |q| - 1 ensures Keys(q[1..])[i] != q[0].0 {
      assert Keys(q[1..])[i] == q[i + 1].0 == ks[|p| + 1 + i];
    }
  }

  /** Replacing the first entry of `q` by one with the same key keeps the
      keys. */
  lemma ReplaceKeepsKeys(p: seq<Pair>, q: seq<Pair>, kv: Pair)
    requires q != [] && q[0].0 == kv.0
    ensures Keys((p + [kv]) + q[1..]) == Keys(p + q)
  {
    KeysAppend(p + [kv], q[1..]);
    KeysAppend(p, [kv]);
    KeysAppend(p, q);
    assert Keys([kv]) == [kv.0] by { assert [kv][1..] == []; }
    assert Keys(q) == [kv.0] + Keys(q[1..]);
    Regroup(Keys(p), [kv.0], Keys(q[1..]));
  }

  /** Reading the line for the first key of `q` replaces that entry and
      keeps the keys. */
  lemma ShiftKey(p: seq<Pair>, q: seq<Pair>, kv: Pair)
    requires q != [] && q[0].0 == kv.0 && Distinct(Keys(p + q))
    ensures kv.0 in Keys(p + q)
    ensures Set(p + q, kv.0, kv.1) == (p + [kv]) + q[1..]
    ensures Keys((p + [kv]) + q[1..]) == Keys(p + q)
  {
    DistinctSplit(p, q);
    SetAt(p, q, kv);
    ReplaceKeepsKeys(p, q, kv);
  }

  /** Two lists of settings with the same keys agree on their first key
      and on the keys of the rest. */
  lemma KeysTail(q: seq<Pair>, c: seq<Pair>)
    requires Keys(q) == Keys(c) && c != []
    ensures q != [] && q[0].0 == c[0].0
    ensures Keys(q[1..]) == Keys(c[1..])
  {
    KeysLength(q);
    KeysLength(c);
    assert Keys(q) == [q[0].0] + Keys(q[1..]);
    assert Keys(c) == [c[0].0] + Keys(c[1..]);
    assert Keys(q)[1..] == Keys(q[1..]) && Keys(c)[1..] == Keys(c[1..]);
  }

  /** Reading the first saved line of `c` over `p + q` moves the first
      entry of `c` into place. */
  lemma ReadBackStep(p: seq<Pair>, q: seq<Pair>, c: seq<Pair>)
    requires c != [] && Keys(q) == Keys(c) && Distinct(Keys(p + q))
    requires KeyClean(c[0].0) && ValueClean(c[0].1)
    ensures q != [] && Keys(q[1..]) == Keys(c[1..])
    ensures Distinct(Keys((p + [c[0]]) + q[1..]))
    ensures ApplyLines(p + q, FileLines(Serialised(c)))
      == ApplyLines((p + [c[0]]) + q[1..], FileLines(Serialised(c[1..])))
  {
    var kv := c[0];
    KeysTail(q, c);
    ParseSavedLine(kv.0, kv.1);
    SavedLines(c);
    ShiftKey(p, q, kv);
    var rest := FileLines(Serialised(c[1..]));
    assert ([ConfigLine(kv)] + rest)[0] == ConfigLine(kv) && ([ConfigLine(kv)] + rest)[1..] == rest;
    assert Step(p + q, ConfigLine(kv)) == (p + [kv]) + q[1..];
  }

  /** Reading back the lines of `c` over settings `p + q`, where `q` has the
      keys of `c` and no key repeats, gives `p + c`. */
  lemma {:induction false} ReadBack(p: seq<Pair>, q: seq<Pair>, c: seq<Pair>)
    requires Keys(q) == Keys(c) && Distinct(Keys(p + q)) && AllClean(c)
    ensures ApplyLines(p + q, FileLines(Serialised(c))) == p + c
    decreases |c|
  {
    if c == [] {
      KeysLength(q);
      assert p + q == p + c;
    } else {
      ReadBackStep(p, q, c);
      ReadBack(p + [c[0]], q[1..], c[1..]);
      MoveHead(p, c);
    }
  }

  /** The default keys can be written and read back. */
  lemma DefaultKeysClean(home: string)
    ensures forall i :: 0 <= i < |Keys(Defaults(home))| ==> KeyClean(Keys(Defaults(home))[i])
    ensures Distinct(Keys(Defaults(home)))
  {
    LoadedKeys(None, home);
  }

  /** Settings with the default keys hold them in the default order. */
  lemma DefaultKeyOrder(c: seq<Pair>, home: string)
    requires Keys(c) == Keys(Defaults(home))
    ensures |c| == 4
    ensures c[0].0 == "ytdlp_path" && c[1].0 == "ffmpeg_path"
    ensures c[2].0 == "download_path" && c[3].0 == "theme"
  {
    DefaultKeys(home);
    KeysLength(c);
    var ks := Keys(c);
    assert ks[0] == c[0].0 && ks[1] == c[1].0 && ks[2] == c[2].0 && ks[3] == c[3].0;
  }

  /** Saving settings with the default keys and then loading them gives the
      same settings back, provided every value fits on one line and does not
      end in whitespace. */
  lemma SaveLoadRoundTrip(c: seq<Pair>, home: string)
    requires Keys(c) == Keys(Defaults(home))
    requires forall i :: 0 <= i < |c| ==> ValueClean(c[i].1)
    ensures Loaded(Some(Serialised(c)), home) == c
  {
    var d := Defaults(home);
    DefaultKeysClean(home);
    KeysLength(c);
    AllCleanOf(c);
    EmptyPrefix(d);
    EmptyPrefix(c);
    ReadBack([], d, c);
  }
}
