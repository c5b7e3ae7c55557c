/** The download history: a newest-first list of entries, keyed by file
    path, capped at 50 entries (`add_to_history`, and the path filter used by
    the delete actions). The JSON store itself is modelled as the list value
    it holds. */
module History {
  import opened SizeFormat
  import opened Seqs

  /** One stored download, `{"path", "title", "duration", "size"}`. */
  datatype Entry = Entry(path: string, title: string, duration: string, size: SizeText)

  /** The most entries the history keeps. */
  const Cap: nat := 50

  /** No two entries share a path. */
  predicate UniquePaths(h: seq<Entry>) {
    forall i, j :: 0 <= i < j < |h| ==> h[i].path != h[j].path
  }

  /** No entry has the given path. */
  predicate PathAbsent(h: seq<Entry>, path: string) {
    forall i :: 0 <= i < |h| ==> h[i].path != path
  }

  /** `[x for x in history if x['path'] != path]`. */
  function WithoutPath(h: seq<Entry>, path: string): (r: seq<Entry>)
    ensures |r| <= |h|
    ensures PathAbsent(r, path)
    ensures forall x :: x in r <==> x in h && x.path != path
  {
    if h == [] then []
    else (if h[0].path == path then [] else [h[0]]) + WithoutPath(h[1..], path)
  }

  /** `add_to_history(entry)`: drop every entry with the same path, put the
      new one first, keep the first 50. */
  function Add(h: seq<Entry>, e: Entry): seq<Entry>
  {
    var kept := [e] + WithoutPath(h, e.path);
    if |kept| <= Cap then kept else kept[..Cap]
  }

  /** Filtering keeps the survivors in their original order: it distributes
      over concatenation. */
  lemma {:induction false} WithoutPathAppend(a: seq<Entry>, b: seq<Entry>, path: string)
    ensures WithoutPath(a + b, path) == WithoutPath(a, path) + WithoutPath(b, path)
  {
    if a == [] {
      EmptyPrefix(b);
      EmptyPrefix(WithoutPath(b, path));
    } else {
      assert (a + b)[0] == a[0];
      assert (a + b)[1..] == a[1..] + b;
      WithoutPathAppend(a[1..], b, path);
      Regroup(if a[0].path == path then [] else [a[0]], WithoutPath(a[1..], path), WithoutPath(b, path));
    }
  }

  /** Filtering out a path that no entry has changes nothing. */
  lemma {:induction false} WithoutAbsentPath(h: seq<Entry>, path: string)
    requires PathAbsent(h, path)
    ensures WithoutPath(h, path) == h
  {
    if h != [] {
      WithoutAbsentPath(h[1..], path);
    }
  }

  /** Filtering keeps paths unique. */
  lemma {:induction false} WithoutPathUnique(h: seq<Entry>, path: string)
    requires UniquePaths(h)
    ensures UniquePaths(WithoutPath(h, path))
  {
    if h != [] {
      WithoutPathUnique(h[1..], path);
      var rest := WithoutPath(h[1..], path);
      forall x | x in rest
        ensures x.path != h[0].path
      {
        var i :| 0 <= i < |h[1..]| && h[1..][i] == x;
        assert h[i + 1] == x;
      }
    }
  }

  /** What `add_to_history` promises: the new entry is first, no other entry
      has its path, the length is min(50, survivors + 1), and the survivors
      follow in their old order, the oldest of them dropped when the list is
      full. */
  lemma AddProperties(h: seq<Entry>, e: Entry)
    ensures var r := Add(h, e);
      && |r| >= 1 && r[0] == e
      && PathAbsent(r[1..], e.path)
      && |r| == (if |WithoutPath(h, e.path)| + 1 <= Cap then |WithoutPath(h, e.path)| + 1 else Cap)
      && r[1..] == WithoutPath(h, e.path)[..|r| - 1]
  {
    var kept := [e] + WithoutPath(h, e.path);
    assert kept[1..] == WithoutPath(h, e.path);
  }

  /** Adding keeps the stored list's invariant: unique paths, at most 50. */
  lemma AddKeepsInvariant(h: seq<Entry>, e: Entry)
    requires UniquePaths(h)
    ensures UniquePaths(Add(h, e)) && |Add(h, e)| <= Cap
  {
    var w := WithoutPath(h, e.path);
    WithoutPathUnique(h, e.path);
    var kept := [e] + w;
    assert UniquePaths(kept) by {
      forall i, j | 0 <= i < j < |kept|
        ensures kept[i].path != kept[j].path
      {
        if i == 0 {
          assert kept[j] == w[j - 1];
        } else {
          assert kept[i] == w[i - 1] && kept[j] == w[j - 1];
        }
      }
    }
  }

  /** Adding an entry whose path is already stored replaces that entry: it
      leaves its old place and the new entry is first. */
  lemma AddReplaces(h: seq<Entry>, e: Entry, j: nat)
    requires UniquePaths(h) && |h| <= Cap
    requires j < |h| && h[j].path == e.path
    ensures Add(h, e) == [e] + h[..j] + h[j + 1..]
  {
    WithoutStoredPath(h, e.path, j);
    var w := WithoutPath(h, e.path);
    assert |[e] + w| <= Cap;
    assert [e] + h[..j] + h[j + 1..] == [e] + w;
  }

  /** Filtering out a path stored once removes just that entry. */
  lemma WithoutStoredPath(h: seq<Entry>, path: string, j: nat)
    requires UniquePaths(h) && j < |h| && h[j].path == path
    ensures WithoutPath(h, path) == h[..j] + h[j + 1..]
  {
    StoredOnce(h, path, j);
    assert h == h[..j] + [h[j]] + h[j + 1..];
    WithoutMiddle(h[..j], h[j], h[j + 1..], path);
  }

  /** Filtering out the path of the one entry that has it. */
  lemma WithoutMiddle(before: seq<Entry>, e: Entry, after: seq<Entry>, path: string)
    requires PathAbsent(before, path) && PathAbsent(after, path) && e.path == path
    ensures WithoutPath(before + [e] + after, path) == before + after
  {
    assert WithoutPath([e], path) == [] by {
      assert [e][1..] == [];
    }
    WithoutPathAppend(before + [e], after, path);
    WithoutPathAppend(before, [e], path);
    WithoutAbsentPath(before, path);
    WithoutAbsentPath(after, path);
    assert before + [] == before;
  }

  /** A path stored once occurs neither before nor after its entry. */
  lemma StoredOnce(h: seq<Entry>, path: string, j: nat)
    requires UniquePaths(h) && j < |h| && h[j].path == path
    ensures PathAbsent(h[..j], path) && PathAbsent(h[j + 1..], path)
  {
    var before, after := h[..j], h[j + 1..];
    forall i | 0 <= i < |before| ensures before[i].path != path {
      assert before[i] == h[i];
    }
    forall i | 0 <= i < |after| ensures after[i].path != path {
      assert after[i] == h[j + 1 + i];
    }
  }

  /** Adding a new path to a full list drops the oldest entry. */
  lemma AddToFullDropsOldest(h: seq<Entry>, e: Entry)
    requires |h| == Cap && PathAbsent(h, e.path)
    ensures Add(h, e) == [e] + h[..Cap - 1]
    ensures |Add(h, e)| == Cap
  {
    WithoutAbsentPath(h, e.path);
    assert ([e] + h)[..Cap] == [e] + h[..Cap - 1];
  }

  /** The history after `add_to_history` has been called for each entry of
      `es` in turn. */
  function AddAll(h: seq<Entry>, es: seq<Entry>): seq<Entry>
    decreases |es|
  {
    if es == [] then h else Add(AddAll(h, es[..|es| - 1]), es[|es| - 1])
  }

  /** A run of additions keeps the stored list's invariant, and the entry
      added last is first. */
  lemma {:induction false} AddAllKeepsInvariant(h: seq<Entry>, es: seq<Entry>)
    requires UniquePaths(h) && |h| <= Cap
    ensures UniquePaths(AddAll(h, es)) && |AddAll(h, es)| <= Cap
    ensures es != [] ==> |AddAll(h, es)| >= 1 && AddAll(h, es)[0] == es[|es| - 1]
    decreases |es|
  {
    if es != [] {
      AddAllKeepsInvariant(h, es[..|es| - 1]);
      AddKeepsInvariant(AddAll(h, es[..|es| - 1]), es[|es| - 1]);
      AddProperties(AddAll(h, es[..|es| - 1]), es[|es| - 1]);
    }
  }

  /** Adding two runs of entries one after the other is adding their
      concatenation. */
  lemma {:induction false} AddAllAppend(h: seq<Entry>, a: seq<Entry>, b: seq<Entry>)
    ensures AddAll(h, a + b) == AddAll(AddAll(h, a), b)
    decreases |b|
  {
    if b == [] {
      assert a + b == a;
    } else {
      assert (a + b)[..|a + b| - 1] == a + b[..|b| - 1];
      AddAllAppend(h, a, b[..|b| - 1]);
    }
  }
}
