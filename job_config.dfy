/** The Databricks job-template configurator: every `*.tmpl` file of a
    directory has its cluster and user placeholders filled in and is written
    back under a name with `tmpl` rewritten to `json`. */
module JobConfig {
  import opened Wrappers
  import PosixPath

  // ---------------------------------------------------------------------
  // Substrings and `str.replace`

  /** `p` occurs in `s` starting at index `i`. */
  predicate OccursAt(s: string, p: string, i: int) {
    0 <= i && i + |p| <= |s| && s[i..i + |p|] == p
  }

  /** `p in s` for Python strings: `p` occurs somewhere in `s`. */
  predicate Contains(s: string, p: string) {
    exists i :: 0 <= i <= |s| && OccursAt(s, p, i)
  }

  predicate StartsWith(s: string, p: string) {
    |p| <= |s| && s[..|p|] == p
  }

  /** `s.replace(p, r)`: occurrences of `p` are found left to right, each
      search resuming after the previous match, and each is replaced by `r`. */
  function Replace(s: string, p: string, r: string): string
    requires |p| > 0
    decreases |s|
  {
    if StartsWith(s, p) then r + Replace(s[|p|..], p, r)
    else if |s| == 0 then []
    else [s[0]] + Replace(s[1..], p, r)
  }

  /** The pieces of `s` between the occurrences `Replace` finds. */
  function Split(s: string, p: string): (pieces: seq<string>)
    requires |p| > 0
    ensures |pieces| >= 1
    decreases |s|
  {
    if StartsWith(s, p) then [""] + Split(s[|p|..], p)
    else if |s| == 0 then [""]
    else
      var rest := Split(s[1..], p);
      [[s[0]] + rest[0]] + rest[1..]
  }

  /** `sep.join(pieces)`. */
  function JoinWith(pieces: seq<string>, sep: string): string
    requires |pieces| >= 1
    decreases |pieces|
  {
    if |pieces| == 1 then pieces[0] else pieces[0] + sep + JoinWith(pieces[1..], sep)
  }

  lemma JoinWithConsFirst(c: string, pieces: seq<string>, sep: string)
    requires |pieces| >= 1
    ensures JoinWith([c + pieces[0]] + pieces[1..], sep) == c + JoinWith(pieces, sep)
  {
    var q := [c + pieces[0]] + pieces[1..];
    assert q[1..] == pieces[1..];
  }

  /** Replacing is splitting at the occurrences and joining with `r`. */
  lemma {:induction false} ReplaceIsJoinOfSplit(s: string, p: string, r: string)
    requires |p| > 0
    ensures Replace(s, p, r) == JoinWith(Split(s, p), r)
    decreases |s|
  {
    if StartsWith(s, p) {
      ReplaceIsJoinOfSplit(s[|p|..], p, r);
      var q := [""] + Split(s[|p|..], p);
      assert q[1..] == Split(s[|p|..], p);
    } else if |s| > 0 {
      ReplaceIsJoinOfSplit(s[1..], p, r);
      JoinWithConsFirst([s[0]], Split(s[1..], p), r);
    }
  }

  /** Replacing a string by itself changes nothing. */
  lemma {:induction false} ReplaceBySelf(s: string, p: string)
    requires |p| > 0
    ensures Replace(s, p, p) == s
    decreases |s|
  {
    if StartsWith(s, p) {
      ReplaceBySelf(s[|p|..], p);
      assert s == s[..|p|] + s[|p|..];
    } else if |s| > 0 {
      ReplaceBySelf(s[1..], p);
      assert s == [s[0]] + s[1..];
    }
  }

  /** Splitting loses nothing: joining the pieces with `p` gives `s` back. */
  lemma SplitJoinRoundTrip(s: string, p: string)
    requires |p| > 0
    ensures JoinWith(Split(s, p), p) == s
  {
    ReplaceIsJoinOfSplit(s, p, p);
    ReplaceBySelf(s, p);
  }

  /** The first piece is the part of `s` before the first occurrence. */
  lemma {:induction false} FirstPieceIsPrefix(s: string, p: string)
    requires |p| > 0
    ensures |Split(s, p)[0]| <= |s| && s[..|Split(s, p)[0]|] == Split(s, p)[0]
    decreases |s|
  {
    if !StartsWith(s, p) && |s| > 0 {
      FirstPieceIsPrefix(s[1..], p);
    }
  }

  /** A character put in front of a string free of `p` leaves it free of
      `p` unless `p` now starts the string. */
  lemma ConsFree(c: char, t: string, p: string)
    requires |p| > 0 && !Contains(t, p) && !StartsWith([c] + t, p)
    ensures !Contains([c] + t, p)
  {
    var u := [c] + t;
    forall i | 0 <= i <= |u|
      ensures !OccursAt(u, p, i)
    {
      if i == 0 && |p| <= |u| {
        assert u[..|p|] == u[0..|p|];
      } else if 0 < i && i + |p| <= |u| {
        assert u[i..i + |p|] == t[i - 1..i - 1 + |p|];
        assert !OccursAt(t, p, i - 1);
      }
    }
  }

  /** Every occurrence is replaced: no piece between the replacements still
      contains `p`. */
  lemma {:induction false} PiecesAreFree(s: string, p: string)
    requires |p| > 0
    ensures forall k :: 0 <= k < |Split(s, p)| ==> !Contains(Split(s, p)[k], p)
    decreases |s|
  {
    if StartsWith(s, p) {
      PiecesAreFree(s[|p|..], p);
      var q := [""] + Split(s[|p|..], p);
      assert forall k :: 1 <= k < |q| ==> q[k] == Split(s[|p|..], p)[k - 1];
    } else if |s| > 0 {
      var rest := Split(s[1..], p);
      PiecesAreFree(s[1..], p);
      FirstPieceIsPrefix(s[1..], p);
      var head := [s[0]] + rest[0];
      assert head == s[..|head|];
      assert !StartsWith(head, p) by {
        if |p| <= |head| {
          assert head[..|p|] == s[..|p|];
        }
      }
      ConsFree(s[0], rest[0], p);
      var q := [head] + rest[1..];
      assert forall k :: 1 <= k < |q| ==> q[k] == rest[k];
    }
  }

  /** A string without `p` is left unchanged. */
  lemma {:induction false} ReplaceAbsent(s: string, p: string, r: string)
    requires |p| > 0 && !Contains(s, p)
    ensures Replace(s, p, r) == s
    decreases |s|
  {
    if |s| > 0 {
      assert !OccursAt(s, p, 0);
      assert !Contains(s[1..], p) by {
        forall i | 0 <= i <= |s[1..]|
          ensures !OccursAt(s[1..], p, i)
        {
          if i + |p| <= |s[1..]| {
            assert s[1..][i..i + |p|] == s[i + 1..i + 1 + |p|];
            assert !OccursAt(s, p, i + 1);
          }
        }
      }
      ReplaceAbsent(s[1..], p, r);
      assert s == [s[0]] + s[1..];
    }
  }

  /** A string that is exactly the placeholder becomes the replacement. */
  lemma ReplaceWhole(p: string, r: string)
    requires |p| > 0
    ensures Replace(p, p, r) == r
  {
    assert StartsWith(p, p);
    assert p[|p|..] == [];
  }

  /** An equally long replacement keeps the length. */
  lemma {:induction false} ReplaceKeepsLength(s: string, p: string, r: string)
    requires |p| > 0 && |r| == |p|
    ensures |Replace(s, p, r)| == |s|
    decreases |s|
  {
    if StartsWith(s, p) {
      ReplaceKeepsLength(s[|p|..], p, r);
    } else if |s| > 0 {
      ReplaceKeepsLength(s[1..], p, r);
    }
  }

  // ---------------------------------------------------------------------
  // Substitution of one template

  const ClusterPlaceholder: string := "<clusterid>"
  const UserPlaceholder: string := "<uname@example.com>"

  /** `if placeholder in s: s = s.replace(placeholder, value)`, where a
      missing command-line value is `None` and `str.replace` refuses it. */
  function Substitute(s: string, placeholder: string, value: Option<string>): (r: Result<string>)
    requires |placeholder| > 0
    ensures r.Raised? <==> Contains(s, placeholder) && value.None?
    ensures r.Raised? ==> r.error.TypeError?
    ensures !Contains(s, placeholder) ==> r == Ok(s)
  {
    if !Contains(s, placeholder) then Ok(s)
    else match value
      case None => Raised(TypeError("replace() argument 2 must be str, not None"))
      case Some(v) => Ok(Replace(s, placeholder, v))
  }

  /** The configured job: the cluster placeholder is filled in first, then
      the user placeholder. */
  function Configure(template: string, clusterId: Option<string>, username: Option<string>): (r: Result<string>)
    ensures r.Raised? ==> r.error.TypeError?
  {
    match Substitute(template, ClusterPlaceholder, clusterId)
    case Raised(e) => Raised(e)
    case Ok(s) => Substitute(s, UserPlaceholder, username)
  }

  /** Both placeholders replaced, the cluster's first. */
  function Configured(template: string, clusterId: string, username: string): string
  {
    Replace(Replace(template, ClusterPlaceholder, clusterId), UserPlaceholder, username)
  }

  /** With both values given, every occurrence of either placeholder is
      replaced, the cluster's first. */
  lemma ConfigureReplacesAll(template: string, clusterId: string, username: string)
    ensures Configure(template, Some(clusterId), Some(username)) == Ok(Configured(template, clusterId, username))
  {
    if !Contains(template, ClusterPlaceholder) {
      ReplaceAbsent(template, ClusterPlaceholder, clusterId);
    }
    var s := Replace(template, ClusterPlaceholder, clusterId);
    if !Contains(s, UserPlaceholder) {
      ReplaceAbsent(s, UserPlaceholder, username);
    }
  }

  /** A template without either placeholder is written out unchanged,
      whatever the arguments. */
  lemma NoPlaceholdersUnchanged(template: string, clusterId: Option<string>, username: Option<string>)
    requires !Contains(template, ClusterPlaceholder) && !Contains(template, UserPlaceholder)
    ensures Configure(template, clusterId, username) == Ok(template)
  {
  }

  /** A missing cluster ID fails exactly when its placeholder is present. */
  lemma MissingClusterId(template: string, username: Option<string>)
    ensures Configure(template, None, username).Raised? <==>
            Contains(template, ClusterPlaceholder) ||
            (Contains(template, UserPlaceholder) && username.None?)
  {
  }

  /** Because the cluster goes first, a user placeholder that the cluster
      value brings in is replaced as well. */
  lemma ClusterValueIntroducesUser(username: string)
    ensures Configure(ClusterPlaceholder, Some(UserPlaceholder), Some(username)) == Ok(username)
  {
    ConfigureReplacesAll(ClusterPlaceholder, UserPlaceholder, username);
    ReplaceWhole(ClusterPlaceholder, UserPlaceholder);
    ReplaceWhole(UserPlaceholder, username);
  }

  // ---------------------------------------------------------------------
  // File names

  /** `filename.replace("tmpl", "json")`, on the whole path. */
  function OutputName(path: string): (out: string)
    ensures |out| == |path|
  {
    ReplaceKeepsLength(path, "tmpl", "json");
    Replace(path, "tmpl", "json")
  }

  /** The rewrite leaves a path without `tmpl` alone, and turns `tmpl`
      into `json` wherever it occurs, directory names included. */
  lemma OutputNameExamples()
    ensures OutputName("a.tmpl") == "a.json"
    ensures OutputName("tmpl/a.tmpl") == "json/a.json"
  {
    ReplaceWhole("tmpl", "json");
    assert Replace(".tmpl", "tmpl", "json") == ".json" by {
      assert ".tmpl"[..4][0] != "tmpl"[0];
      assert ".tmpl"[1..] == "tmpl";
    }
    assert Replace("a.tmpl", "tmpl", "json") == "a.json" by {
      assert "a.tmpl"[..4][0] != "tmpl"[0];
      assert "a.tmpl"[1..] == ".tmpl";
    }
    assert Replace("/a.tmpl", "tmpl", "json") == "/a.json" by {
      assert "/a.tmpl"[..4][0] != "tmpl"[0];
      assert "/a.tmpl"[1..] == "a.tmpl";
    }
    assert StartsWith("tmpl/a.tmpl", "tmpl");
    assert "tmpl/a.tmpl"[4..] == "/a.tmpl";
  }

  /** `glob("*.tmpl")` in one directory: names ending in `.tmpl`, except
      hidden ones. */
  predicate Selected(name: string) {
    |name| >= 5 && name[|name| - 5..] == ".tmpl" && name[0] != '.'
  }

  // ---------------------------------------------------------------------
  // The loop of `main`

  /** A directory entry: its name and the text it holds. */
  datatype Entry = Entry(name: string, content: string)

  /** What a run leaves behind: the files written (path and text), the names
      printed, and the exception that ended it early, if any. */
  datatype Outcome = Outcome(written: seq<(string, string)>, printed: seq<string>, error: Option<Exception>)

  function Prepend(written: seq<(string, string)>, printed: seq<string>, o: Outcome): Outcome {
    Outcome(written + o.written, printed + o.printed, o.error)
  }

  /** The run over `entries` in the order `glob` lists them: each template
      is configured, written under its `json` name, and its name printed;
      the first failure ends the run. */
  function Run(dir: string, entries: seq<Entry>, clusterId: Option<string>, username: Option<string>): Outcome
    decreases |entries|
  {
    if |entries| == 0 then Outcome([], [], None)
    else if !Selected(entries[0].name) then Run(dir, entries[1..], clusterId, username)
    else
      var path := PosixPath.Join(dir, entries[0].name);
      match Configure(entries[0].content, clusterId, username)
      case Raised(e) => Outcome([], [], Some(e))
      case Ok(s) => Prepend([(OutputName(path), s)], [path], Run(dir, entries[1..], clusterId, username))
  }

  /** The entries the glob selects, in listing order. */
  function SelectedEntries(entries: seq<Entry>): (sel: seq<Entry>)
    ensures |sel| <= |entries|
    ensures forall k :: 0 <= k < |sel| ==> Selected(sel[k].name)
    decreases |entries|
  {
    if |entries| == 0 then []
    else (if Selected(entries[0].name) then [entries[0]] else []) + SelectedEntries(entries[1..])
  }

  /** Every file written is the `json` name of a printed template path, in
      the same order. */
  lemma {:induction false} WrittenMatchesPrinted(dir: string, entries: seq<Entry>,
                                                  clusterId: Option<string>, username: Option<string>)
    ensures var o := Run(dir, entries, clusterId, username);
      |o.written| == |o.printed| &&
      forall k :: 0 <= k < |o.written| ==> o.written[k].0 == OutputName(o.printed[k])
    decreases |entries|
  {
    if |entries| > 0 {
      WrittenMatchesPrinted(dir, entries[1..], clusterId, username);
    }
  }

  /** With both values given nothing fails: the selected entries, in
      listing order, each have their path printed and their configured text
      written under the path's `json` name. */
  lemma {:induction false} AllSelectedWritten(dir: string, entries: seq<Entry>, clusterId: string, username: string)
    ensures var o := Run(dir, entries, Some(clusterId), Some(username));
      var sel := SelectedEntries(entries);
      && o.error.None? && |o.printed| == |sel| && |o.written| == |sel|
      && (forall k :: 0 <= k < |sel| ==> o.printed[k] == PosixPath.Join(dir, sel[k].name))
      && (forall k :: 0 <= k < |sel| ==>
            o.written[k] == (OutputName(o.printed[k]), Configured(sel[k].content, clusterId, username)))
    decreases |entries|
  {
    if |entries| > 0 {
      AllSelectedWritten(dir, entries[1..], clusterId, username);
      if Selected(entries[0].name) {
        ConfigureReplacesAll(entries[0].content, clusterId, username);
        var rest := SelectedEntries(entries[1..]);
        assert SelectedEntries(entries) == [entries[0]] + rest;
      } else {
        assert SelectedEntries(entries) == SelectedEntries(entries[1..]);
      }
    }
  }

  /** The first selected template that cannot be configured ends the run
      with its `TypeError`: what the entries before it wrote and printed
      stays, and nothing after it is touched. */
  lemma {:induction false} FirstFailureStops(dir: string, entries: seq<Entry>, i: nat,
                                             clusterId: Option<string>, username: Option<string>)
    requires i < |entries| && Selected(entries[i].name)
    requires Configure(entries[i].content, clusterId, username).Raised?
    requires forall j :: 0 <= j < i && Selected(entries[j].name) ==> Configure(entries[j].content, clusterId, username).Ok?
    ensures var before := Run(dir, entries[..i], clusterId, username);
      && before.error.None?
      && Run(dir, entries, clusterId, username)
         == Outcome(before.written, before.printed, Some(Configure(entries[i].content, clusterId, username).error))
      && Run(dir, entries, clusterId, username).error.value.TypeError?
    decreases i
  {
    if i > 0 {
      assert entries[..i][0] == entries[0] && entries[..i][1..] == entries[1..][..i - 1];
      FirstFailureStops(dir, entries[1..], i - 1, clusterId, username);
    }
  }

  /** Only entries the glob selects are touched. */
  lemma {:induction false} UnselectedIgnored(dir: string, entries: seq<Entry>,
                                              clusterId: Option<string>, username: Option<string>)
    requires forall j :: 0 <= j < |entries| ==> !Selected(entries[j].name)
    ensures Run(dir, entries, clusterId, username) == Outcome([], [], None)
    decreases |entries|
  {
    if |entries| > 0 {
      UnselectedIgnored(dir, entries[1..], clusterId, username);
    }
  }

  /** One step of `Run` from position `i` of the listing. */
  lemma RunFrom(dir: string, entries: seq<Entry>, i: nat, clusterId: Option<string>, username: Option<string>)
    requires i < |entries|
    ensures var next := Run(dir, entries[i + 1..], clusterId, username);
      var path := PosixPath.Join(dir, entries[i].name);
      Run(dir, entries[i..], clusterId, username)
      == if !Selected(entries[i].name) then next
         else match Configure(entries[i].content, clusterId, username)
           case Raised(e) => Outcome([], [], Some(e))
           case Ok(s) => Prepend([(OutputName(path), s)], [path], next)
  {
    assert entries[i..][0] == entries[i] && entries[i..][1..] == entries[i + 1..];
  }

  /** Prepending twice is prepending the concatenations. */
  lemma PrependTwice(w: seq<(string, string)>, p: seq<string>, w2: seq<(string, string)>, p2: seq<string>, o: Outcome)
    ensures Prepend(w, p, Prepend(w2, p2, o)) == Prepend(w + w2, p + p2, o)
  {
    assert w + (w2 + o.written) == (w + w2) + o.written;
    assert p + (p2 + o.printed) == (p + p2) + o.printed;
  }

  /** `main`'s loop over the directory listing. */
  method ConfigureJobs(dir: string, entries: seq<Entry>, clusterId: Option<string>, username: Option<string>)
    returns (o: Outcome)
    ensures o == Run(dir, entries, clusterId, username)
  {
    var written: seq<(string, string)> := [];
    var printed: seq<string> := [];
    var i := 0;
    while i < |entries|
      invariant 0 <= i <= |entries|
      invariant Run(dir, entries, clusterId, username)
             == Prepend(written, printed, Run(dir, entries[i..], clusterId, username))
    {
      var entry := entries[i];
      RunFrom(dir, entries, i, clusterId, username);
      if Selected(entry.name) {
        var filename := PosixPath.Join(dir, entry.name);
        var s := Configure(entry.content, clusterId, username);
        if s.Raised? {
          return Outcome(written, printed, Some(s.error));
        }
        PrependTwice(written, printed, [(OutputName(filename), s.value)], [filename],
                     Run(dir, entries[i + 1..], clusterId, username));
        written := written + [(OutputName(filename), s.value)];
        printed := printed + [filename];
      }
      i := i + 1;
    }
    assert entries[i..] == [];
    o := Outcome(written, printed, None);
  }
}
