/**
  Which entries of the plugin directory are loaded as front-end plugins,
  under which name, and the loop that loads each of them in turn.
 */
module Plugins {
  import opened Wrappers

  /** A directory entry: its file name and whether it is a regular file (symbolic links followed). */
  datatype DirEntry = DirEntry(name: string, isFile: bool)

  /** The position of the last `.` in `s`, if there is one. */
  function LastDot(s: string): (r: Option<nat>)
    ensures r.Some? ==> r.value < |s| && s[r.value] == '.' && forall k | r.value < k < |s| :: s[k] != '.'
    ensures r.None? ==> forall k | 0 <= k < |s| :: s[k] != '.'
  {
    if s == [] then None
    else if s[|s| - 1] == '.' then Some(|s| - 1)
    else LastDot(s[..|s| - 1])
  }

  /**
    `rsplit_file_at_dot` of Rust's standard library: a file name split at
    its last dot into (before, after); a name with no dot, a name whose
    only dot leads it, and `..` are not split.
   */
  function SplitAtDot(name: string): (r: (Option<string>, Option<string>))
    ensures r.0.None? <==> forall k | 0 <= k < |name| :: name[k] != '.'
    ensures r.0.Some? && r.1.Some? <==> name != ".." && exists k | 0 < k < |name| :: name[k] == '.'
    ensures r.0.None? ==> r.1 == Some(name)
    ensures r.1.None? ==> r.0 == Some(name)
    ensures r.0.Some? && r.1.Some? ==>
      && name == r.0.value + "." + r.1.value && r.0.value != []
      && forall k | 0 <= k < |r.1.value| :: r.1.value[k] != '.'
  {
    if name == ".." then assert name[0] == '.'; (Some(name), None)
    else match LastDot(name)
      case None => (None, Some(name))
      case Some(i) => if i == 0 then (Some(name), None) else (Some(name[..i]), Some(name[i + 1..]))
  }

  /** `Path::file_stem`: `before.or(after)`. */
  function FileStem(name: string): (r: string)
    ensures Extension(name).Some? ==> name == r + "." + Extension(name).value
    ensures Extension(name).None? ==> r == name
  {
    var (before, after) := SplitAtDot(name);
    if before.Some? then before.value else after.value
  }

  /** `Path::extension`: `before.and(after)`. */
  function Extension(name: string): (r: Option<string>)
    ensures r.None? <==> name == ".." || forall k | 0 < k < |name| :: name[k] != '.'
    ensures r.Some? ==>
      && |r.value| + 1 < |name| && name[|name| - |r.value|..] == r.value && name[|name| - |r.value| - 1] == '.'
      && forall k | 0 <= k < |r.value| :: r.value[k] != '.'
  {
    var (before, after) := SplitAtDot(name);
    if before.Some? then after else None
  }

  /** A name has extension `zip` exactly when it ends in `.zip` after at least one character; its stem is what comes before. */
  lemma ZipExtension(name: string)
    ensures Extension(name) == Some("zip") <==> |name| > 4 && name[|name| - 4..] == ".zip"
    ensures Extension(name) == Some("zip") ==> FileStem(name) == name[..|name| - 4]
  {
    if |name| > 4 && name[|name| - 4..] == ".zip" {
      var stem := name[..|name| - 4];
      assert name == stem + ".zip";
      assert LastDot(stem + ".") == Some(|stem|);
      assert (stem + ".z")[..|stem| + 1] == stem + ".";
      assert LastDot(stem + ".z") == Some(|stem|);
      assert (stem + ".zi")[..|stem| + 2] == stem + ".z";
      assert LastDot(stem + ".zi") == Some(|stem|);
      assert name[..|name| - 1] == stem + ".zi";
      assert name != ".." && LastDot(name) == Some(|stem|);
      assert name[|stem| + 1..] == "zip";
    }
    if Extension(name) == Some("zip") {
      assert name[|name| - 4..] == "." + "zip";
    }
  }

  /**
    The filters: a regular file, extension `zip`, stem other than `api`;
    that is, a regular file named by a non-empty stem other than `api`
    followed by `.zip`.
   */
  function IsPlugin(e: DirEntry): (r: bool)
    ensures r <==> e.isFile && |e.name| > 4 && e.name[|e.name| - 4..] == ".zip" && e.name[..|e.name| - 4] != "api"
  {
    ZipExtension(e.name);
    e.isFile && Extension(e.name) == Some("zip") && FileStem(e.name) != "api"
  }

  /** The readable entries of a listing that `keep` accepts, in listing order (`filter_map` then `filter`). */
  function Filter(entries: seq<Option<DirEntry>>, keep: DirEntry -> bool): (r: seq<DirEntry>)
    ensures |r| <= |entries|
    ensures forall k | 0 <= k < |r| :: keep(r[k])
  {
    if entries == [] then []
    else
      var last := entries[|entries| - 1];
      Filter(entries[..|entries| - 1], keep) + if last.Some? && keep(last.value) then [last.value] else []
  }

  /** The plugins of a directory listing. */
  function SelectPlugins(entries: seq<Option<DirEntry>>): (r: seq<DirEntry>)
    ensures |r| <= |entries|
    ensures forall k | 0 <= k < |r| :: IsPlugin(r[k])
  {
    Filter(entries, IsPlugin)
  }

  /** An entry is kept exactly when it was readable and `keep` accepts it. */
  lemma {:induction false} FilterExactly(entries: seq<Option<DirEntry>>, keep: DirEntry -> bool)
    ensures forall e :: e in Filter(entries, keep) <==> Some(e) in entries && keep(e)
  {
    if entries != [] {
      var init := entries[..|entries| - 1];
      FilterExactly(init, keep);
      assert entries == init + [entries[|entries| - 1]];
    }
  }

  /** A plugin is loaded exactly when its entry was readable and passes every filter. */
  lemma SelectedExactly(entries: seq<Option<DirEntry>>)
    ensures forall e :: e in SelectPlugins(entries) <==> Some(e) in entries && IsPlugin(e)
  {
    FilterExactly(entries, IsPlugin);
  }

  /** Filtering keeps listing order: filtering two listings one after the other is filtering both. */
  lemma {:induction false} FilterAppend(a: seq<Option<DirEntry>>, b: seq<Option<DirEntry>>, keep: DirEntry -> bool)
    ensures Filter(a + b, keep) == Filter(a, keep) + Filter(b, keep)
  {
    if b == [] {
      assert a + b == a;
    } else {
      var init := b[..|b| - 1];
      FilterAppend(a, init, keep);
      assert (a + b)[..|a + b| - 1] == a + init;
      assert (a + b)[|a + b| - 1] == b[|b| - 1];
    }
  }

  /** A name is a plugin's file name exactly when it is a non-empty stem other than `api` followed by `.zip`. */
  lemma {:induction false} PluginNames(stem: string)
    ensures IsPlugin(DirEntry(stem + ".zip", true)) <==> stem != "" && stem != "api"
    ensures stem != "" ==> FileStem(stem + ".zip") == stem
  {
    var name := stem + ".zip";
    ZipExtension(name);
    assert name[..|name| - 4] == stem && name[|name| - 4..] == ".zip";
  }

  /** Every plugin's file name is its stem followed by `.zip`. */
  lemma PluginNameShape(e: DirEntry)
    requires IsPlugin(e)
    ensures e.name == FileStem(e.name) + ".zip"
  {
  }

  /** What loading one plugin came to: its name and whether `load_plugin` succeeded. */
  datatype PluginOutcome = PluginOutcome(name: string, loaded: bool)

  /**
    The start-up loop over the plugin directory: each plugin is loaded under
    its stem, and a failure is logged and does not stop the others. `load`
    is the outcome `load_plugin` has for an entry; when the directory cannot
    be read, nothing is loaded.
   */
  method LoadPlugins(dir: Result<seq<Option<DirEntry>>>, load: DirEntry -> bool) returns (outcomes: seq<PluginOutcome>)
    ensures dir.Failure? ==> outcomes == []
    ensures dir.Success? ==>
      var plugins := SelectPlugins(dir.value);
      && |outcomes| == |plugins|
      && forall k | 0 <= k < |plugins| :: outcomes[k] == PluginOutcome(FileStem(plugins[k].name), load(plugins[k]))
  {
    outcomes := [];
    if dir.Failure? {
      return;
    }
    var entries := dir.value;
    ghost var selected: seq<DirEntry> := [];
    var i := 0;
    while i < |entries|
      invariant 0 <= i <= |entries|
      invariant selected == SelectPlugins(entries[..i])
      invariant |outcomes| == |selected|
      invariant forall k | 0 <= k < |selected| :: outcomes[k] == PluginOutcome(FileStem(selected[k].name), load(selected[k]))
    {
      assert entries[..i + 1][..i] == entries[..i];
      if entries[i].Some? && IsPlugin(entries[i].value) {
        var entry := entries[i].value;
        outcomes := outcomes + [PluginOutcome(FileStem(entry.name), load(entry))];
        selected := selected + [entry];
      }
      i := i + 1;
    }
    assert entries[..i] == entries;
  }
}
