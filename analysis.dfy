/** The results index of `src/analysis/analysis_utils.py`: `generate_dict`
    builds a nested skeleton `config -> trial -> init_<i>_<file> -> None`, and
    `populate_optimizer_results` files each result found under a walked
    directory tree into it, under a key derived from the file's name. */
module Analysis {
  import opened Common
  import opened Text

  /** A value of the nested dictionary: `None`, a path string, a loaded CSV
      table or text result (named by the file it was read from), or a
      dictionary. */
  datatype Value =
    | Null  // Python's None
    | Path(path: string)
    | CsvFrame(source: string)
    | TxtResults(source: string)
    | Dict(entries: map<string, Value>)

  type Index = map<string, Value>

  /** `ALLOWED_CONFIGS`: `config_1` to `config_3`. */
  const AllowedConfigs: seq<string> := ["config_1", "config_2", "config_3"]

  /** The number of init states per init file. */
  const InitStates: nat := 6

  /** `f"init_{i}_{init_file}"`. */
  function InitKey(i: nat, initFile: string): string
  {
    "init_" + NatToString(i) + "_" + initFile
  }

  /** The keys of the first `n` init files, for every init state. */
  ghost function InitKeysBefore(initFiles: seq<string>, n: nat): set<string>
    requires n <= |initFiles|
  {
    set p, i | 0 <= p < n && 0 <= i < InitStates :: InitKey(i, initFiles[p])
  }

  /** The dictionary every trial gets: every init key, mapped to `None`. */
  ghost function InitSkeleton(initFiles: seq<string>): map<string, Value>
  {
    map k | k in InitKeysBefore(initFiles, |initFiles|) :: Null
  }

  /** The dictionary of one configuration: every trial maps to its own init
      dictionary, then `configs_file` is set to `None` (overwriting a trial of
      that name). */
  ghost function ConfigSkeleton(trials: seq<string>, initFiles: seq<string>): map<string, Value>
  {
    (map t | t in trials :: Dict(InitSkeleton(initFiles)))["configs_file" := Null]
  }

  ghost function Skeleton(configs: seq<string>, trials: seq<string>, initFiles: seq<string>): Index
  {
    map c | c in configs :: Dict(ConfigSkeleton(trials, initFiles))
  }

  /** The init keys are exactly `init_<i>_<f>` for i below 6 and f an init
      file, all mapped to `None`. */
  lemma InitSkeletonKeys(initFiles: seq<string>, k: string)
    ensures k in InitSkeleton(initFiles) <==>
              exists i: nat, f :: i < InitStates && f in initFiles && k == InitKey(i, f)
    ensures k in InitSkeleton(initFiles) ==> InitSkeleton(initFiles)[k] == Null
  {
    if exists i: nat, f :: i < InitStates && f in initFiles && k == InitKey(i, f) {
      var i: nat, f :| i < InitStates && f in initFiles && k == InitKey(i, f);
      var p :| 0 <= p < |initFiles| && initFiles[p] == f;
      assert k in InitKeysBefore(initFiles, |initFiles|);
    }
  }

  /** A configuration's keys are its trials and `configs_file`; every trial
      other than `configs_file` holds the full init dictionary. */
  lemma ConfigSkeletonKeys(trials: seq<string>, initFiles: seq<string>, k: string)
    ensures k in ConfigSkeleton(trials, initFiles) <==> k in trials || k == "configs_file"
    ensures ConfigSkeleton(trials, initFiles)["configs_file"] == Null
    ensures k in trials && k != "configs_file" ==> ConfigSkeleton(trials, initFiles)[k] == Dict(InitSkeleton(initFiles))
  {
  }

  /** Adding the next init file adds its six keys. */
  lemma InitKeysStep(initFiles: seq<string>, p: nat)
    requires p < |initFiles|
    ensures InitKeysBefore(initFiles, p + 1) ==
              InitKeysBefore(initFiles, p) + set i | 0 <= i < InitStates :: InitKey(i, initFiles[p])
  {
  }

  /** `generate_dict(configs, trials, init_files)`: the nested loops fill a
      fresh dictionary per configuration and per trial. */
  method GenerateDict(configs: seq<string>, trials: seq<string>, initFiles: seq<string>) returns (result: Index)
    ensures result == Skeleton(configs, trials, initFiles)
  {
    result := map[];
    for c := 0 to |configs|
      invariant result.Keys == set j | 0 <= j < c :: configs[j]
      invariant forall k :: k in result ==> result[k] == Dict(ConfigSkeleton(trials, initFiles))
    {
      var configDict: map<string, Value> := map[];
      for t := 0 to |trials|
        invariant configDict.Keys == set j | 0 <= j < t :: trials[j]
        invariant forall k :: k in configDict ==> configDict[k] == Dict(InitSkeleton(initFiles))
      {
        var initDict := BuildInitDict(initFiles);
        configDict := configDict[trials[t] := Dict(initDict)];
      }
      configDict := configDict["configs_file" := Null];
      assert configDict == ConfigSkeleton(trials, initFiles);
      result := result[configs[c] := Dict(configDict)];
    }
  }

  /** The two inner loops of `generate_dict`: one trial's init dictionary. */
  method BuildInitDict(initFiles: seq<string>) returns (initDict: map<string, Value>)
    ensures initDict == InitSkeleton(initFiles)
  {
    initDict := map[];
    for p := 0 to |initFiles|
      invariant initDict.Keys == InitKeysBefore(initFiles, p)
      invariant forall k :: k in initDict ==> initDict[k] == Null
    {
      for i := 0 to InitStates
        invariant initDict.Keys ==
                    InitKeysBefore(initFiles, p) + set q | 0 <= q < i :: InitKey(q, initFiles[p])
        invariant forall k :: k in initDict ==> initDict[k] == Null
      {
        initDict := initDict[InitKey(i, initFiles[p]) := Null];
      }
      InitKeysStep(initFiles, p);
    }
  }

  /** The key `populate_optimizer_results` files a result under: of the part
      of the name after its last `-`, the second and third `_` pieces joined
      by `_`, then `_` and the piece after the first `.` of the last `_`
      piece; IndexError when that last piece holds no `.`. */
  function SelectedFileKey(file: string): (r: Result<string>)
    ensures r.Err? ==> r.error == IndexError
  {
    var parts := Split(Last(Split(file, '-')), '_');
    var tail := parts[1..];
    var head := Join(if |tail| <= 2 then tail else tail[..2], '_');
    var ext :- PyIndex(Split(Last(parts), '.'), 1);
    Ok(head + "_" + ext)
  }

  /** `strftime('%Y-%m-%d-%H-%M-%S')` for a four-digit year. */
  function Timestamp(year: nat, month: nat, day: nat, hour: nat, minute: nat, second: nat): string
  {
    DatePrefix(year, month, day, hour, minute) + "-" + Pad2(second)
  }

  function DatePrefix(year: nat, month: nat, day: nat, hour: nat, minute: nat): string
  {
    NatToString(year) + "-" + Pad2(month) + "-" + Pad2(day) + "-" + Pad2(hour) + "-" + Pad2(minute)
  }

  /** The name the differential-evolution session gives its trial table
      (extension `csv`) and its summary (extension `txt`). */
  function DEResultName(stamp: string, selectedInitState: int, extension: string): string
  {
    stamp + "_init_" + IntToString(selectedInitState) + "_de." + extension
  }

  /** A decimal rendering holds no separator. */
  lemma DigitsHaveNoSeparators(s: string)
    requires forall i :: 0 <= i < |s| ==> IsDigit(s[i])
    ensures '-' !in s && '_' !in s && '.' !in s
  {
  }

  /** The part of `<prefix>-<rest>` after its last `-`, for a `rest` without
      one, is `rest`. */
  lemma {:induction false} AfterLastDash(prefix: string, rest: string)
    requires '-' !in rest
    ensures Last(Split(prefix + "-" + rest, '-')) == rest
  {
    assert prefix + "-" + rest == prefix + ['-'] + rest;
    SplitAround(prefix, '-', rest);
    SplitNoSeparator(rest, '-');
  }

  /** The `sep` pieces of three or four separator-free parts. */
  lemma {:induction false} FourPieces(a: string, b: string, c: string, d: string, sep: char)
    requires sep !in a && sep !in b && sep !in c && sep !in d
    ensures Split(a + [sep] + b + [sep] + c + [sep] + d, sep) == [a, b, c, d]
  {
    SplitAround(a + [sep] + b + [sep] + c, sep, d);
    SplitAround(a + [sep] + b, sep, c);
    SplitAround(a, sep, b);
    SplitNoSeparator(a, sep);
    SplitNoSeparator(b, sep);
    SplitNoSeparator(c, sep);
    SplitNoSeparator(d, sep);
  }

  lemma {:induction false} TwoPieces(a: string, b: string, sep: char)
    requires sep !in a && sep !in b
    ensures Split(a + [sep] + b, sep) == [a, b]
  {
    SplitAround(a, sep, b);
    SplitNoSeparator(a, sep);
    SplitNoSeparator(b, sep);
  }

  /** The key of a name `<prefix>-<a>_<b>_<c>_<d>.<e>` whose pieces hold no
      separator is `<b>_<c>_<e>`. */
  lemma {:induction false} KeyOfName(prefix: string, a: string, b: string, c: string, d: string, e: string)
    requires '-' !in a && '-' !in b && '-' !in c && '-' !in d && '-' !in e
    requires '_' !in a && '_' !in b && '_' !in c && '_' !in d && '_' !in e
    requires '.' !in d && '.' !in e
    ensures SelectedFileKey(prefix + "-" + a + "_" + b + "_" + c + "_" + d + "." + e) == Ok(b + "_" + c + "_" + e)
  {
    var last := d + ['.'] + e;
    var rest := a + ['_'] + b + ['_'] + c + ['_'] + last;
    assert prefix + "-" + a + "_" + b + "_" + c + "_" + d + "." + e == prefix + "-" + rest;
    AfterLastDash(prefix, rest);
    FourPieces(a, b, c, last, '_');
    TwoPieces(d, e, '.');
    assert [a, b, c, last][1..][..2] == [b, c];
    assert Join([b, c], '_') == b + ['_'] + c by {
      assert [b, c][1..] == [c];
    }
  }

  /** The key of a name `<prefix>-<a>_<d>.<e>` whose pieces hold no
      separator is `<d>.<e>_<e>`: the only piece after the first `_` is
      kept whole, dot included. */
  lemma {:induction false} KeyOfShortName(prefix: string, a: string, d: string, e: string)
    requires '-' !in a && '-' !in d && '-' !in e
    requires '_' !in a && '_' !in d && '_' !in e
    requires '.' !in d && '.' !in e
    ensures SelectedFileKey(prefix + "-" + a + "_" + d + "." + e) == Ok(d + "." + e + "_" + e)
  {
    var last := d + ['.'] + e;
    var rest := a + ['_'] + last;
    assert prefix + "-" + a + "_" + d + "." + e == prefix + "-" + rest;
    AfterLastDash(prefix, rest);
    assert '_' !in last;
    TwoPieces(a, last, '_');
    TwoPieces(d, e, '.');
    assert [a, last][1..] == [last];
  }

  /** The round trip between the two files: a result written by the
      differential-evolution session is filed under `init_<k>_<extension>`.
      A negative `selected_init_state`, which the session accepts, puts a
      `-` into the name, and the file is then filed under
      `de.<extension>_<extension>`. */
  lemma DEResultKey(year: nat, month: nat, day: nat, hour: nat, minute: nat, second: nat, k: int, extension: string)
    requires '-' !in extension && '_' !in extension && '.' !in extension
    ensures k >= 0 ==>
              SelectedFileKey(DEResultName(Timestamp(year, month, day, hour, minute, second), k, extension)) ==
              Ok(InitKey(k, extension))
    ensures k < 0 ==>
              SelectedFileKey(DEResultName(Timestamp(year, month, day, hour, minute, second), k, extension)) ==
              Ok("de." + extension + "_" + extension)
  {
    var ss := Pad2(second);
    DigitsHaveNoSeparators(ss);
    var date := DatePrefix(year, month, day, hour, minute);
    assert Timestamp(year, month, day, hour, minute, second) == date + "-" + ss;
    if k >= 0 {
      KeyOfIndexedName(date, ss, k, extension);
    } else {
      KeyOfNegativeName(date + "-" + ss + "_init_", k, extension);
    }
  }

  /** The key of `<date>-<ss>_init_<k>_de.<extension>` for `k >= 0`. */
  lemma KeyOfIndexedName(date: string, ss: string, k: nat, extension: string)
    requires '-' !in ss && '_' !in ss
    requires '-' !in extension && '_' !in extension && '.' !in extension
    ensures SelectedFileKey(DEResultName(date + "-" + ss, k, extension)) == Ok(InitKey(k, extension))
  {
    var init, de := "init", "de";
    var ks := NatToString(k);
    DigitsHaveNoSeparators(ks);
    KeyOfName(date, ss, init, ks, de, extension);
    DEResultNameSpelled(date + "-" + ss, ks, extension);
    assert InitKey(k, extension) == init + "_" + ks + "_" + extension;
  }

  /** The key of `<front>-<digits>_de.<extension>` for `k < 0`. */
  lemma KeyOfNegativeName(front: string, k: int, extension: string)
    requires k < 0
    requires '-' !in extension && '_' !in extension && '.' !in extension
    ensures SelectedFileKey(front + IntToString(k) + "_de." + extension) == Ok("de." + extension + "_" + extension)
  {
    var de := "de";
    var ks := NatToString(-k);
    DigitsHaveNoSeparators(ks);
    assert front + IntToString(k) + "_de." + extension == front + "-" + ks + "_" + de + "." + extension;
    KeyOfShortName(front, ks, de, extension);
    assert de + "." + extension + "_" + extension == "de." + extension + "_" + extension;
  }

  /** The literals of a result name, split at their separators. */
  lemma DEResultNameSpelled(stamp: string, ks: string, extension: string)
    ensures stamp + "_init_" + ks + "_de." + extension == stamp + "_" + "init" + "_" + ks + "_" + "de" + "." + extension
  {
    assert "_init_" == "_" + "init" + "_";
    assert "_de." == "_" + "de" + ".";
  }

  /** `any(c in root for c in ALLOWED_CONFIGS)`: a substring test, so a root
      naming `config_12` passes as well. */
  predicate UnderAllowedConfig(root: string)
  {
    exists i :: 0 <= i < |AllowedConfigs| && Contains(root, AllowedConfigs[i])
  }

  /** `os.path.join(root, name)` with `/` as the separator. */
  function JoinPath(root: string, name: string): string
  {
    if root == [] || root[|root| - 1] == '/' then root + name else root + "/" + name
  }

  /** The index after filing one file, and the exception raised on the way,
      if any; an exception leaves the updates made before it in place. */
  datatype Outcome = Outcome(index: Index, error: Option<Error>)

  /** `index[config][key] = v`: KeyError for a missing configuration,
      TypeError when it is not a dictionary. */
  function AssignInConfig(index: Index, config: string, key: string, v: Value): (r: Result<Index>)
    ensures r.Ok? <==> config in index && index[config].Dict?
    ensures r.Ok? ==> r.value == index[config := Dict(index[config].entries[key := v])]
    ensures r.Err? ==> r.error == (if config in index then TypeError else KeyError)
  {
    if config !in index then Err(KeyError)
    else match index[config]
      case Dict(m) => Ok(index[config := Dict(m[key := v])])
      case _ => Err(TypeError)
  }

  /** `index[config][trial][key] = v`: KeyError for a missing configuration or
      trial, TypeError when either level is not a dictionary. */
  function AssignInTrial(index: Index, config: string, trial: string, key: string, v: Value): (r: Result<Index>)
    ensures r.Ok? <==>
              config in index && index[config].Dict? &&
              trial in index[config].entries && index[config].entries[trial].Dict?
    ensures r.Ok? ==>
              var m := index[config].entries;
              r.value == index[config := Dict(m[trial := Dict(m[trial].entries[key := v])])]
  {
    if config !in index then Err(KeyError)
    else match index[config]
      case Dict(m) =>
        if trial !in m then Err(KeyError)
        else (
          match m[trial]
          case Dict(t) => Ok(index[config := Dict(m[trial := Dict(t[key := v])])])
          case _ => Err(TypeError))
      case _ => Err(TypeError)
  }

  /** The `configs` branch: for each allowed configuration, in order, whose
      name occurs in the root, `configs_file` is set to the file's path. */
  function SetConfigsFile(index: Index, root: string, path: string, configs: seq<string>): Outcome
    decreases |configs|
  {
    if configs == [] then Outcome(index, None)
    else if !Contains(root, configs[0]) then SetConfigsFile(index, root, path, configs[1..])
    else match AssignInConfig(index, configs[0], "configs_file", Path(path))
      case Ok(next) => SetConfigsFile(next, root, path, configs[1..])
      case Err(e) => Outcome(index, Some(e))
  }

  function Stored(r: Result<Index>, index: Index): Outcome
  {
    if r.Ok? then Outcome(r.value, None) else Outcome(index, Some(r.error))
  }

  /** One iteration of the inner loop of `populate_optimizer_results`: skip
      roots outside the allowed configurations; a `configs` file sets
      `configs_file`; otherwise the configuration and trial are the last two
      components of the root and a `csv` or `txt` result is filed under the
      key its name gives. */
  function PopulateFile(index: Index, root: string, file: string): Outcome
  {
    if !UnderAllowedConfig(root) then Outcome(index, None)
    else if Contains(file, "configs") then SetConfigsFile(index, root, JoinPath(root, file), AllowedConfigs)
    else
      var parts := Split(root, '/');
      match PyIndex(parts, -2)
      case Err(e) => Outcome(index, Some(e))
      case Ok(config) =>
        var trial := Last(parts);
        match SelectedFileKey(file)
        case Err(e) => Outcome(index, Some(e))
        case Ok(key) =>
          if Contains(file, "csv") then Stored(AssignInTrial(index, config, trial, key, CsvFrame(JoinPath(root, file))), index)
          else if Contains(file, "txt") then Stored(AssignInTrial(index, config, trial, key, TxtResults(JoinPath(root, file))), index)
          else Outcome(index, None)
  }

  /** A directory tree as `os.walk` yields it: each root with its files. */
  type Walk = seq<(string, seq<string>)>

  /** The root of each file paired with it, for files `files`. */
  function Pairs(root: string, files: seq<string>): (r: seq<(string, string)>)
    ensures |r| == |files| && forall j :: 0 <= j < |files| ==> r[j] == (root, files[j])
  {
    seq(|files|, j requires 0 <= j < |files| => (root, files[j]))
  }

  /** Every visited file, in walking order. */
  function Visits(walk: Walk): seq<(string, string)>
  {
    if walk == [] then [] else Visits(walk[..|walk| - 1]) + Pairs(walk[|walk| - 1].0, walk[|walk| - 1].1)
  }

  /** Filing the visited files in order; the first exception ends the walk. */
  function PopulateAll(index: Index, visits: seq<(string, string)>): Outcome
  {
    if visits == [] then Outcome(index, None)
    else
      var before := PopulateAll(index, visits[..|visits| - 1]);
      if before.error.Some? then before
      else PopulateFile(before.index, Last(visits).0, Last(visits).1)
  }

  /** Once an exception is raised, later files change nothing. */
  lemma {:induction false} PopulateAllStops(index: Index, visits: seq<(string, string)>, more: seq<(string, string)>)
    requires PopulateAll(index, visits).error.Some?
    ensures PopulateAll(index, visits + more) == PopulateAll(index, visits)
    decreases |more|
  {
    if more != [] {
      PopulateAllStops(index, visits, more[..|more| - 1]);
      assert (visits + more)[..|visits + more| - 1] == visits + more[..|more| - 1];
    } else {
      assert visits + more == visits;
    }
  }

  /** Filing one more file after an uneventful walk. */
  lemma PopulateAllSnoc(index: Index, visits: seq<(string, string)>, v: (string, string))
    requires PopulateAll(index, visits).error.None?
    ensures PopulateAll(index, visits + [v]) == PopulateFile(PopulateAll(index, visits).index, v.0, v.1)
  {
    assert (visits + [v])[..|visits|] == visits;
  }

  /** An exception raised while filing a prefix of the visits is the outcome
      of the whole walk. */
  lemma PopulateAllPrefix(index: Index, visits: seq<(string, string)>, all: seq<(string, string)>)
    requires |visits| <= |all| && all[..|visits|] == visits
    requires PopulateAll(index, visits).error.Some?
    ensures PopulateAll(index, all) == PopulateAll(index, visits)
  {
    PopulateAllStops(index, visits, all[|visits|..]);
    assert visits + all[|visits|..] == all;
  }

  /** Walking two trees one after the other visits the files of the first,
      then those of the second. */
  lemma {:induction false} VisitsAppend(a: Walk, b: Walk)
    ensures Visits(a + b) == Visits(a) + Visits(b)
    decreases |b|
  {
    if b == [] {
      assert a + b == a;
    } else {
      var c := b[..|b| - 1];
      var last := b[|b| - 1];
      VisitsAppend(a, c);
      assert (a + b)[..|a + b| - 1] == a + c && (a + b)[|a + b| - 1] == last;
      assert Visits(a + b) == Visits(a + c) + Pairs(last.0, last.1);
      assert Visits(b) == Visits(c) + Pairs(last.0, last.1);
    }
  }

  /** The files visited before the `j`-th file of the `w`-th root come first
      in the whole walk. */
  lemma VisitedPrefix(walk: Walk, w: nat, j: nat)
    requires w < |walk| && j <= |walk[w].1|
    ensures var visited := Visits(walk[..w]) + Pairs(walk[w].0, walk[w].1[..j]);
            |visited| <= |Visits(walk)| && Visits(walk)[..|visited|] == visited
  {
    var root, files := walk[w].0, walk[w].1;
    assert walk == walk[..w + 1] + walk[w + 1..];
    VisitsAppend(walk[..w + 1], walk[w + 1..]);
    assert walk[..w + 1][..w] == walk[..w];
    assert Visits(walk[..w + 1]) == Visits(walk[..w]) + Pairs(root, files);
    assert Pairs(root, files)[..j] == Pairs(root, files[..j]);
  }

  /** The dictionary `populate_optimizer_results` fills in place. */
  class ResultsIndex {
    var entries: Index

    constructor (entries: Index)
      ensures this.entries == entries
    {
      this.entries := entries;
    }

    /** `populate_optimizer_results` over a walked tree: the index ends as
        filing every visited file in order leaves it, and the first exception
        is raised with the updates made before it kept. */
    method PopulateOptimizerResults(walk: Walk) returns (error: Option<Error>)
      modifies this
      ensures Outcome(entries, error) == PopulateAll(old(entries), Visits(walk))
    {
      for w := 0 to |walk|
        invariant Outcome(entries, None) == PopulateAll(old(entries), Visits(walk[..w]))
      {
        error := PopulateRoot(walk[w].0, walk[w].1, old(entries), Visits(walk[..w]));
        assert walk[..w + 1][..w] == walk[..w];
        if error.Some? {
          VisitedPrefix(walk, w, |walk[w].1|);
          assert walk[w].1[..|walk[w].1|] == walk[w].1;
          PopulateAllPrefix(old(entries), Visits(walk[..w + 1]), Visits(walk));
          return;
        }
      }
      assert walk[..|walk|] == walk;
      error := None;
    }

    /** The inner loop of `populate_optimizer_results`: the files of one
        root, filed in order, continuing the visits `done` made from
        `start`. */
    method PopulateRoot(root: string, files: seq<string>, ghost start: Index, ghost done: seq<(string, string)>)
      returns (error: Option<Error>)
      requires Outcome(entries, None) == PopulateAll(start, done)
      modifies this
      ensures Outcome(entries, error) == PopulateAll(start, done + Pairs(root, files))
    {
      assert done + Pairs(root, files[..0]) == done;
      for j := 0 to |files|
        invariant Outcome(entries, None) == PopulateAll(start, done + Pairs(root, files[..j]))
      {
        ghost var visited := done + Pairs(root, files[..j + 1]);
        assert visited == done + Pairs(root, files[..j]) + [(root, files[j])];
        PopulateAllSnoc(start, done + Pairs(root, files[..j]), (root, files[j]));
        error := FileOne(root, files[j]);
        if error.Some? {
          PopulateAllPrefix(start, visited, done + Pairs(root, files));
          return;
        }
      }
      assert files[..|files|] == files;
      error := None;
    }

    /** One file. */
    method FileOne(root: string, file: string) returns (error: Option<Error>)
      modifies this
      ensures Outcome(entries, error) == PopulateFile(old(entries), root, file)
    {
      var o := PopulateFile(entries, root, file);
      entries := o.index;
      error := o.error;
    }
  }

  /** Roots outside `config_1` to `config_3` are skipped. */
  lemma OtherRootsSkipped(index: Index, root: string, file: string)
    requires !UnderAllowedConfig(root)
    ensures PopulateFile(index, root, file) == Outcome(index, None)
  {
  }

  /** The `in` test is a substring test: a root naming `config_1<suffix>`,
      such as `config_12`, is not skipped. */
  lemma {:induction false} LongerConfigNameNotSkipped(base: string, suffix: string)
    ensures UnderAllowedConfig(base + AllowedConfigs[0] + suffix)
  {
    var c := AllowedConfigs[0];
    assert Contains(c + suffix, c) by {
      assert c <= c + suffix;
    }
    ContainsAppendLeft(base, c + suffix, c);
    assert base + (c + suffix) == base + c + suffix;
  }

  /** Setting `configs_file` for every listed configuration occurring in the
      root, when each of them is a dictionary of the index, raises nothing
      and changes nothing else. */
  lemma {:induction false} SetConfigsFileUpdates(index: Index, root: string, path: string, configs: seq<string>)
    requires forall i :: 0 <= i < |configs| && Contains(root, configs[i]) ==> configs[i] in index && index[configs[i]].Dict?
    ensures SetConfigsFile(index, root, path, configs).error == None
    ensures var r := SetConfigsFile(index, root, path, configs).index;
            r.Keys == index.Keys &&
            forall k :: k in index ==>
              r[k] == if k in configs && Contains(root, k) then Dict(index[k].entries["configs_file" := Path(path)]) else index[k]
    decreases |configs|
  {
    if configs != [] {
      var c := configs[0];
      var rest := configs[1..];
      if !Contains(root, c) {
        SetConfigsFileUpdates(index, root, path, rest);
      } else {
        var next := index[c := Dict(index[c].entries["configs_file" := Path(path)])];
        assert forall i :: 0 <= i < |rest| ==> rest[i] == configs[i + 1];
        SetConfigsFileUpdates(next, root, path, rest);
      }
    }
  }

  /** A file whose name contains `configs`, under an allowed configuration,
      sets only `configs_file`, for each allowed configuration the root
      names, to the file's path. */
  lemma ConfigsFileSetsOnlyConfigsFile(index: Index, root: string, file: string)
    requires UnderAllowedConfig(root) && Contains(file, "configs")
    requires forall i :: 0 <= i < |AllowedConfigs| && Contains(root, AllowedConfigs[i]) ==>
               AllowedConfigs[i] in index && index[AllowedConfigs[i]].Dict?
    ensures var o := PopulateFile(index, root, file);
            o.error == None && o.index.Keys == index.Keys &&
            forall k :: k in index ==>
              o.index[k] == if k in AllowedConfigs && Contains(root, k)
                            then Dict(index[k].entries["configs_file" := Path(JoinPath(root, file))])
                            else index[k]
  {
    SetConfigsFileUpdates(index, root, JoinPath(root, file), AllowedConfigs);
  }

  /** The last two components of `<base>/<config>/<trial>`. */
  lemma {:induction false} RootComponents(base: string, config: string, trial: string)
    requires '/' !in config && '/' !in trial
    ensures var parts := Split(base + "/" + config + "/" + trial, '/');
            PyIndex(parts, -2) == Ok(config) && Last(parts) == trial
  {
    assert base + "/" + config + "/" + trial == base + ['/'] + (config + ['/'] + trial);
    SplitAround(base, '/', config + ['/'] + trial);
    TwoPieces(config, trial, '/');
  }

  /** A root `<base>/<config>/<trial>` contains `config`. */
  lemma {:induction false} RootContainsConfig(base: string, config: string, trial: string)
    ensures Contains(base + "/" + config + "/" + trial, config)
  {
    assert Contains(config + "/" + trial, config) by {
      assert config <= config + "/" + trial;
    }
    ContainsAppendLeft(base + "/", config + "/" + trial, config);
    assert base + "/" + (config + "/" + trial) == base + "/" + config + "/" + trial;
  }

  /** A string ending in `sub` contains it. */
  lemma EndsWithContains(prefix: string, sub: string)
    ensures Contains(prefix + sub, sub)
  {
    assert Contains(sub, sub) by {
      assert sub <= sub;
    }
    ContainsAppendLeft(prefix, sub, sub);
  }

  /** The letters a differential-evolution result name is made of. */
  lemma {:induction false} DEResultNameLetters(stamp: string, k: int, extension: string, c: char)
    requires c in DEResultName(stamp, k, extension)
    ensures c in stamp || c in IntToString(k) || c in "_init_" || c in "_de." || c in extension
  {
  }

  /** A timestamp is made of digits and dashes only: no `o` and no `c`. */
  lemma StampLetters(year: nat, month: nat, day: nat, hour: nat, minute: nat, second: nat)
    ensures var stamp := Timestamp(year, month, day, hour, minute, second);
            'o' !in stamp && 'c' !in stamp
  {
    var date := DatePrefix(year, month, day, hour, minute);
    assert 'o' !in date && 'c' !in date by {
      assert 'o' !in NatToString(year) && 'c' !in NatToString(year);
      assert 'o' !in Pad2(month) && 'c' !in Pad2(month);
      assert 'o' !in Pad2(day) && 'c' !in Pad2(day);
      assert 'o' !in Pad2(hour) && 'c' !in Pad2(hour);
      assert 'o' !in Pad2(minute) && 'c' !in Pad2(minute);
    }
    assert 'o' !in Pad2(second) && 'c' !in Pad2(second);
  }

  /** The literal parts of a result name and its extensions hold neither
      `o` nor `c`, except `csv` itself, and no separator. */
  lemma LiteralLetters()
    ensures 'o' !in "_init_" && 'c' !in "_init_" && 'o' !in "_de." && 'c' !in "_de."
    ensures 'o' !in "csv" && 'o' !in "txt" && 'c' !in "txt"
    ensures '-' !in "csv" && '_' !in "csv" && '.' !in "csv"
    ensures '-' !in "txt" && '_' !in "txt" && '.' !in "txt"
  {
  }

  /** Which of the `configs`, `csv` and `txt` tests a result name passes. */
  lemma {:induction false} DEResultNameTests(year: nat, month: nat, day: nat, hour: nat, minute: nat, second: nat,
                                             k: int, extension: string)
    requires extension == "csv" || extension == "txt"
    ensures var name := DEResultName(Timestamp(year, month, day, hour, minute, second), k, extension);
            !Contains(name, "configs") && (Contains(name, "csv") <==> extension == "csv") &&
            (extension == "txt" ==> Contains(name, "txt"))
  {
    var stamp := Timestamp(year, month, day, hour, minute, second);
    var name := DEResultName(stamp, k, extension);
    StampLetters(year, month, day, hour, minute, second);
    LiteralLetters();
    assert 'o' !in IntToString(k) && 'c' !in IntToString(k);
    if 'o' in name {
      DEResultNameLetters(stamp, k, extension, 'o');
    }
    assert "configs"[1] == 'o';
    MissingLetterNotContained(name, "configs", 1);
    var front := stamp + "_init_" + IntToString(k) + "_de.";
    assert name == front + extension;
    EndsWithContains(front, extension);
    if extension == "txt" {
      if 'c' in name {
        DEResultNameLetters(stamp, k, extension, 'c');
      }
      assert "csv"[0] == 'c';
      MissingLetterNotContained(name, "csv", 0);
    }
  }

  /** The result branch of `PopulateFile`: a file whose root is allowed,
      whose name is not a `configs` file and contains `csv` or `txt`, is
      assigned under the root's last two components and its key. */
  lemma ResultFileOutcome(index: Index, root: string, name: string, config: string, trial: string, key: string)
    requires UnderAllowedConfig(root) && !Contains(name, "configs")
    requires PyIndex(Split(root, '/'), -2) == Ok(config) && Last(Split(root, '/')) == trial
    requires SelectedFileKey(name) == Ok(key)
    requires Contains(name, "csv") || Contains(name, "txt")
    ensures PopulateFile(index, root, name) ==
              Stored(AssignInTrial(index, config, trial, key,
                                   if Contains(name, "csv") then CsvFrame(JoinPath(root, name)) else TxtResults(JoinPath(root, name))),
                     index)
  {
  }

  /** A root `<base>/<config>/<trial>` whose configuration name starts with
      an allowed one is not skipped. */
  lemma RootUnderLongerConfig(base: string, config: string, trial: string)
    requires AllowedConfigs[0] <= config
    ensures UnderAllowedConfig(base + "/" + config + "/" + trial)
  {
    var rest := config[|AllowedConfigs[0]|..] + "/" + trial;
    LongerConfigNameNotSkipped(base + "/", rest);
    assert base + "/" + AllowedConfigs[0] + rest == base + "/" + config + "/" + trial;
  }

  /** End to end across the two files: in the skeleton `generate_dict`
      builds, a result the differential-evolution session writes into
      `<base>/<config>/<trial>` lands in that trial's entry
      `init_<k>_<extension>`, a key the skeleton already holds, and nothing
      else changes. */
  lemma DEResultFiled(configs: seq<string>, trials: seq<string>, initFiles: seq<string>,
                      base: string, config: string, trial: string,
                      year: nat, month: nat, day: nat, hour: nat, minute: nat, second: nat,
                      k: nat, extension: string)
    requires config in configs && config in AllowedConfigs && '/' !in config
    requires trial in trials && trial != "configs_file" && '/' !in trial
    requires k < InitStates && extension in initFiles && (extension == "csv" || extension == "txt")
    ensures var index := Skeleton(configs, trials, initFiles);
            var root := base + "/" + config + "/" + trial;
            var name := DEResultName(Timestamp(year, month, day, hour, minute, second), k, extension);
            var path := JoinPath(root, name);
            var loaded := if extension == "csv" then CsvFrame(path) else TxtResults(path);
            var o := PopulateFile(index, root, name);
            InitKey(k, extension) in InitSkeleton(initFiles) &&
            o == Outcome(index[config := Dict(ConfigSkeleton(trials, initFiles)[
                   trial := Dict(InitSkeleton(initFiles)[InitKey(k, extension) := loaded])])], None)
  {
    var root := base + "/" + config + "/" + trial;
    RootContainsConfig(base, config, trial);
    var i :| 0 <= i < |AllowedConfigs| && AllowedConfigs[i] == config;
    assert UnderAllowedConfig(root);
    RootComponents(base, config, trial);
    DEResultNameFacts(year, month, day, hour, minute, second, k, extension);
    InitSkeletonKeys(initFiles, InitKey(k, extension));
    ConfigSkeletonKeys(trials, initFiles, trial);
    ResultFiledIn(Skeleton(configs, trials, initFiles), root, DEResultName(Timestamp(year, month, day, hour, minute, second), k, extension),
                  config, trial, InitKey(k, extension), extension == "csv");
  }

  /** A `csv` or `txt` result name from the differential-evolution session:
      the tests it passes and the key it is filed under. */
  lemma DEResultNameFacts(year: nat, month: nat, day: nat, hour: nat, minute: nat, second: nat, k: nat, extension: string)
    requires extension == "csv" || extension == "txt"
    ensures var name := DEResultName(Timestamp(year, month, day, hour, minute, second), k, extension);
            !Contains(name, "configs") && (Contains(name, "csv") <==> extension == "csv") &&
            (Contains(name, "csv") || Contains(name, "txt")) &&
            SelectedFileKey(name) == Ok(InitKey(k, extension))
  {
    DEResultNameTests(year, month, day, hour, minute, second, k, extension);
    LiteralLetters();
    DEResultKey(year, month, day, hour, minute, second, k, extension);
  }

  /** Filing a result whose configuration and trial exist as dictionaries
      stores the loaded file under its key. */
  lemma ResultFiledIn(index: Index, root: string, name: string, config: string, trial: string, key: string, csv: bool)
    requires UnderAllowedConfig(root) && !Contains(name, "configs")
    requires PyIndex(Split(root, '/'), -2) == Ok(config) && Last(Split(root, '/')) == trial
    requires SelectedFileKey(name) == Ok(key)
    requires Contains(name, "csv") <==> csv
    requires Contains(name, "csv") || Contains(name, "txt")
    requires config in index && index[config].Dict? && trial in index[config].entries && index[config].entries[trial].Dict?
    ensures var path := JoinPath(root, name);
            var m := index[config].entries;
            PopulateFile(index, root, name) ==
              Outcome(index[config := Dict(m[trial := Dict(m[trial].entries[key := if csv then CsvFrame(path) else TxtResults(path)])])], None)
  {
    ResultFileOutcome(index, root, name, config, trial, key);
  }

  /** Filing a result under a configuration the index lacks raises KeyError. */
  lemma ResultUnderMissingConfig(index: Index, root: string, name: string, config: string, trial: string, key: string)
    requires UnderAllowedConfig(root) && !Contains(name, "configs")
    requires PyIndex(Split(root, '/'), -2) == Ok(config) && Last(Split(root, '/')) == trial
    requires SelectedFileKey(name) == Ok(key)
    requires Contains(name, "csv") || Contains(name, "txt")
    requires config !in index
    ensures PopulateFile(index, root, name) == Outcome(index, Some(KeyError))
  {
    ResultFileOutcome(index, root, name, config, trial, key);
  }

  /** The consequence of the substring test: a result under a root such as
      `<base>/config_12/<trial>` is not skipped, and filing it raises
      KeyError when the index has no entry for that configuration. */
  lemma LongerConfigNameRaises(index: Index, base: string, config: string, trial: string,
                               year: nat, month: nat, day: nat, hour: nat, minute: nat, second: nat,
                               k: nat, extension: string)
    requires AllowedConfigs[0] <= config && config !in index
    requires '/' !in config && '/' !in trial
    requires extension == "csv" || extension == "txt"
    ensures var root := base + "/" + config + "/" + trial;
            var name := DEResultName(Timestamp(year, month, day, hour, minute, second), k, extension);
            PopulateFile(index, root, name) == Outcome(index, Some(KeyError))
  {
    RootUnderLongerConfig(base, config, trial);
    RootComponents(base, config, trial);
    DEResultNameFacts(year, month, day, hour, minute, second, k, extension);
    ResultUnderMissingConfig(index, base + "/" + config + "/" + trial,
                             DEResultName(Timestamp(year, month, day, hour, minute, second), k, extension),
                             config, trial, InitKey(k, extension));
  }
}
