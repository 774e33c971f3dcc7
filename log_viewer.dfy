/** The log viewer: `get_log_files` (the daily logs of a trailing window, by the date in their names),
    `view_logs` (the lines that pass the level and search filters, with per-file and overall counts)
    and `list_log_files` (every `.log` name, sorted). The directory listing and the file contents are
    inputs; `strptime` is a partial date parser given as a parameter. */
module LogViewer {
  import opened Wrappers
  import opened Text
  import opened Sorting
  import opened Config
  import opened Clock
  import opened Seqs

  const LogPrefix: string := "bnalpha_"
  const LogSuffix: string := ".log"

  /** `datetime.strptime(s, "%Y-%m-%d")`: the time of that day's midnight, or `None` for the
      `ValueError` it raises. */
  type DateParser = string -> Option<int>

  /** What `strptime` with `"%Y-%m-%d"` guarantees of every string it accepts: the four-digit year
      comes first, so the string starts with a decimal digit (any Unicode one, since the pattern is
      not restricted to ASCII), and in particular not with an ASCII lower-case letter. */
  ghost predicate ReadsYearFirst(parse: DateParser)
  {
    forall s :: parse(s).Some? ==> |s| > 0 && !('a' <= s[0] <= 'z')
  }

  /** `os.path.join(log_dir, filename)` for a bare file name. */
  function PathJoin(dir: string, name: string): string
  {
    if dir == "" || EndsWith(dir, "/") then dir + name else dir + "/" + name
  }

  /** `filename.split("_")[1].replace(".log", "")`; `None` for the `IndexError` of a name without `_`. */
  function DateField(name: string): Option<string>
  {
    var fields := Split(name, '_');
    if |fields| >= 2 then Some(Replace(fields[1], LogSuffix, "")) else None
  }

  /** Whether `get_log_files` keeps a directory entry: a `bnalpha_*.log` name whose date field parses
      to a day between the window start and now. */
  predicate InWindow(name: string, parse: DateParser, start: int, now: int)
  {
    && StartsWith(name, LogPrefix) && EndsWith(name, LogSuffix)
    && DateField(name).Some?
    && parse(DateField(name).value).Some?
    && start <= parse(DateField(name).value).value <= now
  }

  /** The kept entries as paths, in listing order. */
  function WindowPaths(logDir: string, listing: seq<string>, parse: DateParser, start: int, now: int): seq<string>
  {
    FilterMap(listing, name => InWindow(name, parse, start, now), name => PathJoin(logDir, name))
  }

  lemma WindowPathsMembers(logDir: string, listing: seq<string>, parse: DateParser, start: int, now: int)
    ensures forall p :: p in WindowPaths(logDir, listing, parse, start, now) <==>
      exists i :: 0 <= i < |listing| && InWindow(listing[i], parse, start, now) && p == PathJoin(logDir, listing[i])
  {
    FilterMapMembers(listing, name => InWindow(name, parse, start, now), name => PathJoin(logDir, name));
  }

  /** `get_log_files`: nothing for a missing directory, otherwise the kept paths in code-point order. */
  method GetLogFiles(dirExists: bool, listing: seq<string>, logDir: string, now: int, days: int, parse: DateParser)
    returns (logFiles: seq<string>)
    ensures !dirExists ==> logFiles == []
    ensures dirExists ==> logFiles == SortBy(WindowPaths(logDir, listing, parse, WindowStart(now, days), now), LexLe)
  {
    logFiles := [];
    if !dirExists {
      return;
    }
    var startDate := WindowStart(now, days);
    for i := 0 to |listing|
      invariant logFiles == WindowPaths(logDir, listing[..i], parse, startDate, now)
    {
      assert listing[..i + 1][..i] == listing[..i];
      var filename := listing[i];
      if StartsWith(filename, LogPrefix) && EndsWith(filename, LogSuffix) {
        var dateStr := DateField(filename);
        if dateStr.Some? {
          var fileDate := parse(dateStr.value);
          if fileDate.Some? && startDate <= fileDate.value <= now {
            logFiles := logFiles + [PathJoin(logDir, filename)];
          }
        }
      }
    }
    assert listing[..|listing|] == listing;
    logFiles := SortBy(logFiles, LexLe);
  }

  lemma LexLePreorder()
    ensures TotalPreorder(LexLe)
  {
    forall a, b ensures LexLe(a, b) || LexLe(b, a) {
      LexLeTotal(a, b);
    }
    forall a, b, c | LexLe(a, b) && LexLe(b, c) ensures LexLe(a, c) {
      LexLeTransitive(a, b, c);
    }
  }

  /** The selected files are exactly the paths of the listed `bnalpha_*.log` entries whose date parses
      inside `[now - days, now]`, in ascending order. */
  lemma LogFilesMeaning(logDir: string, listing: seq<string>, parse: DateParser, now: int, days: int)
    ensures var r := SortBy(WindowPaths(logDir, listing, parse, WindowStart(now, days), now), LexLe);
      && (forall p :: p in r <==> exists i :: 0 <= i < |listing| && InWindow(listing[i], parse, WindowStart(now, days), now)
                                                && p == PathJoin(logDir, listing[i]))
      && (forall i, j :: 0 <= i < j < |r| ==> LexLe(r[i], r[j]))
  {
    var w := WindowPaths(logDir, listing, parse, WindowStart(now, days), now);
    WindowPathsMembers(logDir, listing, parse, WindowStart(now, days), now);
    LexLePreorder();
    SortBySorted(w, LexLe);
    SortByMembers(w, LexLe);
  }

  /** A daily log `bnalpha_<date>.log` is kept exactly when its date parses inside the window. */
  lemma DailyLogKept(date: string, parse: DateParser, start: int, now: int)
    requires '_' !in date && '.' !in date
    ensures InWindow(LogPrefix + date + LogSuffix, parse, start, now)
      <==> parse(date).Some? && start <= parse(date).value <= now
  {
    var name := LogPrefix + date + LogSuffix;
    assert name == "bnalpha" + ['_'] + (date + LogSuffix);
    assert '_' !in "bnalpha";
    assert '_' !in date + LogSuffix;
    SplitNoSeparator(date + LogSuffix, '_');
    SplitAtSeparator("bnalpha", '_', date + LogSuffix);
    ReplaceDropsSuffix(date, LogSuffix);
    assert name[..|LogPrefix|] == LogPrefix;
    assert name[|name| - |LogSuffix|..] == LogSuffix;
  }

  /** The error log `bnalpha_error_<date>.log` matches the name pattern but its second field is
      "error", which a year-first date parser never reads, so it is skipped. */
  lemma ErrorLogSkipped(date: string, parse: DateParser, start: int, now: int)
    requires ReadsYearFirst(parse)
    ensures !InWindow(LogPrefix + "error_" + date + LogSuffix, parse, start, now)
  {
    ErrorLogSecondField(date);
    ErrorFieldKept();
    assert "error"[0] == 'e';
  }

  /** The second `_`-field of an error log's name is "error". */
  lemma ErrorLogSecondField(date: string)
    ensures var fields := Split(LogPrefix + "error_" + date + LogSuffix, '_'); |fields| >= 2 && fields[1] == "error"
  {
    var name := LogPrefix + "error_" + date + LogSuffix;
    var rest := date + LogSuffix;
    ErrorLogNameParts(rest);
    assert name == "bnalpha" + ['_'] + ("error" + ['_'] + rest);
    SplitAtSeparator("bnalpha", '_', "error" + ['_'] + rest);
    SplitAtSeparator("error", '_', rest);
  }

  lemma ErrorLogNameParts(rest: string)
    ensures LogPrefix + "error_" + rest == "bnalpha" + ['_'] + ("error" + ['_'] + rest)
    ensures '_' !in "bnalpha" && '_' !in "error"
  {
  }

  /** Removing ".log" leaves "error" as it is. */
  lemma ErrorFieldKept()
    ensures Replace("error", LogSuffix, "") == "error"
  {
    assert LogSuffix[0] == '.' && '.' !in "error";
    ReplaceAbsent("error", LogSuffix, "");
  }

  // ---------------------------------------------------------------------
  // view_logs

  /** Whether a line is printed, and what is printed is the stripped line: it is not blank, it holds
      `"| LEVEL "` when a level is given, and it holds the search term, ignoring case, when one is
      given. */
  predicate Shown(line: string, levelFilter: Option<string>, searchTerm: Option<string>)
  {
    var t := Strip(line);
    && t != ""
    && (Truthy(levelFilter) ==> Contains(t, "| " + Upper(levelFilter.value) + " "))
    && (Truthy(searchTerm) ==> Contains(Lower(t), Lower(searchTerm.value)))
  }

  /** The stripped lines of one file that are printed, in file order. */
  function ShownLines(lines: seq<string>, levelFilter: Option<string>, searchTerm: Option<string>): seq<string>
  {
    FilterMap(lines, line => Shown(line, levelFilter, searchTerm), Strip)
  }

  lemma ShownLinesMembers(lines: seq<string>, levelFilter: Option<string>, searchTerm: Option<string>)
    ensures forall t :: t in ShownLines(lines, levelFilter, searchTerm) <==>
      exists i :: 0 <= i < |lines| && Shown(lines[i], levelFilter, searchTerm) && t == Strip(lines[i])
  {
    FilterMapMembers(lines, line => Shown(line, levelFilter, searchTerm), Strip);
  }

  lemma ShownLinesSnoc(lines: seq<string>, k: nat, levelFilter: Option<string>, searchTerm: Option<string>)
    requires k < |lines|
    ensures ShownLines(lines[..k + 1], levelFilter, searchTerm)
      == ShownLines(lines[..k], levelFilter, searchTerm)
         + if Shown(lines[k], levelFilter, searchTerm) then [Strip(lines[k])] else []
  {
    assert lines[..k + 1][..k] == lines[..k];
  }

  /** The lines a file yields: its lines, or none when opening or reading it raises. */
  function FileLines(read: string -> Option<seq<string>>, path: string): seq<string>
  {
    read(path).GetOr([])
  }

  /** Everything printed for a list of files, file after file. */
  function AllShown(logFiles: seq<string>, read: string -> Option<seq<string>>,
                    levelFilter: Option<string>, searchTerm: Option<string>): seq<string>
  {
    if logFiles == [] then []
    else
      AllShown(logFiles[..|logFiles| - 1], read, levelFilter, searchTerm)
        + ShownLines(FileLines(read, logFiles[|logFiles| - 1]), levelFilter, searchTerm)
  }

  /** The number of lines printed for each file. */
  function Counts(logFiles: seq<string>, read: string -> Option<seq<string>>,
                  levelFilter: Option<string>, searchTerm: Option<string>): (r: seq<nat>)
    ensures |r| == |logFiles|
  {
    if logFiles == [] then []
    else
      Counts(logFiles[..|logFiles| - 1], read, levelFilter, searchTerm)
        + [|ShownLines(FileLines(read, logFiles[|logFiles| - 1]), levelFilter, searchTerm)|]
  }

  lemma AllShownSnoc(logFiles: seq<string>, f: nat, read: string -> Option<seq<string>>,
                     levelFilter: Option<string>, searchTerm: Option<string>)
    requires f < |logFiles|
    ensures AllShown(logFiles[..f + 1], read, levelFilter, searchTerm)
      == AllShown(logFiles[..f], read, levelFilter, searchTerm)
         + ShownLines(FileLines(read, logFiles[f]), levelFilter, searchTerm)
    ensures Counts(logFiles[..f + 1], read, levelFilter, searchTerm)
      == Counts(logFiles[..f], read, levelFilter, searchTerm)
         + [|ShownLines(FileLines(read, logFiles[f]), levelFilter, searchTerm)|]
  {
    assert logFiles[..f + 1][..f] == logFiles[..f];
  }

  /** Each file's count is the number of its printed lines. */
  lemma {:induction false} CountsAt(logFiles: seq<string>, read: string -> Option<seq<string>>,
                                    levelFilter: Option<string>, searchTerm: Option<string>)
    ensures forall i :: 0 <= i < |logFiles| ==>
      Counts(logFiles, read, levelFilter, searchTerm)[i] == |ShownLines(FileLines(read, logFiles[i]), levelFilter, searchTerm)|
  {
    if logFiles != [] {
      var init := logFiles[..|logFiles| - 1];
      CountsAt(init, read, levelFilter, searchTerm);
      assert forall i :: 0 <= i < |init| ==> init[i] == logFiles[i];
    }
  }

  /** The counts add up to everything printed. */
  lemma {:induction false} CountsSum(logFiles: seq<string>, read: string -> Option<seq<string>>,
                                     levelFilter: Option<string>, searchTerm: Option<string>)
    ensures Sum(Counts(logFiles, read, levelFilter, searchTerm)) == |AllShown(logFiles, read, levelFilter, searchTerm)|
  {
    if logFiles != [] {
      var init := logFiles[..|logFiles| - 1];
      var shown := ShownLines(FileLines(read, logFiles[|logFiles| - 1]), levelFilter, searchTerm);
      var c := Counts(init, read, levelFilter, searchTerm);
      CountsSum(init, read, levelFilter, searchTerm);
      assert Counts(logFiles, read, levelFilter, searchTerm) == c + [|shown|];
      assert AllShown(logFiles, read, levelFilter, searchTerm) == AllShown(init, read, levelFilter, searchTerm) + shown;
      SumSnoc(c, |shown|);
    }
  }

  function Sum(xs: seq<nat>): nat
  {
    if xs == [] then 0 else Sum(xs[..|xs| - 1]) + xs[|xs| - 1]
  }

  /** The inner loop of `view_logs` over the lines of one file that was read: the stripped lines it
      prints, in order. */
  method FilterLines(lines: seq<string>, levelFilter: Option<string>, searchTerm: Option<string>)
    returns (shown: seq<string>)
    ensures shown == ShownLines(lines, levelFilter, searchTerm)
  {
    shown := [];
    for k := 0 to |lines|
      invariant shown == ShownLines(lines[..k], levelFilter, searchTerm)
    {
      ShownLinesSnoc(lines, k, levelFilter, searchTerm);
      var line := Strip(lines[k]);
      var keep := PassesFilters(line, levelFilter, searchTerm);
      if keep {
        shown := shown + [line];
      }
    }
    assert lines[..|lines|] == lines;
  }

  /** The three `continue` tests of the inner loop, on a stripped line. */
  method PassesFilters(line: string, levelFilter: Option<string>, searchTerm: Option<string>) returns (keep: bool)
    ensures keep <==> (line != ""
                       && (Truthy(levelFilter) ==> Contains(line, "| " + Upper(levelFilter.value) + " "))
                       && (Truthy(searchTerm) ==> Contains(Lower(line), Lower(searchTerm.value))))
  {
    if line == "" {
      return false;
    }
    if levelFilter.Some? && levelFilter.value != "" {
      if !Contains(line, "| " + Upper(levelFilter.value) + " ") {
        return false;
      }
    }
    if searchTerm.Some? && searchTerm.value != "" {
      if !Contains(Lower(line), Lower(searchTerm.value)) {
        return false;
      }
    }
    return true;
  }

  lemma SumSnoc(xs: seq<nat>, x: nat)
    ensures Sum(xs + [x]) == Sum(xs) + x
  {
    assert (xs + [x])[..|xs|] == xs;
  }

  /** One file of `view_logs`: the lines it prints, none when it cannot be read. */
  method ViewFile(read: string -> Option<seq<string>>, path: string, levelFilter: Option<string>,
                  searchTerm: Option<string>) returns (shown: seq<string>)
    ensures shown == ShownLines(FileLines(read, path), levelFilter, searchTerm)
  {
    shown := [];
    var contents := read(path);
    if contents.Some? {
      shown := FilterLines(contents.value, levelFilter, searchTerm);
    }
  }

  /** `view_logs`: `printed` is what is printed, `fileLines[i]` the count for file `i` (0 for a file
      that could not be read), and `totalLines` the overall count; `read` is the file system. */
  method ViewLogs(logFiles: seq<string>, read: string -> Option<seq<string>>,
                  levelFilter: Option<string>, searchTerm: Option<string>)
    returns (printed: seq<string>, fileLines: seq<nat>, totalLines: nat)
    ensures logFiles == [] ==> printed == [] && fileLines == [] && totalLines == 0
    ensures printed == AllShown(logFiles, read, levelFilter, searchTerm)
    ensures |fileLines| == |logFiles|
    ensures forall i :: 0 <= i < |logFiles| ==>
      fileLines[i] == |ShownLines(FileLines(read, logFiles[i]), levelFilter, searchTerm)|
    ensures totalLines == |printed| == Sum(fileLines)
  {
    printed, fileLines, totalLines := [], [], 0;
    if logFiles == [] {
      return;
    }
    for f := 0 to |logFiles|
      invariant printed == AllShown(logFiles[..f], read, levelFilter, searchTerm)
      invariant fileLines == Counts(logFiles[..f], read, levelFilter, searchTerm)
      invariant totalLines == |printed|
    {
      AllShownSnoc(logFiles, f, read, levelFilter, searchTerm);
      var shown := ViewFile(read, logFiles[f], levelFilter, searchTerm);
      printed := printed + shown;
      totalLines := totalLines + |shown|;
      fileLines := fileLines + [|shown|];
    }
    assert logFiles[..|logFiles|] == logFiles;
    CountsAt(logFiles, read, levelFilter, searchTerm);
    CountsSum(logFiles, read, levelFilter, searchTerm);
  }

  /** A printed line is the stripped form of a line of one of the files, and it passes both filters. */
  lemma {:induction false} PrintedLinesPassFilters(logFiles: seq<string>, read: string -> Option<seq<string>>,
                                                   levelFilter: Option<string>, searchTerm: Option<string>, t: string)
    requires t in AllShown(logFiles, read, levelFilter, searchTerm)
    ensures t != ""
    ensures Truthy(levelFilter) ==> Contains(t, "| " + Upper(levelFilter.value) + " ")
    ensures Truthy(searchTerm) ==> Contains(Lower(t), Lower(searchTerm.value))
    ensures exists f, i :: (0 <= f < |logFiles| && 0 <= i < |FileLines(read, logFiles[f])|
                           && t == Strip(FileLines(read, logFiles[f])[i]))
  {
    var init := logFiles[..|logFiles| - 1];
    var lastFile := logFiles[|logFiles| - 1];
    if t in AllShown(init, read, levelFilter, searchTerm) {
      PrintedLinesPassFilters(init, read, levelFilter, searchTerm, t);
      var f, i :| 0 <= f < |init| && 0 <= i < |FileLines(read, init[f])| && t == Strip(FileLines(read, init[f])[i]);
      assert init[f] == logFiles[f];
    } else {
      var lines := FileLines(read, lastFile);
      ShownLinesMembers(lines, levelFilter, searchTerm);
      var i :| 0 <= i < |lines| && Shown(lines[i], levelFilter, searchTerm) && t == Strip(lines[i]);
      assert logFiles[|logFiles| - 1] == lastFile;
    }
  }

  // ---------------------------------------------------------------------
  // list_log_files

  /** The `.log` entries of a listing, in listing order. */
  function LogNames(listing: seq<string>): seq<string>
  {
    FilterMap(listing, name => EndsWith(name, LogSuffix), name => name)
  }

  lemma LogNamesMembers(listing: seq<string>)
    ensures forall x :: x in LogNames(listing) <==> x in listing && EndsWith(x, LogSuffix)
  {
    FilterMapMembers(listing, name => EndsWith(name, LogSuffix), name => name);
  }

  /** `list_log_files`: the names it prints, in order; nothing when the directory is missing or holds
      no `.log` file. */
  method ListLogFiles(dirExists: bool, listing: seq<string>) returns (shown: seq<string>)
    ensures !dirExists ==> shown == []
    ensures dirExists ==> shown == SortBy(LogNames(listing), LexLe)
  {
    shown := [];
    if !dirExists {
      return;
    }
    var files: seq<string> := [];
    for i := 0 to |listing|
      invariant files == LogNames(listing[..i])
    {
      assert listing[..i + 1][..i] == listing[..i];
      if EndsWith(listing[i], LogSuffix) {
        files := files + [listing[i]];
      }
    }
    assert listing[..|listing|] == listing;
    if files == [] {
      return;
    }
    shown := SortBy(files, LexLe);
  }

  /** The listing shows every `.log` name and nothing else, in ascending order. */
  lemma ListedNamesMeaning(listing: seq<string>)
    ensures var r := SortBy(LogNames(listing), LexLe);
      && (forall x :: x in r <==> x in listing && EndsWith(x, LogSuffix))
      && (forall i, j :: 0 <= i < j < |r| ==> LexLe(r[i], r[j]))
  {
    LogNamesMembers(listing);
    LexLePreorder();
    SortBySorted(LogNames(listing), LexLe);
    SortByMembers(LogNames(listing), LexLe);
  }
}
