/** Where the results of sub-agents go (agent/subagent.go): a fresh file name each, in the files of the parent
    (tools/builtin/fs/inmemory.go). */
module Subagents {
  import opened Slugs
  import opened Text
  import opened Values

  const PREFIX := "subagent_"
  const MAX_BASE := 40
  const LAST_INDEX := 9999

  /* ---------- Names ---------- */

  /** The part of the name that comes from the description. */
  function BaseOf(u: Unicode, description: string): string {
    var slug := Slug(u, description);
    var base := if slug == "" then "task" else slug;
    if |base| > MAX_BASE then Trim(base[..MAX_BASE], IsDash) else base
  }

  function Candidate(base: string, i: nat): string {
    PREFIX + base + (if i == 1 then "" else "_" + Decimal(i)) + ".md"
  }

  /** The base is never empty, never longer than 40, and a slug: that of the description, cut after 40 characters,
      or after 39 if the last one is a dash; without one it is "task". */
  lemma {:induction false} BaseIsSlug(u: Unicode, description: string)
    requires u.Sound()
    ensures IsSlug(BaseOf(u, description)) && 1 <= |BaseOf(u, description)| <= 40
    ensures
      var slug := Slug(u, description);
      BaseOf(u, description) ==
        if slug == "" then "task" else if |slug| <= 40 then slug else if slug[39] == '-' then slug[..39] else slug[..40]
  {
    SlugNormalForm(u, description);
    var slug := Slug(u, description);
    if |slug| > MAX_BASE {
      CutIsSlug(slug[..MAX_BASE]);
      assert StartsSlug(slug[..MAX_BASE]);
    }
  }

  lemma {:induction false} CutIsSlug(s: string)
    requires StartsSlug(s) && s != ""
    ensures Trim(s, IsDash) == if EndsInDash(s) then s[..|s| - 1] else s
    ensures IsSlug(Trim(s, IsDash)) && Trim(s, IsDash) != ""
  {
    hide Trim, IsWordChar;
    if EndsInDash(s) {
      var n := |s| - 1;
      assert s == "" + s[..n] + [s[n]];
      TrimBetween("", s[..n], [s[n]], IsDash);
    } else {
      assert s == "" + s + "";
      TrimBetween("", s, "", IsDash);
    }
  }

  lemma {:induction false} FirstUnderscore(a: string, b: string, x: string, y: string)
    requires '_' !in a && '_' !in b && x != "" && y != "" && a + x == b + y
    requires x[0] in "_." && y[0] in "_." && '.' !in a && '.' !in b
    ensures a == b && x == y
  {
    var s := a + x;
    assert forall i | 0 <= i < |a| :: s[i] == a[i] && a[i] in a;
    assert forall i | 0 <= i < |b| :: s[i] == b[i] && b[i] in b;
    assert s[|a|] == x[0] && s[|b|] == y[0];
    assert a == s[..|a|] && b == s[..|b|] && x == s[|a|..] && y == s[|b|..];
  }

  function Suffix(i: nat): (s: string)
    ensures s != "" && s[0] in "_."
  {
    (if i == 1 then "" else "_" + Decimal(i)) + ".md"
  }

  lemma {:induction false} SuffixInjective(i: nat, j: nat)
    requires Suffix(i) == Suffix(j)
    ensures i == j
  {
    if i != 1 && j != 1 {
      var s := Suffix(i);
      assert Decimal(i) == s[1..|s| - 3] && Decimal(j) == Suffix(j)[1..|s| - 3];
      DecimalInjective(i, j);
    }
  }

  lemma {:induction false} CandidateParts(base: string, i: nat)
    ensures Candidate(base, i) == PREFIX + (base + Suffix(i))
  {
    assert Candidate(base, i) == PREFIX + base + Suffix(i);
  }

  lemma {:induction false} SlugHasNoUnderscore(s: string)
    requires IsSlug(s)
    ensures '_' !in s && '.' !in s
  {
  }

  /** Different bases or different indices give different file names: slugs have no underscore and no dot. */
  lemma {:induction false} CandidateInjective(a: string, i: nat, b: string, j: nat)
    requires IsSlug(a) && IsSlug(b) && Candidate(a, i) == Candidate(b, j)
    ensures a == b && i == j
  {
    hide Candidate, Suffix, IsSlug;
    CandidateParts(a, i);
    CandidateParts(b, j);
    var s := Candidate(a, i);
    assert a + Suffix(i) == s[|PREFIX|..] == b + Suffix(j);
    SlugHasNoUnderscore(a);
    SlugHasNoUnderscore(b);
    FirstUnderscore(a, b, Suffix(i), Suffix(j));
    SuffixInjective(i, j);
  }

  /* ---------- Allocation ---------- */

  /** The first index from k on whose file does not exist yet. */
  function FirstFree(base: string, names: set<string>, k: nat): (r: Option<nat>)
    ensures r.Some? ==> k <= r.value <= LAST_INDEX && Candidate(base, r.value) !in names
    ensures forall j | k <= j <= LAST_INDEX && (r.Some? ==> j < r.value) :: Candidate(base, j) in names
    decreases LAST_INDEX + 1 - k
  {
    if k > LAST_INDEX then None
    else if Candidate(base, k) !in names then Some(k)
    else FirstFree(base, names, k + 1)
  }

  function FileFor(base: string, names: set<string>): Option<string> {
    match FirstFree(base, names, 1)
    case None => None
    case Some(i) => Some(Candidate(base, i))
  }

  /** The first of the candidates whose file does not exist; none if all 9999 do. */
  ghost predicate IsFirstFree(base: string, names: set<string>, file: Option<string>) {
    match file
    case Some(name) =>
      exists i | 1 <= i <= 9999 ::
        name == Candidate(base, i) && name !in names && forall j | 1 <= j < i :: Candidate(base, j) in names
    case None => forall j | 1 <= j <= 9999 :: Candidate(base, j) in names
  }

  lemma {:induction false} FileForIsFirstFree(base: string, names: set<string>)
    ensures IsFirstFree(base, names, FileFor(base, names))
  {
    hide Candidate;
    match FirstFree(base, names, 1)
    case None =>
    case Some(i) => assert FileFor(base, names) == Some(Candidate(base, i));
  }

  /** The first candidate that is not in the listing; none only if all 9999 are. */
  method NextSubagentResultFile(u: Unicode, listing: Option<seq<string>>, description: string)
    returns (file: Option<string>)
    requires u.Sound()
    ensures file ==
      if listing == None then None
      else FileFor(BaseOf(u, description), set n | n in listing.value)
  {
    hide Candidate, Decimal, Slug, Trim;
    var base := Slugify(u, description);
    if base == "" {
      base := "task";
    }
    if |base| > MAX_BASE {
      base := base[..MAX_BASE];
      base := Trim(base, IsDash);
    }
    if listing == None {
      return None;
    }
    var existing := listing.value;
    var names := {};
    for k := 0 to |existing|
      invariant names == set n | n in existing[..k]
    {
      assert existing[..k + 1] == existing[..k] + [existing[k]];
      names := names + {existing[k]};
    }
    assert existing[..|existing|] == existing;
    var candidate := PREFIX + base + ".md";
    FirstCandidate(base);
    if candidate !in names {
      return Some(candidate);
    }
    for i := 2 to LAST_INDEX + 1
      invariant forall j | 1 <= j < i :: Candidate(base, j) in names
      invariant FirstFree(base, names, i) == FirstFree(base, names, 1)
    {
      candidate := PREFIX + base + "_" + Decimal(i) + ".md";
      LaterCandidate(base, i);
      if candidate !in names {
        return Some(candidate);
      }
    }
    return None;
  }

  lemma {:induction false} FirstCandidate(base: string)
    ensures Candidate(base, 1) == "subagent_" + base + ".md"
  {
    assert PREFIX + base + "" + ".md" == PREFIX + base + ".md";
  }

  lemma {:induction false} LaterCandidate(base: string, i: nat)
    requires i != 1
    ensures Candidate(base, i) == "subagent_" + base + "_" + Decimal(i) + ".md"
  {
    assert PREFIX + base + ("_" + Decimal(i)) + ".md" == PREFIX + base + "_" + Decimal(i) + ".md";
  }

  function Candidates(base: string, n: nat): set<string> {
    set i | 1 <= i <= n :: Candidate(base, i)
  }

  lemma {:induction false} CandidatesCount(base: string, n: nat)
    requires IsSlug(base)
    ensures |Candidates(base, n)| == n
  {
    hide Candidate, IsSlug;
    if n == 0 {
      assert Candidates(base, 0) == {};
    } else {
      CandidatesCount(base, n - 1);
      assert Candidates(base, n) == Candidates(base, n - 1) + {Candidate(base, n)};
      if Candidate(base, n) in Candidates(base, n - 1) {
        var i :| 1 <= i <= n - 1 && Candidate(base, i) == Candidate(base, n);
        CandidateInjective(base, i, base, n);
      }
    }
  }

  lemma {:induction false} SubsetCount<T>(a: set<T>, b: set<T>)
    requires a <= b
    ensures |a| <= |b|
  {
    assert b == a + (b - a);
  }

  /** With fewer than 9999 names in the listing, a name is always found. */
  lemma {:induction false} FreeNameExists(u: Unicode, description: string, names: set<string>)
    requires u.Sound() && |names| < LAST_INDEX
    ensures FirstFree(BaseOf(u, description), names, 1).Some?
  {
    var base := BaseOf(u, description);
    BaseIsSlug(u, description);
    if FirstFree(base, names, 1) == None {
      CandidatesCount(base, LAST_INDEX);
      SubsetCount(Candidates(base, LAST_INDEX), names);
    }
  }

  /* ---------- Merging ---------- */

  type Files = map<string, string>

  class InMemoryBackend {
    var files: Files

    constructor ()
      ensures files == map[]
    {
      files := map[];
    }

    /** The names come in no particular order, each one once. */
    method List() returns (names: seq<string>)
      ensures (set n | n in names) == files.Keys && |names| == |files.Keys|
    {
      names := [];
      var todo := files.Keys;
      while todo != {}
        invariant todo <= files.Keys && |names| + |todo| == |files.Keys|
        invariant forall n :: n in names <==> n in files.Keys - todo
      {
        var n :| n in todo;
        names := names + [n];
        todo := todo - {n};
      }
    }

    method Read(path: string) returns (content: Option<string>)
      ensures content == if path in files then Some(files[path]) else None
    {
      if path in files {
        return Some(files[path]);
      }
      return None;
    }

    method Write(path: string, content: string)
      modifies this
      ensures files == old(files)[path := content]
    {
      files := files[path := content];
    }
  }

  function MergeContent(description: string, answer: string): string {
    "# Subagent Result: " + description + "\n\n" + answer + "\n"
  }

  /** One finished sub-agent: what it was asked and what it answered. */
  datatype Task = Task(description: string, answer: string)

  /** The files after a merge, and the name of the new one. */
  function MergeSpec(u: Unicode, files: Files, task: Task): (Files, Option<string>) {
    match FileFor(BaseOf(u, task.description), files.Keys)
    case None => (files, None)
    case Some(file) => (files[file := MergeContent(task.description, task.answer)], Some(file))
  }

  method MergeResult(u: Unicode, backend: InMemoryBackend, task: Task) returns (file: Option<string>)
    requires u.Sound()
    modifies backend
    ensures (backend.files, file) == MergeSpec(u, old(backend.files), task)
  {
    var existing := backend.List();
    file := NextSubagentResultFile(u, Some(existing), task.description);
    if file.Some? {
      backend.Write(file.value, MergeContent(task.description, task.answer));
    }
  }

  /** A text that holds the answer of a task, under its description. */
  predicate HoldsAnswer(text: string, task: Task) {
    text == "# Subagent Result: " + task.description + "\n\n" + task.answer + "\n"
  }

  ghost predicate AllKept(files: Files, files': Files) {
    forall n | n in files :: n in files' && files'[n] == files[n]
  }

  /** A merge never touches a file that is there; it adds one file with the answer, under the first free name, or
      none if there is no name. */
  lemma {:induction false} MergeOnlyAdds(u: Unicode, files: Files, task: Task)
    ensures
      var (files', file) := MergeSpec(u, files, task);
      && IsFirstFree(BaseOf(u, task.description), files.Keys, file)
      && AllKept(files, files')
      && (if file == None then files' == files
          else file.value !in files && files'.Keys == files.Keys + {file.value}
               && HoldsAnswer(files'[file.value], task))
  {
    hide Candidate, IsFirstFree;
    FileForIsFirstFree(BaseOf(u, task.description), files.Keys);
  }

  /** The answer is recovered from such a text: it is all between the heading and the last character. */
  lemma {:induction false} AnswerIsRecovered(text: string, task: Task)
    requires HoldsAnswer(text, task)
    ensures
      var heading := |"# Subagent Result: "| + |task.description| + |"\n\n"|;
      heading <= |text| - 1 && text[heading..|text| - 1] == task.answer
  {
  }

  /** Tasks with one description and different answers leave different files behind. */
  lemma {:induction false} AnswersAreToldApart(u: Unicode, files: Files, task: Task, other: Task)
    requires task.description == other.description && task.answer != other.answer
    requires MergeSpec(u, files, task).1.Some?
    ensures MergeSpec(u, files, other).1 == MergeSpec(u, files, task).1
    ensures MergeSpec(u, files, other).0 != MergeSpec(u, files, task).0
  {
    hide MergeSpec, HoldsAnswer, IsFirstFree;
    SameName(u, files, task, other);
    MergeOnlyAdds(u, files, task);
    MergeOnlyAdds(u, files, other);
    var name := MergeSpec(u, files, task).1.value;
    AnswerIsRecovered(MergeSpec(u, files, task).0[name], task);
    AnswerIsRecovered(MergeSpec(u, files, other).0[name], other);
  }

  lemma SameName(u: Unicode, files: Files, task: Task, other: Task)
    requires task.description == other.description
    ensures MergeSpec(u, files, other).1 == MergeSpec(u, files, task).1
  {
  }

  /** Merges one after the other; the names of their files. */
  function Merges(u: Unicode, files: Files, tasks: seq<Task>): (Files, seq<Option<string>>) {
    if tasks == [] then (files, [])
    else
      var (before, names) := Merges(u, files, tasks[..|tasks| - 1]);
      var (after, name) := MergeSpec(u, before, tasks[|tasks| - 1]);
      (after, names + [name])
  }

  /** A new file with the answer of a task. */
  ghost predicate Holds(files: Files, task: Task, files': Files, name: Option<string>) {
    && name.Some? && name.value !in files && name.value in files'
    && HoldsAnswer(files'[name.value], task)
  }

  /** Every result is in its own file, next to all the files that were there before. */
  ghost predicate AllMerged(files: Files, tasks: seq<Task>, files': Files, names: seq<Option<string>>) {
    && |names| == |tasks|
    && (forall i | 0 <= i < |names| :: Holds(files, tasks[i], files', names[i]))
    && (forall i, j | 0 <= i < j < |names| :: names[i] != names[j])
    && AllKept(files, files')
    && |files'| == |files| + |tasks|
  }

  lemma {:induction false} OneMoreMerged(files: Files, tasks: seq<Task>, files': Files, names: seq<Option<string>>,
                                         task: Task, files'': Files, name: string)
    requires AllMerged(files, tasks, files', names) && name !in files'
    requires files''.Keys == files'.Keys + {name} && AllKept(files', files'')
    requires HoldsAnswer(files''[name], task)
    ensures AllMerged(files, tasks + [task], files'', names + [Some(name)])
  {
    assert |files''.Keys| == |files'.Keys| + 1;
    forall i | 0 <= i < |names|
      ensures Holds(files, tasks[i], files'', names[i]) && names[i] != Some(name)
    {
      assert Holds(files, tasks[i], files', names[i]);
    }
    assert AllKept(files, files'');
    KeptNames(files, files', name);
    assert Holds(files, task, files'', Some(name));
    hide Holds, AllKept;
  }

  lemma {:induction false} KeptNames(files: Files, files': Files, name: string)
    requires AllKept(files, files') && name !in files'
    ensures name !in files
  {
  }

  /** n sub-agents, one after the other, add n distinct files that hold their answers, and leave every
      other file as it is, as long as there are no more than 9999 files in the end. */
  lemma {:induction false} MergesAddDistinctFiles(u: Unicode, files: Files, tasks: seq<Task>)
    requires u.Sound() && |files| + |tasks| <= LAST_INDEX
    ensures
      var (files', names) := Merges(u, files, tasks);
      AllMerged(files, tasks, files', names)
    decreases |tasks|
  {
    hide MergeSpec, HoldsAnswer, IsFirstFree, AllKept, Holds, AllMerged, BaseOf;
    if tasks == [] {
      NothingMerged(files);
    } else {
      var n := |tasks| - 1;
      MergesAddDistinctFiles(u, files, tasks[..n]);
      var (before, names) := Merges(u, files, tasks[..n]);
      MergedCount(files, tasks[..n], before, names);
      OneMoreMerge(u, files, tasks[..n], before, names, tasks[n]);
      assert tasks == tasks[..n] + [tasks[n]];
    }
  }

  lemma {:induction false} OneMoreMerge(u: Unicode, files: Files, tasks: seq<Task>, files': Files,
          names: seq<Option<string>>, task: Task)
    requires u.Sound() && AllMerged(files, tasks, files', names) && |files'| < LAST_INDEX
    ensures
      var (after, name) := MergeSpec(u, files', task);
      AllMerged(files, tasks + [task], after, names + [name])
  {
    hide MergeSpec, HoldsAnswer, IsFirstFree, AllKept, AllMerged, BaseOf;
    NameIsFound(u, files', task);
    MergeOnlyAdds(u, files', task);
    var (after, name) := MergeSpec(u, files', task);
    OneMoreMerged(files, tasks, files', names, task, after, name.value);
  }

  lemma NothingMerged(files: Files)
    ensures AllMerged(files, [], files, [])
  {
  }

  lemma MergedCount(files: Files, tasks: seq<Task>, files': Files, names: seq<Option<string>>)
    requires AllMerged(files, tasks, files', names)
    ensures |files'| == |files| + |tasks|
  {
  }

  lemma {:induction false} NameIsFound(u: Unicode, files: Files, task: Task)
    requires u.Sound() && |files| < LAST_INDEX
    ensures MergeSpec(u, files, task).1.Some?
  {
    FreeNameExists(u, task.description, files.Keys);
  }

  /** Without any bound: merges never change a file that is there. */
  lemma {:induction false} MergesKeepFiles(u: Unicode, files: Files, tasks: seq<Task>)
    ensures AllKept(files, Merges(u, files, tasks).0)
    decreases |tasks|
  {
    hide MergeSpec;
    if tasks != [] {
      var n := |tasks| - 1;
      MergesKeepFiles(u, files, tasks[..n]);
      MergeOnlyAdds(u, Merges(u, files, tasks[..n]).0, tasks[n]);
    }
  }
}
