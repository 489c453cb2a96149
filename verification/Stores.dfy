/** The path-keyed stores: checkpoints (agent/checkpointer.go) and long-term memory (memory/store.go). */
module Stores {
  import opened Text

  /* ---------- Paths ---------- */

  /** A cleaned slash path. */
  datatype Path = Path(rooted: bool, parts: seq<string>)

  function Split(s: string): (parts: seq<string>)
    ensures |parts| >= 1
  {
    if s == "" then [""]
    else
      var before, c := Split(s[..|s| - 1]), s[|s| - 1];
      if c == '/' then before + [""]
      else AppendToLast(before, c)
  }

  /** The elements left by filepath.Clean: no empty or "." elements, ".." takes its parent away. */
  function CleanParts(rooted: bool, parts: seq<string>): seq<string> {
    if parts == [] then []
    else
      var kept, p := CleanParts(rooted, parts[..|parts| - 1]), parts[|parts| - 1];
      if p == "" || p == "." then kept
      else if p != ".." then kept + [p]
      else if kept != [] && kept[|kept| - 1] != ".." then kept[..|kept| - 1]
      else if rooted then kept
      else kept + [p]
  }

  predicate IsAbs(s: string) {
    s != "" && s[0] == '/'
  }

  function Clean(s: string): Path {
    Path(IsAbs(s), CleanParts(IsAbs(s), Split(s)))
  }

  /** validatePathComponent. */
  predicate ValidComponent(v: string) {
    if v == "" then true
    else if IsAbs(v) then false
    else if '/' in v || '\\' in v || ContainsDots(v) then false
    else
      var parts := Clean(v).parts;
      !(parts == [] || StartsWithDots(parts[0]))
  }

  lemma {:induction false} SplitWithoutSlash(s: string)
    requires '/' !in s
    ensures Split(s) == [s]
  {
    if s != "" {
      SplitWithoutSlash(s[..|s| - 1]);
      assert s == s[..|s| - 1] + [s[|s| - 1]];
    }
  }

  lemma SplitSnoc(s: string, c: char)
    ensures Split(s + [c]) == if c == '/' then Split(s) + [""] else AppendToLast(Split(s), c)
  {
    assert (s + [c])[..|s|] == s;
  }

  lemma {:induction false} AppendBehind(front: seq<string>, parts: seq<string>, c: char)
    requires parts != []
    ensures AppendToLast(front + parts, c) == front + AppendToLast(parts, c)
  {
  }

  lemma {:induction false} SplitJoined(a: string, b: string)
    ensures Split(a + ['/'] + b) == Split(a) + Split(b)
    decreases |b|
  {
    hide Split, AppendToLast;
    if b == [] {
      SplitWithoutSlash(b);
      assert a + ['/'] + b == a + ['/'];
      SplitSnoc(a, '/');
    } else {
      var b', c := b[..|b| - 1], b[|b| - 1];
      assert b == b' + [c];
      assert a + ['/'] + b == (a + ['/'] + b') + [c];
      SplitJoined(a, b');
      SplitSnoc(b', c);
      SplitSnoc(a + ['/'] + b', c);
      AppendBehind(Split(a), Split(b'), c);
      assert Split(a) + (Split(b') + [""]) == (Split(a) + Split(b')) + [""];
    }
  }

  lemma CleanSnoc(rooted: bool, parts: seq<string>, p: string)
    requires p != "" && p != "." && p != ".."
    ensures CleanParts(rooted, parts + [p]) == CleanParts(rooted, parts) + [p]
  {
    assert (parts + [p])[..|parts|] == parts;
  }

  predicate StartsWithDots(s: string) {
    |s| >= 2 && s[0] == '.' && s[1] == '.'
  }

  lemma DotsAtStart(s: string)
    ensures StartsWithDots(s) ==> ContainsDots(s)
  {
    if StartsWithDots(s) {
      assert s[0] == '.' && s[0 + 1] == '.';
    }
  }

  /** A name that filepath.Clean leaves alone. */
  predicate Plain(v: string) {
    v != "" && v != "." && v != ".." && '/' !in v
  }

  lemma CleanPlain(rooted: bool, parts: seq<string>, v: string)
    requires Plain(v)
    ensures Split(v) == [v]
    ensures CleanParts(rooted, parts + [v]) == CleanParts(rooted, parts) + [v]
  {
    SplitWithoutSlash(v);
    CleanSnoc(rooted, parts, v);
  }

  /** The accepted components are exactly the names that stay one path element as they are. */
  lemma ValidComponentMeaning(v: string)
    ensures ValidComponent(v) <==> v == "" || (Plain(v) && '\\' !in v && !ContainsDots(v))
  {
    DotsAtStart(v);
    if Plain(v) {
      CleanPlain(false, [], v);
      assert [] + [v] == [v];
    } else if v == "." {
      SplitWithoutSlash(v);
      var parts := [v];
      assert CleanParts(false, parts) == CleanParts(false, parts[..0]) == [];
    }
  }

  /* ---------- One file per (namespace, key) ---------- */

  function FileName(key: string): string {
    key + ".json"
  }

  /** filepath.Join(dir, namespace, key+".json"); Join leaves out an empty namespace. */
  function FileOf(dir: string, namespace: string, key: string): Path {
    var folder := if namespace == "" then dir else dir + ['/'] + namespace;
    Clean(folder + ['/'] + FileName(key))
  }

  lemma FileNameIsPlain(key: string)
    requires ValidComponent(key)
    ensures Plain(FileName(key))
  {
    ValidComponentMeaning(key);
  }

  /** Accepted names never leave the directory of the store: the file lies directly below it, or
      directly below the one directory of its namespace. */
  lemma FileOfAccepted(dir: string, namespace: string, key: string)
    requires dir != "" && ValidComponent(namespace) && ValidComponent(key)
    ensures FileOf(dir, namespace, key) == Path(IsAbs(dir), Clean(dir).parts + Below(namespace, key))
  {
    hide CleanParts, Split, Plain, ContainsDots, ValidComponent;
    var rooted, name := IsAbs(dir), FileName(key);
    FileNameIsPlain(key);
    if namespace == "" {
      SplitJoined(dir, name);
      CleanPlain(rooted, Split(dir), name);
    } else {
      ValidComponentMeaning(namespace);
      SplitJoined(dir, namespace);
      SplitJoined(dir + ['/'] + namespace, name);
      CleanPlain(rooted, Split(dir), namespace);
      CleanPlain(rooted, Split(dir) + [namespace], name);
      assert Clean(dir).parts + [namespace] + [name] == Clean(dir).parts + Below(namespace, key);
    }
  }

  function Below(namespace: string, key: string): seq<string> {
    if namespace == "" then [key + ".json"] else [namespace, key + ".json"]
  }

  /** Different accepted names get different files. */
  lemma FileOfInjective(dir: string, ns: string, key: string, ns': string, key': string)
    requires dir != "" && ValidComponent(ns) && ValidComponent(key) && ValidComponent(ns') && ValidComponent(key')
    requires FileOf(dir, ns, key) == FileOf(dir, ns', key')
    ensures ns == ns' && key == key'
  {
    FileOfAccepted(dir, ns, key);
    FileOfAccepted(dir, ns', key');
    var base, tail, tail' := Clean(dir).parts, Below(ns, key), Below(ns', key');
    assert tail == (base + tail)[|base|..] && tail' == (base + tail')[|base|..];
    assert FileName(key) == tail[|tail| - 1] == tail'[|tail'| - 1] == FileName(key');
    assert key == FileName(key)[..|FileName(key)| - 5] && key' == FileName(key')[..|FileName(key')| - 5];
    assert tail[0] == tail'[0];
  }

  /* ---------- The operations ---------- */

  type Files<V> = map<Path, V>

  datatype LoadResult<V> = Missing | Found(value: V) | LoadFailed

  /** Save and Put: refuse a bad name, else overwrite the file (`io`: the write succeeds). */
  function WriteTo<V>(dir: string, files: Files<V>, ns: string, key: string, v: V, io: bool): (Files<V>, bool) {
    if !ValidComponent(ns) || !ValidComponent(key) || !io then (files, false)
    else (files[FileOf(dir, ns, key) := v], true)
  }

  /** Load and Get (`io`: the file can be opened, read and decoded, or is known to be absent). */
  function ReadFrom<V>(dir: string, files: Files<V>, ns: string, key: string, io: bool): LoadResult<V> {
    if !ValidComponent(ns) || !ValidComponent(key) then LoadFailed
    else if !io then LoadFailed
    else if FileOf(dir, ns, key) !in files then Missing
    else Found(files[FileOf(dir, ns, key)])
  }

  /** A store of files with its directory, as FileCheckpointer and FileMemoryStore keep it; the text of a
      file is identified with the value it decodes to. */
  class FileStore<V> {
    const dir: string
    var files: Files<V>

    constructor (dir: string, fallback: string, files: Files<V>)
      requires fallback != ""
      ensures this.dir == (if dir == "" then fallback else dir) && this.files == files
    {
      this.dir := if dir == "" then fallback else dir;
      this.files := files;
    }

    method Write(ns: string, key: string, v: V, io: bool) returns (ok: bool)
      modifies this
      ensures (files, ok) == WriteTo(dir, old(files), ns, key, v, io)
    {
      if !ValidComponent(ns) {
        return false;
      }
      if !ValidComponent(key) {
        return false;
      }
      if !io {
        return false;
      }
      var path := FileOf(dir, ns, key);
      files := files[path := v];
      return true;
    }

    method Read(ns: string, key: string, io: bool) returns (r: LoadResult<V>)
      ensures r == ReadFrom(dir, files, ns, key, io)
    {
      if !ValidComponent(ns) || !ValidComponent(key) {
        return LoadFailed;
      }
      var path := FileOf(dir, ns, key);
      if !io {
        return LoadFailed;
      }
      if path !in files {
        return Missing;
      }
      return Found(files[path]);
    }
  }

  /** What is read after a write: the new value under its own name, what was there under any other. */
  lemma ReadAfterWrite<V>(dir: string, files: Files<V>, ns: string, key: string, v: V, ns': string, key': string,
          io: bool)
    requires dir != "" && WriteTo(dir, files, ns, key, v, true).1
    ensures
      ReadFrom(dir, WriteTo(dir, files, ns, key, v, true).0, ns', key', io) ==
      if ns' == ns && key' == key then (if io then Found(v) else LoadFailed)
      else ReadFrom(dir, files, ns', key', io)
  {
    if ValidComponent(ns') && ValidComponent(key') && FileOf(dir, ns, key) == FileOf(dir, ns', key') {
      FileOfInjective(dir, ns, key, ns', key');
    }
  }

  /* ---------- Refinement of a plain map ---------- */

  datatype StoreOp<V> = Put(ns: string, key: string, v: V, io: bool) | Get(ns: string, key: string, io: bool)

  datatype Answer<V> = Wrote(ok: bool) | Read(r: LoadResult<V>)

  /** The answers of the store of files to a sequence of operations. */
  function FileAnswers<V>(dir: string, files: Files<V>, ops: seq<StoreOp<V>>): seq<Answer<V>>
    decreases |ops|
  {
    if ops == [] then []
    else
      match ops[0]
      case Put(ns, key, v, io) =>
        var (files', ok) := WriteTo(dir, files, ns, key, v, io);
        [Wrote(ok)] + FileAnswers(dir, files', ops[1..])
      case Get(ns, key, io) =>
        [Read(ReadFrom(dir, files, ns, key, io))] + FileAnswers(dir, files, ops[1..])
  }

  /** The same for a map from names to last values, with no paths at all. */
  function MapAnswers<V>(m: map<(string, string), V>, ops: seq<StoreOp<V>>): seq<Answer<V>>
    decreases |ops|
  {
    if ops == [] then []
    else
      match ops[0]
      case Put(ns, key, v, io) =>
        var ok := ValidComponent(ns) && ValidComponent(key) && io;
        [Wrote(ok)] + MapAnswers(if ok then m[(ns, key) := v] else m, ops[1..])
      case Get(ns, key, io) =>
        var r :=
          if !ValidComponent(ns) || !ValidComponent(key) then LoadFailed
          else if !io then LoadFailed
          else if (ns, key) !in m then Missing
          else Found(m[(ns, key)]);
        [Read(r)] + MapAnswers(m, ops[1..])
  }

  ghost predicate Represents<V>(dir: string, files: Files<V>, m: map<(string, string), V>) {
    forall ns, key | ValidComponent(ns) && ValidComponent(key) ::
      ReadFrom(dir, files, ns, key, true) == if (ns, key) in m then Found(m[(ns, key)]) else Missing
  }

  /** Whatever is done to it, a store of files cannot be told from a map. */
  lemma {:induction false} FilesRefineMap<V>(dir: string, files: Files<V>, m: map<(string, string), V>,
          ops: seq<StoreOp<V>>)
    requires dir != "" && Represents(dir, files, m)
    ensures FileAnswers(dir, files, ops) == MapAnswers(m, ops)
    decreases |ops|
  {
    if ops != [] {
      match ops[0]
      case Put(ns, key, v, io) =>
        var (files', ok) := WriteTo(dir, files, ns, key, v, io);
        var m' := if ok then m[(ns, key) := v] else m;
        if ok {
          forall ns', key' | ValidComponent(ns') && ValidComponent(key')
            ensures ReadFrom(dir, files', ns', key', true) == if (ns', key') in m' then Found(m'[(ns', key')])
              else Missing
          {
            ReadAfterWrite(dir, files, ns, key, v, ns', key', true);
          }
        }
        FilesRefineMap(dir, files', m', ops[1..]);
      case Get(ns, key, io) =>
        FilesRefineMap(dir, files, m, ops[1..]);
    }
  }
}
