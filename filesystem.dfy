/** What a build does to the disk, as an ordered log of effects, and the
    content files it reads, as given enumeration results. */
module FileSystem {
  import opened Wrappers

  /** One side effect of a build step. */
  datatype Effect =
    | MakeDirs(dir: string)                // os.makedirs(dir, exist_ok=True)
    | Write(path: string, text: string)    // open(path, "w+").write(text)
    | CopyTree(src: string, dst: string)   // copy_tree(src, dst)

  /** File contents after replaying `log` on an empty output tree (later writes win). */
  function Files(log: seq<Effect>): map<string, string>
  {
    if log == [] then map[]
    else
      var before := Files(log[..|log| - 1]);
      match log[|log| - 1]
      case Write(p, t) => before[p := t]
      case _ => before
  }

  /** Directories created by `log`. */
  function Dirs(log: seq<Effect>): set<string>
  {
    if log == [] then {}
    else
      var before := Dirs(log[..|log| - 1]);
      match log[|log| - 1]
      case MakeDirs(d) => before + {d}
      case _ => before
  }

  /** The paths written by `log`, in order. */
  function Written(log: seq<Effect>): seq<string>
  {
    if log == [] then []
    else Written(log[..|log| - 1]) + (if log[|log| - 1].Write? then [log[|log| - 1].path] else [])
  }

  /** A file holds what the last write to its path put there. */
  lemma {:induction false} LastWriteWins(log: seq<Effect>, k: nat)
    requires k < |log| && log[k].Write?
    requires forall j :: k < j < |log| && log[j].Write? ==> log[j].path != log[k].path
    ensures log[k].path in Files(log) && Files(log)[log[k].path] == log[k].text
  {
    if k < |log| - 1 {
      LastWriteWins(log[..|log| - 1], k);
    }
  }

  /** Exactly the written paths exist as files. */
  lemma {:induction false} FilesAreWritten(log: seq<Effect>)
    ensures forall p :: p in Files(log) <==> p in Written(log)
  {
    if log != [] {
      FilesAreWritten(log[..|log| - 1]);
    }
  }

  /** Replaying a concatenation of logs is sequential: what `a` wrote survives unless `b` rewrites it. */
  lemma {:induction false} WrittenConcat(a: seq<Effect>, b: seq<Effect>)
    ensures Written(a + b) == Written(a) + Written(b)
  {
    if b == [] {
      assert a + b == a;
    } else {
      assert (a + b)[..|a + b| - 1] == a + b[..|b| - 1];
      WrittenConcat(a, b[..|b| - 1]);
    }
  }

  /** The directories of consecutive steps are the directories of each. */
  lemma {:induction false} DirsConcat(a: seq<Effect>, b: seq<Effect>)
    ensures Dirs(a + b) == Dirs(a) + Dirs(b)
  {
    if b == [] {
      assert a + b == a;
    } else {
      assert (a + b)[..|a + b| - 1] == a + b[..|b| - 1];
      DirsConcat(a, b[..|b| - 1]);
    }
  }

  /** A directory exists exactly when some step of the log made it. */
  lemma {:induction false} DirsMade(log: seq<Effect>, d: string)
    ensures d in Dirs(log) <==> MakeDirs(d) in log
  {
    if log != [] {
      var init := log[..|log| - 1];
      DirsMade(init, d);
      assert log == init + [log[|log| - 1]];
    }
  }

  /** When a log ends by making `d` and then one more step, `d` exists before that step. */
  lemma MadeBeforeLast(base: seq<Effect>, a: seq<Effect>, d: string, last: Effect)
    ensures var log := a + [MakeDirs(d), last];
      log[|log| - 1] == last && d in Dirs(base + log[..|log| - 1])
  {
    var log := a + [MakeDirs(d), last];
    assert base + log[..|log| - 1] == (base + a) + [MakeDirs(d)];
    DirsMade((base + a) + [MakeDirs(d)], d);
  }

  /** Replaying "make the directory, then write the page" adds that one file. */
  lemma DirThenFile(a: seq<Effect>, d: string, p: string, t: string)
    ensures Written(a + [MakeDirs(d), Write(p, t)]) == Written(a) + [p]
    ensures Files(a + [MakeDirs(d), Write(p, t)]) == Files(a)[p := t]
  {
    var b := a + [MakeDirs(d), Write(p, t)];
    assert b[..|b| - 1] == a + [MakeDirs(d)];
    assert (a + [MakeDirs(d)])[..|a|] == a;
  }

  /** Header fields of a content file (all keys but `tags`) and its `tags` entry, if any. */
  datatype Metadata = Metadata(fields: map<string, string>, tags: Option<seq<string>>)

  /** A content file as `frontmatter.load` parses it. */
  datatype Document = Document(meta: Metadata, body: string)

  /** One result of the recursive glob: its path and parsed contents. */
  datatype SourceFile = SourceFile(path: string, doc: Document)

  /** The glob pattern the loader uses under `indir`. */
  function GlobPattern(indir: string): string
  {
    indir + "/**/*.md"
  }

  /** Results of `glob.iglob(pattern, recursive=True)`, given by the environment; a pattern
      the environment does not list matches nothing (a missing directory is no error). */
  function Glob(results: map<string, seq<SourceFile>>, indir: string): seq<SourceFile>
  {
    var pattern := GlobPattern(indir);
    if pattern in results then results[pattern] else []
  }
}
