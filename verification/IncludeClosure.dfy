// The local include closure of the provenance records (xtask/src/provenance.rs).  The file system is a
// map from the paths of the readable files to their lines.
module IncludeClosure {
  import opened Prelude
  import opened Delimiters

  type Path = string
  type Files = map<Path, seq<string>>

  function Join(directory: Path, name: string): Path {
    directory + "/" + name
  }

  // The text between a prefix and a suffix.
  function Between(s: string, prefix: string, suffix: char): Option<string> {
    if StartsWith(s, prefix) && s[|prefix|..] != "" && s[|s| - 1] == suffix
    then Some(s[|prefix|..|s| - 1]) else None
  }

  // What an include line names: a quoted header, or one of the AudioUnitSDK.
  function Named(line: string): Option<string> {
    var t := Trim(line);
    if !StartsWith(t, "#include") then None else
    var target := Trim(t[8..]);
    var quoted := Between(target, "\"", '"');
    if quoted.Some? then quoted else Between(target, "<AudioUnitSDK/", '>')
  }

  // A file depends on another if one of its lines names it and it can be found.
  ghost predicate Includes(fs: Files, directory: Path, from: Path, to: Path) {
    from in fs && to in fs &&
    exists i :: 0 <= i < |fs[from]| && Named(fs[from][i]).Some? && to == Join(directory, Named(fs[from][i]).value)
  }

  ghost predicate Complete(fs: Files, directory: Path, initial: seq<Path>, s: set<Path>) {
    (forall p :: p in initial ==> p in s) && forall f, g :: f in s && Includes(fs, directory, f, g) ==> g in s
  }

  // The worklist: pushed files may repeat, and a file that was seen is skipped when it is popped.  The
  // result is the least complete set; reading fails exactly when an initial file cannot be read.
  method LocalIncludeClosure(fs: Files, directory: Path, initial: seq<Path>) returns (r: Option<set<Path>>)
    ensures r.None? <==> exists p :: p in initial && p !in fs
    ensures r.Some? ==> Complete(fs, directory, initial, r.value)
    ensures r.Some? ==> forall s :: Complete(fs, directory, initial, s) ==> r.value <= s
  {
    var pending, files := initial, {};
    while pending != []
      invariant files <= fs.Keys && forall p :: p in pending ==> p in fs || p in initial
      invariant forall p :: p in initial ==> p in files || p in pending
      invariant forall f, g :: f in files && Includes(fs, directory, f, g) ==> g in files || g in pending
      invariant forall s :: Complete(fs, directory, initial, s) ==> files <= s && forall p :: p in pending ==> p in s
      decreases fs.Keys - files, |pending|
    {
      var relative := pending[|pending| - 1];
      ghost var all := pending;
      pending := pending[..|pending| - 1];
      assert forall p :: p in all ==> p in pending || p == relative;
      if relative !in files {
        if relative !in fs { return None; }
        var seen := files;
        files := files + {relative};
        assert fs.Keys - files < fs.Keys - seen by {
          assert relative in fs.Keys - seen;
        }
        pending := PushIncludes(fs, directory, relative, pending);
      }
    }
    return Some(files);
  }

  method PushIncludes(fs: Files, directory: Path, from: Path, pending: seq<Path>) returns (pushed: seq<Path>)
    requires from in fs
    ensures forall p :: p in pushed <==> p in pending || Includes(fs, directory, from, p)
  {
    pushed := pending;
    var lines := fs[from];
    for i := 0 to |lines|
      invariant forall p :: p in pushed <==>
                  p in pending || (p in fs && exists j :: 0 <= j < i && Named(lines[j]).Some?
                                                         && p == Join(directory, Named(lines[j]).value))
    {
      var name := Named(lines[i]);
      if name.Some? && Join(directory, name.value) in fs {
        pushed := pushed + [Join(directory, name.value)];
      }
    }
  }

  // ---- The least complete set is what can be reached by includes

  ghost predicate Reaches(fs: Files, directory: Path, roots: seq<Path>, chain: seq<Path>) {
    && chain != [] && chain[0] in roots
    && forall i :: 0 <= i < |chain| - 1 ==> Includes(fs, directory, chain[i], chain[i + 1])
  }

  lemma {:induction false} ChainsStayInside(fs: Files, directory: Path, roots: seq<Path>, s: set<Path>,
                                            chain: seq<Path>)
    requires Complete(fs, directory, roots, s) && Reaches(fs, directory, roots, chain)
    ensures chain[|chain| - 1] in s
    decreases |chain|
  {
    if |chain| > 1 {
      var before := chain[..|chain| - 1];
      ChainsStayInside(fs, directory, roots, s, before);
      assert Includes(fs, directory, chain[|chain| - 2], chain[|chain| - 1]);
      assert before[|before| - 1] == chain[|chain| - 2];
    }
  }

  // A least complete set has nothing that no chain of includes leads to.
  lemma LeastIsReachable(fs: Files, directory: Path, roots: seq<Path>, s: set<Path>, f: Path)
    requires Complete(fs, directory, roots, s)
    requires forall t :: Complete(fs, directory, roots, t) ==> s <= t
    ensures f in s <==> exists chain :: Reaches(fs, directory, roots, chain) && chain[|chain| - 1] == f
  {
    if chain :| Reaches(fs, directory, roots, chain) && chain[|chain| - 1] == f {
      ChainsStayInside(fs, directory, roots, s, chain);
    }
    var reachable := set g | g in s && Reachable(fs, directory, roots, g);
    ReachableIsComplete(fs, directory, roots, s, reachable);
  }

  ghost predicate Reachable(fs: Files, directory: Path, roots: seq<Path>, f: Path) {
    exists chain :: Reaches(fs, directory, roots, chain) && chain[|chain| - 1] == f
  }

  lemma ReachableIsComplete(fs: Files, directory: Path, roots: seq<Path>, s: set<Path>, t: set<Path>)
    requires Complete(fs, directory, roots, s)
    requires t == set g | g in s && Reachable(fs, directory, roots, g)
    ensures Complete(fs, directory, roots, t)
  {
    hide Includes;
    forall g | g in roots ensures g in t {
      assert Reaches(fs, directory, roots, [g]);
    }
    forall f, g | f in t && Includes(fs, directory, f, g) ensures g in t {
      var chain :| Reaches(fs, directory, roots, chain) && chain[|chain| - 1] == f;
      var longer := chain + [g];
      assert Reaches(fs, directory, roots, longer) && longer[|longer| - 1] == g;
    }
  }
}
