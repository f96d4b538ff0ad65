/** The runtime-path and Cargo-manifest worklists of `ditto_screener/source_review.py`.
    What a file says is a parameter; how the files are chased is the model. */
module RuntimePaths {

  type Path = string

  /** What a Rust source says: the shell scripts it runs, the members-to-be its `include!`
      and `#[path]` name, and whether one of those could not be resolved. */
  datatype Source = Unreadable | Source(invokes: Path -> bool, references: set<Path>, unresolved: bool)

  /** What a manifest says: its target paths, the manifests of its path dependencies, and
      which manifests its workspace patterns admit. */
  datatype Manifest = Invalid | Manifest(targets: set<Path>, dependencies: set<Path>, workspace: Path -> bool)

  datatype Repository = Repository(
    members: set<Path>,
    isExecutable: Path -> bool,
    isShell: Path -> bool,
    isRust: Path -> bool,
    dockerInvokes: Path -> bool,
    source: Path -> Source,
    manifest: Path -> Manifest)

  const ROOT_MANIFEST: Path := "Cargo.toml"

  // ----- specification --------------------------------------------------------------------

  /** What `path` demands of a set of runtime paths that contains it. */
  ghost predicate Honoured(repo: Repository, path: Path, runtime: set<Path>) {
    repo.isRust(path) && repo.source(path).Source? ==>
      var source := repo.source(path);
      && (forall shell :: shell in repo.members && repo.isShell(shell) && source.invokes(shell) ==> shell in runtime)
      && source.references * repo.members <= runtime
      && (source.unresolved ==> forall member :: member in repo.members && repo.isRust(member) ==> member in runtime)
  }

  ghost predicate Closed(repo: Repository, seeds: set<Path>, runtime: set<Path>) {
    seeds <= runtime && forall path :: path in runtime ==> Honoured(repo, path, runtime)
  }

  ghost predicate IsLeast(repo: Repository, seeds: set<Path>, runtime: set<Path>) {
    Closed(repo, seeds, runtime) && forall other :: Closed(repo, seeds, other) ==> runtime <= other
  }

  ghost predicate ManifestHonoured(repo: Repository, path: Path, visited: set<Path>) {
    repo.manifest(path).Manifest? ==>
      && repo.manifest(path).dependencies * repo.members <= visited
      && forall member :: member in repo.members && repo.manifest(path).workspace(member) ==> member in visited
  }

  ghost predicate ManifestsClosed(repo: Repository, visited: set<Path>) {
    && (ROOT_MANIFEST in repo.members ==> ROOT_MANIFEST in visited)
    && forall path :: path in visited ==> ManifestHonoured(repo, path, visited)
  }

  ghost predicate IsLeastManifests(repo: Repository, visited: set<Path>) {
    ManifestsClosed(repo, visited) && forall other :: ManifestsClosed(repo, other) ==> visited <= other
  }

  ghost function ManifestTargets(repo: Repository, path: Path): set<Path> {
    if repo.manifest(path).Manifest? then repo.manifest(path).targets * repo.members else {}
  }

  /** The members that the visited manifests name as build scripts, libraries or binaries. */
  ghost function Targets(repo: Repository, visited: set<Path>): set<Path> {
    set path, target | path in visited && target in ManifestTargets(repo, path) :: target
  }

  ghost function Seeds(repo: Repository, visited: set<Path>): set<Path> {
    (set path | path in repo.members && repo.isExecutable(path) && !repo.isShell(path))
    + Targets(repo, visited)
    + (set path | path in repo.members && repo.isShell(path) && repo.dockerInvokes(path))
  }

  /** The least manifests contribute their targets. */
  ghost predicate AddsTargets(repo: Repository, runtime: set<Path>, runtime': set<Path>) {
    exists visited :: IsLeastManifests(repo, visited) && runtime' == runtime + Targets(repo, visited)
  }

  /** The least runtime set over the seeds of the least manifests. */
  ghost predicate IsRuntime(repo: Repository, runtime: set<Path>) {
    exists visited :: IsLeastManifests(repo, visited) && IsLeast(repo, Seeds(repo, visited), runtime)
  }

  /** There is one such set, so no pop or iteration order can change the result. */
  lemma LeastIsUnique(repo: Repository, r1: set<Path>, r2: set<Path>)
    requires IsRuntime(repo, r1) && IsRuntime(repo, r2)
    ensures r1 == r2
  {
    var m1 :| IsLeastManifests(repo, m1) && IsLeast(repo, Seeds(repo, m1), r1);
    var m2 :| IsLeastManifests(repo, m2) && IsLeast(repo, Seeds(repo, m2), r2);
    assert m1 == m2;
  }

  // ----- the Cargo worklist ------------------------------------------------------------------

  function AsSet(list: seq<Path>): set<Path> {
    set path | path in list
  }

  /** The members of a set in an order the caller cannot know. */
  method Enumerate(paths: set<Path>) returns (list: seq<Path>)
    ensures forall path :: path in list <==> path in paths
    ensures paths == {} ==> list == []
  {
    list := [];
    var rest := paths;
    while rest != {}
      invariant rest <= paths && forall path :: path in list <==> path in paths - rest
      decreases rest
    {
      var path :| path in rest;
      list := list + [path];
      rest := rest - {path};
    }
    assert list != [] ==> list[0] in list;
  }

  lemma HonouredGrows(repo: Repository, path: Path, small: set<Path>, large: set<Path>)
    requires small <= large && Honoured(repo, path, small)
    ensures Honoured(repo, path, large)
  {
  }

  lemma ManifestHonouredGrows(repo: Repository, path: Path, small: set<Path>, large: set<Path>)
    requires small <= large && ManifestHonoured(repo, path, small)
    ensures ManifestHonoured(repo, path, large)
  {
  }

  /** Pending manifests may repeat and may have been visited. */
  ghost predicate VisitingManifests(repo: Repository, visited: set<Path>, pending: seq<Path>) {
    && (forall path :: path in visited || path in pending ==> path in repo.members)
    && (ROOT_MANIFEST in repo.members ==> ROOT_MANIFEST in visited || ROOT_MANIFEST in pending)
    && (forall path :: path in visited ==> ManifestHonoured(repo, path, visited + AsSet(pending)))
    && (forall other, path :: ManifestsClosed(repo, other) && (path in visited || path in pending) ==> path in other)
  }

  lemma SkipManifest(repo: Repository, visited: set<Path>, rest: seq<Path>, path: Path)
    requires path in visited && VisitingManifests(repo, visited, rest + [path])
    ensures VisitingManifests(repo, visited, rest)
  {
    assert visited + AsSet(rest + [path]) == visited + AsSet(rest);
    assert forall p :: p in rest ==> p in rest + [path];
  }

  lemma VisitManifest(repo: Repository, visited: set<Path>, rest: seq<Path>, path: Path, added: seq<Path>)
    requires VisitingManifests(repo, visited, rest + [path])
    requires forall p :: p in added <==>
      repo.manifest(path).Manifest? && p in repo.members &&
      ((p in repo.manifest(path).dependencies && p !in visited + {path}) || repo.manifest(path).workspace(p))
    ensures VisitingManifests(repo, visited + {path}, rest + added)
  {
    assert path in rest + [path];
    assert forall p :: p in rest ==> p in rest + [path];
    var before, after := visited + AsSet(rest + [path]), visited + {path} + AsSet(rest + added);
    forall p | p in visited + {path} ensures ManifestHonoured(repo, p, after) {
      if p in visited { ManifestHonouredGrows(repo, p, before, after); }
    }
    forall other, p | ManifestsClosed(repo, other) && p in added ensures p in other {
      assert ManifestHonoured(repo, path, other);
    }
  }

  /** One manifest: the members it targets, and the manifests it queues. */
  method ReadManifest(repo: Repository, path: Path, seen: set<Path>) returns (targets: set<Path>, added: seq<Path>)
    requires path in seen
    ensures targets == ManifestTargets(repo, path)
    ensures forall p :: p in added <==>
      repo.manifest(path).Manifest? && p in repo.members &&
      ((p in repo.manifest(path).dependencies && p !in seen) || repo.manifest(path).workspace(p))
  {
    match repo.manifest(path) {
      case Invalid => targets, added := {}, [];
      case Manifest(named, dependencies, workspace) =>
        targets := named * repo.members;
        var first := Enumerate(set p | p in dependencies && p in repo.members && p !in seen);
        var second := Enumerate(set p | p in repo.members && workspace(p));
        added := first + second;
    }
  }

  /** `_add_cargo_runtime_paths`. */
  method AddCargoRuntimePaths(repo: Repository, runtime: set<Path>) returns (runtime': set<Path>)
    ensures AddsTargets(repo, runtime, runtime')
  {
    runtime' := runtime;
    var pending := if ROOT_MANIFEST in repo.members then [ROOT_MANIFEST] else [];
    var seen: set<Path> := {};
    while pending != []
      invariant VisitingManifests(repo, seen, pending)
      invariant runtime' == runtime + Targets(repo, seen)
      decreases repo.members - seen, |pending|
    {
      var path, rest := pending[|pending| - 1], pending[..|pending| - 1];
      assert pending == rest + [path] && path in pending;
      if path in seen {
        SkipManifest(repo, seen, rest, path);
        pending := rest;
        continue;
      }
      var targets, added := ReadManifest(repo, path, seen + {path});
      TargetsStep(repo, seen, path);
      VisitManifest(repo, seen, rest, path, added);
      runtime' := runtime' + targets;
      seen := seen + {path};
      pending := rest + added;
    }
    forall p | p in seen ensures ManifestHonoured(repo, p, seen) {
      ManifestHonouredGrows(repo, p, seen + AsSet(pending), seen);
    }
    assert IsLeastManifests(repo, seen);
  }

  lemma TargetsStep(repo: Repository, visited: set<Path>, path: Path)
    ensures Targets(repo, visited + {path}) == Targets(repo, visited) + ManifestTargets(repo, path)
  {
  }

  // ----- the runtime worklist -------------------------------------------------------------------

  /** What holds at the loop head: every runtime path is pending, scanned or not Rust, and
      what the scanned ones demand is in the runtime set. */
  ghost predicate Scanning(repo: Repository, seeds: set<Path>, runtime: set<Path>, scanned: set<Path>,
                           pending: seq<Path>)
  {
    && seeds <= runtime <= repo.members && scanned <= runtime
    && (forall path :: path in pending ==> path in runtime)
    && (forall path :: path in runtime && repo.isRust(path) ==> path in scanned || path in pending)
    && (forall path :: path in scanned ==> Honoured(repo, path, runtime))
    && (forall other :: Closed(repo, seeds, other) ==> runtime <= other)
  }

  lemma SkipPath(repo: Repository, seeds: set<Path>, runtime: set<Path>, scanned: set<Path>, rest: seq<Path>, path: Path)
    requires path in scanned || !repo.isRust(path)
    requires Scanning(repo, seeds, runtime, scanned, rest + [path])
    ensures Scanning(repo, seeds, runtime, scanned, rest)
  {
    assert forall p :: p in rest ==> p in rest + [path];
  }

  /** The runtime set grew, and what is new is pending unless it was scanned. */
  ghost predicate Grown(runtime: set<Path>, runtime': set<Path>, scanned: set<Path>, pending: seq<Path>,
                        pending': seq<Path>)
  {
    && runtime <= runtime'
    && (forall p :: p in pending ==> p in pending')
    && (forall p :: p in pending' ==> p in pending || p in runtime')
    && (forall p :: p in runtime' && p !in runtime ==> p in scanned || p in pending')
    && (runtime' == runtime ==> pending' == pending)
  }

  lemma GrownTwice(r0: set<Path>, r1: set<Path>, r2: set<Path>, scanned: set<Path>, p0: seq<Path>, p1: seq<Path>,
                   p2: seq<Path>)
    requires Grown(r0, r1, scanned, p0, p1) && Grown(r1, r2, scanned, p1, p2)
    ensures Grown(r0, r2, scanned, p0, p2)
  {
  }

  /** Queues the members of a set that the runtime set does not hold yet. */
  method AddPaths(paths: set<Path>, runtime: set<Path>, scanned: set<Path>, pending: seq<Path>, queue: set<Path>)
    returns (runtime': set<Path>, pending': seq<Path>)
    requires paths - scanned - AsSet(pending) <= queue <= runtime + paths
    requires paths <= runtime ==> queue == {}
    ensures runtime' == runtime + paths && Grown(runtime, runtime', scanned, pending, pending')
  {
    runtime' := runtime + paths;
    var newly := Enumerate(queue);
    pending' := pending + newly;
    if runtime' == runtime { assert paths <= runtime && pending + [] == pending; }
  }

  /** The references of one file, in any order: the set grows by those that are members,
      and each growth queues again whatever is not yet scanned or pending. */
  method AddReferences(repo: Repository, references: set<Path>, runtime: set<Path>, scanned: set<Path>,
                       pending: seq<Path>)
    returns (runtime': set<Path>, pending': seq<Path>)
    ensures runtime' == runtime + references * repo.members
    ensures Grown(runtime, runtime', scanned, pending, pending')
  {
    runtime', pending' := runtime, pending;
    var rest := references;
    while rest != {}
      invariant rest <= references && runtime' == runtime + (references - rest) * repo.members
      invariant Grown(runtime, runtime', scanned, pending, pending')
      decreases rest
    {
      var reference :| reference in rest;
      rest := rest - {reference};
      if reference in repo.members && reference !in runtime' {
        ghost var before, queued := runtime', pending';
        var all := runtime' + {reference};
        runtime', pending' := AddPaths({reference}, runtime', scanned, pending', all - scanned - AsSet(pending'));
        GrownTwice(runtime, before, runtime', scanned, pending, queued, pending');
      }
    }
  }

  /** One scan has added exactly what the file demands. */
  lemma ScanStep(repo: Repository, seeds: set<Path>, runtime: set<Path>, scanned: set<Path>, rest: seq<Path>, path: Path,
                 runtime': set<Path>, pending': seq<Path>)
    requires repo.isRust(path) && Scanning(repo, seeds, runtime, scanned, rest + [path])
    requires runtime' <= repo.members && Grown(runtime, runtime', scanned + {path}, rest, pending')
    requires Honoured(repo, path, runtime')
    requires forall other :: runtime <= other && Honoured(repo, path, other) ==> runtime' <= other
    ensures Scanning(repo, seeds, runtime', scanned + {path}, pending')
  {
    assert path in rest + [path];
    assert forall p :: p in rest ==> p in rest + [path];
    forall p | p in scanned + {path} ensures Honoured(repo, p, runtime') {
      if p in scanned { HonouredGrows(repo, p, runtime, runtime'); }
    }
    forall p | p in runtime' && repo.isRust(p) ensures p in scanned + {path} || p in pending' {
      if p in runtime && p !in scanned && p != path {
        assert p in rest + [path];
      }
    }
    forall other | Closed(repo, seeds, other) ensures runtime' <= other {
      assert path in other && Honoured(repo, path, other);
    }
  }

  /** The body of the loop for a readable file. */
  method ScanSource(repo: Repository, path: Path, source: Source, runtime: set<Path>, scanned: set<Path>,
                    pending: seq<Path>)
    returns (runtime': set<Path>, pending': seq<Path>)
    requires repo.source(path) == source && source.Source? && repo.isRust(path) && runtime <= repo.members
    ensures runtime' <= repo.members && Grown(runtime, runtime', scanned, pending, pending')
    ensures Honoured(repo, path, runtime')
    ensures forall other :: runtime <= other && Honoured(repo, path, other) ==> runtime' <= other
  {
    var shells := set p | p in repo.members && repo.isShell(p) && p !in runtime && source.invokes(p);
    var r1, p1 := AddPaths(shells, runtime, scanned, pending, shells - scanned - AsSet(pending));
    var r2, p2 := AddReferences(repo, source.references, r1, scanned, p1);
    GrownTwice(runtime, r1, r2, scanned, pending, p1, p2);
    runtime', pending' := r2, p2;
    if source.unresolved {
      var newlyReachable := set p | p in repo.members && repo.isRust(p) && p !in r2;
      runtime', pending' := AddPaths(newlyReachable, r2, scanned, p2, newlyReachable);
      GrownTwice(runtime, r2, runtime', scanned, pending, p2, pending');
    }
  }

  /** The loop over pending paths. They may repeat and be queued again after they were popped,
      so the loop is measured by the growth of the runtime set first. */
  method ScanPending(repo: Repository, seeds: set<Path>) returns (runtime: set<Path>)
    requires seeds <= repo.members
    ensures IsLeast(repo, seeds, runtime)
  {
    hide Honoured;
    runtime := seeds;
    var pending := Enumerate(runtime);
    var scanned: set<Path> := {};
    while pending != []
      invariant Scanning(repo, seeds, runtime, scanned, pending)
      decreases repo.members - runtime, |pending|
    {
      var path, rest := pending[|pending| - 1], pending[..|pending| - 1];
      assert pending == rest + [path] && path in pending;
      if path in scanned || !repo.isRust(path) {
        SkipPath(repo, seeds, runtime, scanned, rest, path);
        pending := rest;
        continue;
      }
      var runtime', pending' := runtime, rest;
      var source := repo.source(path);
      if source.Source? {
        runtime', pending' := ScanSource(repo, path, source, runtime, scanned + {path}, rest);
      }
      ScanStep(repo, seeds, runtime, scanned, rest, path, runtime', pending');
      runtime, scanned, pending := runtime', scanned + {path}, pending';
    }
    ScannedIsLeast(repo, seeds, runtime, scanned);
  }

  lemma ScannedIsLeast(repo: Repository, seeds: set<Path>, runtime: set<Path>, scanned: set<Path>)
    requires Scanning(repo, seeds, runtime, scanned, [])
    ensures IsLeast(repo, seeds, runtime)
  {
  }

  /** `_explicit_runtime_paths`. */
  method ExplicitRuntimePaths(repo: Repository) returns (runtime: set<Path>)
    ensures IsRuntime(repo, runtime)
  {
    assert forall visited :: Targets(repo, visited) <= repo.members;
    hide IsLeastManifests, Targets, IsLeast;
    var standaloneShell := set path | path in repo.members && repo.isShell(path);
    var executable := set path | path in repo.members && repo.isExecutable(path) && path !in standaloneShell;
    var seeds := AddCargoRuntimePaths(repo, executable);
    ghost var manifests :| IsLeastManifests(repo, manifests) && seeds == executable + Targets(repo, manifests);
    seeds := seeds + set path | path in standaloneShell && repo.dockerInvokes(path);
    assert seeds == Seeds(repo, manifests);
    runtime := ScanPending(repo, seeds);
  }
}
