/** The submitted archive in `gate.py`: the contract check, the build context it is rewritten
    to, and the byte stream its source digest is taken over. A byte is a character, and a name
    is its UTF-8 bytes. */
module Archive {
  import opened Options
  import opened Text
  import P = Permutations
  import opened Paths

  const MAX_MEMBERS := 20_000
  const MAX_UNPACKED := 64 * 1024 * 1024

  datatype Kind = File | Directory | Special

  /** A tar member. `declared` is the header's size; a regular file has that many bytes. */
  datatype Member = Member(name: string, kind: Kind, declared: nat, data: string)

  /** The members read, and whether reading on fails. */
  datatype Tar = Tar(members: seq<Member>, broken: bool)

  /** What the source asks of a Dockerfile's text. */
  datatype Dockerfile = Dockerfile(isText: string -> bool, isInsecure: string -> bool)

  datatype Error =
    | TooManyMembers | UnsafePath | NonCanonicalPath | DuplicatePath | SpecialFile | TooLarge
    | Unreadable | NoDockerfile | NotText | InsecureBuild

  // ----- members --------------------------------------------------------------------------

  function Stripped(name: string): string {
    if "./" <= name then name[2..] else name
  }

  function Size(m: Member): nat {
    if m.kind == File then |m.data| else m.declared
  }

  /** The archive root itself. */
  predicate IsRoot(m: Member) {
    Stripped(m.name) == "" && m.kind == Directory
  }

  predicate IsUnsafe(name: string) {
    name == "" || name[0] == '/' || '\\' in name
    || (Parts(name) != [] && Parts(name)[0] != "" && Parts(name)[0][|Parts(name)[0]| - 1] == ':')
    || ".." in Parts(name)
  }

  /** The members by stripped name. */
  function Index(ms: seq<Member>): map<string, Member> {
    if ms == [] then map[]
    else
      var m := ms[|ms| - 1];
      if IsRoot(m) then Index(ms[..|ms| - 1]) else Index(ms[..|ms| - 1])[Stripped(m.name) := m]
  }

  function Total(ms: seq<Member>): nat {
    if ms == [] then 0
    else Total(ms[..|ms| - 1]) + if IsRoot(ms[|ms| - 1]) then 0 else Size(ms[|ms| - 1])
  }

  /** The regular files: from path to bytes. */
  function Files(ms: seq<Member>): map<string, string> {
    map name | name in Index(ms) && Index(ms)[name].kind == File :: Index(ms)[name].data
  }

  // ----- the contract check --------------------------------------------------------------------

  /** What is wrong with a member after the ones before it. */
  function NextError(before: seq<Member>, m: Member): Option<Error> {
    var name := Stripped(m.name);
    if |before| >= MAX_MEMBERS then Some(TooManyMembers)
    else if IsRoot(m) then None
    else if IsUnsafe(name) then Some(UnsafePath)
    else if !IsCanonical(name) then Some(NonCanonicalPath)
    else if name in Index(before) then Some(DuplicatePath)
    else if m.kind == Special then Some(SpecialFile)
    else if Total(before) + Size(m) > MAX_UNPACKED then Some(TooLarge)
    else None
  }

  /** The first thing that is wrong. */
  function MembersError(ms: seq<Member>): Option<Error> {
    if ms == [] then None
    else match MembersError(ms[..|ms| - 1])
      case Some(error) => Some(error)
      case None => NextError(ms[..|ms| - 1], ms[|ms| - 1])
  }

  function DockerfileError(files: map<string, string>, rules: Dockerfile): Option<Error> {
    if "Dockerfile" !in files then Some(NoDockerfile)
    else if !rules.isText(files["Dockerfile"]) then Some(NotText)
    else if rules.isInsecure(files["Dockerfile"]) then Some(InsecureBuild)
    else None
  }

  function Contract(tar: Tar, rules: Dockerfile): Option<Error> {
    match MembersError(tar.members)
    case Some(error) => Some(error)
    case None => if tar.broken then Some(Unreadable) else DockerfileError(Files(tar.members), rules)
  }

  lemma {:induction false} FirstErrorStays(ms: seq<Member>, n: nat)
    requires n <= |ms| && MembersError(ms[..n]).Some?
    ensures MembersError(ms) == MembersError(ms[..n])
    decreases |ms|
  {
    if n == |ms| {
      assert ms[..n] == ms;
    } else {
      assert ms[..|ms| - 1][..n] == ms[..n];
      FirstErrorStays(ms[..|ms| - 1], n);
    }
  }

  method ContractError(tar: Tar, rules: Dockerfile) returns (error: Option<Error>)
    ensures error == Contract(tar, rules)
  {
    hide IsUnsafe, IsCanonical, IsRoot, Size;
    var members: map<string, Member>, unpacked := map[], 0;
    for i := 0 to |tar.members|
      invariant members == Index(tar.members[..i]) && unpacked == Total(tar.members[..i])
      invariant MembersError(tar.members[..i]) == None
    {
      var m := tar.members[i];
      var name := Stripped(m.name);
      assert tar.members[..i + 1][..i] == tar.members[..i];
      if |tar.members[..i + 1]| > MAX_MEMBERS {
        error := Some(TooManyMembers);
      } else if IsRoot(m) {
        continue;
      } else if IsUnsafe(name) {
        error := Some(UnsafePath);
      } else if !IsCanonical(name) {
        error := Some(NonCanonicalPath);
      } else if name in members {
        error := Some(DuplicatePath);
      } else if m.kind == Special {
        error := Some(SpecialFile);
      } else {
        unpacked := unpacked + Size(m);
        error := if unpacked > MAX_UNPACKED then Some(TooLarge) else None;
      }
      if error.Some? {
        assert MembersError(tar.members[..i + 1]) == error;
        FirstErrorStays(tar.members, i + 1);
        return;
      }
      members := members[name := m];
    }
    assert tar.members[..|tar.members|] == tar.members;
    if tar.broken { return Some(Unreadable); }
    if "Dockerfile" !in members || members["Dockerfile"].kind != File { return Some(NoDockerfile); }
    var text := members["Dockerfile"].data;
    if !rules.isText(text) { return Some(NotText); }
    return if rules.isInsecure(text) then Some(InsecureBuild) else None;
  }

  // ----- what the contract accepts ---------------------------------------------------------------

  predicate IsClean(m: Member) {
    IsRoot(m) || (!IsUnsafe(Stripped(m.name)) && IsCanonical(Stripped(m.name)) && m.kind != Special)
  }

  predicate Clash(ms: seq<Member>, i: nat, j: nat)
    requires i < |ms| && j < |ms|
  {
    !IsRoot(ms[i]) && !IsRoot(ms[j]) && Stripped(ms[i].name) == Stripped(ms[j].name)
  }

  predicate IsClear(ms: seq<Member>) {
    && |ms| <= MAX_MEMBERS && Total(ms) <= MAX_UNPACKED
    && (forall i :: 0 <= i < |ms| ==> IsClean(ms[i]))
    && (forall i, j :: 0 <= i < j < |ms| ==> !Clash(ms, i, j))
  }

  lemma {:induction false} InIndex(ms: seq<Member>, name: string)
    ensures name in Index(ms) <==> exists i :: 0 <= i < |ms| && !IsRoot(ms[i]) && Stripped(ms[i].name) == name
    decreases |ms|
  {
    hide IsRoot;
    if ms != [] { InIndex(ms[..|ms| - 1], name); }
  }

  /** A path that cannot leave the directory it is unpacked in: relative, with no backslash
      and nothing that climbs between its slashes. */
  predicate StaysInside(name: string) {
    name != "" && name[0] != '/' && '\\' !in name && ".." !in Split(name, '/')
  }

  /** The path starts with a drive: its first part that is not a dot ends in a colon. */
  ghost predicate StartsWithDrive(name: string) {
    exists k :: 0 <= k < |Split(name, '/')| && EndsInColon(Split(name, '/')[k])
      && forall j :: 0 <= j < k ==> Split(name, '/')[j] == "" || Split(name, '/')[j] == "."
  }

  predicate EndsInColon(component: string) {
    component != "" && component[|component| - 1] == ':'
  }

  lemma {:induction false} FirstNamed(fields: seq<string>)
    ensures (Named(fields) != [] && EndsInColon(Named(fields)[0])) <==>
      exists k :: 0 <= k < |fields| && EndsInColon(fields[k]) && forall j :: 0 <= j < k ==> fields[j] == "" || fields[j] == "."
  {
    if fields != [] {
      var rest := fields[1..];
      FirstNamed(rest);
      if fields[0] == "" || fields[0] == "." {
        if k :| 0 <= k < |fields| && EndsInColon(fields[k]) && forall j :: 0 <= j < k ==> fields[j] == "" || fields[j] == "." {
          assert EndsInColon(rest[k - 1]);
          assert forall j :: 0 <= j < k - 1 ==> rest[j] == fields[j + 1];
        }
        if k :| 0 <= k < |rest| && EndsInColon(rest[k]) && forall j :: 0 <= j < k ==> rest[j] == "" || rest[j] == "." {
          assert EndsInColon(fields[k + 1]);
          assert forall j :: 0 <= j < k + 1 ==> fields[j] == "" || fields[j] == ".";
        }
      }
    }
  }

  /** Which names the check takes for unsafe. */
  lemma UnsafeIff(name: string)
    ensures IsUnsafe(name) <==> !StaysInside(name) || StartsWithDrive(name)
  {
    PartsIff(name, "..");
    assert name[0..] == name;
    PartsAreNamed(name, 0, 0);
    FirstNamed(Split(name, '/'));
    if Parts(name) != [] {
      PartsAreProper(name, 0, 0);
      assert IsProper(Parts(name)[0]);
    }
    hide Split, PartsFrom, Named;
  }

  /** Nothing that the check accepts lands outside the directory it is unpacked in. */
  lemma AcceptedStaysInside(ms: seq<Member>, i: nat)
    requires MembersError(ms) == None && i < |ms| && !IsRoot(ms[i])
    ensures StaysInside(Stripped(ms[i].name)) && ms[i].kind != Special
  {
    ClearIffNoError(ms);
    assert IsClean(ms[i]);
    UnsafeIff(Stripped(ms[i].name));
    hide MembersError, StaysInside, IsUnsafe, Stripped, IsCanonical;
  }

  /** Whatever the order: a few clean members, all under different names, and not too large. */
  lemma {:induction false} ClearIffNoError(ms: seq<Member>)
    ensures MembersError(ms) == None <==> IsClear(ms)
    decreases |ms|
  {
    hide IsRoot, IsUnsafe, IsCanonical, Size, Index;
    if ms != [] {
      var n := |ms| - 1;
      var init, m := ms[..n], ms[n];
      ClearIffNoError(init);
      InIndex(init, Stripped(m.name));
      if MembersError(ms) == None {
        forall i, j | 0 <= i < j < |ms| ensures !Clash(ms, i, j) {
          if j < n { assert !Clash(init, i, j); }
        }
      }
      if IsClear(ms) {
        forall i, j | 0 <= i < j < |init| ensures !Clash(init, i, j) {
          assert !Clash(ms, i, j);
        }
        forall i | 0 <= i < |init| && !IsRoot(init[i]) && Stripped(init[i].name) == Stripped(m.name) ensures IsRoot(m) {
          assert !Clash(ms, i, n);
        }
      }
    }
  }

  /** What a member adds to the total. */
  function Weight(m: Member): nat {
    if IsRoot(m) then 0 else Size(m)
  }

  lemma {:induction false} TotalWithout(ms: seq<Member>, k: nat)
    requires k < |ms|
    ensures Total(ms) == Total(P.Others(ms, k)) + Weight(ms[k])
    decreases |ms|
  {
    hide IsRoot, Size;
    var n := |ms| - 1;
    var rest := P.Others(ms, k);
    if k == n {
      assert rest == ms[..n];
    } else {
      TotalWithout(ms[..n], k);
      assert P.Others(ms[..n], k) == rest[..n - 1] && rest[n - 1] == ms[n];
    }
  }

  lemma {:induction false} TotalOfPermutation(a: seq<Member>, b: seq<Member>)
    requires multiset(a) == multiset(b)
    ensures Total(a) == Total(b)
    decreases |a|
  {
    hide IsRoot, Size, Total, P.Others;
    assert |multiset(a)| == |a| && |multiset(b)| == |b|;
    if a != [] {
      var n := |a| - 1;
      var k := P.PlaceOf(a, b, n);
      TotalWithout(a, n);
      TotalWithout(b, k);
      P.SameOthers(a, b, n, k);
      TotalOfPermutation(P.Others(a, n), P.Others(b, k));
    }
  }

  /** Acceptance does not depend on the order of the members. */
  lemma AcceptanceIgnoresOrder(a: seq<Member>, b: seq<Member>)
    requires multiset(a) == multiset(b) && MembersError(a) == None
    ensures MembersError(b) == None
  {
    hide IsRoot, IsUnsafe, IsCanonical, Size, Total, MembersError;
    ClearIffNoError(a);
    ClearIffNoError(b);
    TotalOfPermutation(a, b);
    assert |multiset(a)| == |a| && |multiset(b)| == |b|;
    forall i | 0 <= i < |b| ensures IsClean(b[i]) {
      assert b[i] in multiset(a);
    }
    forall i, j | 0 <= i < j < |b| ensures !Clash(b, i, j) {
      var k, l := P.Places(b, a, i, j);
      assert if k < l then !Clash(a, k, l) else !Clash(a, l, k);
    }
  }

  // ----- the build context ---------------------------------------------------------------------

  function Portable(m: Member): Member {
    Member(Stripped(m.name), m.kind, if m.kind == File then m.declared else 0, m.data)
  }

  function Normalized(ms: seq<Member>): seq<Member> {
    if ms == [] then []
    else
      var m := ms[|ms| - 1];
      Normalized(ms[..|ms| - 1]) + if IsRoot(m) then [] else [Portable(m)]
  }

  method NormalizedContext(ms: seq<Member>) returns (context: seq<Member>)
    ensures context == Normalized(ms)
  {
    context := [];
    for i := 0 to |ms|
      invariant context == Normalized(ms[..i])
    {
      var m := ms[i];
      assert ms[..i + 1][..i] == ms[..i];
      if IsRoot(m) { continue; }
      context := context + [Member(Stripped(m.name), m.kind, if m.kind == File then m.declared else 0, m.data)];
    }
    assert ms[..|ms|] == ms;
  }

  /** The same paths, of the same kind, with the same bytes. */
  ghost predicate SameContents(a: map<string, Member>, b: map<string, Member>) {
    a.Keys == b.Keys && forall name :: name in a ==> a[name].kind == b[name].kind && a[name].data == b[name].data
  }

  lemma PortableMember(m: Member)
    requires IsRoot(m) || IsCanonical(Stripped(m.name))
    ensures Portable(m).kind == m.kind && Portable(m).data == m.data
    ensures !IsRoot(m) ==>
      Stripped(Portable(m).name) == Stripped(m.name) && !IsRoot(Portable(m)) && Size(Portable(m)) <= Size(m)
      && Portable(Portable(m)) == Portable(m)
  {
    if !IsRoot(m) { CanonicalHasNoPrefix(Stripped(m.name)); }
  }

  lemma OneMore(ms: seq<Member>, m: Member)
    ensures Index(ms + [m]) == if IsRoot(m) then Index(ms) else Index(ms)[Stripped(m.name) := m]
    ensures Total(ms + [m]) == Total(ms) + if IsRoot(m) then 0 else Size(m)
    ensures MembersError(ms + [m]) == if MembersError(ms).Some? then MembersError(ms) else NextError(ms, m)
    ensures Normalized(ms + [m]) == if IsRoot(m) then Normalized(ms) else Normalized(ms) + [Portable(m)]
  {
    assert Normalized(ms) + [] == Normalized(ms);
    assert (ms + [m])[..|ms|] == ms;
  }

  lemma SameUpdate(a: map<string, Member>, b: map<string, Member>, name: string, m: Member)
    requires SameContents(a, b)
    ensures SameContents(a[name := Portable(m)], b[name := m])
  {
  }

  /** What the check says of the next member is the same in the context. */
  lemma SameError(before: seq<Member>, context: seq<Member>, m: Member)
    requires SameContents(Index(context), Index(before)) && Total(context) <= Total(before) && |context| <= |before|
    requires !IsRoot(m) && NextError(before, m) == None
    ensures NextError(context, Portable(m)) == None
  {
    hide IsRoot, IsUnsafe, IsCanonical, Size, Index, Total, Portable, Stripped;
    PortableMember(m);
  }

  /** The context of an accepted archive passes the check again, holds the same paths with
      the same bytes, and is its own context. */
  lemma {:induction false} ContextIsAccepted(ms: seq<Member>)
    requires MembersError(ms) == None
    ensures MembersError(Normalized(ms)) == None
    ensures |Normalized(ms)| <= |ms| && Total(Normalized(ms)) <= Total(ms)
    ensures SameContents(Index(Normalized(ms)), Index(ms))
    ensures Normalized(Normalized(ms)) == Normalized(ms)
    decreases |ms|
  {
    assert ms != [] ==> MembersError(ms) == NextError(ms[..|ms| - 1], ms[|ms| - 1]);
    assert ms == [] ==> Normalized(ms) == ms && SameContents(Index(ms), Index(ms));
    assert ms != [] && !IsRoot(ms[|ms| - 1]) ==> IsCanonical(Stripped(ms[|ms| - 1].name));
    hide IsRoot, NextError, Size, Index, Total, Portable, Normalized, SameContents, MembersError, Stripped;
    if ms != [] {
      var init, m := ms[..|ms| - 1], ms[|ms| - 1];
      assert ms == init + [m];
      OneMore(init, m);
      ContextIsAccepted(init);
      if !IsRoot(m) {
        PortableMember(m);
        SameError(init, Normalized(init), m);
        OneMore(Normalized(init), Portable(m));
        SameUpdate(Index(Normalized(init)), Index(init), Stripped(m.name), m);
      }
    }
  }

  /** The context has the files of the archive. */
  lemma ContextFiles(ms: seq<Member>)
    requires MembersError(ms) == None
    ensures Files(Normalized(ms)) == Files(ms)
  {
    hide Index, Normalized, MembersError;
    ContextIsAccepted(ms);
  }

  /** The rewritten archive meets the whole contract if the submitted one did. */
  lemma ContextMeetsContract(tar: Tar, rules: Dockerfile)
    requires Contract(tar, rules) == None
    ensures Contract(Tar(Normalized(tar.members), false), rules) == None
  {
    hide Normalized, Files, MembersError, DockerfileError;
    ContextIsAccepted(tar.members);
    ContextFiles(tar.members);
  }

  // ----- the hashed stream ------------------------------------------------------------------------

  const NUL := 0 as char

  datatype Entry = Entry(name: string, data: string)

  ghost predicate IsSorted(entries: seq<Entry>) {
    forall i, j :: 0 <= i < j < |entries| ==> Less(entries[i].name, entries[j].name)
  }

  function Frame(entry: Entry): string {
    entry.name + ([NUL] + (Decimal(|entry.data|) + ([NUL] + (entry.data + [NUL]))))
  }

  function FramesFrom(entries: seq<Entry>, k: nat): string
    requires k <= |entries|
    decreases |entries| - k
  {
    if k == |entries| then "" else Frame(entries[k]) + FramesFrom(entries, k + 1)
  }

  /** The entries are the files, each once. */
  ghost predicate Lists(entries: seq<Entry>, files: map<string, string>) {
    forall e: Entry :: e in entries <==> e.name in files && files[e.name] == e.data
  }

  /** The stream of a file map: its files framed in the order of their names. */
  ghost predicate IsStreamOf(stream: string, files: map<string, string>) {
    exists entries :: IsSorted(entries) && Lists(entries, files) && stream == FramesFrom(entries, 0)
  }

  /** The regular files in member order. */
  function Regulars(ms: seq<Member>): seq<Entry> {
    if ms == [] then []
    else
      var m := ms[|ms| - 1];
      Regulars(ms[..|ms| - 1]) + if m.kind == File then [Entry(Stripped(m.name), m.data)] else []
  }

  lemma {:induction false} RegularsList(ms: seq<Member>)
    requires MembersError(ms) == None
    ensures Lists(Regulars(ms), Files(ms))
    ensures forall i, j :: 0 <= i < j < |Regulars(ms)| ==> Regulars(ms)[i].name != Regulars(ms)[j].name
    decreases |ms|
  {
    hide IsUnsafe, IsCanonical, Total, Size;
    if ms != [] {
      var init, m := ms[..|ms| - 1], ms[|ms| - 1];
      RegularsList(init);
      var a, b := Regulars(init), Regulars(ms);
      forall i | 0 <= i < |a| ensures a[i] in a && a[i].name in Index(init) {
      }
      forall e: Entry ensures e in b <==> e.name in Files(ms) && Files(ms)[e.name] == e.data {
        assert e in b <==> e in a || (m.kind == File && e == Entry(Stripped(m.name), m.data));
        assert e in a <==> e.name in Files(init) && Files(init)[e.name] == e.data;
      }
    }
  }

  /** Where a new name goes in. */
  method Place(entries: seq<Entry>, name: string) returns (p: nat)
    requires IsSorted(entries) && forall i :: 0 <= i < |entries| ==> entries[i].name != name
    ensures p <= |entries|
    ensures forall i :: 0 <= i < p ==> Less(entries[i].name, name)
    ensures forall i :: p <= i < |entries| ==> Less(name, entries[i].name)
  {
    hide LessFrom;
    p := |entries|;
    while p > 0 && Less(name, entries[p - 1].name)
      invariant p <= |entries|
      invariant forall i :: p <= i < |entries| ==> Less(name, entries[i].name)
    {
      p := p - 1;
    }
    if p > 0 {
      LessIsTotal(entries[p - 1].name, name, 0);
      forall i | 0 <= i < p - 1 ensures Less(entries[i].name, name) {
        LessIsTransitive(entries[i].name, entries[p - 1].name, name, 0);
      }
    }
  }

  /** `sorted`, by name. */
  method SortByName(entries: seq<Entry>) returns (sorted: seq<Entry>)
    requires forall i, j :: 0 <= i < j < |entries| ==> entries[i].name != entries[j].name
    ensures IsSorted(sorted) && forall e :: e in sorted <==> e in entries
  {
    hide Less;
    sorted := [];
    for n := 0 to |entries|
      invariant IsSorted(sorted)
      invariant forall e :: e in sorted <==> e in entries[..n]
    {
      var e := entries[n];
      forall i | 0 <= i < |sorted| ensures sorted[i].name != e.name {
        assert sorted[i] in entries[..n];
      }
      var p := Place(sorted, e.name);
      sorted := Inserted(sorted, p, e);
      assert entries[..n + 1] == entries[..n] + [e];
    }
    assert entries[..|entries|] == entries;
  }

  function Inserted(sorted: seq<Entry>, p: nat, e: Entry): (r: seq<Entry>)
    requires p <= |sorted|
    ensures forall x :: x in r <==> x in sorted || x == e
  {
    assert sorted == sorted[..p] + sorted[p..];
    sorted[..p] + [e] + sorted[p..]
  }

  /** The least names of a file map, in order: all of them, or 256. */
  ghost predicate AreFirst(paths: seq<string>, files: map<string, string>) {
    && |paths| <= 256
    && (forall i, j :: 0 <= i < j < |paths| ==> Less(paths[i], paths[j]))
    && (forall i :: 0 <= i < |paths| ==> paths[i] in files)
    && (forall name :: name in files && name !in paths ==>
          |paths| == 256 && forall i :: 0 <= i < |paths| ==> Less(paths[i], name))
  }

  lemma FirstPaths(members: seq<Entry>, files: map<string, string>, paths: seq<string>)
    requires IsSorted(members) && Lists(members, files)
    requires |paths| == if |members| < 256 then |members| else 256
    requires forall i :: 0 <= i < |paths| ==> paths[i] == members[i].name
    ensures AreFirst(paths, files)
  {
    hide LessFrom;
    forall i | 0 <= i < |paths| ensures paths[i] in files {
      assert members[i] in members;
    }
    forall name | name in files && name !in paths
      ensures |paths| == 256 && forall i :: 0 <= i < |paths| ==> Less(paths[i], name)
    {
      assert forall i :: 0 <= i < |paths| ==> paths[i] in paths;
      var e := Entry(name, files[name]);
      assert e in members;
      var k :| 0 <= k < |members| && members[k] == e;
    }
  }

  /** The stream the source hashes, and the first 256 paths in it. */
  method SourceStream(ms: seq<Member>) returns (stream: string, paths: seq<string>)
    requires MembersError(ms) == None
    ensures IsStreamOf(stream, Files(ms))
    ensures AreFirst(paths, Files(ms))
  {
    hide Frame, Less, MembersError, Files;
    RegularsList(ms);
    var members := SortByName(Regulars(ms));
    stream, paths := "", [];
    for k := 0 to |members|
      invariant FramesFrom(members, 0) == stream + FramesFrom(members, k)
      invariant |paths| == (if k < 256 then k else 256) && forall i :: 0 <= i < |paths| ==> paths[i] == members[i].name
    {
      assert stream + (Frame(members[k]) + FramesFrom(members, k + 1)) == (stream + Frame(members[k])) + FramesFrom(members, k + 1);
      stream := stream + Frame(members[k]);
      if |paths| < 256 { paths := paths + [members[k].name]; }
    }
    assert Lists(members, Files(ms));
    FirstPaths(members, Files(ms), paths);
  }

  // ----- the stream determines the files -------------------------------------------------------------

  ghost predicate AreNulFree(files: map<string, string>) {
    forall name :: name in files ==> Without(name, NUL)
  }

  lemma FrameReadsBack(a: Entry, x: string, b: Entry, y: string)
    requires Frame(a) + x == Frame(b) + y && Without(a.name, NUL) && Without(b.name, NUL)
    ensures a == b && x == y
  {
    var u, v := a.data + ([NUL] + x), b.data + ([NUL] + y);
    var s, t := [NUL] + (Decimal(|a.data|) + ([NUL] + u)), [NUL] + (Decimal(|b.data|) + ([NUL] + v));
    FrameSplits(a, x);
    FrameSplits(b, y);
    FieldReadsBack(a.name, s, b.name, t, c => c == NUL);
    assert s[1..] == Decimal(|a.data|) + ([NUL] + u) && t[1..] == Decimal(|b.data|) + ([NUL] + v);
    DecimalReadsBack(|a.data|, [NUL] + u, |b.data|, [NUL] + v);
    assert ([NUL] + u)[1..] == u && ([NUL] + v)[1..] == v;
    assert u[..|a.data|] == a.data && v[..|b.data|] == b.data;
    assert u[|a.data| + 1..] == x && v[|b.data| + 1..] == y;
  }

  lemma FrameSplits(e: Entry, x: string)
    ensures Frame(e) + x == e.name + ([NUL] + (Decimal(|e.data|) + ([NUL] + (e.data + ([NUL] + x)))))
  {
    hide Decimal;
  }

  lemma {:induction false} FramesReadBack(a: seq<Entry>, b: seq<Entry>, k: nat)
    requires k <= |a| && k <= |b| && FramesFrom(a, k) == FramesFrom(b, k)
    requires forall i :: 0 <= i < |a| ==> Without(a[i].name, NUL)
    requires forall i :: 0 <= i < |b| ==> Without(b[i].name, NUL)
    ensures |a| == |b| && a[k..] == b[k..]
    decreases |a| - k
  {
    hide Frame;
    FramesShape(a, k);
    FramesShape(b, k);
    if k < |a| && k < |b| {
      FrameReadsBack(a[k], FramesFrom(a, k + 1), b[k], FramesFrom(b, k + 1));
      FramesReadBack(a, b, k + 1);
    }
  }

  lemma FramesShape(entries: seq<Entry>, k: nat)
    requires k <= |entries|
    ensures FramesFrom(entries, k) == "" <==> k == |entries|
  {
    hide Decimal;
  }

  /** Two archives with equal streams hold the same paths with the same bytes. */
  lemma StreamDetermines(stream: string, a: map<string, string>, b: map<string, string>)
    requires IsStreamOf(stream, a) && IsStreamOf(stream, b) && AreNulFree(a) && AreNulFree(b)
    ensures a == b
  {
    hide FramesFrom, Less;
    var s :| IsSorted(s) && Lists(s, a) && stream == FramesFrom(s, 0);
    var t :| IsSorted(t) && Lists(t, b) && stream == FramesFrom(t, 0);
    assert forall i :: 0 <= i < |s| ==> s[i] in s;
    assert forall i :: 0 <= i < |t| ==> t[i] in t;
    FramesReadBack(s, t, 0);
    assert s[0..] == s && t[0..] == t;
    ListsDetermine(s, a, b);
  }

  lemma ListsDetermine(entries: seq<Entry>, a: map<string, string>, b: map<string, string>)
    requires Lists(entries, a) && Lists(entries, b)
    ensures a == b
  {
    forall name | name in a ensures name in b && b[name] == a[name] {
      assert Entry(name, a[name]) in entries;
    }
    forall name | name in b ensures name in a {
      assert Entry(name, b[name]) in entries;
    }
  }

  // ----- the files determine the stream --------------------------------------------------------------

  lemma {:induction false} SortedListsAgree(a: seq<Entry>, b: seq<Entry>, k: nat)
    requires IsSorted(a) && IsSorted(b) && (forall e :: e in a <==> e in b)
    requires k <= |a| && k <= |b| && a[..k] == b[..k]
    ensures a == b
    decreases |a| - k
  {
    hide Less;
    if k < |a| {
      var i := NotSmaller(a, b, k);
      var j := NotSmaller(b, a, k);
      SameNext(a, b, k, i, j);
      assert a[..k + 1] == a[..k] + [a[k]] && b[..k + 1] == b[..k] + [b[k]];
      SortedListsAgree(a, b, k + 1);
    } else if k < |b| {
      var i := NotSmaller(b, a, k);
    } else {
      assert a[..k] == a && b[..k] == b;
    }
  }

  /** The next entry of one list comes at that place or later in the other. */
  lemma NotSmaller(a: seq<Entry>, b: seq<Entry>, k: nat) returns (i: nat)
    requires IsSorted(a) && IsSorted(b) && (forall e :: e in a <==> e in b)
    requires k < |a| && k <= |b| && a[..k] == b[..k]
    ensures k <= i < |b| && b[i] == a[k]
  {
    hide LessFrom;
    assert a[k] in a;
    i :| i < |b| && b[i] == a[k];
    if i < k {
      assert a[..k][i] == b[..k][i];
      LessIsIrreflexive(a[k].name, 0);
    }
  }

  lemma SameNext(a: seq<Entry>, b: seq<Entry>, k: nat, i: nat, j: nat)
    requires IsSorted(a) && IsSorted(b) && k <= i < |b| && k <= j < |a| && b[i] == a[k] && a[j] == b[k]
    ensures a[k] == b[k]
  {
    hide LessFrom;
    LessIsIrreflexive(a[k].name, 0);
    if k < i && k < j { LessIsTransitive(a[k].name, b[k].name, a[k].name, 0); }
  }

  /** A file map has one stream. */
  lemma StreamIsUnique(s: string, t: string, files: map<string, string>)
    requires IsStreamOf(s, files) && IsStreamOf(t, files)
    ensures s == t
  {
    hide FramesFrom, Less;
    var a :| IsSorted(a) && Lists(a, files) && s == FramesFrom(a, 0);
    var b :| IsSorted(b) && Lists(b, files) && t == FramesFrom(b, 0);
    assert forall e: Entry :: e in a <==> e in b;
    assert a[..0] == b[..0];
    SortedListsAgree(a, b, 0);
  }

  /** Neither acceptance nor the stream depends on the order of the members. */
  lemma OrderDoesNotMatter(a: seq<Member>, b: seq<Member>)
    requires MembersError(a) == None && multiset(a) == multiset(b)
    ensures MembersError(b) == None && Files(a) == Files(b)
  {
    hide MembersError, Files, Regulars;
    AcceptanceIgnoresOrder(a, b);
    RegularsList(a);
    RegularsList(b);
    assert forall m :: m in a <==> m in multiset(a);
    assert forall m :: m in b <==> m in multiset(b);
    forall e: Entry ensures e in Regulars(a) <==> e in Regulars(b) {
      InRegulars(a, e);
      InRegulars(b, e);
    }
    assert Lists(Regulars(a), Files(b));
    ListsDetermine(Regulars(a), Files(a), Files(b));
  }

  lemma {:induction false} InRegulars(ms: seq<Member>, e: Entry)
    ensures e in Regulars(ms) <==> exists m :: m in ms && m.kind == File && e == Entry(Stripped(m.name), m.data)
    decreases |ms|
  {
    hide Stripped;
    if ms != [] {
      var init, last := ms[..|ms| - 1], ms[|ms| - 1];
      InRegulars(init, e);
      assert forall m :: m in ms <==> m in init || m == last;
    }
  }

  /** Rewriting an accepted archive to the build context leaves its stream as it is. */
  lemma ContextHasTheStream(ms: seq<Member>, stream: string)
    requires MembersError(ms) == None
    ensures IsStreamOf(stream, Files(ms)) <==> IsStreamOf(stream, Files(Normalized(ms)))
  {
    hide MembersError, Normalized, IsStreamOf;
    ContextFiles(ms);
  }
}
