/** The portable image archive of `gate.py`: which layers it holds under which names, and why
    the written file stays below the size that was projected for it. A byte is a character. */
module PortableImage {
  import opened Options
  import opened Text
  import opened Paths

  const CAP := 8 * 1024 * 1024 * 1024
  const MAX_MEMBERS := 4096
  const MAX_LAYERS := 256
  const MAX_MANIFEST := 1048576
  const MAX_CONFIG := 4194304

  datatype Member = Member(name: string, regular: bool, data: string)

  datatype Manifest = Manifest(config: string, layers: seq<string>, tagged: bool)

  /** The saved image, and what the parsers and the digest make of its bytes. */
  datatype Image = Image(
    members: seq<Member>,
    manifest: string -> Option<Manifest>, diffIds: string -> Option<seq<string>>,
    gunzip: string -> Unpacked, hex: string -> string)

  /** What the reads of a layer gave, and whether one of them then failed. */
  datatype Unpacked = Unpacked(data: string, broken: bool)

  datatype Entry = Entry(name: string, data: string)

  datatype Error = Malformed | TooLarge

  datatype Result = Ok(imageId: string, entries: seq<Entry>) | Err(error: Error)

  // ----- what the saved image must be -----------------------------------------------------

  /** A relative path printed as it is read, without parent components. */
  predicate IsSafe(name: string) {
    name != "" && name[0] != '/' && IsCanonical(name) && ".." !in Parts(name)
  }

  predicate IsDigest(text: string) {
    |text| == 71 && text[..7] == "sha256:" && Within(text[7..], IsHex)
  }

  /** The member of that name, if there is one and it is a regular file. */
  function Regular(members: seq<Member>, name: string): Option<string> {
    if members == [] then None
    else if members[0].name == name then (if members[0].regular then Some(members[0].data) else None)
    else Regular(members[1..], name)
  }

  predicate HasCleanMembers(members: seq<Member>) {
    && |members| <= MAX_MEMBERS
    && (forall i :: 0 <= i < |members| ==> IsSafe(members[i].name))
    && (forall i, j :: 0 <= i < j < |members| ==> members[i].name != members[j].name)
  }

  predicate HasManifest(x: Image) {
    var file := Regular(x.members, "manifest.json");
    file.Some? && 0 < |file.value| <= MAX_MANIFEST && x.manifest(file.value).Some?
  }

  function ManifestOf(x: Image): Manifest
    requires HasManifest(x)
  {
    x.manifest(Regular(x.members, "manifest.json").value).value
  }

  predicate HasConfig(x: Image)
    requires HasManifest(x)
  {
    var m := ManifestOf(x);
    && |m.layers| <= MAX_LAYERS && !m.tagged && IsSafe(m.config)
    && var file := Regular(x.members, m.config);
       file.Some? && 0 < |file.value| <= MAX_CONFIG
       && x.diffIds(file.value).Some? && |x.diffIds(file.value).value| == |m.layers|
       && forall k :: 0 <= k < |m.layers| ==> IsDigest(x.diffIds(file.value).value[k])
  }

  function ConfigOf(x: Image): string
    requires HasManifest(x) && HasConfig(x)
  {
    Regular(x.members, ManifestOf(x).config).value
  }

  function DiffIds(x: Image): (ids: seq<string>)
    requires HasManifest(x) && HasConfig(x)
    ensures |ids| == |ManifestOf(x).layers|
  {
    x.diffIds(ConfigOf(x)).value
  }

  const GZIP := [31 as char, 139 as char]

  /** The bytes of a layer, unpacked if they are compressed. */
  function Expanded(x: Image, name: string): Option<Unpacked> {
    if !IsSafe(name) then None
    else match Regular(x.members, name)
      case None => None
      case Some(data) => Some(if GZIP <= data then x.gunzip(data) else Unpacked(data, false))
  }

  function Digest(x: Image, data: string): string {
    "sha256:" + x.hex(data)
  }

  /** The `k`th layer can be read, and its bytes are what the config says they are. */
  predicate HasLayer(x: Image, k: nat)
    requires HasManifest(x) && HasConfig(x) && k < |ManifestOf(x).layers|
  {
    var layer := Expanded(x, ManifestOf(x).layers[k]);
    layer.Some? && !layer.value.broken && Digest(x, layer.value.data) == DiffIds(x)[k]
  }

  function LayerData(x: Image, k: nat): string
    requires HasManifest(x) && HasConfig(x) && k < |ManifestOf(x).layers|
  {
    var layer := Expanded(x, ManifestOf(x).layers[k]);
    if layer.Some? then layer.value.data else ""
  }

  predicate IsWellFormed(x: Image) {
    HasCleanMembers(x.members) && HasManifest(x) && HasConfig(x)
    && forall k :: 0 <= k < |ManifestOf(x).layers| ==> HasLayer(x, k)
  }

  // ----- the portable archive --------------------------------------------------------------

  /** The ChainID of the first `k` layers: section "Layer ChainID" of the OCI Image
      Specification's `config.md`. */
  function ChainId(hex: string -> string, ids: seq<string>, k: nat): string
    requires 0 < k <= |ids|
  {
    if k == 1 then ids[0] else "sha256:" + hex(ChainId(hex, ids, k - 1) + " " + ids[k - 1])
  }

  function WithoutPrefix(text: string): string {
    if "sha256:" <= text then text[7..] else text
  }

  function LayerName(x: Image, k: nat): string
    requires HasManifest(x) && HasConfig(x) && k < |ManifestOf(x).layers|
  {
    WithoutPrefix(ChainId(x.hex, DiffIds(x), k + 1)) + "/layer.tar"
  }

  function LayerEntries(x: Image, n: nat): (entries: seq<Entry>)
    requires HasManifest(x) && HasConfig(x) && n <= |ManifestOf(x).layers|
    ensures |entries| == n
  {
    seq(n, k requires 0 <= k < n => Entry(LayerName(x, k), LayerData(x, k)))
  }

  function ManifestText(configHex: string, layers: seq<Entry>): string {
    var names := seq(|layers|, k requires 0 <= k < |layers| => "\"" + layers[k].name + "\"");
    "[{\"Config\":\"" + configHex + ".json\",\"RepoTags\":null,\"Layers\":["
    + (if names == [] then "" else Joined(names, ',')) + "]}]"
  }

  function Quoted(layers: seq<Entry>): seq<string> {
    seq(|layers|, k requires 0 <= k < |layers| => "\"" + layers[k].name + "\"")
  }

  /** Where the `k`th of the names starts when they are joined from the first one on. */
  function NameAt(names: seq<string>, first: nat, k: nat): nat
    requires first <= k < |names|
    decreases k - first
  {
    if k == first then 0 else |names[first]| + 1 + NameAt(names, first + 1, k)
  }

  lemma {:induction false} NameInJoin(names: seq<string>, first: nat, k: nat)
    requires first <= k < |names|
    ensures var text, at := JoinedFrom(names, first, ','), NameAt(names, first, k);
      && at + |names[k]| <= |text| && text[at..at + |names[k]|] == names[k]
      && (if k + 1 < |names| then at + |names[k]| < |text| && text[at + |names[k]|] == ',' else at + |names[k]| == |text|)
    decreases k - first
  {
    if first < k {
      NameInJoin(names, first + 1, k);
      var text, rest := JoinedFrom(names, first, ','), JoinedFrom(names, first + 1, ',');
      var skip, at := |names[first]| + 1, NameAt(names, first + 1, k);
      assert text == names[first] + "," + rest && text[skip..] == rest;
      assert text[skip + at..skip + at + |names[k]|] == rest[at..at + |names[k]|];
    }
  }

  /** The manifest names the config, and then the layers in order: every quoted name stands
      right behind the comma after the one before, and the last is followed by the end. */
  lemma ManifestLists(configHex: string, layers: seq<Entry>, k: nat)
    requires k < |layers|
    ensures var text := ManifestText(configHex, layers);
      var head := "[{\"Config\":\"" + configHex + ".json\",\"RepoTags\":null,\"Layers\":[";
      var name := "\"" + layers[k].name + "\"";
      var at := |head| + NameAt(Quoted(layers), 0, k);
      && head <= text && at + |name| < |text| && text[at..at + |name|] == name
      && (if k + 1 < |layers| then text[at + |name|] == ',' else text[at + |name|..] == "]}]")
  {
    hide JoinedFrom, NameAt;
    var head := "[{\"Config\":\"" + configHex + ".json\",\"RepoTags\":null,\"Layers\":[";
    var names := Quoted(layers);
    var joined := JoinedFrom(names, 0, ',');
    var at := NameAt(names, 0, k);
    NameInJoin(names, 0, k);
    var text := ManifestText(configHex, layers);
    assert text == head + joined + "]}]";
    assert text[|head|..|head| + |joined|] == joined;
    assert text[|head| + at..|head| + at + |names[k]|] == joined[at..at + |names[k]|];
    assert text[|head| + |joined|..] == "]}]";
  }

  function Portable(x: Image): seq<Entry>
    requires HasManifest(x) && HasConfig(x)
  {
    var layers := LayerEntries(x, |ManifestOf(x).layers|);
    var config := ConfigOf(x);
    [Entry("manifest.json", ManifestText(x.hex(config), layers)), Entry(x.hex(config) + ".json", config)] + layers
  }

  // ----- sizes --------------------------------------------------------------------------------

  function Blocks(size: nat): nat {
    (size + 511) / 512 * 512
  }

  /** The headers and padded members of the first `n` entries. */
  function Body(entries: seq<Entry>, n: nat): nat
    requires n <= |entries|
  {
    if n == 0 then 0 else Body(entries, n - 1) + 512 + Blocks(|entries[n - 1].data|)
  }

  /** What the writer puts in the file: after the members two zero blocks, then zeros up to
      a multiple of the record size. */
  function Written(entries: seq<Entry>): nat {
    (Body(entries, |entries|) + 1024 + 10239) / 10240 * 10240
  }

  /** The size the source projects before it writes. */
  function Projected(entries: seq<Entry>): nat {
    10240 + Body(entries, |entries|) + 1024
  }

  lemma {:induction false} BodyOfAppend(a: seq<Entry>, b: seq<Entry>, n: nat)
    requires n <= |b|
    ensures Body(a + b, |a| + n) == Body(a, |a|) + Body(b, n)
    decreases n
  {
    if n == 0 {
      BodyOfPrefix(a, b, |a|);
    } else {
      BodyOfAppend(a, b, n - 1);
      assert (a + b)[|a| + n - 1] == b[n - 1];
    }
  }

  lemma {:induction false} BodyOfPrefix(a: seq<Entry>, b: seq<Entry>, n: nat)
    requires n <= |a|
    ensures Body(a + b, n) == Body(a, n)
    decreases n
  {
    if n > 0 { BodyOfPrefix(a, b, n - 1); }
  }

  lemma {:induction false} MemberFits(entries: seq<Entry>, n: nat, k: nat)
    requires k < n <= |entries|
    ensures 512 + |entries[k].data| <= Body(entries, n)
    decreases n
  {
    if k < n - 1 { MemberFits(entries, n - 1, k); }
  }

  /** The written file is smaller than projected, so the check after writing cannot fail; no
      member is large enough to need an extended header (eleven octal digits). */
  lemma ProjectionBounds(entries: seq<Entry>)
    ensures Written(entries) < Projected(entries)
    ensures Projected(entries) <= CAP ==> Written(entries) <= CAP
    ensures Projected(entries) <= CAP ==> forall k :: 0 <= k < |entries| ==> |entries[k].data| < 0x2_0000_0000
  {
    forall k | 0 <= k < |entries| ensures 512 + |entries[k].data| <= Body(entries, |entries|) {
      MemberFits(entries, |entries|, k);
    }
  }

  /** The file holds the `k`th header and, right after it, the `k`th member's bytes and zeros
      up to a block. */
  ghost predicate Holds(file: string, entries: seq<Entry>, header: Entry -> string, k: nat)
    requires k < |entries|
  {
    var at, size := Body(entries, k), |entries[k].data|;
    && at + 512 + Blocks(size) <= |file| && file[at..at + 512] == header(entries[k])
    && file[at + 512..at + 512 + size] == entries[k].data
    && file[at + 512 + size..at + 512 + Blocks(size)] == Zeros(Blocks(size) - size)
  }

  lemma HoldsMore(file: string, more: string, entries: seq<Entry>, header: Entry -> string, k: nat)
    requires k < |entries| && Holds(file, entries, header, k)
    ensures Holds(file + more, entries, header, k)
  {
    var at, size := Body(entries, k), |entries[k].data|;
    assert (file + more)[at..at + 512] == file[at..at + 512];
    assert (file + more)[at + 512..at + 512 + size] == file[at + 512..at + 512 + size];
    assert (file + more)[at + 512 + size..at + 512 + Blocks(size)] == file[at + 512 + size..at + 512 + Blocks(size)];
  }

  function Zeros(n: nat): string {
    seq(n, _ => 0 as char)
  }

  /** One header, the bytes, and zeros up to a block. */
  function Block(entry: Entry, header: Entry -> string): string {
    header(entry) + entry.data + Zeros(Blocks(|entry.data|) - |entry.data|)
  }

  lemma BlockHolds(file: string, entries: seq<Entry>, header: Entry -> string, k: nat)
    requires k < |entries| && |header(entries[k])| == 512 && |file| == Body(entries, k)
    ensures Holds(file + Block(entries[k], header), entries, header, k)
    ensures |file + Block(entries[k], header)| == Body(entries, k + 1)
  {
    var more := file + Block(entries[k], header);
    var at, size := |file|, |entries[k].data|;
    assert more[at..at + 512] == header(entries[k]);
    assert more[at + 512..at + 512 + size] == entries[k].data;
    assert more[at + 512 + size..at + 512 + Blocks(size)] == Zeros(Blocks(size) - size);
  }

  method WriteTar(entries: seq<Entry>, header: Entry -> string) returns (file: string)
    requires forall entry :: |header(entry)| == 512
    ensures |file| == Written(entries)
    ensures forall k :: 0 <= k < |entries| ==> Holds(file, entries, header, k)
    ensures Body(entries, |entries|) + 1024 <= |file| && file[Body(entries, |entries|)..] == Zeros(|file| - Body(entries, |entries|))
  {
    hide Holds, Block;
    file := [];
    for n := 0 to |entries|
      invariant |file| == Body(entries, n)
      invariant forall k :: 0 <= k < n ==> Holds(file, entries, header, k)
    {
      forall k | 0 <= k < n ensures Holds(file + Block(entries[n], header), entries, header, k) {
        HoldsMore(file, Block(entries[n], header), entries, header, k);
      }
      BlockHolds(file, entries, header, n);
      file := file + Block(entries[n], header);
    }
    var body := |file|;
    var tail := Zeros(1024);
    if (body + 1024) % 10240 > 0 {
      tail := tail + Zeros(10240 - (body + 1024) % 10240);
    }
    forall k | 0 <= k < |entries| ensures Holds(file + tail, entries, header, k) {
      HoldsMore(file, tail, entries, header, k);
    }
    assert tail == Zeros(|tail|);
    file := file + tail;
    assert file[body..] == tail;
  }

  // ----- the conversion --------------------------------------------------------------------------

  method CheckMembers(members: seq<Member>) returns (clean: bool)
    ensures clean == HasCleanMembers(members)
  {
    if |members| > MAX_MEMBERS { return false; }
    var names: set<string> := {};
    for i := 0 to |members|
      invariant forall j :: 0 <= j < i ==> IsSafe(members[j].name)
      invariant forall a, b :: 0 <= a < b < i ==> members[a].name != members[b].name
      invariant forall name :: name in names <==> exists j :: 0 <= j < i && members[j].name == name
    {
      if !IsSafe(members[i].name) || members[i].name in names { return false; }
      names := names + {members[i].name};
    }
    return true;
  }

  lemma NoLayers(x: Image)
    requires HasManifest(x) && HasConfig(x)
    ensures LayerEntries(x, 0) == []
  {
  }

  lemma NextLayer(x: Image, k: nat)
    requires HasManifest(x) && HasConfig(x) && k < |ManifestOf(x).layers|
    ensures LayerEntries(x, k + 1) == LayerEntries(x, k) + [Entry(LayerName(x, k), LayerData(x, k))]
    ensures ChainId(x.hex, DiffIds(x), k + 1)
      == if k == 0 then DiffIds(x)[0] else "sha256:" + x.hex(ChainId(x.hex, DiffIds(x), k) + " " + DiffIds(x)[k])
  {
    hide HasManifest, HasConfig, LayerData, WithoutPrefix;
  }

  method ConvertLayers(x: Image) returns (entries: seq<Entry>, size: nat, error: Option<Error>)
    requires HasManifest(x) && HasConfig(x)
    ensures error.None? ==>
      && entries == LayerEntries(x, |ManifestOf(x).layers|) && size == 10240 + Body(entries, |entries|)
      && forall k :: 0 <= k < |entries| ==> HasLayer(x, k) && |LayerData(x, k)| <= CAP
    ensures error == Some(Malformed) ==> exists k :: 0 <= k < |ManifestOf(x).layers| && !HasLayer(x, k)
    ensures error == Some(TooLarge) ==> exists k :: 0 <= k < |ManifestOf(x).layers| && |LayerData(x, k)| > CAP
  {
    hide HasManifest, HasConfig, Expanded, Digest, LayerEntries, ChainId, Blocks;
    NoLayers(x);
    var names, ids := ManifestOf(x).layers, DiffIds(x);
    var chain: Option<string> := None;
    entries, size := [], 10240;
    for k := 0 to |names|
      invariant entries == LayerEntries(x, k) && size == 10240 + Body(entries, k)
      invariant chain == if k == 0 then None else Some(ChainId(x.hex, ids, k))
      invariant forall j :: 0 <= j < k ==> HasLayer(x, j) && |LayerData(x, j)| <= CAP
    {
      var layer := Expanded(x, names[k]);
      if layer.None? {
        assert !HasLayer(x, k);
        return entries, size, Some(Malformed);
      }
      var data := layer.value.data;
      if |data| > CAP {
        assert |LayerData(x, k)| > CAP;
        return entries, size, Some(TooLarge);
      }
      if layer.value.broken || Digest(x, data) != ids[k] {
        assert !HasLayer(x, k);
        return entries, size, Some(Malformed);
      }
      chain := Some(if chain.None? then ids[k] else "sha256:" + x.hex(chain.value + " " + ids[k]));
      NextLayer(x, k);
      BodyOfAppend(entries, [Entry(LayerName(x, k), data)], 1);
      entries := entries + [Entry(WithoutPrefix(chain.value) + "/layer.tar", data)];
      size := size + 512 + Blocks(|data|);
    }
    return entries, size, None;
  }

  /** The archive that is written, unless the image is malformed or too large. */
  method Convert(x: Image) returns (result: Result)
    ensures result.Ok? ==>
      && IsWellFormed(x) && result.imageId == Digest(x, ConfigOf(x)) && result.entries == Portable(x)
      && Projected(result.entries) <= CAP
    ensures result == Err(Malformed) ==> !IsWellFormed(x)
    ensures result == Err(TooLarge) ==> HasManifest(x) && HasConfig(x) && Projected(Portable(x)) > CAP
  {
    hide IsSafe, IsDigest, Regular, ManifestText, ChainId;
    var clean := CheckMembers(x.members);
    if !clean || !HasManifest(x) || !HasConfig(x) { return Err(Malformed); }
    var layers, size, error := ConvertLayers(x);
    if error.Some? {
      if error.value == TooLarge {
        var k :| 0 <= k < |ManifestOf(x).layers| && |LayerData(x, k)| > CAP;
        LargeLayer(x, k);
      }
      return Err(error.value);
    }
    var config := ConfigOf(x);
    var head := [Entry("manifest.json", ManifestText(x.hex(config), layers)), Entry(x.hex(config) + ".json", config)];
    size := size + 1024;
    size := size + 512 + Blocks(|config|);
    size := size + 512 + Blocks(|head[0].data|);
    BodyOfHead(head);
    BodyOfAppend(head, layers, |layers|);
    assert Portable(x) == head + layers;
    if size > CAP { return Err(TooLarge); }
    return Ok("sha256:" + x.hex(config), head + layers);
  }

  lemma BodyOfHead(head: seq<Entry>)
    requires |head| == 2
    ensures Body(head, 2) == 512 + Blocks(|head[0].data|) + (512 + Blocks(|head[1].data|))
  {
    assert Body(head, 1) == 512 + Blocks(|head[0].data|);
  }

  lemma PortableLayer(x: Image, k: nat)
    requires HasManifest(x) && HasConfig(x) && k < |ManifestOf(x).layers|
    ensures |Portable(x)| == |ManifestOf(x).layers| + 2 && Portable(x)[k + 2] == Entry(LayerName(x, k), LayerData(x, k))
  {
    hide HasManifest, HasConfig, LayerData, LayerName, ManifestText;
    assert Portable(x)[k + 2] == LayerEntries(x, |ManifestOf(x).layers|)[k];
  }

  /** One layer beyond the cap is too much for the whole archive. */
  lemma LargeLayer(x: Image, k: nat)
    requires HasManifest(x) && HasConfig(x) && k < |ManifestOf(x).layers| && |LayerData(x, k)| > CAP
    ensures Projected(Portable(x)) > CAP
  {
    hide HasManifest, HasConfig, Portable, LayerData, LayerName;
    PortableLayer(x, k);
    MemberFits(Portable(x), |Portable(x)|, k + 2);
  }

  /** What is in a converted archive: the config and every layer's bytes unchanged and in
      order, each layer named by the ChainID up to it, and every layer's digest as declared. */
  lemma ConvertedLayers(x: Image, k: nat)
    requires IsWellFormed(x) && k < |ManifestOf(x).layers|
    ensures |Portable(x)| == |ManifestOf(x).layers| + 2
    ensures var entry := Portable(x)[k + 2];
      && Expanded(x, ManifestOf(x).layers[k]) == Some(Unpacked(entry.data, false))
      && Digest(x, entry.data) == DiffIds(x)[k]
      && entry.name[|entry.name| - 10..] == "/layer.tar"
      && "sha256:" + entry.name[..|entry.name| - 10] == ChainId(x.hex, DiffIds(x), k + 1)
  {
    assert forall i :: 0 <= i < |DiffIds(x)| ==> IsDigest(DiffIds(x)[i]);
    hide HasManifest, HasConfig, Expanded, Digest, Portable, ChainId;
    PortableLayer(x, k);
    assert HasLayer(x, k);
    ChainIsDigest(x.hex, DiffIds(x), k + 1);
    NameOfChain(ChainId(x.hex, DiffIds(x), k + 1));
  }

  lemma NameOfChain(chain: string)
    requires "sha256:" <= chain
    ensures var name := WithoutPrefix(chain) + "/layer.tar";
      name[|name| - 10..] == "/layer.tar" && "sha256:" + name[..|name| - 10] == chain
  {
    assert (WithoutPrefix(chain) + "/layer.tar")[..|chain| - 7] == chain[7..];
    assert chain == chain[..7] + chain[7..];
  }

  lemma ChainIsDigest(hex: string -> string, ids: seq<string>, k: nat)
    requires 0 < k <= |ids| && forall i :: 0 <= i < |ids| ==> IsDigest(ids[i])
    ensures "sha256:" <= ChainId(hex, ids, k)
  {
    if k == 1 {
      assert IsDigest(ids[0]);
      assert ids[0] == ids[0][..7] + ids[0][7..];
    }
  }
}
