/** Where blob ids lead on disk and what deletions do there
    (server/internal/blob/store.go: hexOf, pathFor, Has, Delete). */
module Disks {
  import opened Model

  type Path = seq<string>

  /** The path an id leads to; None if the lookup itself crashes. */
  type Locate = BlobId -> Option<Path>

  type Files = map<BlobId, seq<Byte>>

  /** Every stored blob hashes to its id. */
  ghost predicate ContentAddressed(files: Files) {
    forall id :: id in files ==> id == Sha256(files[id])
  }

  // ---- paths ----

  const PREFIX: ByteText := "sha256:"

  /** The id without its prefix, if it has one. */
  function HexOf(text: string): string {
    if |PREFIX| <= |text| && text[..|PREFIX|] == PREFIX then text[|PREFIX|..] else text
  }

  function Split(text: string): (names: Path)
    ensures |names| > 0
  {
    if text == "" then [""] else
      var rest := Split(text[1..]);
      if text[0] == '/' then [""] + rest else [[text[0]] + rest[0]] + rest[1..]
  }

  /** Lexical path cleaning: follow the names one by one from `from`. */
  function Walk(from: Path, names: Path): Path
    decreases |names|
  {
    if names == [] then from
    else if names[0] == "" || names[0] == "." then Walk(from, names[1..])
    else if names[0] == ".." then Walk(if from == [] then [] else from[..|from| - 1], names[1..])
    else Walk(from + [names[0]], names[1..])
  }

  /** The first two bytes name a directory, the whole text a file in it. */
  function PathFor(root: Path, hex: string): Path
    requires |hex| >= 2
  {
    Walk(Walk(root, Split(hex[..2])), Split(hex))
  }

  /** The blob directory, and the digest of a content in hexadecimal. */
  datatype Layout = Layout(root: Path, digest: seq<Byte> -> ByteText)

  function TextOf(l: Layout, id: BlobId): string {
    match id
    case Sha256(content) => PREFIX + l.digest(content)
    case Malformed(text) => text
  }

  /** Any id is cut up; whether there are two bytes to cut off is not checked. */
  function PathOf(l: Layout, id: BlobId): Option<Path> {
    var hex := HexOf(TextOf(l, id));
    if |hex| < 2 then None else Some(PathFor(l.root, hex))
  }

  function At(l: Layout): Locate {
    id => PathOf(l, id)
  }

  predicate HexDigit(c: char) {
    '0' <= c <= '9' || 'a' <= c <= 'f'
  }

  predicate Hex(text: string) {
    |text| >= 2 && forall i :: 0 <= i < |text| ==> HexDigit(text[i])
  }

  /** Digests are hexadecimal, and different for different contents. */
  ghost predicate Digests(l: Layout) {
    && (forall c :: Hex(l.digest(c)))
    && (forall c, d :: l.digest(c) == l.digest(d) ==> c == d)
  }

  function HexChar(n: int): char
    requires 0 <= n < 16
  {
    if n < 10 then '0' + n as char else 'a' + (n - 10) as char
  }

  /** Contents written out in hexadecimal: such digests exist. */
  function Encode(content: seq<Byte>): (text: ByteText)
    ensures Hex(text)
  {
    if content == [] then "00" else [HexChar(content[0] / 16), HexChar(content[0] % 16)] + Encode(content[1..])
  }

  lemma {:induction false} EncodeInjective(c: seq<Byte>, d: seq<Byte>)
    requires Encode(c) == Encode(d)
    ensures c == d
  {
    EncodeLength(c);
    EncodeLength(d);
    if c != [] {
      EncodeFirst(c);
      EncodeFirst(d);
      EncodeInjective(c[1..], d[1..]);
      SameByte(c[0], d[0]);
      assert c == [c[0]] + c[1..] && d == [d[0]] + d[1..];
    }
  }

  lemma SameByte(a: Byte, b: Byte)
    requires HexChar(a / 16) == HexChar(b / 16) && HexChar(a % 16) == HexChar(b % 16)
    ensures a == b
  {
  }

  lemma EncodeFirst(c: seq<Byte>)
    requires c != []
    ensures |Encode(c)| > 2 && Encode(c)[0] == HexChar(c[0] / 16) && Encode(c)[1] == HexChar(c[0] % 16)
    ensures Encode(c)[2..] == Encode(c[1..])
  {
  }

  lemma {:induction false} EncodeLength(c: seq<Byte>)
    ensures |Encode(c)| == 2 + 2 * |c|
  {
    if c != [] {
      EncodeLength(c[1..]);
    }
  }

  lemma DigestsExist(root: Path) returns (l: Layout)
    ensures l.root == root && Digests(l)
  {
    l := Layout(root, Encode);
    forall c, d | l.digest(c) == l.digest(d) ensures c == d {
      EncodeInjective(c, d);
    }
  }

  predicate Plain(name: string) {
    '/' !in name && name != "" && name != "." && name != ".."
  }

  lemma {:induction false} SplitPlain(name: string)
    requires '/' !in name
    ensures Split(name) == [name]
  {
    if name != "" {
      SplitPlain(name[1..]);
      assert [name[0]] + name[1..] == name;
    }
  }

  lemma HexPlain(text: string)
    requires Hex(text)
    ensures Plain(text) && Plain(text[..2]) && HexOf(text) == text
  {
    assert HexDigit(text[0]) && HexDigit(text[1]);
    assert |PREFIX| <= |text| ==> text[..|PREFIX|][0] == text[0] != 's';
  }

  lemma WalkPlain(from: Path, name: string)
    requires Plain(name)
    ensures Walk(from, [name]) == from + [name]
  {
    assert [name][1..] == [];
  }

  /** A hexadecimal text leads to its own file in the directory of its first two digits. */
  lemma HexPath(root: Path, hex: string)
    requires Hex(hex)
    ensures PathFor(root, hex) == root + [hex[..2], hex]
  {
    HexPlain(hex);
    SplitPlain(hex);
    SplitPlain(hex[..2]);
    WalkPlain(root, hex[..2]);
    WalkPlain(root + [hex[..2]], hex);
  }

  lemma OwnPath(l: Layout, content: seq<Byte>)
    requires Digests(l)
    ensures PathOf(l, Sha256(content)) == Some(l.root + [l.digest(content)[..2], l.digest(content)])
  {
    var d := l.digest(content);
    assert Hex(d);
    assert (PREFIX + d)[..|PREFIX|] == PREFIX && (PREFIX + d)[|PREFIX|..] == d;
    HexPath(l.root, d);
  }

  /** A digest without its prefix is no well-formed id, and leads to the blob's own file. */
  lemma BareDigestLeadsToBlob(l: Layout, content: seq<Byte>)
    requires Digests(l)
    ensures PathOf(l, Malformed(l.digest(content))) == PathOf(l, Sha256(content)) && PathOf(l, Sha256(content)).Some?
  {
    var d := l.digest(content);
    assert Hex(d);
    OwnPath(l, content);
    HexPlain(d);
    HexPath(l.root, d);
  }

  lemma SplitStep(text: string)
    requires text != "" && text[0] != '/'
    ensures Split(text)[0] == [text[0]] + Split(text[1..])[0] && Split(text)[1..] == Split(text[1..])[1..]
  {
  }

  lemma StepBack(from: Path, name: string)
    requires Plain(name)
    ensures Walk(from, [name, ".."]) == from
  {
    assert [name, ".."][1..] == [".."] && [".."][1..] == [];
    assert (from + [name])[..|from|] == from;
  }

  /** Two hex digits, anything plain, and a step back lead to the directory of the blobs
      whose digests begin with the two. */
  lemma StepBackLeadsToDirectory(root: Path, two: string)
    requires Hex(two) && |two| == 2
    ensures PathFor(root, two + "z/..") == root + [two]
  {
    var text := two + "z/..";
    HexPlain(two);
    SplitPlain(two);
    assert text[..2] == two;
    WalkPlain(root, two);
    assert text == two[..1] + (two[1..] + "z/..") && text[1..] == two[1..] + "z/..";
    assert text[1..][1..] == "z/..";
    SplitPlain("..");
    assert "/.."[1..] == ".." && "z/.."[1..] == "/..";
    assert Split("/..") == ["", ".."];
    SplitStep("z/..");
    SplitStep(text[1..]);
    SplitStep(text);
    var name := [two[0]] + ([two[1]] + ("z" + ""));
    assert Split(text) == [name, ".."];
    StepBack(root + [two], name);
  }

  /** Well-formed ids lead to different paths, all at the same depth. */
  ghost predicate Laid(at: Locate) {
    && (forall b: BlobId :: b.Sha256? ==> at(b).Some?)
    && (forall b: BlobId, c: BlobId :: b.Sha256? && c.Sha256? ==>
         |at(b).value| == |at(c).value| && (at(b) == at(c) ==> b == c))
  }

  lemma LayoutIsLaid(l: Layout)
    requires Digests(l)
    ensures Laid(At(l))
  {
    forall b: BlobId | b.Sha256?
      ensures At(l)(b) == Some(l.root + [l.digest(b.content)[..2], l.digest(b.content)])
    {
      OwnPath(l, b.content);
    }
    forall b: BlobId, c: BlobId | b.Sha256? && c.Sha256?
      ensures |At(l)(b).value| == |At(l)(c).value| && (At(l)(b) == At(l)(c) ==> b == c)
    {
      var p, q := At(l)(b).value, At(l)(c).value;
      assert p[|p| - 1] == l.digest(b.content) && q[|q| - 1] == l.digest(c.content);
    }
  }

  // ---- what is on disk ----

  /** What is on disk besides blobs. */
  datatype Thing = File(size: nat) | Dir(size: nat)

  datatype Disk = Disk(blobs: Files, others: map<Path, Thing>)

  /** Nothing else is where a blob's file would be. */
  ghost predicate Separate(at: Locate, others: map<Path, Thing>) {
    forall b: BlobId :: b.Sha256? && at(b).Some? ==> at(b).value !in others
  }

  predicate Under(p: Path, q: Path) {
    |p| < |q| && q[..|p|] == p
  }

  predicate Exists(at: Locate, disk: Disk, p: Path) {
    p in disk.others || exists b :: b in disk.blobs && at(b) == Some(p)
  }

  ghost function SizeAt(at: Locate, disk: Disk, p: Path): nat
    requires Exists(at, disk, p)
  {
    if p in disk.others then disk.others[p].size else
      var b :| b in disk.blobs && at(b) == Some(p);
      |disk.blobs[b]|
  }

  /** A blob or something else lies below the directory. */
  predicate Occupied(at: Locate, disk: Disk, p: Path) {
    || (exists q :: q in disk.others && Under(p, q))
    || (exists b :: b in disk.blobs && at(b).Some? && Under(p, at(b).value))
  }

  /** The disk after os.Remove, whose failure is ignored: a directory goes only if empty. */
  function RemovedAt(at: Locate, disk: Disk, p: Path): Disk {
    Disk(map b | b in disk.blobs && at(b) != Some(p) :: disk.blobs[b],
         if p in disk.others && (disk.others[p].File? || !Occupied(at, disk, p)) then disk.others - {p}
         else disk.others)
  }

  function Removed(at: Locate, disk: Disk, id: BlobId): Disk {
    match at(id)
    case None => disk
    case Some(p) => RemovedAt(at, disk, p)
  }

  lemma NothingToRemove(at: Locate, disk: Disk, id: BlobId)
    requires at(id).Some? && !Exists(at, disk, at(id).value)
    ensures Removed(at, disk, id) == disk
  {
    assert Removed(at, disk, id).blobs == disk.blobs;
  }

  /** The disk after deleting for one id after the other. */
  function AfterDeletes(at: Locate, disk: Disk, ids: seq<BlobId>): Disk {
    if ids == [] then disk else Removed(at, AfterDeletes(at, disk, ids[..|ids| - 1]), ids[|ids| - 1])
  }

  lemma DeleteOneMore(at: Locate, disk: Disk, ids: seq<BlobId>, id: BlobId)
    ensures AfterDeletes(at, disk, ids + [id]) == Removed(at, AfterDeletes(at, disk, ids), id)
  {
    assert (ids + [id])[..|ids|] == ids;
  }

  /** Some id of the list leads to the path. */
  ghost predicate Reached(at: Locate, ids: seq<BlobId>, p: Path) {
    exists k :: 0 <= k < |ids| && at(ids[k]) == Some(p)
  }

  lemma ReachedSnoc(at: Locate, ids: seq<BlobId>, p: Path)
    requires ids != []
    ensures Reached(at, ids, p) <==> Reached(at, ids[..|ids| - 1], p) || at(ids[|ids| - 1]) == Some(p)
  {
    var before := ids[..|ids| - 1];
    if Reached(at, before, p) {
      var k :| 0 <= k < |before| && at(before[k]) == Some(p);
      assert at(ids[k]) == Some(p);
    }
    if Reached(at, ids, p) && at(ids[|ids| - 1]) != Some(p) {
      var k :| 0 <= k < |ids| && at(ids[k]) == Some(p);
      assert at(before[k]) == Some(p);
    }
  }

  /** A blob goes exactly if some id of the list leads to its file. */
  lemma {:induction false} BlobsAfterDeletes(at: Locate, disk: Disk, ids: seq<BlobId>, b: BlobId)
    requires at(b).Some?
    ensures b in AfterDeletes(at, disk, ids).blobs <==> b in disk.blobs && !Reached(at, ids, at(b).value)
    ensures b in AfterDeletes(at, disk, ids).blobs ==> AfterDeletes(at, disk, ids).blobs[b] == disk.blobs[b]
  {
    if ids != [] {
      BlobsAfterDeletes(at, disk, ids[..|ids| - 1], b);
      ReachedSnoc(at, ids, at(b).value);
    }
  }

  lemma {:induction false} DiskShrinks(at: Locate, disk: Disk, ids: seq<BlobId>)
    ensures AfterDeletes(at, disk, ids).blobs.Keys <= disk.blobs.Keys
    ensures forall b :: b in AfterDeletes(at, disk, ids).blobs ==>
      AfterDeletes(at, disk, ids).blobs[b] == disk.blobs[b]
    ensures AfterDeletes(at, disk, ids).others.Keys <= disk.others.Keys
    ensures forall p :: p in AfterDeletes(at, disk, ids).others ==>
      AfterDeletes(at, disk, ids).others[p] == disk.others[p]
  {
    if ids != [] {
      DiskShrinks(at, disk, ids[..|ids| - 1]);
    }
  }

  lemma {:induction false} ShrinksFrom(at: Locate, disk: Disk, ids: seq<BlobId>, k: nat)
    requires k <= |ids|
    ensures AfterDeletes(at, disk, ids).others.Keys <= AfterDeletes(at, disk, ids[..k]).others.Keys
    decreases |ids|
  {
    if k < |ids| {
      ShrinksFrom(at, disk, ids[..|ids| - 1], k);
      assert ids[..|ids| - 1][..k] == ids[..k];
    } else {
      assert ids[..k] == ids;
    }
  }

  // ---- which deletions are harmless ----

  ghost predicate PinsKept(pins: set<BlobId>, disk: Disk, disk': Disk) {
    forall b :: b in pins && b in disk.blobs ==> b in disk'.blobs && disk'.blobs[b] == disk.blobs[b]
  }

  /** Below the directory there is something that is no blob, or a blob to which none of
      the ids leads: removing it fails, and goes on failing. */
  ghost predicate HeldUp(at: Locate, disk: Disk, ids: seq<BlobId>, p: Path) {
    || (exists q :: q in disk.others && Under(p, q))
    || (exists b :: b in disk.blobs && at(b).Some? && Under(p, at(b).value) && !Reached(at, ids, at(b).value))
  }

  /** The `k`th deletion hits neither the file of a pinned blob, nor anything that is no
      blob but a directory held up by something the earlier deletions leave. */
  ghost predicate HarmlessAt(at: Locate, disk: Disk, pins: set<BlobId>, ids: seq<BlobId>, k: nat)
    requires k < |ids|
  {
    at(ids[k]).Some? ==>
      var p := at(ids[k]).value;
      && (forall b :: b in pins && b in disk.blobs ==> at(b) != Some(p))
      && (p in disk.others ==> disk.others[p].Dir? && HeldUp(at, disk, ids[..k], p))
  }

  ghost predicate AllHarmlessIn(at: Locate, disk: Disk, pins: set<BlobId>, ids: seq<BlobId>) {
    forall k :: 0 <= k < |ids| ==> HarmlessAt(at, disk, pins, ids, k)
  }

  ghost predicate Located(at: Locate, blobs: Files) {
    forall b :: b in blobs ==> at(b).Some?
  }

  lemma HarmlessPrefix(at: Locate, disk: Disk, pins: set<BlobId>, ids: seq<BlobId>, n: nat)
    requires n <= |ids|
    requires AllHarmlessIn(at, disk, pins, ids)
    ensures AllHarmlessIn(at, disk, pins, ids[..n])
  {
    forall k | 0 <= k < n ensures HarmlessAt(at, disk, pins, ids[..n], k) {
      assert HarmlessAt(at, disk, pins, ids, k);
      assert ids[..n][..k] == ids[..k] && ids[..n][k] == ids[k];
    }
  }

  lemma HeldUpStays(at: Locate, disk: Disk, ids: seq<BlobId>, p: Path)
    requires Located(at, disk.blobs) && HeldUp(at, disk, ids, p)
    requires AfterDeletes(at, disk, ids).others == disk.others
    ensures Occupied(at, AfterDeletes(at, disk, ids), p)
  {
    if b :| b in disk.blobs && at(b).Some? && Under(p, at(b).value) && !Reached(at, ids, at(b).value) {
      BlobsAfterDeletes(at, disk, ids, b);
    }
  }

  lemma {:induction false} HarmlessSpares(at: Locate, disk: Disk, pins: set<BlobId>, ids: seq<BlobId>)
    requires Located(at, disk.blobs)
    requires AllHarmlessIn(at, disk, pins, ids)
    ensures AfterDeletes(at, disk, ids).others == disk.others
  {
    if ids != [] {
      var n := |ids| - 1;
      HarmlessPrefix(at, disk, pins, ids, n);
      HarmlessSpares(at, disk, pins, ids[..n]);
      assert HarmlessAt(at, disk, pins, ids, n);
      if at(ids[n]).Some? && at(ids[n]).value in disk.others {
        HeldUpStays(at, disk, ids[..n], at(ids[n]).value);
      }
    }
  }

  lemma HarmlessKeepsPins(at: Locate, disk: Disk, pins: set<BlobId>, ids: seq<BlobId>)
    requires Located(at, disk.blobs)
    requires AllHarmlessIn(at, disk, pins, ids)
    ensures PinsKept(pins, disk, AfterDeletes(at, disk, ids))
  {
    forall b | b in pins && b in disk.blobs
      ensures b in AfterDeletes(at, disk, ids).blobs && AfterDeletes(at, disk, ids).blobs[b] == disk.blobs[b]
    {
      BlobsAfterDeletes(at, disk, ids, b);
      forall k | 0 <= k < |ids| ensures at(ids[k]) != Some(at(b).value) {
        assert HarmlessAt(at, disk, pins, ids, k);
      }
    }
  }

  /** Nothing holds the directory up, so it is empty when its turn comes, or gone. */
  lemma NotHeldUpGoes(at: Locate, disk: Disk, ids: seq<BlobId>, id: BlobId)
    requires Located(at, disk.blobs) && at(id).Some? && at(id).value in disk.others
    requires disk.others[at(id).value].File? || !HeldUp(at, disk, ids, at(id).value)
    ensures at(id).value !in AfterDeletes(at, disk, ids + [id]).others
  {
    var p, before := at(id).value, AfterDeletes(at, disk, ids);
    DeleteOneMore(at, disk, ids, id);
    DiskShrinks(at, disk, ids);
    if disk.others[p].Dir? {
      forall b | b in before.blobs && at(b).Some? ensures !Under(p, at(b).value) {
        BlobsAfterDeletes(at, disk, ids, b);
      }
      assert !Occupied(at, before, p);
    }
  }

  lemma HarmfulShows(at: Locate, disk: Disk, pins: set<BlobId>, ids: seq<BlobId>, k: nat)
    requires Located(at, disk.blobs) && k < |ids| && !HarmlessAt(at, disk, pins, ids, k)
    ensures !PinsKept(pins, disk, AfterDeletes(at, disk, ids)) || AfterDeletes(at, disk, ids).others != disk.others
  {
    var p := at(ids[k]).value;
    if b :| b in pins && b in disk.blobs && at(b) == Some(p) {
      BlobsAfterDeletes(at, disk, ids, b);
      assert Reached(at, ids, p);
    } else {
      NotHeldUpGoes(at, disk, ids[..k], ids[k]);
      assert ids[..k] + [ids[k]] == ids[..k + 1];
      ShrinksFrom(at, disk, ids, k + 1);
    }
  }

  /** A list of deletions keeps the bytes of every pinned blob and removes nothing but
      blobs if and only if each of them is harmless in its turn. */
  lemma SparesIff(at: Locate, disk: Disk, pins: set<BlobId>, ids: seq<BlobId>)
    requires Located(at, disk.blobs)
    ensures var disk' := AfterDeletes(at, disk, ids);
      (PinsKept(pins, disk, disk') && disk'.others == disk.others) <==>
      AllHarmlessIn(at, disk, pins, ids)
  {
    if AllHarmlessIn(at, disk, pins, ids) {
      HarmlessSpares(at, disk, pins, ids);
      HarmlessKeepsPins(at, disk, pins, ids);
    } else {
      var k :| 0 <= k < |ids| && !HarmlessAt(at, disk, pins, ids, k);
      HarmfulShows(at, disk, pins, ids, k);
    }
  }

  /** Deleting an unpinned blob under its own id is always harmless. */
  lemma OwnIdHarmless(at: Locate, disk: Disk, pins: set<BlobId>, ids: seq<BlobId>, k: nat)
    requires Laid(at) && Separate(at, disk.others) && ContentAddressed(disk.blobs)
    requires k < |ids| && ids[k].Sha256? && ids[k] !in pins
    ensures HarmlessAt(at, disk, pins, ids, k)
  {
  }

  /** A directory that an id leads to goes in the same pass as its last blob, if that blob
      is deleted first; in the other order it stays. */
  lemma EmptiedDirectoryGoes(at: Locate, disk: Disk, b: BlobId, dir: BlobId)
    requires Located(at, disk.blobs) && disk.blobs.Keys == {b} && at(dir).Some?
    requires at(dir).value in disk.others && disk.others[at(dir).value].Dir? && Under(at(dir).value, at(b).value)
    requires forall q :: q in disk.others ==> !Under(at(dir).value, q)
    ensures at(dir).value !in AfterDeletes(at, disk, [b, dir]).others
    ensures at(dir).value in AfterDeletes(at, disk, [dir, b]).others
  {
    var p := at(dir).value;
    assert Reached(at, [b], at(b).value) by { assert at([b][0]) == Some(at(b).value); }
    assert [b] + [dir] == [b, dir];
    NotHeldUpGoes(at, disk, [b], dir);
    assert [dir] + [b] == [dir, b] && [] + [dir] == [dir];
    DeleteOneMore(at, disk, [], dir);
    DeleteOneMore(at, disk, [dir], b);
    assert Occupied(at, disk, p);
  }
}
