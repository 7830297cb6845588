/** The freeze of evaluation exports and the seal the scorer checks before it reads anything. */
module Freeze {
  import opened Options

  /** An absolute, resolved path. */
  type FilePath = seq<string>

  /** A relative or absolute name, as its parts. */
  datatype Name = Name(absolute: bool, parts: seq<string>)

  /** File bytes: some text, or the printed form of a manifest. */
  datatype Content = Bytes(text: string) | Printed(manifest: Manifest)

  /** A recorded digest: the SHA-256 of some bytes, or text that is no such digest. */
  datatype Hex = Sha256(of: Content) | NotHex(text: string)

  datatype Repeat = Repeat(id: string, arm: string, exportDir: Name, files: map<Name, Hex>)
  datatype Manifest = Manifest(schema: string, mapping: Hex, repeats: seq<Repeat>)

  const MANIFEST_SCHEMA := "ar10-freeze/1"
  const MANIFEST_NAME := "freeze.json"
  const RESULT: Name := Name(false, ["result.json"])
  const AUDIT: Name := Name(false, ["replay-audit.json"])
  const ACCEPTANCE: Name := Name(false, ["acceptance.json"])

  type Blobs = map<Name, Content>

  // ------------------------------------------------------------------
  // Paths
  // ------------------------------------------------------------------

  predicate PlainPart(part: string) { part != "" && '/' !in part && part != "." && part != ".." }

  predicate PlainName(n: Name) { !n.absolute && n.parts != [] && forall p :: p in n.parts ==> PlainPart(p) }

  function Walk(at: FilePath, parts: seq<string>): FilePath
    decreases parts
  {
    if parts == [] then at
    else if parts[0] == "" || parts[0] == "." then Walk(at, parts[1..])
    else if parts[0] == ".." then Walk(if at == [] then [] else at[..|at| - 1], parts[1..])
    else Walk(at + [parts[0]], parts[1..])
  }

  function Resolved(base: FilePath, n: Name): FilePath { Walk(if n.absolute then [] else base, n.parts) }

  /** `p` lies strictly inside `dir`. */
  predicate Inside(dir: FilePath, p: FilePath) { dir < p }

  lemma {:induction false} WalkPlain(at: FilePath, parts: seq<string>)
    requires forall p :: p in parts ==> PlainPart(p)
    ensures Walk(at, parts) == at + parts
    decreases parts
  {
    if parts != [] {
      assert PlainPart(parts[0]);
      WalkPlain(at + [parts[0]], parts[1..]);
      assert at + [parts[0]] + parts[1..] == at + parts;
    } else {
      assert at + [] == at;
    }
  }

  lemma WalkFirst(at: FilePath, parts: seq<string>) returns (next: FilePath)
    requires parts != []
    ensures next == Walk(at, [parts[0]]) && Walk(at, parts) == Walk(next, parts[1..])
  {
    next := Walk(at, [parts[0]]);
    assert [parts[0]][1..] == [];
  }

  /** Names are followed part by part, */
  lemma {:induction false} WalkOn(at: FilePath, parts: seq<string>, more: seq<string>)
    ensures Walk(at, parts + more) == Walk(Walk(at, parts), more)
    decreases parts
  {
    if parts == [] {
      assert parts + more == more;
    } else {
      var next := WalkFirst(at, parts);
      var same := WalkFirst(at, parts + more);
      assert (parts + more)[1..] == parts[1..] + more;
      WalkOn(next, parts[1..], more);
    }
  }

  /** an empty part and a dot stay, two dots go up, as far as the root, and any other part goes down. */
  lemma {:induction false} WalkOne(at: FilePath, part: string)
    ensures PlainPart(part) ==> Walk(at, [part]) == at + [part]
    ensures part in {"", "."} ==> Walk(at, [part]) == at
    ensures part == ".." ==> Walk(at, [part]) == if at == [] then [] else at[..|at| - 1]
  {
    assert [part][1..] == [];
  }

  lemma {:induction false} WalkUp(dir: FilePath, up: seq<string>)
    requires |up| <= |dir| && forall p :: p in up ==> p == ".."
    ensures Walk(dir, up) == dir[..|dir| - |up|]
    decreases up
  {
    if up != [] {
      assert up[0] in up && forall p :: p in up[1..] ==> p in up;
      WalkUp(dir[..|dir| - 1], up[1..]);
    }
  }

  lemma PrefixOfJoin(kept: FilePath, rest: FilePath, down: FilePath)
    ensures kept + rest < kept + down <==> rest < down
  {
    if kept + rest < kept + down { assert (kept + down)[|kept|..|kept + rest|] == (kept + rest)[|kept|..] == rest; }
  }

  /** A name that goes up some levels and then down lies inside the directory only if it comes down the
      way it went up. */
  lemma UpAndDown(dir: FilePath, up: seq<string>, down: seq<string>)
    requires |up| <= |dir| && (forall p :: p in up ==> p == "..") && forall p :: p in down ==> PlainPart(p)
    ensures Resolved(dir, Name(false, up + down)) == dir[..|dir| - |up|] + down
    ensures Inside(dir, Resolved(dir, Name(false, up + down))) <==> dir[|dir| - |up|..] < down
  {
    var kept, rest := dir[..|dir| - |up|], dir[|dir| - |up|..];
    WalkOn(dir, up, down);
    WalkUp(dir, up);
    WalkPlain(kept, down);
    PrefixOfJoin(kept, rest, down);
    assert dir == kept + rest;
  }

  /** An absolute name does not depend on the directory. */
  lemma {:induction false} Absolute(dir: FilePath, parts: seq<string>)
    requires forall p :: p in parts ==> PlainPart(p)
    ensures Resolved(dir, Name(true, parts)) == parts
  {
    WalkPlain([], parts);
    assert [] + parts == parts;
  }

  /** Everything lies in directories, and nothing is both a file and a directory. */
  ghost predicate PrefixClosed(files: map<FilePath, Content>, dirs: set<FilePath>) {
    && files.Keys !! dirs && [] in dirs
    && (forall p, q :: q in files && p < q ==> p in dirs)
    && (forall p, q :: q in dirs && p < q ==> p in dirs)
  }

  class Disk {
    var files: map<FilePath, Content>
    var dirs: set<FilePath>

    ghost predicate Valid()
      reads this
    {
      PrefixClosed(files, dirs)
    }

    predicate Exists(p: FilePath)
      reads this
    {
      p in files || p in dirs
    }

    /** The names of the files below a directory. */
    function Below(dir: FilePath): (names: set<Name>)
      reads this
      ensures forall n :: n in names <==> !n.absolute && n.parts != [] && dir + n.parts in files
    {
      var names := set p | p in files && Inside(dir, p) :: Name(false, p[|dir|..]);
      assert forall p :: Inside(dir, p) ==> dir + p[|dir|..] == p;
      assert forall n: Name :: n.parts != [] ==> Inside(dir, dir + n.parts) && (dir + n.parts)[|dir|..] == n.parts;
      names
    }
  }

  // ------------------------------------------------------------------
  // The scorer's checks
  // ------------------------------------------------------------------

  predicate RepeatOk(r: Repeat) {
    && r.id != "" && r.arm != "" && r.files != map[]
    && AUDIT in r.files && RESULT in r.files && forall n :: n in r.files ==> r.files[n].Sha256?
  }

  /** The manifests the scorer takes. */
  predicate ManifestOk(m: Manifest) {
    && m.schema == MANIFEST_SCHEMA && m.mapping.Sha256? && m.repeats != []
    && (forall i :: 0 <= i < |m.repeats| ==> RepeatOk(m.repeats[i]))
    && (forall i, j :: 0 <= i < j < |m.repeats| ==> m.repeats[i].id != m.repeats[j].id)
  }

  /** Field by field. */
  lemma ManifestMeans(m: Manifest)
    ensures ManifestOk(m) <==>
              && m.schema == "ar10-freeze/1" && m.mapping.Sha256? && |m.repeats| > 0
              && (forall r :: r in m.repeats ==>
                    && r.id != "" && r.arm != ""
                    && Name(false, ["result.json"]) in r.files && Name(false, ["replay-audit.json"]) in r.files
                    && forall n :: n in r.files ==> r.files[n].Sha256?)
              && (forall i, j :: 0 <= i < j < |m.repeats| ==> m.repeats[i].id != m.repeats[j].id)
  {}

  method LoadManifest(disk: Disk, path: FilePath, parse: string -> Option<Manifest>) returns (m: Option<Manifest>)
    ensures m == if path !in disk.files then None
                 else var read := match disk.files[path] case Printed(p) => Some(p) case Bytes(text) => parse(text);
                      if read.Some? && ManifestOk(read.value) then read else None
  {
    if path !in disk.files {
      return None;
    }
    var read := match disk.files[path] case Printed(p) => Some(p) case Bytes(text) => parse(text);
    if read.None? || read.value.schema != MANIFEST_SCHEMA || !read.value.mapping.Sha256? || read.value.repeats == [] {
      return None;
    }
    var repeats := read.value.repeats;
    var seen: set<string> := {};
    for i := 0 to |repeats|
      invariant forall k :: 0 <= k < i ==> RepeatOk(repeats[k])
      invariant forall k, l :: 0 <= k < l < i ==> repeats[k].id != repeats[l].id
      invariant seen == set k | 0 <= k < i :: repeats[k].id
    {
      if !RepeatOk(repeats[i]) || repeats[i].id in seen {
        return None;
      }
      seen := seen + {repeats[i].id};
    }
    return read;
  }

  /** The file a manifest entry names, if it is inside the export, present and unchanged. */
  ghost predicate FileOk(disk: Disk, dir: FilePath, n: Name, digest: Hex)
    reads disk
  {
    var p := Resolved(dir, n);
    Inside(dir, p) && p in disk.files && Sha256(disk.files[p]) == digest
  }

  ghost predicate ExportOk(disk: Disk, base: FilePath, r: Repeat)
    reads disk
  {
    var dir := Resolved(base, r.exportDir);
    && dir in disk.dirs && disk.Below(dir) <= r.files.Keys
    && forall n :: n in r.files ==> FileOk(disk, dir, n, r.files[n])
  }

  /** What a digest seals. */
  function Frozen(r: Repeat): Blobs
    requires forall n :: n in r.files ==> r.files[n].Sha256?
  {
    map n | n in r.files :: r.files[n].of
  }

  method VerifyExport(disk: Disk, base: FilePath, r: Repeat) returns (blobs: Option<Blobs>)
    requires forall n :: n in r.files ==> r.files[n].Sha256?
    ensures blobs.Some? <==> ExportOk(disk, base, r)
    ensures blobs.Some? ==> blobs.value == Frozen(r)
  {
    var dir := Resolved(base, r.exportDir);
    if dir !in disk.dirs || !(disk.Below(dir) <= r.files.Keys) {
      return None;
    }
    var out: Blobs := map[];
    var rest := r.files.Keys;
    while rest != {}
      invariant rest <= r.files.Keys && out.Keys == r.files.Keys - rest
      invariant forall n :: n in out ==> FileOk(disk, dir, n, r.files[n]) && out[n] == r.files[n].of
      decreases |rest|
    {
      var n :| n in rest;
      var p := Resolved(dir, n);
      if !Inside(dir, p) || p !in disk.files || Sha256(disk.files[p]) != r.files[n] {
        return None;
      }
      out := out[n := disk.files[p]];
      rest := rest - {n};
    }
    return Some(out);
  }

  /** The seal: accepted exactly when every export is exactly what was frozen, and then the
      verified bytes are the frozen ones, whatever else is on the disk. */
  method VerifyFreeze(disk: Disk, base: FilePath, m: Manifest) returns (verified: Option<map<string, Blobs>>)
    requires ManifestOk(m)
    ensures verified.Some? <==> forall i :: 0 <= i < |m.repeats| ==> ExportOk(disk, base, m.repeats[i])
    ensures verified.Some? ==> verified.value == FrozenBytes(m.repeats)
  {
    hide Frozen, ExportOk, Resolved;
    var out: map<string, Blobs> := map[];
    for i := 0 to |m.repeats|
      invariant forall k :: 0 <= k < i ==> ExportOk(disk, base, m.repeats[k])
      invariant out == FrozenBytes(m.repeats[..i])
    {
      assert m.repeats[..i + 1][..i] == m.repeats[..i];
      var blobs := VerifyExport(disk, base, m.repeats[i]);
      if blobs.None? {
        return None;
      }
      out := out[m.repeats[i].id := blobs.value];
    }
    assert m.repeats[..|m.repeats|] == m.repeats;
    return Some(out);
  }

  /** The bytes a manifest seals, by repeat. */
  function FrozenBytes(repeats: seq<Repeat>): map<string, Blobs>
    requires forall r :: r in repeats ==> RepeatOk(r)
  {
    if repeats == [] then map[]
    else
      var last := repeats[|repeats| - 1];
      assert last in repeats && RepeatOk(last);
      FrozenBytes(repeats[..|repeats| - 1])[last.id := Frozen(last)]
  }

  /** Two disks that both pass hold the same files in the export, whatever names the manifest uses for
      them: any missing, changed or added file is refused. */
  lemma AcceptedExportsAgree(a: Disk, b: Disk, base: FilePath, r: Repeat, p: FilePath)
    requires (forall part :: part in p ==> PlainPart(part)) && Inside(Resolved(base, r.exportDir), p)
    requires ExportOk(a, base, r) && ExportOk(b, base, r)
    ensures p in a.files <==> p in b.files
    ensures p in a.files ==> a.files[p] == b.files[p]
  {
    var dir := Resolved(base, r.exportDir);
    var n := Name(false, p[|dir|..]);
    assert dir + n.parts == p && forall part :: part in n.parts ==> part in p;
    if p in a.files || p in b.files {
      assert n in a.Below(dir) || n in b.Below(dir);
      WalkPlain(dir, n.parts);
      assert FileOk(a, dir, n, r.files[n]) && FileOk(b, dir, n, r.files[n]);
    }
  }

  // ------------------------------------------------------------------
  // The freeze
  // ------------------------------------------------------------------

  /** One repeat to freeze: its run directory's files and the acceptance record computed there. */
  datatype Run = Run(id: string, arm: string, files: map<Name, Content>, acceptance: Content)

  function Export(run: Run): Blobs
    requires RESULT in run.files && AUDIT in run.files
  {
    map[RESULT := run.files[RESULT], AUDIT := run.files[AUDIT], ACCEPTANCE := run.acceptance]
  }

  function Entry(run: Run): Repeat
    requires RESULT in run.files && AUDIT in run.files
  {
    var blobs := Export(run);
    Repeat(run.id, run.arm, Name(false, [run.id]), map n | n in blobs :: Sha256(blobs[n]))
  }

  predicate RunOk(run: Run) { PlainPart(run.id) && run.arm != "" && RESULT in run.files && AUDIT in run.files }

  /** What the freeze accepts: a digest for the mapping, at least one repeat, distinct plain ids,
      and canary files that name repeats and can be read. */
  predicate RunsOk(runs: seq<Run>, mapping: Hex, canaries: map<string, bool>) {
    && mapping.Sha256? && runs != []
    && (forall i :: 0 <= i < |runs| ==> RunOk(runs[i]))
    && (forall i, j :: 0 <= i < j < |runs| ==> runs[i].id != runs[j].id)
    && (forall c :: c in canaries ==> exists i :: 0 <= i < |runs| && runs[i].id == c)
    && (forall c :: c in canaries ==> canaries[c])
  }

  /** What is accepted, repeat by repeat. */
  lemma RunsMean(runs: seq<Run>, mapping: Hex, canaries: map<string, bool>)
    ensures RunsOk(runs, mapping, canaries) <==>
              && mapping.Sha256? && |runs| > 0
              && (forall r :: r in runs ==>
                    && r.id !in {"", ".", ".."} && '/' !in r.id && r.arm != ""
                    && Name(false, ["result.json"]) in r.files && Name(false, ["replay-audit.json"]) in r.files)
              && (forall i, j :: 0 <= i < j < |runs| ==> runs[i].id != runs[j].id)
              && (forall c :: c in canaries ==> canaries[c] && exists r :: r in runs && r.id == c)
  {
    if RunsOk(runs, mapping, canaries) {
      forall c | c in canaries ensures exists r :: r in runs && r.id == c {
        var i :| 0 <= i < |runs| && runs[i].id == c;
        assert runs[i] in runs;
      }
    }
  }

  /** What is frozen of a run: the two files taken from it and the acceptance record. */
  lemma ExportMeans(run: Run)
    requires RESULT in run.files && AUDIT in run.files
    ensures var blobs := Export(run);
            && blobs.Keys == {Name(false, ["result.json"]), Name(false, ["replay-audit.json"]),
                              Name(false, ["acceptance.json"])}
            && blobs[Name(false, ["acceptance.json"])] == run.acceptance
            && forall n :: n in blobs && n != Name(false, ["acceptance.json"]) ==>
                 n in run.files && blobs[n] == run.files[n]
  {}

  method BuildFreeze(runs: seq<Run>, mapping: Hex, canaries: map<string, bool>)
    returns (built: Option<(Manifest, seq<Blobs>)>)
    ensures built.Some? <==> RunsOk(runs, mapping, canaries)
    ensures built.Some? ==>
              var m, exports := built.value.0, built.value.1;
              && m.schema == MANIFEST_SCHEMA && m.mapping == mapping
              && |m.repeats| == |exports| == |runs|
              && forall i :: 0 <= i < |runs| ==> m.repeats[i] == Entry(runs[i]) && exports[i] == Export(runs[i])
  {
    hide Export, Entry, PlainPart;
    if !mapping.Sha256? || runs == [] {
      return None;
    }
    var ids: set<string> := {};
    for i := 0 to |runs|
      invariant ids == set k | 0 <= k < i :: runs[k].id
      invariant forall k, l :: 0 <= k < l < i ==> runs[k].id != runs[l].id
    {
      if runs[i].id in ids {
        return None;
      }
      ids := ids + {runs[i].id};
    }
    if !(canaries.Keys <= ids) {
      return None;
    }
    var entries: seq<Repeat>, exports: seq<Blobs> := [], [];
    for i := 0 to |runs|
      invariant |entries| == |exports| == i
      invariant forall k :: 0 <= k < i ==>
                  RunOk(runs[k]) && entries[k] == Entry(runs[k]) && exports[k] == Export(runs[k])
      invariant forall k :: 0 <= k < i && runs[k].id in canaries ==> canaries[runs[k].id]
    {
      var run := runs[i];
      if !RunOk(run) || (run.id in canaries && !canaries[run.id]) {
        return None;
      }
      entries, exports := entries + [Entry(run)], exports + [Export(run)];
    }
    return Some((Manifest(MANIFEST_SCHEMA, mapping, entries), exports));
  }

  /** A built manifest is one the scorer takes. */
  lemma BuiltIsOk(runs: seq<Run>, mapping: Hex, canaries: map<string, bool>, m: Manifest)
    requires RunsOk(runs, mapping, canaries) && m.schema == MANIFEST_SCHEMA && m.mapping == mapping
    requires |m.repeats| == |runs| && forall i :: 0 <= i < |runs| ==> m.repeats[i] == Entry(runs[i])
    ensures ManifestOk(m)
  {
    forall i | 0 <= i < |m.repeats| ensures RepeatOk(m.repeats[i]) {
      assert AUDIT in Export(runs[i]) && RESULT in Export(runs[i]);
      assert AUDIT in m.repeats[i].files;
    }
  }

  /** A name of one plain part. */
  predicate PlainFile(n: Name) { PlainName(n) && |n.parts| == 1 }

  lemma ExportNamesArePlain(run: Run)
    requires RunOk(run)
    ensures forall n :: n in Export(run) ==> PlainFile(n)
  {}

  // ------------------------------------------------------------------
  // Writing
  // ------------------------------------------------------------------

  datatype WriteOutcome = Written | RefusedExisting | OsFailed

  /** The directory holds exactly these files. */
  ghost predicate Placed(files: map<FilePath, Content>, dir: FilePath, blobs: Blobs) {
    && (forall n :: n in blobs ==> dir + n.parts in files && files[dir + n.parts] == blobs[n])
    && (forall p :: p in files && Inside(dir, p) ==> Name(false, p[|dir|..]) in blobs)
  }

  lemma NewDirKeeps(files: map<FilePath, Content>, dirs: set<FilePath>, dir: FilePath)
    requires PrefixClosed(files, dirs) && dir !in files && dir != [] && dir[..|dir| - 1] in dirs
    ensures PrefixClosed(files, dirs + {dir})
  {
    forall p | p < dir ensures p in dirs { Shorter(p, dir); }
  }

  lemma Shorter(p: FilePath, q: FilePath)
    requires p < q
    ensures p == q[..|q| - 1] || p < q[..|q| - 1]
  {}

  lemma NewFileKeeps(files: map<FilePath, Content>, dirs: set<FilePath>, file: FilePath, data: Content)
    requires PrefixClosed(files, dirs) && file !in dirs && file != [] && file[..|file| - 1] in dirs
    ensures PrefixClosed(files[file := data], dirs)
  {
    forall p | p < file ensures p in dirs { Shorter(p, file); }
  }

  method MakeDirs(disk: Disk, out: FilePath) returns (ok: bool)
    requires disk.Valid()
    modifies disk
    ensures disk.Valid() && disk.files == old(disk.files) && old(disk.dirs) <= disk.dirs
    ensures ok <==> forall k :: 0 <= k <= |out| ==> out[..k] !in old(disk.files)
    ensures ok ==> out in disk.dirs
    ensures forall p :: p in disk.dirs && p !in old(disk.dirs) ==> |p| <= |out|
  {
    ok := true;
    for k := 0 to |out| + 1
      invariant disk.Valid() && disk.files == old(disk.files) && old(disk.dirs) <= disk.dirs
      invariant forall j :: 0 <= j < k ==> out[..j] in disk.dirs && out[..j] !in old(disk.files)
      invariant forall p :: p in disk.dirs && p !in old(disk.dirs) ==> |p| <= |out|
    {
      if out[..k] in disk.files {
        return false;
      }
      if k > 0 {
        assert out[..k][..k - 1] == out[..k - 1];
        NewDirKeeps(disk.files, disk.dirs, out[..k]);
      }
      disk.dirs := disk.dirs + {out[..k]};
    }
    assert out[..|out|] == out;
  }

  /** A fresh directory with these files in it; nothing outside it changes. */
  method WriteExport(disk: Disk, dir: FilePath, blobs: Blobs)
    requires disk.Valid() && !disk.Exists(dir) && dir != [] && dir[..|dir| - 1] in disk.dirs
    requires forall n :: n in blobs ==> PlainFile(n)
    modifies disk
    ensures disk.Valid() && disk.dirs == old(disk.dirs) + {dir}
    ensures Placed(disk.files, dir, blobs)
    ensures forall p :: !Inside(dir, p) ==>
              (p in disk.files <==> p in old(disk.files)) && (p in disk.files ==> disk.files[p] == old(disk.files)[p])
  {
    NewDirKeeps(disk.files, disk.dirs, dir);
    disk.dirs := disk.dirs + {dir};
    var rest := blobs.Keys;
    while rest != {}
      invariant disk.Valid() && disk.dirs == old(disk.dirs) + {dir} && rest <= blobs.Keys
      invariant forall n :: n in blobs && n !in rest ==>
                dir + n.parts in disk.files && disk.files[dir + n.parts] == blobs[n]
      invariant forall p :: p in disk.files && Inside(dir, p) ==>
                  Name(false, p[|dir|..]) in blobs && Name(false, p[|dir|..]) !in rest
      invariant forall p :: !Inside(dir, p) ==>
                  && (p in disk.files <==> p in old(disk.files))
                  && (p in disk.files ==> disk.files[p] == old(disk.files)[p])
      decreases |rest|
    {
      var n :| n in rest;
      var file := dir + n.parts;
      assert file[..|file| - 1] == dir && file[|dir|..] == n.parts && Inside(dir, file);
      assert file !in disk.dirs;
      NewFileKeeps(disk.files, disk.dirs, file, blobs[n]);
      forall m | m in blobs && m != n ensures dir + m.parts != file {
        assert (dir + m.parts)[|dir|..] == m.parts;
      }
      disk.files := disk.files[file := blobs[n]];
      rest := rest - {n};
    }
  }

  /** The freeze is written exactly when nothing it would create exists, nothing above the output
      directory is a file, and no repeat is called like the manifest. */
  method WriteFreeze(disk: Disk, out: FilePath, m: Manifest, exports: seq<Blobs>) returns (outcome: WriteOutcome)
    requires disk.Valid() && |m.repeats| == |exports|
    requires forall i :: 0 <= i < |exports| ==> forall n :: n in exports[i] ==> PlainFile(n)
    requires forall i, j :: 0 <= i < j < |m.repeats| ==> m.repeats[i].id != m.repeats[j].id
    modifies disk
    ensures disk.Valid()
    ensures outcome.Written? <==>
              && !old(disk.Exists(out + ["freeze.json"]))
              && (forall i :: 0 <= i < |m.repeats| ==> !old(disk.Exists(out + [m.repeats[i].id])))
              && (forall k :: 0 <= k <= |out| ==> out[..k] !in old(disk.files))
              && (forall i :: 0 <= i < |m.repeats| ==> m.repeats[i].id != MANIFEST_NAME)
    ensures outcome.RefusedExisting? ==> disk.files == old(disk.files) && disk.dirs == old(disk.dirs)
    ensures outcome.Written? ==>
              && out + [MANIFEST_NAME] in disk.files && disk.files[out + [MANIFEST_NAME]] == Printed(m)
              && forall i :: 0 <= i < |m.repeats| ==>
                   out + [m.repeats[i].id] in disk.dirs && Placed(disk.files, out + [m.repeats[i].id], exports[i])
  {
    var path := out + [MANIFEST_NAME];
    if disk.Exists(path) || exists i :: 0 <= i < |m.repeats| && disk.Exists(out + [m.repeats[i].id]) {
      return RefusedExisting;
    }
    var ok := MakeDirs(disk, out);
    if !ok {
      return OsFailed;
    }
    WriteExports(disk, out, m, exports);
    if path in disk.dirs {
      return OsFailed;
    }
    assert path[..|path| - 1] == out;
    NewFileKeeps(disk.files, disk.dirs, path, Printed(m));
    ghost var before := disk.files;
    disk.files := disk.files[path := Printed(m)];
    forall k | 0 <= k < |m.repeats| ensures Placed(disk.files, out + [m.repeats[k].id], exports[k]) {
    }
    return Written;
  }

  lemma Beside(out: FilePath, a: string, b: string)
    ensures out + [a] == out + [b] <==> a == b
    ensures !Inside(out + [a], out + [b]) && |out + [a]| == |out + [b]|
  {
    assert (out + [a])[|out|] == a && (out + [b])[|out|] == b;
  }

  method WriteExports(disk: Disk, out: FilePath, m: Manifest, exports: seq<Blobs>)
    requires disk.Valid() && |m.repeats| == |exports| && out in disk.dirs && !disk.Exists(out + [MANIFEST_NAME])
    requires forall i :: 0 <= i < |exports| ==> forall n :: n in exports[i] ==> PlainFile(n)
    requires forall i, j :: 0 <= i < j < |m.repeats| ==> m.repeats[i].id != m.repeats[j].id
    requires forall i :: 0 <= i < |m.repeats| ==> !disk.Exists(out + [m.repeats[i].id])
    modifies disk
    ensures disk.Valid() && out in disk.dirs && out + [MANIFEST_NAME] !in disk.files
    ensures out + [MANIFEST_NAME] in disk.dirs <==> exists k :: 0 <= k < |m.repeats| && m.repeats[k].id == MANIFEST_NAME
    ensures forall k :: 0 <= k < |m.repeats| ==>
              out + [m.repeats[k].id] in disk.dirs && Placed(disk.files, out + [m.repeats[k].id], exports[k])
  {
    hide Placed;
    var path := out + [MANIFEST_NAME];
    for i := 0 to |m.repeats|
      invariant disk.Valid() && out in disk.dirs && path !in disk.files
      invariant path in disk.dirs <==> exists k :: 0 <= k < i && m.repeats[k].id == MANIFEST_NAME
      invariant forall k :: i <= k < |m.repeats| ==> !disk.Exists(out + [m.repeats[k].id])
      invariant forall k :: 0 <= k < i ==>
                  out + [m.repeats[k].id] in disk.dirs && Placed(disk.files, out + [m.repeats[k].id], exports[k])
    {
      var dir := out + [m.repeats[i].id];
      assert dir[..|dir| - 1] == out;
      ghost var before := disk.files;
      WriteExport(disk, dir, exports[i]);
      Beside(out, m.repeats[i].id, MANIFEST_NAME);
      forall k | 0 <= k < |m.repeats|
        ensures k != i ==> out + [m.repeats[k].id] != dir && !Inside(dir, out + [m.repeats[k].id])
      {
        Beside(out, m.repeats[i].id, m.repeats[k].id);
      }
      forall k | 0 <= k < i ensures Placed(disk.files, out + [m.repeats[k].id], exports[k]) {
        PlacedStays(before, disk.files, out + [m.repeats[k].id], exports[k], dir);
      }
    }
  }

  /** What happens inside one directory does not disturb another beside it. */
  lemma PlacedStays(
      before: map<FilePath, Content>, after: map<FilePath, Content>, dir: FilePath, blobs: Blobs, other: FilePath)
    requires Placed(before, dir, blobs) && dir != other && |dir| == |other|
    requires forall p :: !Inside(other, p) ==> (p in after <==> p in before) && (p in after ==> after[p] == before[p])
    ensures Placed(after, dir, blobs)
  {
    forall p | dir <= p ensures !Inside(other, p) {
      assert p[..|dir|] == dir;
    }
    forall n | n in blobs ensures dir + n.parts in after && after[dir + n.parts] == blobs[n] {
      assert dir <= dir + n.parts;
    }
  }

  // ------------------------------------------------------------------
  // Freeze, then check
  // ------------------------------------------------------------------

  lemma PlacedIsOk(disk: Disk, out: FilePath, run: Run)
    requires RunOk(run) && out + [run.id] in disk.dirs && Placed(disk.files, out + [run.id], Export(run))
    ensures ExportOk(disk, out, Entry(run)) && Frozen(Entry(run)) == Export(run)
  {
    var dir, r := out + [run.id], Entry(run);
    WalkPlain(out, [run.id]);
    assert Resolved(out, r.exportDir) == dir;
    ExportNamesArePlain(run);
    forall n | n in r.files ensures FileOk(disk, dir, n, r.files[n]) {
      WalkPlain(dir, n.parts);
      assert n in Export(run);
    }
    forall n | n in disk.Below(dir) ensures n in r.files {
      assert (dir + n.parts)[|dir|..] == n.parts && Inside(dir, dir + n.parts);
      assert Name(false, n.parts) == n;
    }
    assert Frozen(r) == Export(run);
  }

  /** Everything written for accepted repeats is accepted by the scorer, which gets the very bytes
      that were frozen. */
  method FreezeThenCheck(disk: Disk, out: FilePath, runs: seq<Run>, mapping: Hex, canaries: map<string, bool>,
                         parse: string -> Option<Manifest>)
    returns (outcome: Option<WriteOutcome>, verified: Option<map<string, Blobs>>)
    requires disk.Valid()
    modifies disk
    ensures outcome.None? <==> !RunsOk(runs, mapping, canaries)
    ensures outcome == Some(Written) ==>
              verified.Some? && forall i :: 0 <= i < |runs| ==>
                runs[i].id in verified.value && verified.value[runs[i].id] == Export(runs[i])
    ensures (&& RunsOk(runs, mapping, canaries) && !old(disk.Exists(out))
             && (forall k :: 0 <= k <= |out| ==> out[..k] !in old(disk.files))) ==>
              (outcome == Some(Written) <==> forall i :: 0 <= i < |runs| ==> runs[i].id != "freeze.json")
  {
    outcome, verified := None, None;
    var built := BuildFreeze(runs, mapping, canaries);
    if built.None? {
      return;
    }
    var m, exports := built.value.0, built.value.1;
    BuiltIsOk(runs, mapping, canaries, m);
    forall i | 0 <= i < |exports| ensures forall n :: n in exports[i] ==> PlainFile(n) { ExportNamesArePlain(runs[i]); }
    var w := WriteFreeze(disk, out, m, exports);
    outcome := Some(w);
    if w.Written? {
      var loaded := LoadManifest(disk, out + [MANIFEST_NAME], parse);
      assert loaded == Some(m);
      forall i | 0 <= i < |runs| ensures ExportOk(disk, out, m.repeats[i]) && Frozen(m.repeats[i]) == Export(runs[i]) {
        PlacedIsOk(disk, out, runs[i]);
      }
      verified := VerifyFreeze(disk, out, loaded.value);
      forall i | 0 <= i < |runs|
        ensures runs[i].id in FrozenBytes(m.repeats) && FrozenBytes(m.repeats)[runs[i].id] == Export(runs[i])
      {
        FrozenBytesAt(m.repeats, i);
      }
    }
  }

  lemma {:induction false} FrozenBytesAt(repeats: seq<Repeat>, i: nat)
    requires (forall r :: r in repeats ==> RepeatOk(r)) && i < |repeats|
    requires forall j, k :: 0 <= j < k < |repeats| ==> repeats[j].id != repeats[k].id
    ensures repeats[i].id in FrozenBytes(repeats)
    ensures RepeatOk(repeats[i]) && FrozenBytes(repeats)[repeats[i].id] == Frozen(repeats[i])
  {
    var front, last := repeats[..|repeats| - 1], repeats[|repeats| - 1];
    assert repeats[i] in repeats && last in repeats && RepeatOk(last);
    hide Frozen;
    assert FrozenBytes(repeats) == FrozenBytes(front)[last.id := Frozen(last)];
    if i < |repeats| - 1 {
      FrozenBytesAt(front, i);
      assert front[i] == repeats[i] && last.id != repeats[i].id;
    }
  }
}
