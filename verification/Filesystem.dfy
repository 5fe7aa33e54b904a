/**
 The host's disk as the tools see it, and the atomic filesystem operations they are made of.

 The deploy subvolume holds role symlinks, deployment directories and the shared object store; the ESP
 holds the UKIs. Store entries and holder entries are hard links to inodes whose link count is kept by the
 operations, as the kernel keeps `st_nlink`, and never recomputed.
 */
module Filesystem {
  import opened Options
  import opened Pack

  type Digest = string
  type Id = string

  datatype Role = Current | Fallback | Staging

  /** A UKI, known by the `deploy=` and `composefs.digest=` of its signed command line. */
  datatype Image = Image(id: Id, digest: Digest)

  datatype EspName = CurrentEfi | FallbackEfi | CurrentTmp | FallbackTmp | SwapTmp

  /** A file under `shared/objects`: an object, or a temporary of one of the two landing paths. */
  datatype Name = Obj(digest: Digest) | TreeTemp(digest: Digest) | PackTemp(digest: Digest)

  datatype Inode = Inode(bytes: Bytes, links: nat, sealed: bool)

  /** A deployment directory: `root.cfs` and its seal, the holder, the UKI and the loader. */
  datatype Dir = Dir(cfs: Option<Bytes>, sealed: bool, holder: map<Digest, nat>,
                     uki: Option<Image>, loader: Option<string>)

  datatype Disk = Disk(roles: map<Role, Id>, roleTmps: map<Role, Id>,
                       esp: map<EspName, Image>, limine: Option<string>, limineTmp: Option<string>,
                       dirs: map<Id, Dir>,
                       shared: map<Name, nat>, inodes: map<nat, Inode>, next: nat)

  /**
   What the model does not look inside: the fs-verity measure, the objects a composefs dump mentions (in the
   order Python iterates over them), the mentioned objects whose payload is inlined in the image, and the
   orders in which the kernel lists directories.
   */
  datatype Tools = Tools(measure: Bytes -> Digest, refs: Bytes -> seq<Digest>, inlined: Bytes -> set<Digest>,
                         readdir: set<Id> -> seq<Id>, walk: set<Name> -> seq<Name>)

  /** Listings list what is there, a directory each name once; a set of references has no repetitions. */
  ghost predicate ToolsOk(t: Tools) {
    && (forall s :: Elems(t.readdir(s)) == s && NoDup(t.readdir(s)))
    && (forall s :: Elems(t.walk(s)) == s)
    && (forall c :: NoDup(t.refs(c)))
  }

  /** The objects a root image needs at run time. */
  ghost function Needed(t: Tools, cfs: Bytes): set<Digest> {
    Elems(t.refs(cfs)) - t.inlined(cfs)
  }

  // ------------------------------------------------------------- operations

  datatype Op =
    | MkDir(id: Id)
    | WriteTemp(name: Name, bytes: Bytes)
    | PlaceTemp(name: Name, digest: Digest)
    | Seal(digest: Digest)
    | CopyCfs(id: Id, bytes: Bytes)
    | SealCfs(id: Id)
    | Link(id: Id, digest: Digest)
    | CopyUki(id: Id, image: Image)
    | CopyLoader(id: Id, loader: string)
    | RmTree(id: Id)
    | Unlink(name: Name)
    | UnlinkRoleTmp(role: Role)
    | SymlinkRoleTmp(role: Role, id: Id)
    | RenameRole(role: Role)
    | UnlinkRole(role: Role)
    | WriteEsp(file: EspName, image: Image)
    | RenameEsp(source: EspName, target: EspName)
    | WriteLimine(loader: string)
    | RenameLimine

  const EMPTY_DIR := Dir(None, false, map[], None, None)

  function Drop(inodes: map<nat, Inode>, i: nat): map<nat, Inode> {
    if i in inodes && inodes[i].links > 0 then inodes[i := inodes[i].(links := inodes[i].links - 1)] else inodes
  }

  function Bump(inodes: map<nat, Inode>, i: nat): map<nat, Inode> {
    if i in inodes then inodes[i := inodes[i].(links := inodes[i].links + 1)] else inodes
  }

  /** How many entries of a holder are links to inode `i`. */
  function Entries(holder: map<Digest, nat>, i: nat): nat {
    |set g | g in holder && holder[g] == i|
  }

  /** Removing a whole holder drops one link for each of its entries. */
  function Release(inodes: map<nat, Inode>, holder: map<Digest, nat>): map<nat, Inode> {
    map i | i in inodes ::
      inodes[i].(links := if inodes[i].links >= Entries(holder, i) then inodes[i].links - Entries(holder, i) else 0)
  }

  function SetDir(d: Disk, id: Id, dir: Dir): Disk { d.(dirs := d.dirs[id := dir]) }

  /** One atomic operation; where the kernel would refuse it, nothing changes. */
  function Apply(d: Disk, op: Op): (r: Disk) {
    match op
    case MkDir(id) =>
      if id in d.dirs then d else SetDir(d, id, EMPTY_DIR)
    case WriteTemp(n, bytes) =>
      if n in d.shared then
        var i := d.shared[n];
        if i in d.inodes then d.(inodes := d.inodes[i := d.inodes[i].(bytes := bytes)]) else d
      else d.(shared := d.shared[n := d.next], inodes := d.inodes[d.next := Inode(bytes, 1, false)],
              next := d.next + 1)
    case PlaceTemp(n, g) =>
      if n in d.shared then
        d.(shared := (d.shared - {n})[Obj(g) := d.shared[n]],
           inodes := if Obj(g) in d.shared then Drop(d.inodes, d.shared[Obj(g)]) else d.inodes)
      else d
    case Seal(g) =>
      if Obj(g) in d.shared && d.shared[Obj(g)] in d.inodes then
        var i := d.shared[Obj(g)];
        d.(inodes := d.inodes[i := d.inodes[i].(sealed := true)])
      else d
    case CopyCfs(id, bytes) =>
      if id in d.dirs then SetDir(d, id, d.dirs[id].(cfs := Some(bytes), sealed := false)) else d
    case SealCfs(id) =>
      if id in d.dirs then SetDir(d, id, d.dirs[id].(sealed := true)) else d
    case Link(id, g) =>
      if id in d.dirs && Obj(g) in d.shared && g !in d.dirs[id].holder then
        var i := d.shared[Obj(g)];
        SetDir(d, id, d.dirs[id].(holder := d.dirs[id].holder[g := i])).(inodes := Bump(d.inodes, i))
      else d
    case CopyUki(id, image) =>
      if id in d.dirs then SetDir(d, id, d.dirs[id].(uki := Some(image))) else d
    case CopyLoader(id, loader) =>
      if id in d.dirs then SetDir(d, id, d.dirs[id].(loader := Some(loader))) else d
    case RmTree(id) =>
      if id in d.dirs then d.(dirs := d.dirs - {id}, inodes := Release(d.inodes, d.dirs[id].holder)) else d
    case Unlink(n) =>
      if n in d.shared then d.(shared := d.shared - {n}, inodes := Drop(d.inodes, d.shared[n])) else d
    case UnlinkRoleTmp(role) => d.(roleTmps := d.roleTmps - {role})
    case SymlinkRoleTmp(role, id) => d.(roleTmps := d.roleTmps[role := id])
    case RenameRole(role) =>
      if role in d.roleTmps then d.(roles := d.roles[role := d.roleTmps[role]], roleTmps := d.roleTmps - {role})
      else d
    case UnlinkRole(role) => d.(roles := d.roles - {role})
    case WriteEsp(file, image) => d.(esp := d.esp[file := image])
    case RenameEsp(source, target) =>
      if source in d.esp then d.(esp := (d.esp - {source})[target := d.esp[source]]) else d
    case WriteLimine(loader) => d.(limineTmp := Some(loader))
    case RenameLimine => if d.limineTmp.Some? then d.(limine := d.limineTmp, limineTmp := None) else d
  }

  function Run(d: Disk, ops: seq<Op>): (r: Disk)
    decreases |ops|
  {
    if ops == [] then d else Run(Apply(d, ops[0]), ops[1..])
  }

  lemma {:induction false} RunConcat(d: Disk, a: seq<Op>, b: seq<Op>)
    ensures Run(d, a + b) == Run(Run(d, a), b)
    decreases |a|
  {
    if a == [] {
      assert a + b == b;
    } else {
      assert (a + b)[1..] == a[1..] + b;
      RunConcat(Apply(d, a[0]), a[1..], b);
    }
  }

  lemma {:induction false} RunOne(d: Disk, a: Op)
    ensures Run(d, [a]) == Apply(d, a)
  {
    assert [a][1..] == [];
  }

  lemma {:induction false} RunTwo(d: Disk, a: Op, b: Op)
    ensures Run(d, [a, b]) == Apply(Apply(d, a), b)
  {
    assert [a, b][1..] == [b];
    RunOne(Apply(d, a), b);
  }

  /** What an operation leaves alone. */
  lemma {:induction false} EspFrame(d: Disk, op: Op)
    requires !op.WriteEsp? && !op.RenameEsp?
    ensures Apply(d, op).esp == d.esp
  {
    match op
    case MkDir(_) =>
    case WriteTemp(_, _) =>
    case PlaceTemp(_, _) =>
    case Seal(_) =>
    case CopyCfs(_, _) =>
    case SealCfs(_) =>
    case Link(_, _) =>
    case CopyUki(_, _) =>
    case CopyLoader(_, _) =>
    case RmTree(_) =>
    case Unlink(_) =>
    case _ =>
  }

  lemma {:induction false} RoleFrame(d: Disk, op: Op)
    requires !op.RenameRole? && !op.UnlinkRole?
    ensures Apply(d, op).roles == d.roles
  {
    match op
    case MkDir(_) =>
    case WriteTemp(_, _) =>
    case PlaceTemp(_, _) =>
    case Seal(_) =>
    case CopyCfs(_, _) =>
    case SealCfs(_) =>
    case Link(_, _) =>
    case CopyUki(_, _) =>
    case CopyLoader(_, _) =>
    case RmTree(_) =>
    case Unlink(_) =>
    case _ =>
  }

  // -------------------------------------------------------------- invariant

  ghost function Holders(dirs: map<Id, Dir>, g: Digest): set<Id> {
    set id | id in dirs && g in dirs[id].holder
  }

  /** Links to a store name besides the name itself: one for each holder that has the object. */
  ghost function Held(dirs: map<Id, Dir>, n: Name): nat {
    if n.Obj? then |Holders(dirs, n.digest)| else 0
  }

  ghost predicate InodesOk(d: Disk) {
    && (forall n | n in d.shared :: d.shared[n] in d.inodes)
    && (forall i | i in d.inodes :: i < d.next)
    && (forall m, n | m in d.shared && n in d.shared && d.shared[m] == d.shared[n] :: m == n)
  }

  /** Every holder entry is a link to the object of that name in the store. */
  ghost predicate HoldersOk(d: Disk) {
    forall id, g | id in d.dirs && g in d.dirs[id].holder ::
      Obj(g) in d.shared && d.shared[Obj(g)] == d.dirs[id].holder[g]
  }

  /** Link count is one, plus one for each holder. */
  ghost predicate CountsOk(d: Disk) {
    forall n | n in d.shared && d.shared[n] in d.inodes :: d.inodes[d.shared[n]].links == 1 + Held(d.dirs, n)
  }

  /** Every digest-named entry measures to its own name. */
  ghost predicate ContentOk(t: Tools, d: Disk) {
    forall g | Obj(g) in d.shared && d.shared[Obj(g)] in d.inodes :: t.measure(d.inodes[d.shared[Obj(g)]].bytes) == g
  }

  /** A finished deployment: sealed `root.cfs` of the expected digest, and a holder for all it needs. */
  ghost predicate Complete(t: Tools, dir: Dir, digest: Digest) {
    && dir.cfs.Some? && dir.sealed
    && t.measure(dir.cfs.value) == digest
    && Needed(t, dir.cfs.value) <= dir.holder.Keys
  }

  /** Names `gc` treats as deployments. */
  predicate PlainName(id: Id) { id != "shared" && !(id != "" && id[0] == '.') }

  /** The UKI is a commit marker: a directory that has one is finished, and has been named by it. */
  ghost predicate Committed(t: Tools, id: Id, dir: Dir) {
    && PlainName(id)
    && (dir.cfs.None? ==> dir == EMPTY_DIR)
    && (dir.uki.Some? ==> dir.uki.value.id == id && Complete(t, dir, dir.uki.value.digest))
  }

  ghost predicate CommitOk(t: Tools, d: Disk) {
    forall id | id in d.dirs :: Committed(t, id, d.dirs[id])
  }

  /** What holds of the disk at all times, whatever has been interrupted. */
  ghost predicate Inv(t: Tools, d: Disk) {
    InodesOk(d) && HoldersOk(d) && CountsOk(d) && ContentOk(t, d) && CommitOk(t, d)
  }

  /**
   The discipline the commands keep: what must hold for an operation to be issued, if it is not to fail (a link is not
   made over another, nothing is renamed or removed that is not there) and is to keep the invariant.
   */
  ghost predicate Permits(t: Tools, d: Disk, op: Op) {
    match op
    case MkDir(id) => PlainName(id)
    case WriteTemp(n, _) => !n.Obj?
    case PlaceTemp(n, g) =>
      && !n.Obj? && n in d.shared && Obj(g) !in d.shared
      && d.shared[n] in d.inodes && t.measure(d.inodes[d.shared[n]].bytes) == g
    case CopyCfs(id, _) => id in d.dirs && d.dirs[id].cfs.None?
    case SealCfs(id) => id in d.dirs && d.dirs[id].cfs.Some?
    case Link(id, g) => id in d.dirs && d.dirs[id].cfs.Some? && Obj(g) in d.shared && g !in d.dirs[id].holder
    case CopyUki(id, image) => id in d.dirs && image.id == id && Complete(t, d.dirs[id], image.digest)
    case CopyLoader(id, _) => id in d.dirs && d.dirs[id].cfs.Some?
    case Unlink(n) => n in d.shared && d.shared[n] in d.inodes && d.inodes[d.shared[n]].links == 1
    case UnlinkRoleTmp(role) => role in d.roleTmps
    case SymlinkRoleTmp(role, _) => role !in d.roleTmps
    case RenameRole(role) => role in d.roleTmps
    case UnlinkRole(role) => role in d.roles
    case RenameEsp(source, _) => source in d.esp
    case RenameLimine => d.limineTmp.Some?
    case _ => true
  }

  ghost predicate Legal(t: Tools, d: Disk, ops: seq<Op>)
    decreases |ops|
  {
    ops == [] || (Permits(t, d, ops[0]) && Legal(t, Apply(d, ops[0]), ops[1..]))
  }

  // -------------------------------------------- each operation keeps it

  /** Replacing a directory by a committed one with the same holder. */
  lemma {:induction false} SetDirKeeps(t: Tools, d: Disk, id: Id, dir: Dir)
    requires Inv(t, d) && Committed(t, id, dir)
    requires dir.holder == if id in d.dirs then d.dirs[id].holder else map[]
    ensures Inv(t, SetDir(d, id, dir))
  {
    var r := SetDir(d, id, dir);
    assert HoldersOk(r);
    forall g ensures Holders(r.dirs, g) == Holders(d.dirs, g) {}
    assert CountsOk(r) by {
      forall n | n in r.shared && r.shared[n] in r.inodes ensures Held(r.dirs, n) == Held(d.dirs, n) {}
    }
  }

  lemma {:induction false} RewriteTempKeeps(t: Tools, d: Disk, n: Name, bytes: Bytes)
    requires Inv(t, d) && !n.Obj? && n in d.shared
    ensures Inv(t, Apply(d, WriteTemp(n, bytes)))
  {
    var r := Apply(d, WriteTemp(n, bytes));
    assert r.shared == d.shared && r.dirs == d.dirs && r.inodes.Keys == d.inodes.Keys;
    assert forall m | m in d.shared && d.shared[m] in d.inodes ::
      r.inodes[d.shared[m]].links == d.inodes[d.shared[m]].links;
    assert forall m | m in d.shared && m != n :: d.shared[m] != d.shared[n];
  }

  lemma {:induction false} PlaceTempKeeps(t: Tools, d: Disk, n: Name, g: Digest)
    requires Inv(t, d) && Permits(t, d, PlaceTemp(n, g))
    ensures Inv(t, Apply(d, PlaceTemp(n, g)))
  {
    var r := Apply(d, PlaceTemp(n, g));
    assert Holders(d.dirs, g) == {} by {
      forall id | id in d.dirs ensures g !in d.dirs[id].holder {}
    }
    assert d.inodes[d.shared[n]].links == 1;
    assert InodesOk(r) by {
      forall a, b | a in r.shared && b in r.shared && r.shared[a] == r.shared[b] ensures a == b {
        var a', b' := if a == Obj(g) then n else a, if b == Obj(g) then n else b;
        assert d.shared[a'] == d.shared[b'];
      }
    }
    assert CountsOk(r) by {
      forall m | m in r.shared && r.shared[m] in r.inodes
        ensures r.inodes[r.shared[m]].links == 1 + Held(r.dirs, m)
      {
        if m != Obj(g) { assert m in d.shared; }
      }
    }
  }

  lemma {:induction false} LinkCounts(d: Disk, id: Id, g: Digest)
    requires InodesOk(d) && CountsOk(d)
    requires id in d.dirs && Obj(g) in d.shared && g !in d.dirs[id].holder
    ensures CountsOk(Apply(d, Link(id, g)))
  {
    var r := Apply(d, Link(id, g));
    assert Holders(r.dirs, g) == Holders(d.dirs, g) + {id} && id !in Holders(d.dirs, g);
    forall m | m in r.shared && r.shared[m] in r.inodes
      ensures r.inodes[r.shared[m]].links == 1 + Held(r.dirs, m)
    {
      if m != Obj(g) {
        assert d.shared[m] != d.shared[Obj(g)];
        if m.Obj? { assert Holders(r.dirs, m.digest) == Holders(d.dirs, m.digest); }
      }
    }
  }

  lemma {:induction false} LinkKeeps(t: Tools, d: Disk, id: Id, g: Digest)
    requires Inv(t, d) && Permits(t, d, Link(id, g))
    ensures Inv(t, Apply(d, Link(id, g)))
  {
    var r := Apply(d, Link(id, g));
    LinkCounts(d, id, g);
    assert r.shared == d.shared && r.inodes.Keys == d.inodes.Keys;
    assert forall i | i in d.inodes :: r.inodes[i].bytes == d.inodes[i].bytes;
    assert Committed(t, id, r.dirs[id]) by {
      assert Committed(t, id, d.dirs[id]);
    }
  }

  /** A holder names each store inode at most once. */
  lemma {:induction false} EntriesOfStored(d: Disk, id: Id, n: Name)
    requires InodesOk(d) && HoldersOk(d) && id in d.dirs && n in d.shared
    ensures Entries(d.dirs[id].holder, d.shared[n])
         == if n.Obj? && n.digest in d.dirs[id].holder then 1 else 0
  {
    var h := d.dirs[id].holder;
    var s := set g | g in h && h[g] == d.shared[n];
    forall g | g in s ensures n == Obj(g) {
      assert d.shared[Obj(g)] == d.shared[n];
    }
    if n.Obj? && n.digest in h {
      assert s == {n.digest};
    } else {
      assert s == {};
    }
  }

  lemma {:induction false} RmTreeKeeps(t: Tools, d: Disk, id: Id)
    requires Inv(t, d) && id in d.dirs
    ensures Inv(t, Apply(d, RmTree(id)))
  {
    var r := Apply(d, RmTree(id));
    assert CountsOk(r) by {
      forall n | n in r.shared && r.shared[n] in r.inodes
        ensures r.inodes[r.shared[n]].links == 1 + Held(r.dirs, n)
      {
        EntriesOfStored(d, id, n);
        if n.Obj? { assert Holders(r.dirs, n.digest) == Holders(d.dirs, n.digest) - {id}; }
      }
    }
  }

  lemma {:induction false} UnlinkKeeps(t: Tools, d: Disk, n: Name)
    requires Inv(t, d) && Permits(t, d, Unlink(n))
    ensures Inv(t, Apply(d, Unlink(n)))
  {
    var r := Apply(d, Unlink(n));
    assert n.Obj? ==> Holders(d.dirs, n.digest) == {};
    assert HoldersOk(r) by {
      forall id, g | id in r.dirs && g in r.dirs[id].holder
        ensures Obj(g) in r.shared && r.shared[Obj(g)] == r.dirs[id].holder[g]
      {
        assert id in Holders(d.dirs, g);
      }
    }
    assert CountsOk(r) by {
      forall m | m in r.shared && r.shared[m] in r.inodes
        ensures r.inodes[r.shared[m]].links == 1 + Held(r.dirs, m)
      {
        assert d.shared[m] != d.shared[n];
      }
    }
  }

  lemma {:induction false} DirOpKeeps(t: Tools, d: Disk, op: Op)
    requires Inv(t, d) && Permits(t, d, op)
    requires op.MkDir? || op.CopyCfs? || op.SealCfs? || op.CopyUki? || op.CopyLoader?
    ensures Inv(t, Apply(d, op))
  {
    var r := Apply(d, op);
    if r != d {
      if op.id in d.dirs { assert Committed(t, op.id, d.dirs[op.id]); }
      assert r == SetDir(d, op.id, r.dirs[op.id]);
      SetDirKeeps(t, d, op.id, r.dirs[op.id]);
    }
  }

  lemma {:induction false} StoreOpKeeps(t: Tools, d: Disk, op: Op)
    requires Inv(t, d) && Permits(t, d, op)
    requires op.WriteTemp? || op.PlaceTemp? || op.Seal? || op.Unlink?
    ensures Inv(t, Apply(d, op))
  {
    match op
    case WriteTemp(n, b) => if n in d.shared { RewriteTempKeeps(t, d, n, b); } else { }
    case PlaceTemp(n, g) => PlaceTempKeeps(t, d, n, g);
    case Seal(g) =>
    case Unlink(n) => UnlinkKeeps(t, d, n);
  }

  /** Every permitted operation keeps the invariant. */
  lemma {:induction false} ApplyKeeps(t: Tools, d: Disk, op: Op)
    requires Inv(t, d) && Permits(t, d, op)
    ensures Inv(t, Apply(d, op))
  {
    if op.MkDir? || op.CopyCfs? || op.SealCfs? || op.CopyUki? || op.CopyLoader? {
      DirOpKeeps(t, d, op);
    } else if op.WriteTemp? || op.PlaceTemp? || op.Seal? || op.Unlink? {
      StoreOpKeeps(t, d, op);
    } else if op.Link? {
      LinkKeeps(t, d, op.id, op.digest);
    } else if op.RmTree? {
      if op.id in d.dirs { RmTreeKeeps(t, d, op.id); }
    } else {
    }
  }

  lemma {:induction false} LegalKeeps(t: Tools, d: Disk, ops: seq<Op>)
    requires Inv(t, d) && Legal(t, d, ops)
    ensures Inv(t, Run(d, ops))
    decreases |ops|
  {
    if ops != [] {
      ApplyKeeps(t, d, ops[0]);
      LegalKeeps(t, Apply(d, ops[0]), ops[1..]);
    }
  }

  lemma {:induction false} LegalConcat(t: Tools, d: Disk, a: seq<Op>, b: seq<Op>)
    ensures Legal(t, d, a + b) <==> Legal(t, d, a) && Legal(t, Run(d, a), b)
    decreases |a|
  {
    if a == [] {
      assert a + b == b;
    } else {
      assert (a + b)[1..] == a[1..] + b;
      LegalConcat(t, Apply(d, a[0]), a[1..], b);
    }
  }

  lemma {:induction false} LegalPrefix(t: Tools, d: Disk, ops: seq<Op>, k: nat)
    requires Legal(t, d, ops) && k <= |ops|
    ensures Legal(t, d, ops[..k])
  {
    assert ops == ops[..k] + ops[k..];
    LegalConcat(t, d, ops[..k], ops[k..]);
  }
}
