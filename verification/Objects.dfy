/**
 The object store (`zerith/objects.py`) as plans: the operations each function issues from a given disk,
 and whether it returns or dies. A crash, or a tool failing half way, is a prefix of a plan.
 */
module Objects {
  import opened Options
  import opened Pack
  import opened Filesystem

  datatype Plan = Plan(ops: seq<Op>, ok: bool)

  function Then(p: Plan, q: Plan): Plan {
    if p.ok then Plan(p.ops + q.ops, q.ok) else p
  }

  lemma {:induction false} ThenAssoc(p: Plan, q: Plan, r: Plan)
    ensures Then(Then(p, q), r) == Then(p, Then(q, r))
  {
    if p.ok && q.ok { assert p.ops + q.ops + r.ops == p.ops + (q.ops + r.ops); }
  }

  /** The state a plan leaves. */
  function Do(d: Disk, p: Plan): Disk { Run(d, p.ops) }

  lemma {:induction false} ThenLegal(t: Tools, d: Disk, p: Plan, q: Plan)
    requires Legal(t, d, p.ops) && (p.ok ==> Legal(t, Do(d, p), q.ops))
    ensures Legal(t, d, Then(p, q).ops)
    ensures p.ok ==> Do(d, Then(p, q)) == Do(Do(d, p), q)
  {
    LegalConcat(t, d, p.ops, q.ops);
    RunConcat(d, p.ops, q.ops);
  }

  // -------------------------------------------------------------- contents

  function Digests(d: Disk): (s: set<Digest>) {
    set n | n in d.shared && n.Obj? :: n.digest
  }

  function ObjBytes(d: Disk, g: Digest): (b: Bytes) {
    if Obj(g) in d.shared && d.shared[Obj(g)] in d.inodes then d.inodes[d.shared[Obj(g)]].bytes else []
  }

  /** The store by name. */
  function Contents(d: Disk): (m: map<Digest, Bytes>) {
    map g | g in Digests(d) :: ObjBytes(d, g)
  }

  lemma {:induction false} InContents(d: Disk, g: Digest)
    ensures g in Digests(d) <==> Obj(g) in d.shared
    ensures g in Contents(d) <==> Obj(g) in d.shared
  {
    if Obj(g) in d.shared { assert Obj(g).digest in Digests(d); }
  }

  function IsSealed(d: Disk, g: Digest): bool {
    Obj(g) in d.shared && d.shared[Obj(g)] in d.inodes && d.inodes[d.shared[Obj(g)]].sealed
  }

  // --------------------------------------------------------------- landing

  /** An object to land: its name, the bytes found for it, and which path found them. */
  datatype Piece = Piece(digest: Digest, bytes: Bytes, fromTree: bool) {
    function Temp(): Name { if fromTree then TreeTemp(digest) else PackTemp(digest) }
  }

  /** `place_object`: verify the temporary against its name, move it into place, seal it. */
  function PlaceObject(t: Tools, d: Disk, temp: Name, g: Digest): (p: Plan) {
    if Obj(g) in d.shared then Plan([], true)
    else if temp in d.shared && d.shared[temp] in d.inodes && t.measure(d.inodes[d.shared[temp]].bytes) == g then
      Plan([PlaceTemp(temp, g), Seal(g)], true)
    else Plan([], false)
  }

  /** One round of the landing loops. */
  function LandPiece(t: Tools, d: Disk, p: Piece): (r: Plan) {
    if Obj(p.digest) in d.shared then Plan([], true)
    else
      var write := WriteTemp(p.Temp(), p.bytes);
      Then(Plan([write], true), PlaceObject(t, Apply(d, write), p.Temp(), p.digest))
  }

  function LandPieces(t: Tools, d: Disk, ps: seq<Piece>): (r: Plan)
    decreases |ps|
  {
    if ps == [] then Plan([], true)
    else
      var first := LandPiece(t, d, ps[0]);
      Then(first, LandPieces(t, Do(d, first), ps[1..]))
  }

  /** Operations that touch the store's files only. */
  predicate StoreOp(op: Op) { op.WriteTemp? || op.PlaceTemp? || op.Seal? }

  predicate AllStoreOps(ops: seq<Op>) { forall op | op in ops :: StoreOp(op) }

  /** Everything but the store is as it was. */
  ghost predicate SameHost(d: Disk, r: Disk) {
    && r.roles == d.roles && r.roleTmps == d.roleTmps
    && r.esp == d.esp && r.limine == d.limine && r.limineTmp == d.limineTmp
    && r.dirs == d.dirs
  }

  /** Every object of `d` is in `r`: the same inode, the same bytes. */
  ghost predicate Extends(d: Disk, r: Disk) {
    forall g | Obj(g) in d.shared ::
      && Obj(g) in r.shared && r.shared[Obj(g)] == d.shared[Obj(g)]
      && ObjBytes(r, g) == ObjBytes(d, g) && (IsSealed(d, g) ==> IsSealed(r, g))
  }

  /** The object files of `d`, inode by inode, are in `r`. */
  ghost predicate SameFiles(d: Disk, r: Disk) {
    forall g | Obj(g) in d.shared ::
      && Obj(g) in r.shared && r.shared[Obj(g)] == d.shared[Obj(g)]
      && d.shared[Obj(g)] in d.inodes && d.shared[Obj(g)] in r.inodes
      && r.inodes[d.shared[Obj(g)]] == d.inodes[d.shared[Obj(g)]]
  }

  lemma {:induction false} FreshTempExtends(t: Tools, d: Disk, n: Name, bytes: Bytes)
    requires InodesOk(d) && !n.Obj? && n !in d.shared
    ensures SameFiles(d, Apply(d, WriteTemp(n, bytes)))
  {
    assert d.next !in d.inodes;
  }

  lemma {:induction false} RewriteTempExtends(t: Tools, d: Disk, n: Name, bytes: Bytes)
    requires InodesOk(d) && !n.Obj? && n in d.shared
    ensures SameFiles(d, Apply(d, WriteTemp(n, bytes)))
  {
    forall g | Obj(g) in d.shared ensures d.shared[Obj(g)] != d.shared[n] {}
  }

  lemma {:induction false} WriteTempExtends(t: Tools, d: Disk, n: Name, bytes: Bytes)
    requires InodesOk(d) && !n.Obj?
    ensures Extends(d, Apply(d, WriteTemp(n, bytes)))
  {
    if n in d.shared { RewriteTempExtends(t, d, n, bytes); } else { FreshTempExtends(t, d, n, bytes); }
    assert SameFiles(d, Apply(d, WriteTemp(n, bytes)));
  }

  lemma {:induction false} PlaceTempExtends(t: Tools, d: Disk, n: Name, g: Digest)
    requires Inv(t, d) && Permits(t, d, PlaceTemp(n, g))
    ensures Extends(d, Apply(d, PlaceTemp(n, g)))
  {
  }

  lemma {:induction false} SealExtends(t: Tools, d: Disk, g: Digest)
    requires Inv(t, d)
    ensures Extends(d, Apply(d, Seal(g)))
  {
  }

  lemma {:induction false} StoreOpExtends(t: Tools, d: Disk, op: Op)
    requires Inv(t, d) && Permits(t, d, op) && StoreOp(op)
    ensures SameHost(d, Apply(d, op)) && Extends(d, Apply(d, op))
  {
    match op
    case WriteTemp(n, b) => WriteTempExtends(t, d, n, b);
    case PlaceTemp(n, g) => PlaceTempExtends(t, d, n, g);
    case Seal(g) => SealExtends(t, d, g);
  }

  /** Landing, stopped anywhere, changes no existing object and nothing outside the store. */
  lemma {:induction false} StoreOpsExtend(t: Tools, d: Disk, ops: seq<Op>)
    requires Inv(t, d) && Legal(t, d, ops) && AllStoreOps(ops)
    ensures SameHost(d, Run(d, ops)) && Extends(d, Run(d, ops))
    decreases |ops|
  {
    if ops != [] {
      StoreOpExtends(t, d, ops[0]);
      ApplyKeeps(t, d, ops[0]);
      StoreOpsExtend(t, Apply(d, ops[0]), ops[1..]);
    }
  }

  lemma {:induction false} Legal1(t: Tools, d: Disk, a: Op)
    requires Permits(t, d, a)
    ensures Legal(t, d, [a]) && Run(d, [a]) == Apply(d, a)
  {
    assert [a][1..] == [];
  }

  lemma {:induction false} Legal2(t: Tools, d: Disk, a: Op, b: Op)
    requires Permits(t, d, a) && Permits(t, Apply(d, a), b)
    ensures Legal(t, d, [a, b]) && Run(d, [a, b]) == Apply(Apply(d, a), b)
  {
    assert [a, b][1..] == [b];
    Legal1(t, Apply(d, a), b);
  }

  function MergeOne(c: map<Digest, Bytes>, p: Piece): map<Digest, Bytes> {
    if p.digest in c then c else c[p.digest := p.bytes]
  }

  /** What landing adds: each piece whose name the store does not have yet. */
  function Merge(c: map<Digest, Bytes>, ps: seq<Piece>): (r: map<Digest, Bytes>)
    decreases |ps|
  {
    if ps == [] then c else Merge(MergeOne(c, ps[0]), ps[1..])
  }

  /** Two stores with the same names and bytes have the same contents. */
  lemma {:induction false} SameContents(d: Disk, r: Disk)
    requires forall g :: Obj(g) in r.shared <==> Obj(g) in d.shared
    requires forall g | Obj(g) in d.shared :: ObjBytes(r, g) == ObjBytes(d, g)
    ensures Contents(r) == Contents(d)
  {
    forall h ensures h in Digests(r) <==> h in Digests(d) {
      InContents(d, h);
      InContents(r, h);
    }
    forall h | h in Digests(d) ensures ObjBytes(r, h) == ObjBytes(d, h) { InContents(d, h); }
  }

  lemma {:induction false} AddedContents(d: Disk, r: Disk, g: Digest, bytes: Bytes)
    requires forall h :: Obj(h) in r.shared <==> Obj(h) in d.shared || h == g
    requires forall h | Obj(h) in r.shared :: ObjBytes(r, h) == if h == g then bytes else ObjBytes(d, h)
    ensures Contents(r) == Contents(d)[g := bytes]
  {
    forall h ensures h in Digests(r) <==> h in Digests(d) || h == g {
      InContents(d, h);
      InContents(r, h);
    }
    forall h | h in Digests(r) ensures ObjBytes(r, h) == if h == g then bytes else ObjBytes(d, h) { InContents(r, h); }
  }

  lemma {:induction false} PlacedIn(t: Tools, d: Disk, temp: Name, g: Digest)
    requires Inv(t, d) && Permits(t, d, PlaceTemp(temp, g))
    ensures var r := Apply(Apply(d, PlaceTemp(temp, g)), Seal(g));
            && Contents(r) == Contents(d)[g := d.inodes[d.shared[temp]].bytes]
            && IsSealed(r, g)
  {
    var m := Apply(d, PlaceTemp(temp, g));
    var r := Apply(m, Seal(g));
    assert r.shared == m.shared == (d.shared - {temp})[Obj(g) := d.shared[temp]];
    assert m.inodes == d.inodes && forall i | i in d.inodes :: i in r.inodes && r.inodes[i].bytes == d.inodes[i].bytes;
    AddedContents(d, r, g, d.inodes[d.shared[temp]].bytes);
  }

  lemma {:induction false} WrittenTemp(t: Tools, d: Disk, n: Name, bytes: Bytes)
    requires Inv(t, d) && !n.Obj?
    ensures var m := Apply(d, WriteTemp(n, bytes));
            && Inv(t, m) && SameHost(d, m) && Contents(m) == Contents(d)
            && n in m.shared && m.shared[n] in m.inodes && m.inodes[m.shared[n]].bytes == bytes
            && forall g :: Obj(g) in m.shared <==> Obj(g) in d.shared
  {
    var m := Apply(d, WriteTemp(n, bytes));
    ApplyKeeps(t, d, WriteTemp(n, bytes));
    WriteTempExtends(t, d, n, bytes);
    SameContents(d, m);
  }

  /** One round lands its piece, sealed, or dies before anything but a temporary has changed, or changes nothing. */
  lemma {:induction false} LandPieceEffect(t: Tools, d: Disk, p: Piece)
    requires Inv(t, d)
    ensures var r := LandPiece(t, d, p);
            && Legal(t, d, r.ops) && AllStoreOps(r.ops)
            && (r.ok <==> Obj(p.digest) in d.shared || t.measure(p.bytes) == p.digest)
            && (Obj(p.digest) in d.shared ==> Do(d, r) == d)
            && Contents(Do(d, r)) == (if r.ok then MergeOne(Contents(d), p) else Contents(d))
            && (Obj(p.digest) !in d.shared && r.ok ==> IsSealed(Do(d, r), p.digest))
  {
    InContents(d, p.digest);
    if Obj(p.digest) !in d.shared {
      var w := WriteTemp(p.Temp(), p.bytes);
      var m := Apply(d, w);
      WrittenTemp(t, d, p.Temp(), p.bytes);
      Legal1(t, d, w);
      if t.measure(p.bytes) == p.digest {
        var a, b := PlaceTemp(p.Temp(), p.digest), Seal(p.digest);
        Legal2(t, m, a, b);
        PlacedIn(t, m, p.Temp(), p.digest);
        ThenLegal(t, d, Plan([w], true), Plan([a, b], true));
      } else {
        assert [w] + [] == [w];
      }
    }
  }

  ghost predicate Measured(t: Tools, ps: seq<Piece>) {
    forall p | p in ps :: t.measure(p.bytes) == p.digest
  }

  /**
   Landing a list of pieces: whatever bytes they carry it keeps the store's discipline; when it returns, the
   store is the old one plus the first piece for each new name; and it returns when every piece measures.
   */
  lemma {:induction false} LandPiecesEffect(t: Tools, d: Disk, ps: seq<Piece>)
    requires Inv(t, d)
    ensures var r := LandPieces(t, d, ps);
            && Legal(t, d, r.ops) && AllStoreOps(r.ops)
            && (r.ok ==> Contents(Do(d, r)) == Merge(Contents(d), ps))
            && (Measured(t, ps) ==> r.ok)
    decreases |ps|
  {
    if ps != [] {
      var first := LandPiece(t, d, ps[0]);
      var m := Do(d, first);
      LandPieceEffect(t, d, ps[0]);
      LegalKeeps(t, d, first.ops);
      LandPiecesEffect(t, m, ps[1..]);
      ThenLegal(t, d, first, LandPieces(t, m, ps[1..]));
      assert Measured(t, ps) ==> t.measure(ps[0].bytes) == ps[0].digest;
    }
  }

  lemma {:induction false} MergeHas(c: map<Digest, Bytes>, ps: seq<Piece>, g: Digest)
    ensures g in Merge(c, ps) <==> g in c || exists p | p in ps :: p.digest == g
    ensures g in c ==> g in Merge(c, ps) && Merge(c, ps)[g] == c[g]
    decreases |ps|
  {
    if ps != [] {
      MergeHas(MergeOne(c, ps[0]), ps[1..], g);
      assert ps == [ps[0]] + ps[1..];
    }
  }

  // --------------------------------------------------------------- holders

  function LinkOne(d: Disk, id: Id, g: Digest): (ops: seq<Op>) {
    if id in d.dirs && Obj(g) in d.shared && g !in d.dirs[id].holder then [Link(id, g)] else []
  }

  /** `link_holder`: one link for each referenced object the store has and the holder has not. */
  function LinkRefs(d: Disk, id: Id, refs: seq<Digest>): (ops: seq<Op>)
    decreases |refs|
  {
    if refs == [] then []
    else
      var first := LinkOne(d, id, refs[0]);
      first + LinkRefs(Run(d, first), id, refs[1..])
  }

  /** Only the holder of `id`, and link counts, may differ. */
  ghost predicate OnlyHolder(d: Disk, r: Disk, id: Id) {
    && r.roles == d.roles && r.roleTmps == d.roleTmps
    && r.esp == d.esp && r.limine == d.limine && r.limineTmp == d.limineTmp
    && r.shared == d.shared && r.next == d.next
    && id in d.dirs && r.dirs.Keys == d.dirs.Keys
    && (forall i | i in d.dirs && i != id :: r.dirs[i] == d.dirs[i])
    && r.dirs[id] == d.dirs[id].(holder := r.dirs[id].holder)
    && r.inodes.Keys == d.inodes.Keys
    && (forall i | i in d.inodes :: r.inodes[i].bytes == d.inodes[i].bytes && r.inodes[i].sealed == d.inodes[i].sealed)
  }

  predicate AllLinks(ops: seq<Op>, id: Id) { forall op | op in ops :: op.Link? && op.id == id }

  lemma {:induction false} LinkOneEffect(t: Tools, d: Disk, id: Id, g: Digest)
    requires Inv(t, d) && id in d.dirs && d.dirs[id].cfs.Some?
    ensures var ops := LinkOne(d, id, g);
            && Legal(t, d, ops) && AllLinks(ops, id) && Inv(t, Run(d, ops))
            && OnlyHolder(d, Run(d, ops), id)
            && Run(d, ops).dirs[id].holder.Keys == d.dirs[id].holder.Keys + (if Obj(g) in d.shared then {g} else {})
  {
    var ops := LinkOne(d, id, g);
    if ops != [] {
      Legal1(t, d, ops[0]);
      ApplyKeeps(t, d, ops[0]);
    }
  }

  lemma {:induction false} OnlyHolderTrans(d: Disk, m: Disk, r: Disk, id: Id)
    requires OnlyHolder(d, m, id) && OnlyHolder(m, r, id)
    ensures OnlyHolder(d, r, id)
  {
  }

  function Present(d: Disk, refs: seq<Digest>): set<Digest> {
    set g | g in refs && Obj(g) in d.shared
  }

  lemma {:induction false} PresentStep(d: Disk, m: Disk, refs: seq<Digest>)
    requires refs != [] && m.shared == d.shared
    ensures Present(d, refs) == (if Obj(refs[0]) in d.shared then {refs[0]} else {}) + Present(m, refs[1..])
  {
    assert refs == [refs[0]] + refs[1..];
  }

  lemma {:induction false} LinkRefsLegal(t: Tools, d: Disk, id: Id, refs: seq<Digest>)
    requires Inv(t, d) && id in d.dirs && d.dirs[id].cfs.Some?
    ensures var ops := LinkRefs(d, id, refs);
            Legal(t, d, ops) && AllLinks(ops, id) && OnlyHolder(d, Run(d, ops), id)
    decreases |refs|
  {
    if refs != [] {
      var first := LinkOne(d, id, refs[0]);
      var m := Run(d, first);
      var rest := LinkRefs(m, id, refs[1..]);
      LinkOneEffect(t, d, id, refs[0]);
      LinkRefsLegal(t, m, id, refs[1..]);
      LegalConcat(t, d, first, rest);
      RunConcat(d, first, rest);
      OnlyHolderTrans(d, m, Run(m, rest), id);
    }
  }

  lemma {:induction false} LinkOneKeys(t: Tools, d: Disk, id: Id, g: Digest)
    requires Inv(t, d) && id in d.dirs && d.dirs[id].cfs.Some?
    ensures var m := Run(d, LinkOne(d, id, g));
            && Inv(t, m) && m.shared == d.shared && id in m.dirs && m.dirs[id].cfs.Some?
            && m.dirs[id].holder.Keys == d.dirs[id].holder.Keys + (if Obj(g) in d.shared then {g} else {})
  {
    LinkOneEffect(t, d, id, g);
  }

  lemma {:induction false} LinkRefsKeys(t: Tools, d: Disk, id: Id, refs: seq<Digest>)
    requires Inv(t, d) && id in d.dirs && d.dirs[id].cfs.Some?
    ensures var r := Run(d, LinkRefs(d, id, refs));
            id in r.dirs && r.dirs[id].holder.Keys == d.dirs[id].holder.Keys + Present(d, refs)
    decreases |refs|
  {
    if refs != [] {
      var first := LinkOne(d, id, refs[0]);
      var m := Run(d, first);
      LinkOneKeys(t, d, id, refs[0]);
      LinkRefsKeys(t, m, id, refs[1..]);
      RunConcat(d, first, LinkRefs(m, id, refs[1..]));
      PresentStep(d, m, refs);
    }
  }

  /** The holder gains exactly the referenced objects the store has; nothing else changes but link counts. */
  lemma {:induction false} LinkRefsEffect(t: Tools, d: Disk, id: Id, refs: seq<Digest>)
    requires Inv(t, d) && id in d.dirs && d.dirs[id].cfs.Some?
    ensures var ops := LinkRefs(d, id, refs);
            && Legal(t, d, ops) && AllLinks(ops, id)
            && OnlyHolder(d, Run(d, ops), id)
            && Run(d, ops).dirs[id].holder.Keys == d.dirs[id].holder.Keys + Present(d, refs)
  {
    LinkRefsLegal(t, d, id, refs);
    LinkRefsKeys(t, d, id, refs);
  }

  lemma {:induction false} LinkOneCount(d: Disk, id: Id, g: Digest)
    requires id in d.dirs
    ensures var m := Run(d, LinkOne(d, id, g));
            id in m.dirs && |LinkOne(d, id, g)| == |m.dirs[id].holder| - |d.dirs[id].holder|
  {
    var h := d.dirs[id].holder;
    if LinkOne(d, id, g) != [] {
      RunOne(d, Link(id, g));
      var i := d.shared[Obj(g)];
      assert h[g := i].Keys == h.Keys + {g};
      assert |h[g := i].Keys| == |h[g := i]| && |h.Keys| == |h|;
    }
  }

  /** As many links are made as the holder grows by. */
  lemma {:induction false} LinkCount(d: Disk, id: Id, refs: seq<Digest>)
    requires id in d.dirs
    ensures var r := Run(d, LinkRefs(d, id, refs));
            id in r.dirs && |LinkRefs(d, id, refs)| == |r.dirs[id].holder| - |d.dirs[id].holder|
    decreases |refs|
  {
    if refs != [] {
      var first := LinkOne(d, id, refs[0]);
      LinkOneCount(d, id, refs[0]);
      LinkCount(Run(d, first), id, refs[1..]);
      RunConcat(d, first, LinkRefs(Run(d, first), id, refs[1..]));
    }
  }

  // ------------------------------------------------------------------ sweep

  function SweepOne(d: Disk, n: Name): (ops: seq<Op>) {
    if n in d.shared && d.shared[n] in d.inodes && d.inodes[d.shared[n]].links == 1 then [Unlink(n)] else []
  }

  /** `sweep_orphans`: unlink every file of the walk whose link count is one. */
  function Sweep(d: Disk, names: seq<Name>): (ops: seq<Op>)
    decreases |names|
  {
    if names == [] then []
    else
      var first := SweepOne(d, names[0]);
      first + Sweep(Run(d, first), names[1..])
  }

  predicate AllUnlinks(ops: seq<Op>) { forall op | op in ops :: op.Unlink? }

  /** The names still held after a sweep of `names`. */
  ghost function Kept(d: Disk, names: set<Name>): set<Name> {
    set n | n in d.shared && (n in names ==> Held(d.dirs, n) > 0)
  }

  /** What is left of the store is as it was: same inode, same bytes, links and seal. */
  ghost predicate Survives(d: Disk, r: Disk) {
    forall n | n in r.shared ::
      && n in d.shared && r.shared[n] == d.shared[n]
      && d.shared[n] in d.inodes && d.shared[n] in r.inodes
      && r.inodes[d.shared[n]] == d.inodes[d.shared[n]]
  }

  lemma {:induction false} SweepOneEffect(t: Tools, d: Disk, n: Name)
    requires Inv(t, d)
    ensures var ops := SweepOne(d, n);
            var m := Run(d, ops);
            && Legal(t, d, ops) && AllUnlinks(ops) && Inv(t, m) && SameHost(d, m) && Survives(d, m)
            && m.shared.Keys == Kept(d, {n}) && |ops| == |d.shared| - |m.shared|
  {
    var ops := SweepOne(d, n);
    var m := Run(d, ops);
    if ops != [] {
      Legal1(t, d, ops[0]);
      ApplyKeeps(t, d, ops[0]);
      assert m.shared.Keys == d.shared.Keys - {n};
      assert |m.shared.Keys| == |d.shared.Keys| - 1;
      forall k | k in m.shared ensures d.shared[k] != d.shared[n] {}
    } else {
      assert Kept(d, {n}) == d.shared.Keys;
    }
  }

  /**
   The sweep looks at link counts alone, yet removes exactly the listed names no holder has: held objects
   stay with their inode and bytes, temporaries of interrupted landings go.
   */
  lemma {:induction false} SweepEffect(t: Tools, d: Disk, names: seq<Name>)
    requires Inv(t, d)
    ensures var ops := Sweep(d, names);
            var r := Run(d, ops);
            && Legal(t, d, ops) && AllUnlinks(ops) && SameHost(d, r) && Survives(d, r)
            && r.shared.Keys == Kept(d, Elems(names)) && |ops| == |d.shared| - |r.shared|
    decreases |names|
  {
    if names == [] {
      assert Kept(d, Elems(names)) == d.shared.Keys;
    } else {
      var n := names[0];
      var first := SweepOne(d, n);
      var m := Run(d, first);
      var rest := Sweep(m, names[1..]);
      SweepOneEffect(t, d, n);
      SweepEffect(t, m, names[1..]);
      LegalConcat(t, d, first, rest);
      RunConcat(d, first, rest);
      assert Elems(names) == {n} + Elems(names[1..]);
      KeptTwice(d, m, {n}, Elems(names[1..]));
    }
  }

  lemma {:induction false} KeptTwice(d: Disk, m: Disk, a: set<Name>, b: set<Name>)
    requires m.dirs == d.dirs && m.shared.Keys == Kept(d, a)
    ensures Kept(m, b) == Kept(d, a + b)
  {
  }
}
