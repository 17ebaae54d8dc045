/** The tree of nodes an FS serves (fs/static.go, fs/filesystem.go). `N` is the identity of
    a node object; the nodes map is the heap of them, linked or not. */
module FileTree {
  import opened Bytes
  import opened Proto

  datatype Kind = Directory | Regular | AuthStream

  /** A StaticDir, a StaticFile or the stream file of an authentication. */
  datatype Node<N> = Node(kind: Kind, stat: Stat, parent: Option<N>, children: seq<N>, data: Data)

  type Heap<N> = map<N, Node<N>>

  datatype FS<N> = FS(nodes: Heap<N>, root: N, uid: nat)

  // ---------------------------------------------------------------- mode bits

  /** Bit 31, DMDIR. */
  predicate DirBit(mode: u32) { mode >= 0x8000_0000 }

  function WithDirBit(mode: u32): u32 { if DirBit(mode) then mode else mode + 0x8000_0000 }

  /** The high byte, `uint8(mode >> 24)`. */
  function HighByte(mode: u32): byte { mode / 0x100_0000 }

  /** The low nine bits of `mode` replaced by those of `perm`. */
  function WithPerm(mode: u32, perm: u32): u32 { mode - mode % 512 + perm % 512 }

  // ----------------------------------------------------------------- one node

  /** What the node's Stat method returns: a StaticFile reports the length of its data, a
      stream none. */
  function StatOf<N>(n: Node<N>): Stat {
    match n.kind
    case Directory => n.stat
    case Regular => n.stat.(length := Wrap64(|n.data|))
    case AuthStream => n.stat.(length := 0)
  }

  function NewStat(uid: nat, name: Data, user: Data, group: Data, mode: u32, now: u32): Stat {
    Stat(0, 0, Qid(HighByte(mode), 0, Wrap64(uid)), mode, now, now, 0, name, user, group, user)
  }

  function NewFile<N>(stat: Stat): Node<N> { Node(Regular, stat.(length := 0), None, [], []) }

  function NewDir<N>(stat: Stat): Node<N> {
    var mode := WithDirBit(stat.mode);
    Node(Directory, stat.(mode := mode, qid := stat.qid.(qtype := HighByte(mode))), None, [], [])
  }

  /** fs/static.go:45-56 */
  function ReadAt(data: Data, offset: nat, count: nat): Data {
    if offset >= |data| then []
    else if offset + count > |data| then data[offset..]
    else data[offset..offset + count]
  }

  /** The largest slice Go makes on a 64-bit platform. */
  const MAX_ALLOC: nat := 0x1_0000_0000_0000

  /** fs/static.go:63-70: a write panics when offset and length together leave 64 bits, as the
      slice bounds are then out of order, or when the file would have to grow beyond what a
      slice can hold. */
  predicate WritePanics(length: nat, offset: nat, n: nat) {
    offset + n >= TWO64 || (offset + n > length && offset + n > MAX_ALLOC)
  }

  function Zeros(n: nat): Data { seq(n, _ => 0) }

  /** fs/static.go:58-72: the file grows, with zeroes in any gap, then is overwritten. */
  function WriteAt(data: Data, offset: nat, d: Data): (r: Data)
    ensures |r| == if offset + |d| > |data| then offset + |d| else |data|
  {
    var grown := if offset + |d| > |data| then data + Zeros(offset + |d| - |data|) else data;
    grown[..offset] + d + grown[offset + |d|..]
  }

  /** What a write leaves, also when it panics: if the uint64 sum of offset and length went
      round and is still beyond the end, the file has grown that far by then. */
  function Written(data: Data, offset: nat, d: Data): Data {
    if !WritePanics(|data|, offset, |d|) then WriteAt(data, offset, d)
    else if |data| < Wrap64(offset + |d|) <= MAX_ALLOC then data + Zeros(Wrap64(offset + |d|) - |data|)
    else data
  }

  // -------------------------------------------------------------- directories

  function NameOf<N>(nodes: Heap<N>, n: N): Data { if n in nodes then nodes[n].stat.name else [] }

  /** The map Children builds: of several children with one name the last counts. */
  function Lookup<N>(nodes: Heap<N>, cs: seq<N>, name: Data): Option<N> {
    if cs == [] then None
    else if NameOf(nodes, cs[|cs| - 1]) == name then Some(cs[|cs| - 1])
    else Lookup(nodes, cs[..|cs| - 1], name)
  }

  /** The children whose name is not `name`, in order. */
  function Keep<N>(nodes: Heap<N>, cs: seq<N>, name: Data): seq<N> {
    if cs == [] then []
    else (if NameOf(nodes, cs[0]) == name then [] else [cs[0]]) + Keep(nodes, cs[1..], name)
  }

  /** The values of the map Children builds. */
  function Visible<N>(nodes: Heap<N>, cs: seq<N>): seq<N> {
    if cs == [] then []
    else Keep(nodes, Visible(nodes, cs[..|cs| - 1]), NameOf(nodes, cs[|cs| - 1])) + [cs[|cs| - 1]]
  }

  /** fs/static.go:130-142: refused when a child of that name exists. */
  function AddChild<N>(nodes: Heap<N>, d: N, n: N): Option<Heap<N>>
    requires d in nodes && n in nodes
  {
    if Lookup(nodes, nodes[d].children, NameOf(nodes, n)).Some? then None
    else
      var nodes' := nodes[d := nodes[d].(children := nodes[d].children + [n])];
      Some(nodes'[n := nodes'[n].(parent := Some(d))])
  }

  /** fs/static.go:144-158: every child of that name goes and loses its parent. */
  function DeleteChild<N>(nodes: Heap<N>, d: N, name: Data): (nodes': Heap<N>)
    requires d in nodes
    ensures nodes'.Keys == nodes.Keys
  {
    map x | x in nodes ::
      var n := if x in nodes[d].children && NameOf(nodes, x) == name then nodes[x].(parent := None) else nodes[x];
      if x == d then n.(children := Keep(nodes, nodes[d].children, name)) else n
  }

  // ---------------------------------------------------------------- operations

  /** fs/filesystem.go:215-223 */
  function NewFS<N>(root: N, user: Data, group: Data, perms: u32, now: u32): FS<N> {
    FS(map[root := NewDir(NewStat(0, [47], user, group, WithDirBit(perms), now))], root, 1)
  }

  /** The node a create makes; the directory decides nothing about it but its place. */
  function Created<N>(uid: nat, user: Data, name: Data, perm: u32, now: u32): Node<N> {
    var stat := NewStat(uid, name, user, user, perm, now);
    if DirBit(perm) then NewDir(stat) else NewFile(stat)
  }

  /** CreateStaticFile and CreateStaticDir (fs/static.go:163-184). Even when the name is
      taken the new node exists and its uid is used up. */
  function Create<N>(fs: FS<N>, d: N, n: N, user: Data, name: Data, perm: u32, now: u32): (FS<N>, bool)
    requires d in fs.nodes && n !in fs.nodes
  {
    var nodes := fs.nodes[n := Created(fs.uid, user, name, perm, now)];
    match AddChild(nodes, d, n)
    case Some(nodes') => (FS(nodes', fs.root, fs.uid + 1), true)
    case None => (FS(nodes, fs.root, fs.uid + 1), false)
  }

  /** RMFile (fs/filesystem.go:263-269). */
  function Remove<N>(fs: FS<N>, n: N): (FS<N>, bool)
    requires n in fs.nodes
  {
    var parent := fs.nodes[n].parent;
    if parent.None? || parent.value !in fs.nodes || fs.nodes[parent.value].kind != Directory then (fs, false)
    else (fs.(nodes := DeleteChild(fs.nodes, parent.value, NameOf(fs.nodes, n))), true)
  }

  function SetStat<N>(fs: FS<N>, n: N, stat: Stat): FS<N>
    requires n in fs.nodes
  { fs.(nodes := fs.nodes[n := fs.nodes[n].(stat := stat)]) }

  function SetData<N>(fs: FS<N>, n: N, data: Data): FS<N>
    requires n in fs.nodes
  { fs.(nodes := fs.nodes[n := fs.nodes[n].(data := data)]) }
}
