/** The union file system's mount table (union/union.go). Directories that binds refer to
    live in a heap and are told apart by their id; id 0 is the root, the only one whose
    table changes. What Children returns are directories made on the spot, hence values.
    `age` is history: the number of the Mount or Bind that made the entry. */
module Union {
  import opened Bytes

  datatype Source = Client(c: nat) | Bound(d: nat)

  datatype Entry = Entry(src: Source, mountPoint: Data, replace: bool, create: bool, age: nat)

  datatype Dir = Dir(path: Data, mount: Option<Entry>, table: seq<Entry>)

  datatype Node = DirNode(dir: Dir) | FileNode(path: Data, mount: Entry)

  /** filepath.Rel and filepath.Join, and what a client's Readdir gives: the entries with
      their names and whether they are directories, or an error. */
  datatype Env = Env(rel: (Data, Data) -> Option<Data>, join: (Data, Data) -> Data,
                     readdir: (nat, Data) -> Option<seq<(Data, bool)>>)

  type Heap = map<nat, Dir>

  const ROOT: nat := 0
  const SLASH: byte := 47

  // ------------------------------------------------------------------ path parts

  /** strings.Split(s, "/"). */
  function Split(s: Data): (r: seq<Data>)
    ensures |r| > 0
  {
    if s == [] then [[]]
    else
      var rest := Split(s[1..]);
      if s[0] == SLASH then [[]] + rest else [[s[0]] + rest[0]] + rest[1..]
  }

  /** The components findDir walks: none for the directory itself. */
  function Parts(rel: Data): seq<Data> {
    var r := if rel != [] && rel[0] == SLASH then rel[1..] else rel;
    if r == [] then [] else Split(r)
  }

  // ---------------------------------------------------------------- stratification

  /** One more than the youngest entry's age. */
  function Top(t: seq<Entry>): nat {
    if t == [] then 0
    else
      var rest := Top(t[1..]);
      if t[0].age + 1 > rest then t[0].age + 1 else rest
  }

  lemma {:induction false} TopMember(t: seq<Entry>, e: Entry)
    requires e in t
    ensures e.age < Top(t)
  { if t[0] != e { TopMember(t[1..], e); } }

  lemma {:induction false} TopBelow(t: seq<Entry>, b: nat)
    requires forall e :: e in t ==> e.age < b
    ensures Top(t) <= b
  { if t != [] { TopBelow(t[1..], b); } }

  /** Every bind in the table leads to a directory, not the root, whose own table is older
      than the bind. */
  ghost predicate TableOk(heap: Heap, t: seq<Entry>) {
    forall e :: e in t && e.src.Bound? ==>
      e.src.d in heap && e.src.d != ROOT && forall x :: x in heap[e.src.d].table ==> x.age < e.age
  }

  /** All directories that binds can lead to have such tables. */
  ghost predicate HeapOk(heap: Heap) { forall i :: i in heap && i != ROOT ==> TableOk(heap, heap[i].table) }

  /** A bind leads strictly down. */
  lemma BindDescends(heap: Heap, t: seq<Entry>, e: Entry)
    requires TableOk(heap, t) && e in t && e.src.Bound?
    ensures e.src.d in heap && Top(heap[e.src.d].table) < Top(t)
  {
    TopMember(t, e);
    TopBelow(heap[e.src.d].table, e.age);
  }

  // ------------------------------------------------------------- Children and findDir

  ghost predicate SameTable(m: map<Data, Node>, ud: Dir) {
    forall n :: n in m && m[n].DirNode? ==> m[n].dir.table == ud.table
  }

  /** union/union.go:383-456 */
  ghost function Children(env: Env, heap: Heap, ud: Dir): (m: map<Data, Node>)
    requires HeapOk(heap) && TableOk(heap, ud.table)
    ensures SameTable(m, ud)
    decreases Top(ud.table), 0, |ud.table| + 1
  { Merge(env, heap, ud, 0, map[]) }

  predicate IsCurrent(ud: Dir, me: Entry) { ud.mount.Some? && ud.mount.value.src == me.src }

  /** The table from the i-th entry on, over what the earlier ones gave. */
  ghost function Merge(env: Env, heap: Heap, ud: Dir, i: nat, acc: map<Data, Node>): (m: map<Data, Node>)
    requires HeapOk(heap) && TableOk(heap, ud.table) && i <= |ud.table| && SameTable(acc, ud)
    ensures SameTable(m, ud)
    decreases Top(ud.table), 0, |ud.table| - i
  {
    if i == |ud.table| then acc
    else
      var me := ud.table[i];
      if ud.path != me.mountPoint && !IsCurrent(ud, me) then Merge(env, heap, ud, i + 1, acc)
      else
        match Contribution(env, heap, ud, me)
        case None => Merge(env, heap, ud, i + 1, acc)
        case Some(m) =>
          if me.replace && !IsCurrent(ud, me) then acc + m else Merge(env, heap, ud, i + 1, acc + m)
  }

  function Relative(env: Env, ud: Dir, me: Entry): Option<Data> {
    match env.rel(me.mountPoint, ud.path)
    case None => None
    case Some(r) => Some(if r == [46] then [SLASH] else r)
  }

  /** What one entry adds, or nothing when a path, a client or a lookup fails. */
  ghost function Contribution(env: Env, heap: Heap, ud: Dir, me: Entry): (m: Option<map<Data, Node>>)
    requires HeapOk(heap) && TableOk(heap, ud.table) && me in ud.table
    ensures m.Some? ==> SameTable(m.value, ud)
    decreases Top(ud.table), 0, 0
  {
    match Relative(env, ud, me)
    case None => None
    case Some(rel) =>
      match me.src
      case Client(c) =>
        (match env.readdir(c, rel)
         case None => None
         case Some(stats) => Some(FromStats(env, ud, me, stats)))
      case Bound(d) =>
        BindDescends(heap, ud.table, me);
        match FindDir(env, heap, heap[d], Parts(rel))
        case None => None
        case Some(on) => Some(Rebased(env, ud, me, Children(env, heap, on)))
  }

  function Fresh(env: Env, ud: Dir, me: Entry, name: Data, isDir: bool): Node {
    if isDir then DirNode(Dir(env.join(ud.path, name), Some(me), ud.table)) else FileNode(env.join(ud.path, name), me)
  }

  function FromStats(env: Env, ud: Dir, me: Entry, stats: seq<(Data, bool)>): (m: map<Data, Node>)
    ensures forall n :: n in m && m[n].DirNode? ==> m[n].dir.table == ud.table
  {
    if stats == [] then map[]
    else
      var last := stats[|stats| - 1];
      FromStats(env, ud, me, stats[..|stats| - 1])[last.0 := Fresh(env, ud, me, last.0, last.1)]
  }

  /** Children of a bound directory, as children of this one. */
  function Rebased(env: Env, ud: Dir, me: Entry, m: map<Data, Node>): map<Data, Node> {
    map n | n in m :: Fresh(env, ud, me, n, m[n].DirNode?)
  }

  /** union/union.go:169-199 */
  ghost function FindDir(env: Env, heap: Heap, ud: Dir, parts: seq<Data>): (r: Option<Dir>)
    requires HeapOk(heap) && TableOk(heap, ud.table)
    ensures r.Some? ==> r.value.table == ud.table
    decreases Top(ud.table), 1, |parts|
  {
    if parts == [] then Some(ud)
    else
      var m := Children(env, heap, ud);
      if parts[0] in m && m[parts[0]].DirNode? then FindDir(env, heap, m[parts[0]].dir, parts[1..]) else None
  }

  // ------------------------------------------------------------------- operations

  datatype MountOption = Replace | Before | After

  datatype FS = FS(heap: Heap, clock: nat)

  datatype Action =
    | Mount(c: nat, at: Data, option: MountOption, create: bool)
    | Bind(env: Env, path: Data, at: Data, option: MountOption, create: bool, id: nat)
    | UnmountPoint(at: Data)
    | UnmountClient(c: nat, at: Data)
    | UnmountBind(path: Data, at: Data)

  function NewFS(): (s: FS)
    ensures Inv(s)
  { FS(map[ROOT := Dir([SLASH], None, [])], 0) }

  function Insert(t: seq<Entry>, e: Entry, option: MountOption): seq<Entry> {
    if option.After? then t + [e] else [e] + t
  }

  function SetTable(s: FS, t: seq<Entry>): FS
    requires ROOT in s.heap
  { s.(heap := s.heap[ROOT := s.heap[ROOT].(table := t)]) }

  function AddEntry(s: FS, src: Source, at: Data, option: MountOption, create: bool): FS
    requires ROOT in s.heap
  {
    var e := Entry(src, at, option.Replace?, create, s.clock);
    SetTable(s, Insert(s.heap[ROOT].table, e, option)).(clock := s.clock + 1)
  }

  /** What is kept of a table; each Unmount keeps the entries it does not match. */
  function Keep(heap: Heap, t: seq<Entry>, a: Action): seq<Entry> {
    if t == [] then [] else (if Matches(heap, t[0], a) then [] else [t[0]]) + Keep(heap, t[1..], a)
  }

  predicate Matches(heap: Heap, e: Entry, a: Action) {
    match a
    case UnmountPoint(at) => e.mountPoint == at
    case UnmountClient(c, at) => e.mountPoint == at && e.src == Client(c)
    case UnmountBind(path, at) => e.mountPoint == at && e.src.Bound? && e.src.d in heap && heap[e.src.d].path == path
    case _ => false
  }

  /** The invariant of the mount table. */
  ghost predicate Inv(s: FS) {
    && ROOT in s.heap && s.heap[ROOT].mount == None && s.heap[ROOT].path == [SLASH]
    && HeapOk(s.heap) && TableOk(s.heap, s.heap[ROOT].table)
    && forall i, e :: i in s.heap && e in s.heap[i].table ==> e.age < s.clock
  }

  /** union/union.go:667-698: a path without components is the root itself. */
  ghost function BindTo(s: FS, a: Action): FS
    requires Inv(s) && a.Bind?
  {
    match FindDir(a.env, s.heap, s.heap[ROOT], Parts(a.path))
    case None => s
    case Some(dir) =>
      if Parts(a.path) == [] then AddEntry(s, Bound(ROOT), a.at, a.option, a.create)
      else if a.id in s.heap then s
      else AddEntry(s.(heap := s.heap[a.id := dir]), Bound(a.id), a.at, a.option, a.create)
  }

  ghost function Next(s: FS, a: Action): FS
    requires Inv(s)
  {
    match a
    case Mount(c, at, option, create) => AddEntry(s, Client(c), at, option, create)
    case Bind(_, _, _, _, _, _) => BindTo(s, a)
    case _ => SetTable(s, Keep(s.heap, s.heap[ROOT].table, a))
  }

  // -------------------------------------------------------------- what is kept

  /** An older table for the root. */
  lemma TableKeeps(s: FS, t: seq<Entry>, clock: nat)
    requires Inv(s) && clock >= s.clock && TableOk(s.heap, t) && forall e :: e in t ==> e.age < clock
    ensures Inv(SetTable(s, t).(clock := clock))
  {
    var s' := SetTable(s, t).(clock := clock);
    forall i | i in s'.heap ensures TableOk(s'.heap, s'.heap[i].table) {
      if i != ROOT { assert TableOk(s.heap, s.heap[i].table); }
    }
  }

  lemma AddKeeps(s: FS, src: Source, at: Data, option: MountOption, create: bool)
    requires Inv(s)
    requires src.Bound? ==> src.d in s.heap && src.d != ROOT
    ensures Inv(AddEntry(s, src, at, option, create))
  {
    var t := s.heap[ROOT].table;
    var e := Entry(src, at, option.Replace?, create, s.clock);
    assert TableOk(s.heap, t);
    TableKeeps(s, Insert(t, e, option), s.clock + 1);
  }

  /** A new directory with the root's present table. */
  lemma AllocKeeps(s: FS, id: nat, dir: Dir)
    requires Inv(s) && id !in s.heap && dir.table == s.heap[ROOT].table
    ensures Inv(s.(heap := s.heap[id := dir]))
  {
    var heap := s.heap[id := dir];
    forall i | i in heap ensures TableOk(heap, heap[i].table) {
      assert TableOk(s.heap, s.heap[if i == id then ROOT else i].table);
    }
  }

  lemma {:induction false} KeepSome(heap: Heap, t: seq<Entry>, a: Action, e: Entry)
    ensures e in Keep(heap, t, a) <==> e in t && !Matches(heap, e, a)
  { if t != [] { KeepSome(heap, t[1..], a, e); } }

  /** Mounting, unmounting and binding anything but the root keep the stratification. */
  lemma NextKeeps(s: FS, a: Action)
    requires Inv(s) && (a.Bind? ==> Parts(a.path) != [])
    ensures Inv(Next(s, a))
  {
    hide FindDir, Parts;
    match a
    case Mount(c, at, option, create) => AddKeeps(s, Client(c), at, option, create);
    case Bind(env, path, at, option, create, id) =>
      var found := FindDir(env, s.heap, s.heap[ROOT], Parts(path));
      if found.Some? && id !in s.heap {
        AllocKeeps(s, id, found.value);
        AddKeeps(s.(heap := s.heap[id := found.value]), Bound(id), at, option, create);
      }
    case _ =>
      var t := s.heap[ROOT].table;
      assert TableOk(s.heap, t);
      forall e ensures e in Keep(s.heap, t, a) ==> e in t { KeepSome(s.heap, t, a, e); }
      TableKeeps(s, Keep(s.heap, t, a), s.clock);
  }

  /** The stratification is lost exactly when the root is bound. Whether listings still end
      then is the matter of UnionDepth. */
  lemma BindKeepsIff(s: FS, a: Action)
    requires Inv(s) && a.Bind?
    ensures Inv(BindTo(s, a)) <==> Parts(a.path) != []
  {
    if Parts(a.path) != [] { NextKeeps(s, a); }
    else {
      var e := Entry(Bound(ROOT), a.at, a.option.Replace?, a.create, s.clock);
      var t := Insert(s.heap[ROOT].table, e, a.option);
      assert e == if a.option.After? then t[|t| - 1] else t[0];
      assert BindTo(s, a).heap[ROOT].table == t && e in t;
    }
  }

  predicate Allowed(a: Action) { a.Bind? ==> Parts(a.path) != [] }

  ghost function Run(s: FS, acts: seq<Action>): (s': FS)
    requires Inv(s) && forall i :: 0 <= i < |acts| ==> Allowed(acts[i])
    ensures Inv(s')
    decreases |acts|
  {
    if acts == [] then s
    else
      assert Allowed(acts[0]);
      NextKeeps(s, acts[0]);
      Run(Next(s, acts[0]), acts[1..])
  }

  /** In every table reachable by mounts, binds of anything but the root, and unmounts,
      each bind leads to a directory all of whose entries are older than the bind, and
      what is found below any directory has that directory's table. */
  lemma Reachable(acts: seq<Action>, env: Env, i: nat, e: Entry, parts: seq<Data>)
    requires forall k :: 0 <= k < |acts| ==> Allowed(acts[k])
    requires i in Run(NewFS(), acts).heap
    requires e in Run(NewFS(), acts).heap[i].table && e.src.Bound?
    ensures var heap := Run(NewFS(), acts).heap;
            && e.src.d in heap && e.src.d != ROOT
            && (forall x :: x in heap[e.src.d].table ==> x.age < e.age)
            && HeapOk(heap) && TableOk(heap, heap[e.src.d].table)
            && var r := FindDir(env, heap, heap[e.src.d], parts);
            r.Some? ==> r.value.table == heap[e.src.d].table && Top(r.value.table) < Top(heap[i].table)
  {
    var heap := Run(NewFS(), acts).heap;
    hide Run, FindDir;
    assert TableOk(heap, heap[i].table);
    BindDescends(heap, heap[i].table, e);
  }

  // ------------------------------------------------------------------ what is shown

  /** Every child comes from an entry of the table and is named below its directory. */
  ghost predicate Shown(env: Env, ud: Dir, m: map<Data, Node>) {
    forall n :: n in m ==> exists me :: me in ud.table && ShownBy(env, ud, n, m[n], me)
  }

  predicate ShownBy(env: Env, ud: Dir, n: Data, x: Node, me: Entry) { x == Fresh(env, ud, me, n, x.DirNode?) }

  lemma {:induction false} StatsShown(env: Env, ud: Dir, me: Entry, stats: seq<(Data, bool)>)
    requires me in ud.table
    ensures Shown(env, ud, FromStats(env, ud, me, stats))
  {
    if stats != [] {
      var k := |stats| - 1;
      StatsShown(env, ud, me, stats[..k]);
      assert ShownBy(env, ud, stats[k].0, Fresh(env, ud, me, stats[k].0, stats[k].1), me);
    }
  }

  lemma ContributionShown(env: Env, heap: Heap, ud: Dir, me: Entry)
    requires HeapOk(heap) && TableOk(heap, ud.table) && me in ud.table
    ensures Contribution(env, heap, ud, me).Some? ==> Shown(env, ud, Contribution(env, heap, ud, me).value)
  {
    var r := Contribution(env, heap, ud, me);
    if r.Some? {
      if me.src.Client? { StatsShown(env, ud, me, env.readdir(me.src.c, Relative(env, ud, me).value).value); }
      else { forall n | n in r.value ensures ShownBy(env, ud, n, r.value[n], me) {} }
    }
  }

  lemma {:induction false} MergeShown(env: Env, heap: Heap, ud: Dir, i: nat, acc: map<Data, Node>)
    requires HeapOk(heap) && TableOk(heap, ud.table) && i <= |ud.table| && SameTable(acc, ud) && Shown(env, ud, acc)
    ensures Shown(env, ud, Merge(env, heap, ud, i, acc))
    decreases |ud.table| - i
  {
    hide HeapOk, TableOk, Contribution;
    if i < |ud.table| {
      var me := ud.table[i];
      ContributionShown(env, heap, ud, me);
      MergeShown(env, heap, ud, i + 1, acc);
      var more := Contribution(env, heap, ud, me);
      if more.Some? { MergeShown(env, heap, ud, i + 1, acc + more.value); }
    }
  }

  lemma ChildrenShown(env: Env, heap: Heap, ud: Dir)
    requires HeapOk(heap) && TableOk(heap, ud.table)
    ensures Shown(env, ud, Children(env, heap, ud))
  { MergeShown(env, heap, ud, 0, map[]); }

  /** The directory was listed through this entry, or one with the same source. */
  predicate Through(ud: Dir, me: Entry) {
    match ud.mount
    case Some(e) => e.src == me.src
    case None => false
  }

  /** What the i-th entry adds to the listing, if it applies and can be asked. */
  ghost function Part(env: Env, heap: Heap, ud: Dir, i: nat): Option<map<Data, Node>>
    requires HeapOk(heap) && TableOk(heap, ud.table) && i < |ud.table|
  {
    var me := ud.table[i];
    if ud.path == me.mountPoint || Through(ud, me) then Contribution(env, heap, ud, me) else None
  }

  ghost predicate Gives(env: Env, heap: Heap, ud: Dir, i: nat, n: Data)
    requires HeapOk(heap) && TableOk(heap, ud.table) && i < |ud.table|
  { Part(env, heap, ud, i).Some? && n in Part(env, heap, ud, i).value }

  /** A replacing entry that can be asked hides all after it, unless it is the one the
      directory itself came from. */
  ghost predicate Stops(env: Env, heap: Heap, ud: Dir, i: nat)
    requires HeapOk(heap) && TableOk(heap, ud.table) && i < |ud.table|
  { Part(env, heap, ud, i).Some? && ud.table[i].replace && !Through(ud, ud.table[i]) }

  ghost predicate Reached(env: Env, heap: Heap, ud: Dir, from: nat, i: nat)
    requires HeapOk(heap) && TableOk(heap, ud.table)
  { from <= i < |ud.table| && forall j :: from <= j < i ==> !Stops(env, heap, ud, j) }

  /** From the i-th entry on, the last reached entry that gives a name decides. */
  lemma {:induction false} MergeLastWins(env: Env, heap: Heap, ud: Dir, i: nat, acc: map<Data, Node>, n: Data, k: nat)
    requires HeapOk(heap) && TableOk(heap, ud.table) && i <= |ud.table| && SameTable(acc, ud)
    requires Reached(env, heap, ud, i, k) && Gives(env, heap, ud, k, n)
    requires forall j :: k < j && Reached(env, heap, ud, i, j) ==> !Gives(env, heap, ud, j, n)
    ensures n in Merge(env, heap, ud, i, acc) && Merge(env, heap, ud, i, acc)[n] == Part(env, heap, ud, k).value[n]
    decreases |ud.table| - i
  {
    hide HeapOk, TableOk, Contribution;
    var part := Part(env, heap, ud, i);
    var acc' := if part.Some? then acc + part.value else acc;
    if !Stops(env, heap, ud, i) {
      forall j | Reached(env, heap, ud, i + 1, j) ensures Reached(env, heap, ud, i, j) {}
      if k == i { MergeRest(env, heap, ud, i + 1, acc', n); } else { MergeLastWins(env, heap, ud, i + 1, acc', n, k); }
    }
  }

  lemma {:induction false} MergeRest(env: Env, heap: Heap, ud: Dir, i: nat, acc: map<Data, Node>, n: Data)
    requires HeapOk(heap) && TableOk(heap, ud.table) && i <= |ud.table| && SameTable(acc, ud)
    requires forall j :: Reached(env, heap, ud, i, j) ==> !Gives(env, heap, ud, j, n)
    ensures var m := Merge(env, heap, ud, i, acc); (n in m <==> n in acc) && (n in acc ==> m[n] == acc[n])
    decreases |ud.table| - i
  {
    hide HeapOk, TableOk, Contribution;
    if i < |ud.table| {
      assert Reached(env, heap, ud, i, i);
      var part := Part(env, heap, ud, i);
      var acc' := if part.Some? then acc + part.value else acc;
      if !Stops(env, heap, ud, i) {
        forall j | Reached(env, heap, ud, i + 1, j) ensures Reached(env, heap, ud, i, j) {}
        MergeRest(env, heap, ud, i + 1, acc', n);
      }
    }
  }

  /** The k-th entry is the last reached one that gives the name. */
  ghost predicate Decides(env: Env, heap: Heap, ud: Dir, n: Data, k: nat)
    requires HeapOk(heap) && TableOk(heap, ud.table)
  {
    && Reached(env, heap, ud, 0, k) && Gives(env, heap, ud, k, n)
    && forall j :: k < j && Reached(env, heap, ud, 0, j) ==> !Gives(env, heap, ud, j, n)
  }

  /** A directory shows a name exactly when some entry gives it that no replacing entry
      hides, and shows it as the last such entry does. */
  lemma LastWins(env: Env, heap: Heap, ud: Dir, n: Data)
    requires HeapOk(heap) && TableOk(heap, ud.table)
    ensures n in Children(env, heap, ud) <==>
              exists k: nat :: Reached(env, heap, ud, 0, k) && Gives(env, heap, ud, k, n)
    ensures forall k: nat :: Decides(env, heap, ud, n, k) ==>
              n in Children(env, heap, ud) && Children(env, heap, ud)[n] == Part(env, heap, ud, k).value[n]
  {
    hide HeapOk, TableOk, Contribution, Part;
    forall k: nat | Decides(env, heap, ud, n, k)
      ensures n in Children(env, heap, ud) && Children(env, heap, ud)[n] == Part(env, heap, ud, k).value[n]
    { MergeLastWins(env, heap, ud, 0, map[], n, k); }
    if k: nat :| Reached(env, heap, ud, 0, k) && Gives(env, heap, ud, k, n) {
      var last := LastGiving(env, heap, ud, n, k);
      assert Decides(env, heap, ud, n, last);
    } else {
      MergeRest(env, heap, ud, 0, map[], n);
    }
  }

  lemma LastGiving(env: Env, heap: Heap, ud: Dir, n: Data, k: nat) returns (last: nat)
    requires HeapOk(heap) && TableOk(heap, ud.table)
    requires Reached(env, heap, ud, 0, k) && Gives(env, heap, ud, k, n)
    ensures Reached(env, heap, ud, 0, last) && Gives(env, heap, ud, last, n)
    ensures forall j :: last < j && Reached(env, heap, ud, 0, j) ==> !Gives(env, heap, ud, j, n)
    decreases |ud.table| - k
  {
    hide HeapOk, TableOk, Contribution, Part, Stops;
    if j: nat :| k < j && Reached(env, heap, ud, 0, j) && Gives(env, heap, ud, j, n) {
      last := LastGiving(env, heap, ud, n, j);
    } else {
      last := k;
    }
  }

  // --------------------------------------------------------------- undoing a mount

  lemma {:induction false} KeepAll(heap: Heap, t: seq<Entry>, a: Action)
    requires forall e :: e in t ==> !Matches(heap, e, a)
    ensures Keep(heap, t, a) == t
  { if t != [] { KeepAll(heap, t[1..], a); } }

  lemma {:induction false} KeepSnoc(heap: Heap, t: seq<Entry>, e: Entry, a: Action)
    ensures Keep(heap, t + [e], a) == Keep(heap, t, a) + if Matches(heap, e, a) then [] else [e]
  {
    if t == [] { assert t + [e] == [e] && [e][1..] == []; }
    else {
      KeepSnoc(heap, t[1..], e, a);
      assert (t + [e])[1..] == t[1..] + [e] && (t + [e])[0] == t[0];
    }
  }

  /** Unmounting what was just mounted or bound gives the old table back, wherever it was
      put, if nothing of the kind was there before. */
  lemma UnmountUndoes(heap: Heap, t: seq<Entry>, e: Entry, option: MountOption, a: Action)
    requires Matches(heap, e, a) && forall x :: x in t ==> !Matches(heap, x, a)
    ensures Keep(heap, Insert(t, e, option), a) == t
  {
    KeepAll(heap, t, a);
    KeepSnoc(heap, t, e, a);
    assert ([e] + t)[1..] == t && ([e] + t)[0] == e;
    hide Matches;
    assert t + [] == t && [] + t == t;
  }

  lemma UnmountClientUndoesMount(s: FS, c: nat, at: Data, option: MountOption, create: bool)
    requires Inv(s) && forall x :: x in s.heap[ROOT].table ==> x.mountPoint != at || x.src != Client(c)
    ensures var s1 := Next(s, Mount(c, at, option, create));
            Inv(s1) && Next(s1, UnmountClient(c, at)).heap == s.heap
  {
    hide HeapOk;
    var e := Entry(Client(c), at, option.Replace?, create, s.clock);
    NextKeeps(s, Mount(c, at, option, create));
    var s1 := Next(s, Mount(c, at, option, create));
    UnmountUndoes(s1.heap, s.heap[ROOT].table, e, option, UnmountClient(c, at));
    assert s.heap[ROOT := s.heap[ROOT]] == s.heap;
  }

  // ------------------------------------------------------------------------- loops

  /** union/union.go:416-428 */
  method CollectStats(env: Env, ud: Dir, me: Entry, stats: seq<(Data, bool)>) returns (m: map<Data, Node>)
    ensures m == FromStats(env, ud, me, stats)
  {
    m := map[];
    for i := 0 to |stats|
      invariant m == FromStats(env, ud, me, stats[..i])
    {
      assert stats[..i + 1][..i] == stats[..i];
      m := m[stats[i].0 := Fresh(env, ud, me, stats[i].0, stats[i].1)];
    }
    assert stats[..|stats|] == stats;
  }

  /** union/union.go:435-447: mount, path and table of each child are rewritten. */
  method Rebase(env: Env, ud: Dir, me: Entry, sub: map<Data, Node>) returns (m: map<Data, Node>)
    ensures m == Rebased(env, ud, me, sub)
  {
    m := map[];
    var left := sub.Keys;
    while left != {}
      invariant left <= sub.Keys && m.Keys == sub.Keys - left
      invariant forall n :: n in m ==> m[n] == Fresh(env, ud, me, n, sub[n].DirNode?)
      decreases |left|
    {
      var n :| n in left;
      m := m[n := Fresh(env, ud, me, n, sub[n].DirNode?)];
      left := left - {n};
    }
  }

  /** union/union.go:383-456 as its loop; that it ends is the point. */
  method ListChildren(env: Env, heap: Heap, ud: Dir) returns (m: map<Data, Node>)
    requires HeapOk(heap) && TableOk(heap, ud.table)
    ensures m == Children(env, heap, ud)
    decreases Top(ud.table), 0
  {
    hide HeapOk, TableOk, Contribution;
    m := map[];
    var i := 0;
    while i < |ud.table|
      invariant i <= |ud.table| && SameTable(m, ud)
      invariant Merge(env, heap, ud, i, m) == Children(env, heap, ud)
    {
      var me := ud.table[i];
      i := i + 1;
      if ud.path != me.mountPoint && !IsCurrent(ud, me) { continue; }
      var more := AskEntry(env, heap, ud, me);
      if more.None? { continue; }
      m := m + more.value;
      if me.replace && !IsCurrent(ud, me) { return; }
    }
  }

  method AskEntry(env: Env, heap: Heap, ud: Dir, me: Entry) returns (m: Option<map<Data, Node>>)
    requires HeapOk(heap) && TableOk(heap, ud.table) && me in ud.table
    ensures m == Contribution(env, heap, ud, me)
    decreases Top(ud.table), 0, 0
  {
    var rel := Relative(env, ud, me);
    if rel.None? { return None; }
    match me.src
    case Client(c) =>
      var stats := env.readdir(c, rel.value);
      if stats.None? { return None; }
      var x := CollectStats(env, ud, me, stats.value);
      return Some(x);
    case Bound(d) =>
      BindDescends(heap, ud.table, me);
      var on := Locate(env, heap, heap[d], rel.value);
      if on.None? { return None; }
      var sub := ListChildren(env, heap, on.value);
      var x := Rebase(env, ud, me, sub);
      return Some(x);
  }

  /** union/union.go:169-199 as its loop. */
  method Locate(env: Env, heap: Heap, ud: Dir, rel: Data) returns (r: Option<Dir>)
    requires HeapOk(heap) && TableOk(heap, ud.table)
    ensures r == FindDir(env, heap, ud, Parts(rel))
    decreases Top(ud.table), 1
  {
    hide HeapOk, TableOk, Children;
    var parts := Parts(rel);
    var d, i := ud, 0;
    assert parts[0..] == parts;
    while i < |parts|
      invariant 0 <= i <= |parts| && d.table == ud.table
      invariant FindDir(env, heap, d, parts[i..]) == FindDir(env, heap, ud, parts)
    {
      var m := ListChildren(env, heap, d);
      assert parts[i..][1..] == parts[i + 1..];
      if parts[i] !in m || !m[parts[i]].DirNode? { return None; }
      d := m[parts[i]].dir;
      i := i + 1;
    }
    return Some(d);
  }

  /** The clients an UnmountPoint gives back. */
  function Clients(t: seq<Entry>, at: Data): seq<nat> {
    if t == [] then []
    else (if t[0].mountPoint == at && t[0].src.Client? then [t[0].src.c] else []) + Clients(t[1..], at)
  }

  lemma {:induction false} ClientsSnoc(t: seq<Entry>, e: Entry, at: Data)
    ensures Clients(t + [e], at) == Clients(t, at) + if e.mountPoint == at && e.src.Client? then [e.src.c] else []
  {
    if t == [] { assert t + [e] == [e] && [e][1..] == []; }
    else {
      ClientsSnoc(t[1..], e, at);
      assert (t + [e])[1..] == t[1..] + [e] && (t + [e])[0] == t[0];
    }
  }

  lemma RootOk(s: FS)
    requires Inv(s)
    ensures TableOk(s.heap, s.heap[ROOT].table)
  {}

  /** NewUnionFS's file system; its root's table is replaced as a whole. */
  class UnionFS {
    var heap: Heap
    var clock: nat

    ghost predicate Valid()
      reads this
    { Inv(View()) }

    ghost function View(): FS
      reads this
    { FS(heap, clock) }

    constructor ()
      ensures Valid() && View() == NewFS()
    { heap, clock := map[ROOT := Dir([SLASH], None, [])], 0; }

    /** union/union.go:635-660 */
    method MountClient(c: nat, at: Data, option: MountOption, create: bool)
      requires Valid()
      modifies this
      ensures Valid() && View() == Next(old(View()), Mount(c, at, option, create))
    {
      hide HeapOk;
      NextKeeps(View(), Mount(c, at, option, create));
      var e, t := Entry(Client(c), at, option.Replace?, create, clock), heap[ROOT].table;
      heap := heap[ROOT := heap[ROOT].(table := if option.After? then t + [e] else [e] + t)];
      clock := clock + 1;
    }

    /** union/union.go:667-698. `id` is the address of the directory found, unless that is
        the root. */
    method BindPath(env: Env, path: Data, at: Data, option: MountOption, create: bool, id: nat) returns (ok: bool)
      requires Valid() && id !in heap
      modifies this
      ensures View() == Next(old(View()), Bind(env, path, at, option, create, id))
      ensures Valid() <==> Parts(path) != []
      ensures ok == FindDir(env, old(heap), old(heap)[ROOT], Parts(path)).Some?
    {
      hide HeapOk, FindDir, Parts;
      BindKeepsIff(View(), Bind(env, path, at, option, create, id));
      RootOk(View());
      var dir := Locate(env, heap, heap[ROOT], path);
      if dir.None? { return false; }
      var src := if Parts(path) == [] then Bound(ROOT) else Bound(id);
      if Parts(path) != [] { heap := heap[id := dir.value]; }
      var e, t := Entry(src, at, option.Replace?, create, clock), heap[ROOT].table;
      heap := heap[ROOT := heap[ROOT].(table := if option.After? then t + [e] else [e] + t)];
      clock := clock + 1;
      return true;
    }

    /** union/union.go:704-727 */
    method UnmountAt(at: Data) returns (clients: seq<nat>)
      requires Valid()
      modifies this`heap
      ensures Valid() && View() == Next(old(View()), UnmountPoint(at))
      ensures clients == Clients(old(heap)[ROOT].table, at)
    {
      hide HeapOk;
      var t := heap[ROOT].table;
      var kept: seq<Entry> := [];
      clients := [];
      ghost var a := UnmountPoint(at);
      for i := 0 to |t|
        invariant View() == old(View()) && kept == Keep(heap, t[..i], a) && clients == Clients(t[..i], at)
      {
        KeepSnoc(heap, t[..i], t[i], a);
        ClientsSnoc(t[..i], t[i], at);
        assert t[..i] + [t[i]] == t[..i + 1];
        if t[i].mountPoint != at { kept := kept + [t[i]]; }
        else if t[i].src.Client? { clients := clients + [t[i].src.c]; }
      }
      assert t[..|t|] == t;
      NextKeeps(View(), a);
      heap := heap[ROOT := heap[ROOT].(table := kept)];
    }

    /** union/union.go:732-752 and 757-778: the entries an action matches go. */
    method Unmount(a: Action)
      requires Valid() && (a.UnmountClient? || a.UnmountBind?)
      modifies this`heap
      ensures Valid() && View() == Next(old(View()), a)
    {
      hide HeapOk;
      var t := heap[ROOT].table;
      var kept: seq<Entry> := [];
      for i := 0 to |t|
        invariant View() == old(View()) && kept == Keep(heap, t[..i], a)
      {
        KeepSnoc(heap, t[..i], t[i], a);
        assert t[..i] + [t[i]] == t[..i + 1];
        if !Matches(heap, t[i], a) { kept := kept + [t[i]]; }
      }
      assert t[..|t|] == t;
      NextKeeps(View(), a);
      heap := heap[ROOT := heap[ROOT].(table := kept)];
    }
  }
}
