/** What mounting, binding and unmounting mean for the listing of the root: which names appear
    and disappear, and whose they are. */
module UnionOptions {
  import opened Bytes
  import opened Union
  import opened UnionListing

  // ------------------------------------------------ only the root's table has changed

  /** All directories but the root are as they were; there may be more. */
  ghost predicate Agree(heap: Heap, heap': Heap) {
    && HeapOk(heap) && HeapOk(heap')
    && forall i :: i in heap && i != ROOT ==> i in heap' && heap'[i] == heap[i]
  }

  lemma TableSame(heap: Heap, heap': Heap, t: seq<Entry>)
    requires Agree(heap, heap') && TableOk(heap, t)
    ensures TableOk(heap', t)
  {}

  /** Listings by a stratified table do not depend on the root. */
  lemma {:induction false} ChildrenSame(env: Env, heap: Heap, heap': Heap, ud: Dir)
    requires Agree(heap, heap') && TableOk(heap, ud.table)
    ensures TableOk(heap', ud.table) && Children(env, heap', ud) == Children(env, heap, ud)
    decreases Top(ud.table), 0, |ud.table| + 1
  {
    TableSame(heap, heap', ud.table);
    hide Agree, HeapOk, TableOk, Merge;
    MergeSame(env, heap, heap', ud, 0, map[]);
  }

  lemma {:induction false} MergeSame(env: Env, heap: Heap, heap': Heap, ud: Dir, i: nat, acc: map<Data, Node>)
    requires Agree(heap, heap') && TableOk(heap, ud.table) && i <= |ud.table| && SameTable(acc, ud)
    ensures TableOk(heap', ud.table) && Merge(env, heap', ud, i, acc) == Merge(env, heap, ud, i, acc)
    decreases Top(ud.table), 0, |ud.table| - i
  {
    TableSame(heap, heap', ud.table);
    hide Agree, HeapOk, TableOk, Contribution;
    if i < |ud.table| {
      var me := ud.table[i];
      ContributionSame(env, heap, heap', ud, me);
      MergeSame(env, heap, heap', ud, i + 1, acc);
      var more := Contribution(env, heap, ud, me);
      if more.Some? { MergeSame(env, heap, heap', ud, i + 1, acc + more.value); }
    }
  }

  lemma {:induction false} ContributionSame(env: Env, heap: Heap, heap': Heap, ud: Dir, me: Entry)
    requires Agree(heap, heap') && TableOk(heap, ud.table) && me in ud.table
    ensures TableOk(heap', ud.table) && Contribution(env, heap', ud, me) == Contribution(env, heap, ud, me)
    decreases Top(ud.table), 0, 0
  {
    TableSame(heap, heap', ud.table);
    var rel := Relative(env, ud, me);
    if rel.Some? && me.src.Bound? {
      BindDescends(heap, ud.table, me);
      BoundSame(env, heap, heap', me, Parts(rel.value));
    }
    hide Agree, HeapOk, TableOk, Children, FindDir;
  }

  /** Following a bind to a directory below it. */
  lemma {:induction false} BoundSame(env: Env, heap: Heap, heap': Heap, me: Entry, parts: seq<Data>)
    requires Agree(heap, heap') && me.src.Bound? && me.src.d in heap && me.src.d != ROOT
    ensures me.src.d in heap' && heap'[me.src.d] == heap[me.src.d]
    ensures TableOk(heap, heap[me.src.d].table) && TableOk(heap', heap[me.src.d].table)
    ensures var d := heap[me.src.d];
            var on := FindDir(env, heap, d, parts);
            && FindDir(env, heap', d, parts) == on
            && (on.Some? ==> Children(env, heap', on.value) == Children(env, heap, on.value))
    decreases Top(heap[me.src.d].table), 2, 0
  {
    var d := heap[me.src.d];
    assert TableOk(heap, d.table);
    FindSame(env, heap, heap', d, parts);
    hide HeapOk, TableOk, Children, FindDir;
    var on := FindDir(env, heap, d, parts);
    if on.Some? { ChildrenSame(env, heap, heap', on.value); }
  }

  lemma {:induction false} FindSame(env: Env, heap: Heap, heap': Heap, ud: Dir, parts: seq<Data>)
    requires Agree(heap, heap') && TableOk(heap, ud.table)
    ensures TableOk(heap', ud.table) && FindDir(env, heap', ud, parts) == FindDir(env, heap, ud, parts)
    decreases Top(ud.table), 1, |parts|
  {
    TableSame(heap, heap', ud.table);
    hide Agree, HeapOk, TableOk, Children;
    if parts != [] {
      ChildrenSame(env, heap, heap', ud);
      var m := Children(env, heap, ud);
      if parts[0] in m && m[parts[0]].DirNode? { FindSame(env, heap, heap', m[parts[0]].dir, parts[1..]); }
    }
  }

  // -------------------------------------------------- the same entries, another table

  /** The same children with another table to go by. */
  function Retabled(m: map<Data, Node>, t: seq<Entry>): map<Data, Node> {
    map n | n in m :: match m[n] case DirNode(d) => DirNode(d.(table := t)) case FileNode(p, e) => FileNode(p, e)
  }

  lemma {:induction false} StatsRetabled(env: Env, ud: Dir, t: seq<Entry>, me: Entry, stats: seq<(Data, bool)>)
    ensures FromStats(env, ud.(table := t), me, stats) == Retabled(FromStats(env, ud, me, stats), t)
  { if stats != [] { StatsRetabled(env, ud, t, me, stats[..|stats| - 1]); } }

  /** What an entry gives in two tables it is in. */
  lemma GivesRetabled(env: Env, heap: Heap, heap': Heap, ud: Dir, t: seq<Entry>, me: Entry)
    requires Agree(heap, heap') && TableOk(heap, ud.table) && TableOk(heap', t) && me in ud.table && me in t
    ensures var was := Contribution(env, heap, ud, me);
            Contribution(env, heap', ud.(table := t), me) ==
            if was.None? then None else Some(Retabled(was.value, t))
  {
    var rel := Relative(env, ud, me);
    if rel.Some? {
      match me.src
      case Client(c) =>
        var stats := env.readdir(c, rel.value);
        if stats.Some? { StatsRetabled(env, ud, t, me, stats.value); }
      case Bound(d) =>
        BoundSame(env, heap, heap', me, Parts(rel.value));
        var on := FindDir(env, heap, heap[d], Parts(rel.value));
        if on.Some? { RebasedRetabled(env, ud, t, me, Children(env, heap, on.value)); }
    }
    hide Agree, HeapOk, TableOk, Children, FindDir;
  }

  lemma RebasedRetabled(env: Env, ud: Dir, t: seq<Entry>, me: Entry, m: map<Data, Node>)
    ensures Rebased(env, ud.(table := t), me, m) == Retabled(Rebased(env, ud, me, m), t)
  {}

  lemma RetabledPlus(a: map<Data, Node>, b: map<Data, Node>, t: seq<Entry>)
    ensures Retabled(a + b, t) == Retabled(a, t) + Retabled(b, t)
  {}

  lemma RetabledTable(m: map<Data, Node>, ud: Dir)
    ensures SameTable(Retabled(m, ud.table), ud)
  {}

  // ---------------------------------------------------------- an entry more in the root

  /** The directory before and after an entry is put in front. */
  ghost predicate Fronted(heap: Heap, heap': Heap, ud: Dir, ud': Dir) {
    && Agree(heap, heap') && TableOk(heap, ud.table) && TableOk(heap', ud'.table)
    && ud' == ud.(table := ud'.table) && ud'.table != [] && ud'.table[1..] == ud.table
  }

  /** From the old entries on, over what the new one gave. */
  lemma {:induction false} MergeFront(env: Env, heap: Heap, heap': Heap, ud: Dir, ud': Dir, i: nat,
                                      first: map<Data, Node>, acc: map<Data, Node>)
    requires Fronted(heap, heap', ud, ud') && i <= |ud.table| && SameTable(first, ud') && SameTable(acc, ud)
    ensures SameTable(first + Retabled(acc, ud'.table), ud')
    ensures Merge(env, heap', ud', i + 1, first + Retabled(acc, ud'.table)) ==
            first + Retabled(Merge(env, heap, ud, i, acc), ud'.table)
    decreases |ud.table| - i
  {
    hide HeapOk, Contribution, Retabled;
    RetabledTable(acc, ud');
    if i < |ud.table| {
      var me := ud.table[i];
      assert ud'.table[i + 1] == ud'.table[1..][i] == me;
      GivesRetabled(env, heap, heap', ud, ud'.table, me);
      hide Fronted, TableOk, Agree;
      MergeFront(env, heap, heap', ud, ud', i + 1, first, acc);
      var more := Contribution(env, heap, ud, me);
      if more.Some? {
        var m := more.value;
        MergeFront(env, heap, heap', ud, ud', i + 1, first, acc + m);
        RetabledPlus(acc, m, ud'.table);
        Assoc(first, Retabled(acc, ud'.table), Retabled(m, ud'.table));
      }
    }
  }

  lemma Assoc(a: map<Data, Node>, b: map<Data, Node>, c: map<Data, Node>)
    ensures (a + b) + c == a + (b + c)
  {}

  /** What an entry adds to a listing, if it applies and answers. */
  ghost function Given(env: Env, heap: Heap, ud: Dir, me: Entry): map<Data, Node>
    requires HeapOk(heap) && TableOk(heap, ud.table) && me in ud.table
  {
    if ud.path != me.mountPoint && !IsCurrent(ud, me) then map[]
    else
      match Contribution(env, heap, ud, me)
      case None => map[]
      case Some(m) => m
  }

  /** The directory before and after an entry is put behind. */
  ghost predicate Backed(heap: Heap, heap': Heap, ud: Dir, ud': Dir) {
    && Agree(heap, heap') && TableOk(heap, ud.table) && TableOk(heap', ud'.table)
    && ud' == ud.(table := ud'.table) && |ud'.table| == |ud.table| + 1 && ud'.table[..|ud.table|] == ud.table
  }

  /** A replacing entry from the i-th on ends the listing. */
  ghost predicate Cut(env: Env, heap: Heap, ud: Dir, i: nat)
    requires HeapOk(heap) && TableOk(heap, ud.table)
  { exists j :: i <= j < |ud.table| && Stops(env, heap, ud, j) }

  lemma {:induction false} MergeBack(env: Env, heap: Heap, heap': Heap, ud: Dir, ud': Dir, i: nat, acc: map<Data, Node>)
    requires Backed(heap, heap', ud, ud') && i <= |ud.table| && SameTable(acc, ud)
    ensures SameTable(Retabled(acc, ud'.table), ud')
    ensures var was := Retabled(Merge(env, heap, ud, i, acc), ud'.table);
            Merge(env, heap', ud', i, Retabled(acc, ud'.table)) ==
            if Cut(env, heap, ud, i) then was else was + Given(env, heap', ud', ud'.table[|ud.table|])
    decreases |ud.table| - i
  {
    RetabledTable(acc, ud');
    hide HeapOk, TableOk, Contribution, Retabled, SameTable;
    if i == |ud.table| {
      LastEntry(env, heap', ud', Retabled(acc, ud'.table));
    } else {
      var me := ud.table[i];
      assert ud'.table[i] == ud'.table[..|ud.table|][i] == me;
      GivesRetabled(env, heap, heap', ud, ud'.table, me);
      CutNext(env, heap, ud, i);
      hide Cut, Backed, Given, Agree;
      MergeBack(env, heap, heap', ud, ud', i + 1, acc);
      var more := Contribution(env, heap, ud, me);
      if more.Some? {
        SamePlus(acc, more.value, ud);
        MergeBack(env, heap, heap', ud, ud', i + 1, acc + more.value);
        RetabledPlus(acc, more.value, ud'.table);
      }
    }
  }

  lemma SamePlus(a: map<Data, Node>, b: map<Data, Node>, ud: Dir)
    requires SameTable(a, ud) && SameTable(b, ud)
    ensures SameTable(a + b, ud)
  {}

  lemma CutNext(env: Env, heap: Heap, ud: Dir, i: nat)
    requires HeapOk(heap) && TableOk(heap, ud.table) && i < |ud.table|
    ensures Cut(env, heap, ud, i) <==> Stops(env, heap, ud, i) || Cut(env, heap, ud, i + 1)
  {
    hide HeapOk, TableOk, Stops;
    if Cut(env, heap, ud, i) && !Stops(env, heap, ud, i) {
      var j :| i <= j < |ud.table| && Stops(env, heap, ud, j);
      assert i + 1 <= j;
    }
    if Cut(env, heap, ud, i + 1) { var j :| i + 1 <= j < |ud.table| && Stops(env, heap, ud, j); }
  }

  lemma LastEntry(env: Env, heap: Heap, ud: Dir, acc: map<Data, Node>)
    requires HeapOk(heap) && TableOk(heap, ud.table) && ud.table != [] && SameTable(acc, ud)
    ensures var k := |ud.table| - 1; Merge(env, heap, ud, k, acc) == acc + Given(env, heap, ud, ud.table[k])
  {
    hide HeapOk, TableOk, Contribution;
    var k := |ud.table| - 1;
    assert acc + map[] == acc;
    assert Merge(env, heap, ud, k + 1, acc) == acc;
    var more := Contribution(env, heap, ud, ud.table[k]);
    if more.Some? { assert Merge(env, heap, ud, k + 1, acc + more.value) == acc + more.value; }
  }

  lemma FirstEntry(env: Env, heap: Heap, heap': Heap, ud: Dir, ud': Dir)
    requires Fronted(heap, heap', ud, ud') && ud.mount == None
    ensures var e := ud'.table[0];
            var g := Given(env, heap', ud', e);
            Children(env, heap', ud') ==
            if e.replace && ud.path == e.mountPoint && Contribution(env, heap', ud', e).Some? then g
            else g + Retabled(Children(env, heap, ud), ud'.table)
  {
    var e, none := ud'.table[0], map[];
    var g := Given(env, heap', ud', e);
    assert SameTable(g, ud');
    MergeFront(env, heap, heap', ud, ud', 0, g, none);
    assert g + Retabled(none, ud'.table) == g;
    assert none + g == g;
    hide HeapOk, TableOk, Agree, Contribution;
  }

  // ----------------------------------------------------------------- mount and bind

  /** The same names for nodes of the same kind at the same paths, from the same entries. */
  ghost predicate Alike(a: map<Data, Node>, b: map<Data, Node>) {
    a.Keys == b.Keys && forall n :: n in a ==> SameNode(a[n], b[n])
  }

  predicate SameNode(x: Node, y: Node) {
    match (x, y)
    case (DirNode(a), DirNode(b)) => a.path == b.path && a.mount == b.mount
    case (FileNode(p, e), FileNode(q, f)) => p == q && e == f
    case _ => false
  }

  /** A child of the root by this name, made by an entry of this source at this place. */
  predicate Comes(env: Env, x: Node, n: Data, src: Source, at: Data) {
    match x
    case DirNode(d) =>
      d.path == env.join([SLASH], n) && d.mount.Some? && d.mount.value.src == src && d.mount.value.mountPoint == at
    case FileNode(p, e) => p == env.join([SLASH], n) && e.src == src && e.mountPoint == at
  }

  /** The listing after an entry that gives `gift` has come to the root's table. */
  ghost predicate Laid(option: MountOption, cut: bool, was: map<Data, Node>, gift: map<Data, Node>,
                       now: map<Data, Node>) {
    match option
    case Replace => Alike(now, gift)
    case Before => Alike(now, gift + was)
    case After => Alike(now, if cut then was else was + gift)
  }

  lemma RetabledAlike(m: map<Data, Node>, t: seq<Entry>)
    ensures Alike(Retabled(m, t), m)
  {}

  lemma AlikePlus(a: map<Data, Node>, a': map<Data, Node>, b: map<Data, Node>)
    requires Alike(a', a)
    ensures Alike(a' + b, a + b) && Alike(b + a', b + a)
  { forall n ensures n in b ==> SameNode(b[n], b[n]) {} }

  /** What the new entry gives is laid over or under the old listing, or takes its place. */
  ghost predicate Joined(env: Env, heap: Heap, heap': Heap, ud: Dir, ud': Dir, e: Entry, option: MountOption)
    requires HeapOk(heap) && TableOk(heap, ud.table) && HeapOk(heap') && TableOk(heap', ud'.table) && e in ud'.table
  {
    var was, now, gift := Children(env, heap, ud), Children(env, heap', ud'), Contribution(env, heap', ud', e);
    if e.mountPoint == [SLASH] && gift.Some? then Laid(option, Cut(env, heap, ud, 0), was, gift.value, now)
    else Alike(now, was)
  }

  lemma JoinsBehind(env: Env, heap: Heap, heap': Heap, ud: Dir, ud': Dir, e: Entry)
    requires Backed(heap, heap', ud, ud') && ud.mount == None && ud.path == [SLASH] && e == ud'.table[|ud.table|]
    ensures Joined(env, heap, heap', ud, ud', e, After)
  {
    var was, none := Children(env, heap, ud), map[];
    MergeBack(env, heap, heap', ud, ud', 0, none);
    assert Retabled(none, ud'.table) == none;
    hide HeapOk, TableOk, Agree, Contribution, Cut, Retabled, Alike;
    var was' := Retabled(was, ud'.table);
    RetabledAlike(was, ud'.table);
    AlikePlus(was, was', Given(env, heap', ud', e));
    assert was' + map[] == was';
  }

  lemma JoinsInFront(env: Env, heap: Heap, heap': Heap, ud: Dir, ud': Dir, e: Entry, option: MountOption)
    requires Fronted(heap, heap', ud, ud') && ud.mount == None && ud.path == [SLASH] && e == ud'.table[0]
    requires !option.After? && e.replace == option.Replace?
    ensures Joined(env, heap, heap', ud, ud', e, option)
  {
    var was := Children(env, heap, ud);
    FirstEntry(env, heap, heap', ud, ud');
    hide HeapOk, TableOk, Agree, Contribution, Cut, Retabled, Children;
    var was' := Retabled(was, ud'.table);
    RetabledAlike(was, ud'.table);
    AlikePlus(was, was', Given(env, heap', ud', e));
    assert map[] + was' == was';
    AlikeSelf(Given(env, heap', ud', e));
    hide Alike;
  }

  lemma AlikeSelf(m: map<Data, Node>)
    ensures Alike(m, m)
  {}

  /** An entry put into the root's table is the first for Before and Replace, the last for
      After, and joins the listing as the option says. */
  lemma Added(env: Env, s: FS, s0: FS, src: Source, at: Data, option: MountOption, create: bool)
    requires Inv(s) && Inv(s0) && Agree(s.heap, s0.heap) && s0.heap[ROOT] == s.heap[ROOT]
    requires src.Bound? ==> src.d in s0.heap && src.d != ROOT
    ensures var s' := AddEntry(s0, src, at, option, create);
            && Inv(s')
            && var t' := s'.heap[ROOT].table;
            && t' != []
            && var e := if option.After? then t'[|t'| - 1] else t'[0];
            && e.src == src && e.mountPoint == at && e.create == create
            && Joined(env, s.heap, s'.heap, s.heap[ROOT], s'.heap[ROOT], e, option)
  {
    AddKeeps(s0, src, at, option, create);
    var s' := AddEntry(s0, src, at, option, create);
    var ud, ud' := s.heap[ROOT], s'.heap[ROOT];
    var e := Entry(src, at, option.Replace?, create, s0.clock);
    AgreeOn(s.heap, s0.heap, s'.heap);
    hide HeapOk, TableOk, Agree, Joined;
    if option.After? {
      assert ud'.table[..|ud.table|] == ud.table && ud'.table[|ud.table|] == e;
      JoinsBehind(env, s.heap, s'.heap, ud, ud', e);
    } else {
      assert ud'.table[1..] == ud.table && ud'.table[0] == e;
      JoinsInFront(env, s.heap, s'.heap, ud, ud', e, option);
    }
  }

  lemma AgreeOn(a: Heap, b: Heap, c: Heap)
    requires Agree(a, b) && HeapOk(c) && forall i :: i in b && i != ROOT ==> i in c && c[i] == b[i]
    ensures Agree(a, c)
  {}

  ghost predicate AllCome(env: Env, m: map<Data, Node>, src: Source, at: Data) {
    forall n :: n in m ==> Comes(env, m[n], n, src, at)
  }

  lemma MadeComes(env: Env, ud: Dir, me: Entry, m: map<Data, Node>)
    requires ud.path == [SLASH] && AllMade(env, ud, me, m)
    ensures AllCome(env, m, me.src, me.mountPoint)
  { forall n | n in m ensures Comes(env, m[n], n, me.src, me.mountPoint) { assert Made(env, ud, me, n, m[n]); } }

  /** Mounting a client: if it is mounted on the root and lists something there, the names of
      its stats are what the root shows after Replace; after Before they are added, the old
      ones winning; after After likewise, the new ones winning, unless a replacing entry in
      the table ends the listing before. Otherwise the root shows what it did. */
  lemma MountLaw(env: Env, s: FS, c: nat, at: Data, option: MountOption, create: bool)
    returns (gift: map<Data, Node>)
    requires Inv(s) && env.rel([SLASH], [SLASH]) == Some([46])
    ensures var s' := Next(s, Mount(c, at, option, create));
            && Inv(s')
            && var was, now := Children(env, s.heap, s.heap[ROOT]), Children(env, s'.heap, s'.heap[ROOT]);
            && var stats := env.readdir(c, [SLASH]);
            if at != [SLASH] || stats.None? then Alike(now, was)
            else
              && Listed(stats.value, gift) && AllCome(env, gift, Client(c), at)
              && Laid(option, Cut(env, s.heap, s.heap[ROOT], 0), was, gift, now)
  {
    Added(env, s, s, Client(c), at, option, create);
    var s' := Next(s, Mount(c, at, option, create));
    var ud' := s'.heap[ROOT];
    var e := if option.After? then ud'.table[|ud'.table| - 1] else ud'.table[0];
    var stats := env.readdir(c, [SLASH]);
    hide HeapOk, TableOk, Children, Laid, Alike, Listed, AllCome, Cut;
    gift := map[];
    if stats.Some? {
      gift := FromStats(env, ud', e, stats.value);
      StatsListed(env, ud', e, stats.value);
      MadeComes(env, ud', e, gift);
    }
    assert at == [SLASH] ==> Contribution(env, s'.heap, ud', e) == if stats.None? then None else Some(gift);
  }

  /** Binding a directory: the same with its children, kind by kind, for the stats. A path
      that leads nowhere changes nothing. */
  lemma BindLaw(env: Env, s: FS, a: Action) returns (gift: map<Data, Node>)
    requires Inv(s) && env.rel([SLASH], [SLASH]) == Some([46]) && a.Bind? && Parts(a.path) != [] && a.id !in s.heap
    ensures var s' := Next(s, a);
            && Inv(s')
            && var dir := FindDir(a.env, s.heap, s.heap[ROOT], Parts(a.path));
            && (dir.None? ==> s' == s)
            && (dir.Some? ==>
                  && a.id in s'.heap && s'.heap[a.id] == dir.value
                  && var was, now := Children(env, s.heap, s.heap[ROOT]), Children(env, s'.heap, s'.heap[ROOT]);
                  if a.at != [SLASH] then Alike(now, was)
                  else
                    && Mirrors(Children(env, s.heap, dir.value), gift) && AllCome(env, gift, Bound(a.id), a.at)
                    && Laid(a.option, Cut(env, s.heap, s.heap[ROOT], 0), was, gift, now))
  {
    NextKeeps(s, a);
    gift := map[];
    var dir := FindDir(a.env, s.heap, s.heap[ROOT], Parts(a.path));
    if dir.Some? {
      AllocKeeps(s, a.id, dir.value);
      var s0 := s.(heap := s.heap[a.id := dir.value]);
      Added(env, s, s0, Bound(a.id), a.at, a.option, a.create);
      var s' := Next(s, a);
      assert Agree(s.heap, s'.heap);
      ChildrenSame(env, s.heap, s'.heap, dir.value);
      var ud' := s'.heap[ROOT];
      var e := if a.option.After? then ud'.table[|ud'.table| - 1] else ud'.table[0];
      gift := Rebased(env, ud', e, Children(env, s.heap, dir.value));
      BoundGives(env, s'.heap, ud', e);
      hide HeapOk, TableOk, Children, Laid, Alike, Cut, FindDir;
      if a.at == [SLASH] { RebasedComes(env, ud', e, Children(env, s.heap, dir.value)); }
    }
  }

  lemma BoundGives(env: Env, heap: Heap, ud: Dir, e: Entry)
    requires HeapOk(heap) && TableOk(heap, ud.table) && e in ud.table && e.src.Bound? && ud.path == [SLASH]
    requires env.rel([SLASH], [SLASH]) == Some([46])
    ensures e.src.d in heap && TableOk(heap, heap[e.src.d].table)
    ensures e.mountPoint == [SLASH] ==>
              Contribution(env, heap, ud, e) == Some(Rebased(env, ud, e, Children(env, heap, heap[e.src.d])))
  {
    assert TableOk(heap, heap[e.src.d].table);
    assert Parts([SLASH]) == [];
    assert FindDir(env, heap, heap[e.src.d], []) == Some(heap[e.src.d]);
  }

  lemma RebasedComes(env: Env, ud: Dir, e: Entry, m: map<Data, Node>)
    requires ud.path == [SLASH]
    ensures AllCome(env, Rebased(env, ud, e, m), e.src, e.mountPoint)
    ensures Mirrors(m, Rebased(env, ud, e, m))
  {}

  // ----------------------------------------------------------------------- unmount

  /** The entries of which it is not so, in order. */
  function But(t: seq<Entry>, p: Entry -> bool): seq<Entry> {
    if t == [] then [] else (if p(t[0]) then [] else [t[0]]) + But(t[1..], p)
  }

  /** Unmounting takes the entries at the mount point out of the root's table: all of them,
      those of one client, or those bound from directories of one path. */
  lemma UnmountLaw(s: FS, a: Action)
    requires Inv(s) && (a.UnmountPoint? || a.UnmountClient? || a.UnmountBind?)
    ensures var s', t := Next(s, a), s.heap[ROOT].table;
            && s'.heap == s.heap[ROOT := s.heap[ROOT].(table := s'.heap[ROOT].table)]
            && s'.heap[ROOT].table ==
               match a
               case UnmountPoint(at) => But(t, (e: Entry) => e.mountPoint == at)
               case UnmountClient(c, at) => But(t, (e: Entry) => e.mountPoint == at && e.src == Client(c))
               case UnmountBind(path, at) =>
                 But(t, (e: Entry) => e.mountPoint == at && e.src.Bound? && e.src.d in s.heap
                                      && s.heap[e.src.d].path == path)
               case _ => t
  {
    hide HeapOk, TableOk;
    var t := s.heap[ROOT].table;
    match a
    case UnmountPoint(at) => KeepIsBut(s.heap, t, a, (e: Entry) => e.mountPoint == at);
    case UnmountClient(c, at) => KeepIsBut(s.heap, t, a, (e: Entry) => e.mountPoint == at && e.src == Client(c));
    case UnmountBind(path, at) =>
      KeepIsBut(s.heap, t, a,
                (e: Entry) => e.mountPoint == at && e.src.Bound? && e.src.d in s.heap && s.heap[e.src.d].path == path);
    case _ =>
  }

  lemma {:induction false} KeepIsBut(heap: Heap, t: seq<Entry>, a: Action, p: Entry -> bool)
    requires forall e :: p(e) <==> Matches(heap, e, a)
    ensures Keep(heap, t, a) == But(t, p)
  { if t != [] { KeepIsBut(heap, t[1..], a, p); } }
}
