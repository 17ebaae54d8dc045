/** What a directory of the union shows, read off the clients and the bound directories: which
    directory a path leads to, and what one entry of the mount table gives. */
module UnionListing {
  import opened Bytes
  import opened Union

  // ------------------------------------------------------------------------- findDir

  ghost predicate DirStep(env: Env, heap: Heap, d: Dir, part: Data, d': Dir)
    requires HeapOk(heap) && TableOk(heap, d.table)
  { var m := Children(env, heap, d); part in m && m[part] == DirNode(d') }

  /** The directories along a path, the first included. */
  ghost predicate Leads(env: Env, heap: Heap, ud: Dir, parts: seq<Data>, ds: seq<Dir>)
    requires HeapOk(heap) && TableOk(heap, ud.table)
  {
    && |ds| == |parts| + 1 && ds[0] == ud && (forall i :: 0 <= i < |ds| ==> ds[i].table == ud.table)
    && forall i :: 0 <= i < |parts| ==> DirStep(env, heap, ds[i], parts[i], ds[i + 1])
  }

  lemma {:induction false} Followed(env: Env, heap: Heap, ud: Dir, parts: seq<Data>, ds: seq<Dir>)
    requires HeapOk(heap) && TableOk(heap, ud.table) && Leads(env, heap, ud, parts, ds)
    ensures FindDir(env, heap, ud, parts) == Some(ds[|parts|])
    decreases |parts|
  {
    hide HeapOk, TableOk, Children;
    if parts != [] {
      assert DirStep(env, heap, ds[0], parts[0], ds[1]);
      forall i | 0 <= i < |parts| - 1 ensures DirStep(env, heap, ds[1..][i], parts[1..][i], ds[1..][i + 1]) {
        assert DirStep(env, heap, ds[i + 1], parts[i + 1], ds[i + 2]);
      }
      Followed(env, heap, ds[1], parts[1..], ds[1..]);
    }
  }

  lemma {:induction false} WayThere(env: Env, heap: Heap, ud: Dir, parts: seq<Data>) returns (ds: seq<Dir>)
    requires HeapOk(heap) && TableOk(heap, ud.table) && FindDir(env, heap, ud, parts).Some?
    ensures Leads(env, heap, ud, parts, ds) && ds[|parts|] == FindDir(env, heap, ud, parts).value
    decreases |parts|
  {
    hide HeapOk, TableOk;
    ds := [ud];
    if parts != [] {
      var next := Children(env, heap, ud)[parts[0]].dir;
      hide Children;
      assert DirStep(env, heap, ud, parts[0], next);
      var rest := WayThere(env, heap, next, parts[1..]);
      ds := [ud] + rest;
      forall i | 0 <= i < |parts| ensures DirStep(env, heap, ds[i], parts[i], ds[i + 1]) {
        if i > 0 { assert DirStep(env, heap, rest[i - 1], parts[1..][i - 1], rest[i]); }
      }
    }
  }

  /** A path leads to a directory exactly when each of its parts is shown as a directory by the
      one before, and it leads to the last of those. */
  lemma FindIff(env: Env, heap: Heap, ud: Dir, parts: seq<Data>, d: Dir)
    requires HeapOk(heap) && TableOk(heap, ud.table)
    ensures FindDir(env, heap, ud, parts) == Some(d) <==>
              exists ds: seq<Dir> :: Leads(env, heap, ud, parts, ds) && ds[|parts|] == d
  {
    hide HeapOk, TableOk, FindDir;
    if FindDir(env, heap, ud, parts) == Some(d) {
      var ds := WayThere(env, heap, ud, parts);
    }
    if ds: seq<Dir> :| Leads(env, heap, ud, parts, ds) && ds[|parts|] == d { Followed(env, heap, ud, parts, ds); }
  }

  // ---------------------------------------------------------------------- one entry

  /** A child by this name, made by this entry. */
  predicate Made(env: Env, ud: Dir, me: Entry, n: Data, x: Node) {
    match x
    case DirNode(d) => d.path == env.join(ud.path, n) && d.mount == Some(me) && d.table == ud.table
    case FileNode(p, e) => p == env.join(ud.path, n) && e == me
  }

  ghost predicate AllMade(env: Env, ud: Dir, me: Entry, m: map<Data, Node>) {
    forall n :: n in m ==> Made(env, ud, me, n, m[n])
  }

  /** The i-th stat is the last of its name. */
  predicate IsLast(stats: seq<(Data, bool)>, n: Data, i: nat) {
    i < |stats| && stats[i].0 == n && forall j :: i < j < |stats| ==> stats[j].0 != n
  }

  /** The names of the stats, each a directory or not as the last stat of the name says. */
  ghost predicate Listed(stats: seq<(Data, bool)>, m: map<Data, Node>) {
    && (forall i :: 0 <= i < |stats| ==> stats[i].0 in m)
    && (forall n :: n in m ==> exists i: nat :: IsLast(stats, n, i) && m[n].DirNode? == stats[i].1)
  }

  /** The names of a directory's children, kind by kind. */
  ghost predicate Mirrors(m: map<Data, Node>, m': map<Data, Node>) {
    m'.Keys == m.Keys && forall n :: n in m ==> m'[n].DirNode? == m[n].DirNode?
  }

  lemma ListedMore(stats: seq<(Data, bool)>, m: map<Data, Node>, last: (Data, bool), x: Node)
    requires Listed(stats, m) && x.DirNode? == last.1
    ensures Listed(stats + [last], m[last.0 := x])
  {
    var all, m' := stats + [last], m[last.0 := x];
    forall n | n in m' ensures exists i: nat :: IsLast(all, n, i) && m'[n].DirNode? == all[i].1 {
      if n == last.0 { assert IsLast(all, n, |stats|); }
      else {
        var i: nat :| IsLast(stats, n, i) && m[n].DirNode? == stats[i].1;
        assert IsLast(all, n, i);
      }
    }
  }

  lemma {:induction false} StatsListed(env: Env, ud: Dir, me: Entry, stats: seq<(Data, bool)>)
    ensures Listed(stats, FromStats(env, ud, me, stats)) && AllMade(env, ud, me, FromStats(env, ud, me, stats))
  {
    hide Listed;
    if stats == [] { NothingListed(); }
    else {
      var k := |stats| - 1;
      StatsListed(env, ud, me, stats[..k]);
      ListedMore(stats[..k], FromStats(env, ud, me, stats[..k]), stats[k], Fresh(env, ud, me, stats[k].0, stats[k].1));
      assert stats == stats[..k] + [stats[k]];
    }
  }

  lemma NothingListed()
    ensures Listed([], map[])
  {}

  /** Where an entry looks for the directory: its path relative to the mount point, with "/"
      for ".". */
  function Below(env: Env, ud: Dir, me: Entry): Option<Data> {
    if env.rel(me.mountPoint, ud.path) == Some([46]) then Some([47]) else env.rel(me.mountPoint, ud.path)
  }

  /** An entry counts when it is mounted on the directory or the directory was listed through
      it. It then gives what its client lists there, or the children of what is found there
      under the bound directory, as children of this one; and nothing if there is no such
      place or no answer. */
  lemma PartLaw(env: Env, heap: Heap, ud: Dir, i: nat)
    requires HeapOk(heap) && TableOk(heap, ud.table) && i < |ud.table|
    ensures var me := ud.table[i];
            var part, at := Part(env, heap, ud, i), Below(env, ud, me);
            if me.mountPoint != ud.path && (ud.mount.None? || ud.mount.value.src != me.src) then part == None
            else if at.None? then part == None
            else
              && (part.Some? ==> AllMade(env, ud, me, part.value))
              && (me.src.Client? ==>
                    && part.Some? == env.readdir(me.src.c, at.value).Some?
                    && (part.Some? ==> Listed(env.readdir(me.src.c, at.value).value, part.value)))
              && (me.src.Bound? ==>
                    && me.src.d in heap && TableOk(heap, heap[me.src.d].table)
                    && var dir := FindDir(env, heap, heap[me.src.d], Parts(at.value));
                    && part.Some? == dir.Some?
                    && (part.Some? ==> Mirrors(Children(env, heap, dir.value), part.value)))
  {
    var me := ud.table[i];
    var at := Below(env, ud, me);
    assert me in ud.table;
    if at.Some? && me.src.Client? && env.readdir(me.src.c, at.value).Some? {
      StatsListed(env, ud, me, env.readdir(me.src.c, at.value).value);
    }
    if me.src.Bound? {
      assert TableOk(heap, heap[me.src.d].table);
      hide HeapOk, TableOk, Children, FindDir;
    }
  }
}
