/** Directories below a root that has been bound onto some other path than its own. Listing
    the mount point lists the root, and a directory below it the one at the same place below
    the root. That path is shorter, so every such listing ends. */
module UnionBelow {
  import opened Bytes
  import opened Union
  import opened UnionDepth

  // ------------------------------------------------------------------- what paths do

  /** A name as a directory may have it. */
  predicate PlainName(n: Data) { n != [] && SLASH !in n && n != [46] && n != [46, 46] }

  /** Clients list plain names. */
  ghost predicate PlainClients(env: Env) {
    forall c, rel, i ::
      env.readdir(c, rel).Some? && 0 <= i < |env.readdir(c, rel).value| ==> PlainName(env.readdir(c, rel).value[i].0)
  }

  /** A path as Join makes it: "/", or plain names each after a slash. */
  ghost predicate CleanPath(p: Data) {
    p == [SLASH] || (|p| > 1 && p[0] == SLASH && forall n :: n in Split(p[1..]) ==> PlainName(n))
  }

  function Steps(path: Data): nat { |Parts(path)| }

  /** The way from the mount point to the path has fewer steps than the path, or begins with
      a name that no directory has, such as "..". */
  predicate Near(env: Env, at: Data, path: Data) {
    match env.rel(at, path)
    case None => true
    case Some(r) =>
      var parts := Parts(if r == [46] then [SLASH] else r);
      |parts| < Steps(path) || (parts != [] && !PlainName(parts[0]))
  }

  /** Joining a plain name to a clean path gives a clean path with one more step. */
  ghost predicate Joins(env: Env) {
    forall p, n :: CleanPath(p) && PlainName(n) ==>
      CleanPath(env.join(p, n)) && Steps(env.join(p, n)) == Steps(p) + 1
  }

  /** Clean paths other than the root's are nearer to the mount point than to the root, or
      not below it. */
  ghost predicate Shortens(env: Env, at: Data) { forall p :: CleanPath(p) && p != [SLASH] ==> Near(env, at, p) }

  /** What the names and paths must be like. */
  ghost predicate Sound(env: Env) { PlainClients(env) && Joins(env) }

  // ------------------------------------------------------------- what an entry gives

  ghost predicate PlainKeys(m: map<Data, Node>) { forall n :: n in m ==> PlainName(n) }

  lemma {:induction false} StatsPlain(env: Env, ud: Dir, me: Entry, stats: seq<(Data, bool)>)
    requires forall i :: 0 <= i < |stats| ==> PlainName(stats[i].0)
    ensures PlainKeys(FromStats(env, ud, me, stats)) && AllFresh(env, ud, me, FromStats(env, ud, me, stats))
  {
    hide PlainName;
    if stats != [] { StatsPlain(env, ud, me, stats[..|stats| - 1]); }
  }

  /** Every child is one this entry makes of a name. */
  ghost predicate AllFresh(env: Env, ud: Dir, me: Entry, m: map<Data, Node>) {
    forall n :: n in m ==> m[n] == Fresh(env, ud, me, n, m[n].DirNode?)
  }

  lemma {:induction false} ChildrenPlain(env: Env, heap: Heap, ud: Dir, fuel: nat)
    requires PlainClients(env)
    ensures ChildrenIn(env, heap, ud, fuel).Done? ==> PlainKeys(ChildrenIn(env, heap, ud, fuel).value)
    decreases fuel, 0, 0
  {
    hide PlainClients, MergeIn;
    if fuel > 0 { MergePlain(env, heap, ud, 0, map[], fuel - 1); }
  }

  lemma {:induction false} MergePlain(env: Env, heap: Heap, ud: Dir, i: nat, acc: map<Data, Node>, fuel: nat)
    requires PlainClients(env) && i <= |ud.table| && PlainKeys(acc)
    ensures MergeIn(env, heap, ud, i, acc, fuel).Done? ==> PlainKeys(MergeIn(env, heap, ud, i, acc, fuel).value)
    decreases fuel, 3, |ud.table| - i
  {
    hide PlainClients, PlainName, AskIn;
    if i < |ud.table| {
      var me := ud.table[i];
      AskFresh(env, heap, ud, me, fuel);
      MergePlain(env, heap, ud, i + 1, acc, fuel);
      var r := AskIn(env, heap, ud, me, fuel);
      if r.Done? && r.value.Some? { MergePlain(env, heap, ud, i + 1, acc + r.value.value, fuel); }
    }
  }

  /** What an entry gives has plain names and its own nodes. */
  lemma {:induction false} AskFresh(env: Env, heap: Heap, ud: Dir, me: Entry, fuel: nat)
    requires PlainClients(env)
    ensures var r := AskIn(env, heap, ud, me, fuel);
            r.Done? && r.value.Some? ==> PlainKeys(r.value.value) && AllFresh(env, ud, me, r.value.value)
    decreases fuel, 2, 0
  {
    hide PlainName, ChildrenIn, FindIn, FromStats;
    var rel := Relative(env, ud, me);
    if rel.Some? {
      match me.src
      case Client(c) =>
        var stats := env.readdir(c, rel.value);
        if stats.Some? { StatsPlain(env, ud, me, stats.value); }
      case Bound(d) =>
        if d in heap {
          var on := FindIn(env, heap, heap[d], Parts(rel.value), fuel);
          if on.Done? && on.value.Some? { ChildrenPlain(env, heap, on.value.value, fuel); }
        }
    }
  }

  // ------------------------------------------------------------------ below the root

  /** The entry leads back to the root, from a mount point that shortens paths. */
  ghost predicate Back(env: Env, me: Entry) {
    me.src == Bound(ROOT) && me.mountPoint != [SLASH] && Shortens(env, me.mountPoint)
  }

  /** The entries of the root's table lead back like that, or down with a bounded depth. */
  ghost predicate RootLeads(env: Env, heap: Heap, b: nat) {
    && HeapOk(heap) && ROOT in heap && heap[ROOT].mount == None && heap[ROOT].path == [SLASH]
    && forall e :: e in heap[ROOT].table ==> Back(env, e) || (Followable(heap, e) && Depth(heap, e) <= b)
  }

  /** A directory as it is found below the root, or the root. */
  ghost predicate Below(heap: Heap, ud: Dir)
    requires ROOT in heap
  { ud.table == heap[ROOT].table && CleanPath(ud.path) && (ud.mount.Some? ==> ud.path != [SLASH]) }

  ghost predicate AllBelow(heap: Heap, m: map<Data, Node>, steps: nat)
    requires ROOT in heap
  { forall n :: n in m && m[n].DirNode? ==> Below(heap, m[n].dir) && Steps(m[n].dir.path) <= steps }

  lemma AppliesNear(env: Env, heap: Heap, ud: Dir, me: Entry)
    requires ROOT in heap && Below(heap, ud) && Back(env, me) && Applies(ud, me)
    ensures ud.path != [SLASH] && Near(env, me.mountPoint, ud.path)
  { hide Near, CleanPath; }

  lemma AskBelow(env: Env, heap: Heap, ud: Dir, me: Entry, m: map<Data, Node>)
    requires ROOT in heap && Joins(env) && Below(heap, ud) && PlainKeys(m) && AllFresh(env, ud, me, m)
    ensures AllBelow(heap, m, Steps(ud.path) + 1)
  {
    assert Steps([SLASH]) == 0;
    hide PlainName, CleanPath, Steps;
  }

  lemma {:induction false} ListEnds(env: Env, heap: Heap, b: nat, ud: Dir, fuel: nat)
    requires RootLeads(env, heap, b) && Sound(env) && Below(heap, ud) && fuel > b + Steps(ud.path)
    ensures ChildrenIn(env, heap, ud, fuel).Done?
    ensures AllBelow(heap, ChildrenIn(env, heap, ud, fuel).value, Steps(ud.path) + 1)
    decreases Steps(ud.path), 3, 0
  {
    hide RootLeads, Sound, MergeIn, Steps;
    MergeBelow(env, heap, b, ud, 0, map[], fuel - 1);
  }

  lemma {:induction false} MergeBelow(env: Env, heap: Heap, b: nat, ud: Dir, i: nat, acc: map<Data, Node>, fuel: nat)
    requires RootLeads(env, heap, b) && Sound(env) && Below(heap, ud)
    requires i <= |ud.table| && fuel >= b + Steps(ud.path) && AllBelow(heap, acc, Steps(ud.path) + 1)
    ensures MergeIn(env, heap, ud, i, acc, fuel).Done?
    ensures AllBelow(heap, MergeIn(env, heap, ud, i, acc, fuel).value, Steps(ud.path) + 1)
    decreases Steps(ud.path), 2, |ud.table| - i
  {
    assert ROOT in heap;
    hide RootLeads, PlainClients, Joins, PlainKeys, AllFresh, AskIn, Steps, Below;
    if i < |ud.table| {
      var me := ud.table[i];
      MergeBelow(env, heap, b, ud, i + 1, acc, fuel);
      if Applies(ud, me) {
        AskEnds(env, heap, b, ud, me, fuel);
        AskFresh(env, heap, ud, me, fuel);
        var r := AskIn(env, heap, ud, me, fuel);
        if r.value.Some? {
          AskBelow(env, heap, ud, me, r.value.value);
          MergeBelow(env, heap, b, ud, i + 1, acc + r.value.value, fuel);
        }
      }
    }
  }

  lemma {:induction false} AskEnds(env: Env, heap: Heap, b: nat, ud: Dir, me: Entry, fuel: nat)
    requires RootLeads(env, heap, b) && Sound(env) && Below(heap, ud)
    requires me in ud.table && Applies(ud, me) && fuel >= b + Steps(ud.path)
    ensures AskIn(env, heap, ud, me, fuel).Done?
    decreases Steps(ud.path), 1, 0
  {
    hide Sound, HeapOk, ChildrenIn, FindIn, Ask, Depth, Back, CleanPath;
    if !Back(env, me) { AskAgree(env, heap, ud, me, fuel); }
    else {
      AppliesNear(env, heap, ud, me);
      StepsOfClean(ud.path);
      RootBelow(env, heap, b);
      var rel := Relative(env, ud, me);
      assert me.src == Bound(ROOT) by { BackToRoot(env, me); }
      if rel.Some? { FollowBack(env, heap, b, ud, Parts(rel.value), fuel); }
    }
  }

  lemma BackToRoot(env: Env, me: Entry)
    requires Back(env, me)
    ensures me.src == Bound(ROOT)
  {}

  lemma RootBelow(env: Env, heap: Heap, b: nat)
    requires RootLeads(env, heap, b)
    ensures Below(heap, heap[ROOT]) && Steps(heap[ROOT].path) == 0
  {}

  lemma StepsOfClean(p: Data)
    requires CleanPath(p) && p != [SLASH]
    ensures Steps(p) > 0
  {}

  /** Finding and listing what the entry leads back to. */
  lemma {:induction false} FollowBack(env: Env, heap: Heap, b: nat, ud: Dir, parts: seq<Data>, fuel: nat)
    requires RootLeads(env, heap, b) && Sound(env) && fuel >= b + Steps(ud.path) > b
    requires |parts| < Steps(ud.path) || (parts != [] && !PlainName(parts[0]))
    ensures var r := FindIn(env, heap, heap[ROOT], parts, fuel);
            r.Done? && (r.value.Some? ==> ChildrenIn(env, heap, r.value.value, fuel).Done?)
    decreases Steps(ud.path), 0, |parts| + 1
  {
    RootBelow(env, heap, b);
    hide RootLeads, ChildrenIn, Steps, PlainName, Below;
    if |parts| < Steps(ud.path) {
      FindEnds(env, heap, b, heap[ROOT], parts, fuel);
      var on := FindIn(env, heap, heap[ROOT], parts, fuel).value;
      if on.Some? { ListEnds(env, heap, b, on.value, fuel); }
    } else {
      ListEnds(env, heap, b, heap[ROOT], fuel);
      ChildrenPlain(env, heap, heap[ROOT], fuel);
    }
  }

  lemma {:induction false} FindEnds(env: Env, heap: Heap, b: nat, ud: Dir, parts: seq<Data>, fuel: nat)
    requires RootLeads(env, heap, b) && Sound(env) && Below(heap, ud) && fuel >= b + Steps(ud.path) + |parts|
    ensures var r := FindIn(env, heap, ud, parts, fuel);
            && r.Done?
            && (r.value.Some? ==> Below(heap, r.value.value)
                                  && Steps(r.value.value.path) <= Steps(ud.path) + |parts|)
    decreases Steps(ud.path) + |parts|, 0, |parts|
  {
    hide RootLeads, Sound, ChildrenIn, Steps, Below;
    if parts != [] {
      ListEnds(env, heap, b, ud, fuel);
      var m := ChildrenIn(env, heap, ud, fuel).value;
      if parts[0] in m && m[parts[0]].DirNode? { FindEnds(env, heap, b, m[parts[0]].dir, parts[1..], fuel); }
    }
  }

  /** Every directory below such a root is found and listed in boundedly many nested calls. */
  lemma FoundEnds(env: Env, heap: Heap, b: nat, parts: seq<Data>)
    requires RootLeads(env, heap, b) && Sound(env)
    ensures var r := FindIn(env, heap, heap[ROOT], parts, b + |parts| + 1);
            r.Done? && (r.value.Some? ==> ChildrenIn(env, heap, r.value.value, b + |parts| + 1).Done?)
  {
    RootBelow(env, heap, b);
    hide RootLeads, ChildrenIn, FindIn, Sound, Steps;
    FindEnds(env, heap, b, heap[ROOT], parts, b + |parts| + 1);
    var r := FindIn(env, heap, heap[ROOT], parts, b + |parts| + 1).value;
    if r.Some? { ListEnds(env, heap, b, r.value, b + |parts| + 1); }
  }

  // ------------------------------------------------------ runs that bind the root

  /** What is kept when the root is among what is bound: all but the entries that lead to
      the root itself are stratified. */
  ghost predicate Rooted(s: FS) {
    && ROOT in s.heap && s.heap[ROOT].mount == None && s.heap[ROOT].path == [SLASH] && HeapOk(s.heap)
    && forall e :: e in s.heap[ROOT].table ==> e.age < s.clock && (e.src == Bound(ROOT) || Down(s.heap, e))
  }

  /** The entry leads to a client, or down to a directory with an older table. */
  ghost predicate Down(heap: Heap, e: Entry) {
    e.src.Bound? ==> e.src.d in heap && e.src.d != ROOT && forall x :: x in heap[e.src.d].table ==> x.age < e.age
  }

  lemma InvRooted(s: FS)
    requires Inv(s)
    ensures Rooted(s)
  { hide HeapOk; }

  predicate RootOnly(a: Action) { a.Bind? ==> Parts(a.path) == [] }

  /** Mounting, unmounting and binding the root, which needs no search. */
  function Step(s: FS, a: Action): FS
    requires ROOT in s.heap && RootOnly(a)
  {
    match a
    case Mount(c, at, option, create) => AddEntry(s, Client(c), at, option, create)
    case Bind(_, _, at, option, create, _) => AddEntry(s, Bound(ROOT), at, option, create)
    case _ => SetTable(s, Keep(s.heap, s.heap[ROOT].table, a))
  }

  /** On stratified tables these are the steps of Union. */
  lemma StepIsNext(s: FS, a: Action)
    requires Inv(s) && RootOnly(a)
    ensures Step(s, a) == Next(s, a)
  {}

  lemma HeapStays(heap: Heap, t: seq<Entry>)
    requires HeapOk(heap) && ROOT in heap
    ensures var heap' := heap[ROOT := heap[ROOT].(table := t)];
            HeapOk(heap') && forall e :: Down(heap, e) ==> Down(heap', e)
  {
    var heap' := heap[ROOT := heap[ROOT].(table := t)];
    forall i | i in heap' && i != ROOT ensures TableOk(heap', heap'[i].table) { assert TableOk(heap, heap[i].table); }
  }

  lemma StepKeeps(s: FS, a: Action)
    requires Rooted(s) && RootOnly(a)
    ensures Rooted(Step(s, a))
  {
    hide HeapOk, Down;
    var t := s.heap[ROOT].table;
    HeapStays(s.heap, Step(s, a).heap[ROOT].table);
    if a.Mount? || a.Bind? {
      var e := Entry(if a.Mount? then Client(a.c) else Bound(ROOT), a.at, a.option.Replace?, a.create, s.clock);
      assert forall x :: x in Insert(t, e, a.option) ==> x in t || x == e;
      ClientDown(s.heap, e);
    } else {
      forall e ensures e in Keep(s.heap, t, a) ==> e in t { KeepSome(s.heap, t, a, e); }
    }
  }

  lemma ClientDown(heap: Heap, e: Entry)
    ensures e.src.Client? ==> Down(heap, e)
  {}

  function RunOn(s: FS, acts: seq<Action>): (s': FS)
    requires ROOT in s.heap && forall k :: 0 <= k < |acts| ==> RootOnly(acts[k])
    ensures ROOT in s'.heap
    decreases |acts|
  { if acts == [] then s else assert RootOnly(acts[0]); RunOn(Step(s, acts[0]), acts[1..]) }

  lemma {:induction false} RunRooted(s: FS, acts: seq<Action>)
    requires Rooted(s) && forall k :: 0 <= k < |acts| ==> RootOnly(acts[k])
    ensures Rooted(RunOn(s, acts))
    decreases |acts|
  {
    hide HeapOk, Down;
    if acts != [] {
      assert RootOnly(acts[0]);
      StepKeeps(s, acts[0]);
      RunRooted(Step(s, acts[0]), acts[1..]);
    }
  }

  /** All entries of the root's table that lead back to it are on paths that shorten. */
  ghost predicate AllBack(env: Env, s: FS)
    requires ROOT in s.heap
  { forall e :: e in s.heap[ROOT].table && e.src == Bound(ROOT) ==> Back(env, e) }

  /** Finding the way below the root and listing what is there takes boundedly many nested
      calls. */
  predicate WayEnds(env: Env, s: FS, parts: seq<Data>)
    requires ROOT in s.heap
  {
    var r := FindIn(env, s.heap, s.heap[ROOT], parts, s.clock + |parts| + 1);
    r.Done? && (r.value.Some? ==> ChildrenIn(env, s.heap, r.value.value, s.clock + |parts| + 1).Done?)
  }

  /** Whatever was mounted and bound before, and whatever mounts, unmounts and binds of the
      root follow: as long as the root is bound onto paths that shorten, every directory
      below it is found and listed. */
  lemma BelowEnds(before: seq<Action>, acts: seq<Action>, env: Env, parts: seq<Data>)
    requires (forall k :: 0 <= k < |before| ==> Allowed(before[k])) && forall k :: 0 <= k < |acts| ==> RootOnly(acts[k])
    requires Sound(env) && AllBack(env, RunOn(Run(NewFS(), before), acts))
    ensures WayEnds(env, RunOn(Run(NewFS(), before), acts), parts)
  {
    var s := Run(NewFS(), before);
    hide *;
    InvRooted(s);
    RunRooted(s, acts);
    RootedEnds(RunOn(s, acts), env, parts);
  }

  lemma RootedEnds(s: FS, env: Env, parts: seq<Data>)
    requires Rooted(s) && Sound(env) && AllBack(env, s)
    ensures WayEnds(env, s, parts)
  {
    hide Back, Sound, FindIn, ChildrenIn, RootLeads;
    RootedLeads(env, s);
    FoundEnds(env, s.heap, s.clock, parts);
  }

  lemma RootedLeads(env: Env, s: FS)
    requires Rooted(s) && AllBack(env, s)
    ensures RootLeads(env, s.heap, s.clock)
  {
    hide Back, HeapOk;
    forall e | e in s.heap[ROOT].table && e.src.Bound? && e.src.d != ROOT ensures Depth(s.heap, e) <= s.clock {
      TopBelow(s.heap[e.src.d].table, e.age);
    }
  }

  // ------------------------------------------------------------------ paths as they are

  /** The path is the base or leads on from it. */
  predicate Within(at: Data, path: Data) {
    path == at || (|at| < |path| && path[..|at|] == at && path[|at|] == SLASH)
  }

  /** filepath.Join of a clean absolute path and a plain name. */
  function CleanJoin(p: Data, n: Data): Data { if p == [SLASH] then [SLASH] + n else p + [SLASH] + n }

  /** filepath.Rel where the target is the base or below it. */
  function CleanRel(at: Data, p: Data): Data
    requires Within(at, p)
  { if p == at then [46] else p[|at| + 1..] }

  lemma {:induction false} SplitAt(a: Data, b: Data)
    ensures Split(a + [SLASH] + b) == Split(a) + Split(b)
  {
    var s := a + [SLASH] + b;
    if a == [] { assert s[1..] == b; }
    else {
      SplitAt(a[1..], b);
      assert s[1..] == a[1..] + [SLASH] + b;
      FirstPart(s[0], Split(a[1..]), Split(b));
    }
  }

  /** What Split does with one more byte concerns the first part only. */
  lemma FirstPart(c: byte, x: seq<Data>, y: seq<Data>)
    requires x != []
    ensures [[c] + (x + y)[0]] + (x + y)[1..] == ([[c] + x[0]] + x[1..]) + y
    ensures [[]] + (x + y) == ([[]] + x) + y
  {}

  lemma {:induction false} SplitPlain(n: Data)
    requires SLASH !in n
    ensures Split(n) == [n]
  {
    if n != [] {
      SplitPlain(n[1..]);
      assert n[0] in n && n == [n[0]] + n[1..];
    }
  }

  lemma StepsBelow(p: Data, r: Data)
    requires CleanPath(p) && p != [SLASH]
    ensures Parts(p + [SLASH] + r) == Parts(p) + Split(r)
  {
    assert (p + [SLASH] + r)[1..] == p[1..] + [SLASH] + r;
    SplitAt(p[1..], r);
  }

  lemma JoinClean(p: Data, n: Data)
    requires CleanPath(p) && PlainName(n)
    ensures CleanPath(CleanJoin(p, n)) && Steps(CleanJoin(p, n)) == Steps(p) + 1
  {
    SplitPlain(n);
    if p == [SLASH] { assert ([SLASH] + n)[1..] == n; }
    else {
      StepsBelow(p, n);
      assert (p + [SLASH] + n)[1..] == p[1..] + [SLASH] + n;
      SplitAt(p[1..], n);
    }
  }

  /** The results of filepath.Join on a clean path and a plain name. */
  ghost predicate JoinsCleanly(env: Env) {
    forall p, n :: CleanPath(p) && PlainName(n) ==> env.join(p, n) == CleanJoin(p, n)
  }

  /** The results of filepath.Rel on a clean base and a clean path: what follows the base
      below it, an error or a path that begins with ".." elsewhere. */
  ghost predicate RelatesCleanly(env: Env, at: Data) {
    forall p :: CleanPath(p) ==>
      if Within(at, p) then env.rel(at, p) == Some(CleanRel(at, p))
      else env.rel(at, p).None? || (Parts(env.rel(at, p).value) != [] && Parts(env.rel(at, p).value)[0] == [46, 46])
  }

  /** With the path functions as they are, every clean mount point but the root's shortens. */
  lemma CleanShortens(env: Env, at: Data)
    requires CleanPath(at) && at != [SLASH] && JoinsCleanly(env) && RelatesCleanly(env, at)
    ensures Joins(env) && Shortens(env, at)
  {
    hide Near, Steps, CleanPath, PlainName;
    forall p, n | CleanPath(p) && PlainName(n)
      ensures CleanPath(env.join(p, n)) && Steps(env.join(p, n)) == Steps(p) + 1
    { JoinClean(p, n); }
    forall p | CleanPath(p) && p != [SLASH] ensures Near(env, at, p) { CleanNear(env, at, p); }
  }

  lemma CleanNear(env: Env, at: Data, p: Data)
    requires CleanPath(at) && at != [SLASH] && CleanPath(p) && p != [SLASH] && RelatesCleanly(env, at)
    ensures Near(env, at, p)
  {
    if Within(at, p) && p != at {
      var r := CleanRel(at, p);
      assert p == at + [SLASH] + r;
      StepsBelow(at, r);
    } else if p == at {
      StepsOfClean(p);
    } else if env.rel(at, p).Some? {
      var r := env.rel(at, p).value;
      assert Parts([46]) == [[46]] by { SplitPlain([46]); }
      assert r != [46];
    }
  }
}
