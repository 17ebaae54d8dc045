/** Why UnionBelow leaves out binds of other directories once the root is bound: a file system
    where one makes a listing go round. A client at "/" lists the directories "a" and "b".
    The root is bound onto "/a", so "/a/b" is there and is "/b"; then that is bound onto "/b". */
module UnionLoop {
  import opened Bytes
  import opened Union
  import opened UnionDepth
  import opened UnionBelow

  const A: Data := [97]
  const B: Data := [98]
  const AT_A: Data := [SLASH, 97]
  const AT_B: Data := [SLASH, 98]
  const AT_AB: Data := [SLASH, 97, SLASH, 98]

  function Rel(at: Data, p: Data): Option<Data> { if Within(at, p) then Some(CleanRel(at, p)) else None }

  function Readdir(c: nat, rel: Data): Option<seq<(Data, bool)>> {
    if rel == [SLASH] then Some([(A, true), (B, true)]) else None
  }

  const ENV: Env := Env(Rel, CleanJoin, Readdir)

  const E0: Entry := Entry(Client(0), [SLASH], false, false, 0)
  const E1: Entry := Entry(Bound(ROOT), AT_A, false, false, 1)
  const E2: Entry := Entry(Bound(1), AT_B, false, false, 2)

  /** After the mount and the bind of the root; `table` is the root's. */
  function Root(table: seq<Entry>): Dir { Dir([SLASH], None, table) }

  const BEFORE: Heap := map[ROOT := Root([E0, E1])]

  /** What "/a/b" is then. */
  const FOUND: Dir := Dir(AT_AB, Some(E1), [E0, E1])

  const AFTER: Heap := map[ROOT := Root([E0, E1, E2]), 1 := FOUND]

  /** What "/b" is after the last bind. */
  const LOOP: Dir := Dir(AT_B, Some(E0), [E0, E1, E2])

  /** The two heaps are what the operations make. */
  lemma Made()
    ensures var mount := Mount(0, [SLASH], After, false);
            var bind := Bind(ENV, [SLASH], AT_A, After, false, 1);
            RootOnly(bind) && RunOn(NewFS(), [mount, bind]) == FS(BEFORE, 2)
    ensures AFTER == AddEntry(FS(BEFORE[1 := FOUND], 2), Bound(1), AT_B, After, false).heap
  {
    var mount := Mount(0, [SLASH], After, false);
    var bind := Bind(ENV, [SLASH], AT_A, After, false, 1);
    assert [mount, bind][1..] == [bind] && [bind][1..] == [];
    var s := Step(NewFS(), mount);
    assert RunOn(NewFS(), [mount, bind]) == RunOn(s, [bind]) == RunOn(Step(s, bind), []);
    assert s.heap[ROOT].table == [E0];
    assert [E0] + [E1] == [E0, E1] && [E0, E1] + [E2] == [E0, E1, E2];
  }

  // ---------------------------------------------------------------- what is where

  lemma Joined()
    ensures CleanJoin([SLASH], A) == AT_A && CleanJoin([SLASH], B) == AT_B && CleanJoin(AT_A, B) == AT_AB
  {}

  lemma RelA()
    ensures Rel([SLASH], [SLASH]) == Some([46]) && Rel(AT_A, AT_A) == Some([46]) && Rel(AT_B, AT_B) == Some([46])
    ensures Rel([SLASH], AT_A) == None && Rel([SLASH], AT_B) == None && Rel(AT_A, AT_AB) == Some(B)
  {}

  lemma PartsAre()
    ensures Parts([SLASH]) == [] && Parts(B) == [B]
  { SplitPlain(B); }

  /** The root shows "a" and "b", each by the client's entry. */
  function Shown(t: seq<Entry>): map<Data, Node> {
    map[A := DirNode(Dir(AT_A, Some(E0), t)), B := DirNode(Dir(AT_B, Some(E0), t))]
  }

  lemma ClientShows(t: seq<Entry>, heap: Heap, fuel: nat)
    ensures AskIn(ENV, heap, Root(t), E0, fuel) == Done(Some(Shown(t)))
  {
    Joined();
    RelA();
    var stats: seq<(Data, bool)> := [(A, true), (B, true)];
    assert stats[..1] == [(A, true)];
    assert FromStats(ENV, Root(t), E0, stats[..1]) == map[A := DirNode(Dir(AT_A, Some(E0), t))];
    assert FromStats(ENV, Root(t), E0, stats) == Shown(t);
  }

  lemma RootShows(t: seq<Entry>, heap: Heap, fuel: nat)
    requires t == [E0, E1] || t == [E0, E1, E2]
    ensures fuel > 0 ==> ChildrenIn(ENV, heap, Root(t), fuel) == Done(Shown(t))
  {
    if fuel > 0 {
      ClientShows(t, heap, fuel - 1);
      hide AskIn;
      var acc: map<Data, Node> := map[];
      assert acc + Shown(t) == Shown(t);
      if |t| == 3 { assert MergeIn(ENV, heap, Root(t), 3, Shown(t), fuel - 1) == Done(Shown(t)); }
      assert MergeIn(ENV, heap, Root(t), 2, Shown(t), fuel - 1) == Done(Shown(t));
      assert MergeIn(ENV, heap, Root(t), 1, Shown(t), fuel - 1) == Done(Shown(t));
    }
  }

  /** "/a" shows what the root shows. */
  lemma AShows(fuel: nat)
    requires fuel >= 2
    ensures var a := Dir(AT_A, Some(E0), [E0, E1]);
            ChildrenIn(ENV, BEFORE, a, fuel) == Done(Rebased(ENV, a, E1, Shown([E0, E1])))
  {
    var t := [E0, E1];
    var a := Dir(AT_A, Some(E0), t);
    var m := Rebased(ENV, a, E1, Shown(t));
    RootShows(t, BEFORE, fuel - 1);
    RelA();
    PartsAre();
    assert AskIn(ENV, BEFORE, a, E0, fuel - 1) == Done(None);
    assert AskIn(ENV, BEFORE, a, E1, fuel - 1) == Done(Some(m)) by { hide Shown, ChildrenIn; }
    hide AskIn, Shown;
    var acc: map<Data, Node> := map[];
    assert acc + m == m;
    assert MergeIn(ENV, BEFORE, a, 2, m, fuel - 1) == Done(m);
    assert MergeIn(ENV, BEFORE, a, 1, acc, fuel - 1) == Done(m);
  }

  /** The path that is bound leads to FOUND. */
  lemma Finds(fuel: nat)
    requires fuel >= 2
    ensures FindIn(ENV, BEFORE, BEFORE[ROOT], [A, B], fuel) == Done(Some(FOUND))
  {
    var t := [E0, E1];
    RootShows(t, BEFORE, fuel);
    AShows(fuel);
    Joined();
    hide ChildrenIn;
    var a := Dir(AT_A, Some(E0), t);
    assert [A, B][1..] == [B] && [B][1..] == [];
    assert FindIn(ENV, BEFORE, FOUND, [], fuel) == Done(Some(FOUND));
    assert FindIn(ENV, BEFORE, a, [B], fuel) == Done(Some(FOUND));
  }

  // --------------------------------------------------------------- round and round

  /** The root leads to LOOP by "b". */
  lemma FindsLoop(fuel: nat)
    requires fuel > 0
    ensures FindIn(ENV, AFTER, AFTER[ROOT], [B], fuel) == Done(Some(LOOP))
  {
    RootShows([E0, E1, E2], AFTER, fuel);
    hide ChildrenIn;
    assert [B][1..] == [];
    assert FindIn(ENV, AFTER, LOOP, [], fuel) == Done(Some(LOOP));
  }

  /** Listing what was bound asks for LOOP, by the entry that leads back to the root. */
  lemma FoundOut(fuel: nat)
    requires forall f: nat :: f < fuel ==> ChildrenIn(ENV, AFTER, LOOP, f) == Out
    ensures ChildrenIn(ENV, AFTER, FOUND, fuel) == Out
  {
    if fuel > 0 {
      RelA();
      PartsAre();
      assert AskIn(ENV, AFTER, FOUND, E1, fuel - 1) == Out by {
        if fuel > 1 { FindsLoop(fuel - 1); }
        hide ChildrenIn;
        if fuel == 1 { assert ChildrenIn(ENV, AFTER, AFTER[ROOT], 0) == Out; }
      }
      hide AskIn;
      assert MergeIn(ENV, AFTER, FOUND, 1, map[], fuel - 1) == Out;
    }
  }

  /** Listing "/b" exhausts every depth, though each bind was of a directory that was there
      and the root was bound onto a path that shortens. */
  lemma LaterBindLoops(fuel: nat)
    ensures ChildrenIn(ENV, AFTER, LOOP, fuel) == Out
    ensures Sound(ENV) && Back(ENV, E1)
    ensures AFTER == AddEntry(FS(BEFORE[1 := FOUND], 2), Bound(1), AT_B, After, false).heap
    ensures FindIn(ENV, BEFORE, BEFORE[ROOT], [A, B], fuel + 2) == Done(Some(FOUND))
    ensures FindIn(ENV, AFTER, AFTER[ROOT], [B], fuel + 1) == Done(Some(LOOP))
  {
    hide ChildrenIn, FindIn, Sound, Back;
    EnvSound();
    Made();
    Finds(fuel + 2);
    FindsLoop(fuel + 1);
    LoopOut(fuel);
  }

  lemma {:induction false} LoopOut(fuel: nat)
    ensures ChildrenIn(ENV, AFTER, LOOP, fuel) == Out
  {
    if fuel > 0 {
      forall f: nat | f < fuel - 1 ensures ChildrenIn(ENV, AFTER, LOOP, f) == Out { LoopOut(f); }
      FoundOut(fuel - 1);
      LoopAsks(fuel - 1);
    }
  }

  lemma LoopAsks(fuel: nat)
    requires ChildrenIn(ENV, AFTER, FOUND, fuel) == Out
    ensures ChildrenIn(ENV, AFTER, LOOP, fuel + 1) == Out
  {
    RelA();
    PartsAre();
    assert AskIn(ENV, AFTER, LOOP, E0, fuel) == Done(None);
    assert AskIn(ENV, AFTER, LOOP, E2, fuel) == Out by { hide ChildrenIn; }
    hide AskIn;
    assert MergeIn(ENV, AFTER, LOOP, 2, map[], fuel) == Out;
    assert MergeIn(ENV, AFTER, LOOP, 1, map[], fuel) == Out;
    assert MergeIn(ENV, AFTER, LOOP, 0, map[], fuel) == Out;
  }

  lemma EnvSound()
    ensures Sound(ENV) && Back(ENV, E1)
  {
    SplitPlain(A);
    assert AT_A[1..] == A && CleanPath(AT_A);
    hide CleanPath;
    CleanShortens(ENV, AT_A);
  }
}
