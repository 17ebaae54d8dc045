/** How deep the recursion of Children and findDir goes, on tables of any shape. The functions
    of Union exist only on stratified tables; these count the nested calls of Children and
    give up when there are more than `fuel`, so they show where the Go code would not end. */
module UnionDepth {
  import opened Bytes
  import opened Union

  datatype Outcome<T> = Out | Done(value: T)

  function ChildrenIn(env: Env, heap: Heap, ud: Dir, fuel: nat): Outcome<map<Data, Node>>
    decreases fuel, 0, 0
  { if fuel == 0 then Out else MergeIn(env, heap, ud, 0, map[], fuel - 1) }

  predicate Applies(ud: Dir, me: Entry) { ud.path == me.mountPoint || IsCurrent(ud, me) }

  function MergeIn(env: Env, heap: Heap, ud: Dir, i: nat, acc: map<Data, Node>, fuel: nat): Outcome<map<Data, Node>>
    requires i <= |ud.table|
    decreases fuel, 3, |ud.table| - i
  {
    if i == |ud.table| then Done(acc)
    else
      var me := ud.table[i];
      if !Applies(ud, me) then MergeIn(env, heap, ud, i + 1, acc, fuel)
      else
        match AskIn(env, heap, ud, me, fuel)
        case Out => Out
        case Done(None) => MergeIn(env, heap, ud, i + 1, acc, fuel)
        case Done(Some(m)) =>
          if me.replace && !IsCurrent(ud, me) then Done(acc + m) else MergeIn(env, heap, ud, i + 1, acc + m, fuel)
  }

  function AskIn(env: Env, heap: Heap, ud: Dir, me: Entry, fuel: nat): Outcome<Option<map<Data, Node>>>
    decreases fuel, 2, 0
  {
    match Relative(env, ud, me)
    case None => Done(None)
    case Some(rel) =>
      match me.src
      case Client(c) => Done(ClientPart(env, ud, me, c, rel))
      case Bound(d) =>
        if d !in heap then Done(None)
        else
          match FindIn(env, heap, heap[d], Parts(rel), fuel)
          case Out => Out
          case Done(None) => Done(None)
          case Done(Some(on)) =>
            match ChildrenIn(env, heap, on, fuel)
            case Out => Out
            case Done(m) => Done(Some(Rebased(env, ud, me, m)))
  }

  function ClientPart(env: Env, ud: Dir, me: Entry, c: nat, rel: Data): Option<map<Data, Node>> {
    match env.readdir(c, rel)
    case None => None
    case Some(stats) => Some(FromStats(env, ud, me, stats))
  }

  function FindIn(env: Env, heap: Heap, ud: Dir, parts: seq<Data>, fuel: nat): Outcome<Option<Dir>>
    decreases fuel, 1, |parts|
  {
    if parts == [] then Done(Some(ud))
    else
      match ChildrenIn(env, heap, ud, fuel)
      case Out => Out
      case Done(m) =>
        if parts[0] in m && m[parts[0]].DirNode? then FindIn(env, heap, m[parts[0]].dir, parts[1..], fuel)
        else Done(None)
  }

  // ------------------------------------------------------------- stratified tables

  /** The entry can be followed: it does not lead to the root. */
  predicate Followable(heap: Heap, me: Entry) { me.src.Bound? ==> me.src.d in heap && me.src.d != ROOT }

  /** What an entry gives, by the functions of Union. */
  ghost function Ask(env: Env, heap: Heap, ud: Dir, me: Entry): Option<map<Data, Node>>
    requires HeapOk(heap) && Followable(heap, me)
  {
    match Relative(env, ud, me)
    case None => None
    case Some(rel) =>
      match me.src
      case Client(c) => ClientPart(env, ud, me, c, rel)
      case Bound(d) =>
        match FindDir(env, heap, heap[d], Parts(rel))
        case None => None
        case Some(on) => Some(Rebased(env, ud, me, Children(env, heap, on)))
  }

  /** How deep following the entry goes at most. */
  function Depth(heap: Heap, me: Entry): nat {
    if me.src.Bound? && me.src.d in heap then 1 + Top(heap[me.src.d].table) else 0
  }

  lemma AskIsContribution(env: Env, heap: Heap, ud: Dir, me: Entry)
    requires HeapOk(heap) && TableOk(heap, ud.table) && me in ud.table
    ensures Followable(heap, me) && Ask(env, heap, ud, me) == Contribution(env, heap, ud, me)
    ensures Depth(heap, me) <= Top(ud.table)
  {
    hide Children, FindDir;
    if me.src.Bound? { BindDescends(heap, ud.table, me); }
  }

  /** On a stratified table the fuel either runs out or gives what Children gives, and the
      youngest entry's age is fuel enough. */
  lemma {:induction false} ChildrenAgree(env: Env, heap: Heap, ud: Dir, fuel: nat)
    requires HeapOk(heap) && TableOk(heap, ud.table)
    ensures ChildrenIn(env, heap, ud, fuel) in {Out, Done(Children(env, heap, ud))}
    ensures fuel > Top(ud.table) ==> ChildrenIn(env, heap, ud, fuel).Done?
    decreases fuel, 0, 0
  {
    hide Merge, MergeIn;
    if fuel > 0 { MergeAgree(env, heap, ud, 0, map[], fuel - 1); }
  }

  lemma {:induction false} MergeAgree(env: Env, heap: Heap, ud: Dir, i: nat, acc: map<Data, Node>, fuel: nat)
    requires HeapOk(heap) && TableOk(heap, ud.table) && i <= |ud.table| && SameTable(acc, ud)
    ensures MergeIn(env, heap, ud, i, acc, fuel) in {Out, Done(Merge(env, heap, ud, i, acc))}
    ensures fuel >= Top(ud.table) ==> MergeIn(env, heap, ud, i, acc, fuel).Done?
    decreases fuel, 3, |ud.table| - i
  {
    hide HeapOk, TableOk, Contribution, AskIn, Ask, Depth;
    if i < |ud.table| {
      var me := ud.table[i];
      AskIsContribution(env, heap, ud, me);
      AskAgree(env, heap, ud, me, fuel);
      MergeAgree(env, heap, ud, i + 1, acc, fuel);
      var more := Contribution(env, heap, ud, me);
      if more.Some? { MergeAgree(env, heap, ud, i + 1, acc + more.value, fuel); }
    }
  }

  lemma {:induction false} AskAgree(env: Env, heap: Heap, ud: Dir, me: Entry, fuel: nat)
    requires HeapOk(heap) && Followable(heap, me)
    ensures AskIn(env, heap, ud, me, fuel) in {Out, Done(Ask(env, heap, ud, me))}
    ensures fuel >= Depth(heap, me) ==> AskIn(env, heap, ud, me, fuel).Done?
    decreases fuel, 2, 0
  {
    hide ChildrenIn, FindIn, Children, FindDir;
    var rel := Relative(env, ud, me);
    if rel.Some? && me.src.Bound? {
      var dir := heap[me.src.d];
      assert TableOk(heap, dir.table);
      FindAgree(env, heap, dir, Parts(rel.value), fuel);
      var on := FindDir(env, heap, dir, Parts(rel.value));
      if on.Some? { ChildrenAgree(env, heap, on.value, fuel); }
    }
  }

  lemma {:induction false} FindAgree(env: Env, heap: Heap, ud: Dir, parts: seq<Data>, fuel: nat)
    requires HeapOk(heap) && TableOk(heap, ud.table)
    ensures FindIn(env, heap, ud, parts, fuel) in {Out, Done(FindDir(env, heap, ud, parts))}
    ensures fuel > Top(ud.table) ==> FindIn(env, heap, ud, parts, fuel).Done?
    decreases fuel, 1, |parts|
  {
    hide HeapOk, TableOk, ChildrenIn, Children;
    if parts != [] {
      ChildrenAgree(env, heap, ud, fuel);
      var m := Children(env, heap, ud);
      if parts[0] in m && m[parts[0]].DirNode? { FindAgree(env, heap, m[parts[0]].dir, parts[1..], fuel); }
    }
  }

  // ------------------------------------------------------------- the root bound somewhere

  /** Listing the directory ends. */
  ghost predicate Ends(env: Env, heap: Heap, ud: Dir) { exists fuel: nat :: ChildrenIn(env, heap, ud, fuel).Done? }

  /** The entry answers and hides all after it. */
  ghost predicate Blocks(env: Env, heap: Heap, ud: Dir, me: Entry)
    requires HeapOk(heap) && Followable(heap, me)
  { Applies(ud, me) && me.replace && !IsCurrent(ud, me) && Ask(env, heap, ud, me).Some? }

  /** The entry asks to list the directory it is listed in. */
  predicate Returns(env: Env, heap: Heap, ud: Dir, me: Entry) {
    me.src == Bound(ROOT) && ROOT in heap && heap[ROOT] == ud && Applies(ud, me) && Relative(env, ud, me).Some?
  }

  ghost predicate OldBefore(env: Env, heap: Heap, ud: Dir, k: nat) {
    && HeapOk(heap) && k <= |ud.table|
    && forall j :: 0 <= j < k ==> Followable(heap, ud.table[j]) && !Blocks(env, heap, ud, ud.table[j])
  }

  lemma ReturnsOut(env: Env, heap: Heap, ud: Dir, me: Entry, fuel: nat)
    requires Returns(env, heap, ud, me) && ChildrenIn(env, heap, ud, fuel) == Out
    ensures AskIn(env, heap, ud, me, fuel) == Out
  { hide ChildrenIn; }

  lemma {:induction false} MergeOut(env: Env, heap: Heap, ud: Dir, i: nat, k: nat, acc: map<Data, Node>, fuel: nat)
    requires OldBefore(env, heap, ud, k) && i <= k < |ud.table| && Returns(env, heap, ud, ud.table[k])
    requires ChildrenIn(env, heap, ud, fuel) == Out
    ensures MergeIn(env, heap, ud, i, acc, fuel) == Out
    decreases k - i
  {
    hide HeapOk, AskIn, ChildrenIn, Ask, Returns;
    var me := ud.table[i];
    if i == k {
      ReturnsOut(env, heap, ud, me, fuel);
      assert Applies(ud, me) by { ReturnsApplies(env, heap, ud, me); }
    } else {
      AskAgree(env, heap, ud, me, fuel);
      MergeOut(env, heap, ud, i + 1, k, acc, fuel);
      var more := Ask(env, heap, ud, me);
      if more.Some? { MergeOut(env, heap, ud, i + 1, k, acc + more.value, fuel); }
    }
  }

  lemma ReturnsApplies(env: Env, heap: Heap, ud: Dir, me: Entry)
    requires Returns(env, heap, ud, me)
    ensures Applies(ud, me)
  {}

  /** Such an entry, not hidden by an earlier one, uses up any fuel. */
  lemma {:induction false} NeverEnds(env: Env, heap: Heap, ud: Dir, k: nat, fuel: nat)
    requires OldBefore(env, heap, ud, k) && k < |ud.table| && Returns(env, heap, ud, ud.table[k])
    ensures ChildrenIn(env, heap, ud, fuel) == Out
  {
    hide OldBefore, Returns, MergeIn;
    if fuel > 0 {
      NeverEnds(env, heap, ud, k, fuel - 1);
      MergeOut(env, heap, ud, 0, k, map[], fuel - 1);
    }
  }

  /** The entry does not apply or cannot be reached by a path: it is passed over. */
  predicate Inert(env: Env, ud: Dir, me: Entry) { !Applies(ud, me) || Relative(env, ud, me).None? }

  /** All entries but the k-th can be followed with that fuel, and the k-th is inert or
      hidden by an entry from the i-th on. */
  ghost predicate Safe(env: Env, heap: Heap, ud: Dir, i: nat, k: nat, fuel: nat) {
    && HeapOk(heap) && i <= |ud.table|
    && (forall j :: 0 <= j < |ud.table| && j != k ==> Followable(heap, ud.table[j]) && Depth(heap, ud.table[j]) <= fuel)
    && (k < |ud.table| ==>
          || k < i || Inert(env, ud, ud.table[k])
          || exists j :: i <= j < k && Blocks(env, heap, ud, ud.table[j]))
  }

  lemma {:induction false} MergeEnds(env: Env, heap: Heap, ud: Dir, i: nat, k: nat, acc: map<Data, Node>, fuel: nat)
    requires Safe(env, heap, ud, i, k, fuel)
    ensures MergeIn(env, heap, ud, i, acc, fuel).Done?
    decreases |ud.table| - i
  {
    hide HeapOk, AskIn, Ask, Depth;
    if i < |ud.table| {
      var me := ud.table[i];
      if i == k { InertAsk(env, heap, ud, me, fuel); } else { AskAgree(env, heap, ud, me, fuel); }
      if i == k || !Blocks(env, heap, ud, me) {
        assert Safe(env, heap, ud, i + 1, k, fuel);
        MergeEnds(env, heap, ud, i + 1, k, acc, fuel);
        var r := AskIn(env, heap, ud, me, fuel);
        if r.Done? && r.value.Some? { MergeEnds(env, heap, ud, i + 1, k, acc + r.value.value, fuel); }
      }
    }
  }

  lemma InertAsk(env: Env, heap: Heap, ud: Dir, me: Entry, fuel: nat)
    ensures Relative(env, ud, me).None? ==> AskIn(env, heap, ud, me, fuel) == Done(None)
  {}

  /** Every listing of a stratified file system ends. */
  lemma StratifiedEnds(s: FS, env: Env, i: nat)
    requires Inv(s) && i in s.heap
    ensures Ends(env, s.heap, s.heap[i])
  {
    assert TableOk(s.heap, s.heap[i].table);
    ChildrenAgree(env, s.heap, s.heap[i], Top(s.heap[i].table) + 1);
  }

  /** The file system after binding the root, and the place of the new entry. */
  lemma RootBound(s: FS, a: Action) returns (k: nat)
    requires Inv(s) && a.Bind? && Parts(a.path) == []
    ensures var s' := BindTo(s, a);
            && ROOT in s'.heap && HeapOk(s'.heap)
            && var ud, t := s'.heap[ROOT], s.heap[ROOT].table;
            && ud.path == s.heap[ROOT].path && ud.mount == None
            && |ud.table| == |t| + 1 && k == (if a.option.After? then |t| else 0)
            && ud.table[k].src == Bound(ROOT) && ud.table[k].mountPoint == a.at
            && (forall j :: 0 <= j < |t| ==> ud.table[if a.option.After? then j else j + 1] == t[j])
            && (forall j :: 0 <= j < |t| ==> Followable(s'.heap, t[j]) && Depth(s'.heap, t[j]) <= Top(t))
  {
    k := if a.option.After? then |s.heap[ROOT].table| else 0;
    RootHeap(s, BindTo(s, a).heap);
    hide Inv, HeapOk, TableOk, Followable, Depth;
  }

  lemma RootHeap(s: FS, heap: Heap)
    requires Inv(s) && heap.Keys == s.heap.Keys && forall i :: i in heap && i != ROOT ==> heap[i] == s.heap[i]
    ensures HeapOk(heap)
    ensures var t := s.heap[ROOT].table;
            forall j :: 0 <= j < |t| ==> Followable(heap, t[j]) && Depth(heap, t[j]) <= Top(t)
  {
    var t := s.heap[ROOT].table;
    forall j | 0 <= j < |t| ensures Followable(heap, t[j]) && Depth(heap, t[j]) <= Top(t) {
      if t[j].src.Bound? { BindDescends(s.heap, t, t[j]); }
    }
    forall i | i in heap && i != ROOT ensures TableOk(heap, heap[i].table) { assert TableOk(s.heap, s.heap[i].table); }
  }

  /** The exact fate of the root's listing once the root has been bound: it ends unless the
      bind is onto the root's own path and can be reached by a path; then it still ends if
      the entry was put behind one that answers and hides it, and in no other case. */
  lemma RootBindEndsIff(s: FS, a: Action, env: Env)
    requires Inv(s) && a.Bind? && Parts(a.path) == []
    ensures var s' := BindTo(s, a);
            && ROOT in s'.heap && HeapOk(s'.heap)
            && var ud, t := s'.heap[ROOT], s.heap[ROOT].table;
            && (forall j :: 0 <= j < |t| ==> Followable(s'.heap, t[j]))
            && (Ends(env, s'.heap, ud) <==>
                  || a.at != ud.path || env.rel(a.at, ud.path).None?
                  || (a.option.After? && exists j :: 0 <= j < |t| && Blocks(env, s'.heap, ud, t[j])))
  {
    var k := RootBound(s, a);
    var s' := BindTo(s, a);
    var ud, t := s'.heap[ROOT], s.heap[ROOT].table;
    hide BindTo, HeapOk, TableOk, Ask, Depth;
    var hidden := a.option.After? && exists j :: 0 <= j < |t| && Blocks(env, s'.heap, ud, t[j]);
    if a.at != ud.path || env.rel(a.at, ud.path).None? || hidden {
      RootSafe(env, s'.heap, ud, t, k, Top(t));
      MergeEnds(env, s'.heap, ud, 0, k, map[], Top(t));
      assert ChildrenIn(env, s'.heap, ud, Top(t) + 1).Done?;
    } else {
      assert OldBefore(env, s'.heap, ud, k);
      forall fuel: nat ensures ChildrenIn(env, s'.heap, ud, fuel) == Out { NeverEnds(env, s'.heap, ud, k, fuel); }
    }
  }

  lemma RootSafe(env: Env, heap: Heap, ud: Dir, t: seq<Entry>, k: nat, fuel: nat)
    requires HeapOk(heap) && |ud.table| == |t| + 1 && (k == 0 || k == |t|)
    requires forall j :: 0 <= j < |t| ==> ud.table[if k == |t| then j else j + 1] == t[j]
    requires forall j :: 0 <= j < |t| ==> Followable(heap, t[j]) && Depth(heap, t[j]) <= fuel
    requires Inert(env, ud, ud.table[k]) || (k == |t| && exists j :: 0 <= j < |t| && Blocks(env, heap, ud, t[j]))
    ensures Safe(env, heap, ud, 0, k, fuel)
  {
    hide HeapOk, Depth, Inert;
    forall j | 0 <= j < |ud.table| && j != k ensures Followable(heap, ud.table[j]) && Depth(heap, ud.table[j]) <= fuel {
      assert ud.table[j] == t[if k == |t| then j else j - 1];
    }
    if !Inert(env, ud, ud.table[k]) {
      var j :| 0 <= j < |t| && Blocks(env, heap, ud, t[j]);
      assert ud.table[j] == t[j];
    }
  }
}
