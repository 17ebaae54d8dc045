/** fs/permissions.go: who may open what. */
module Permissions {
  import opened Bytes
  import opened Proto

  datatype Relation = Owner | Group | Other

  /** Groups and users are the same thing. */
  predicate UserInGroup(user: Data, group: Data) { user == group }

  function UserRelation(user: Data, st: Stat): Relation {
    if user == st.uid then Owner else if UserInGroup(user, st.gid) then Group else Other
  }

  predicate Bit(v: nat, place: nat)
    requires place == 1 || place == 2 || place == 4
  { v / place % 2 == 1 }

  /** `perm` is one octal digit: read 4, write 2, execute 1. */
  predicate OmodePermits(perm: nat, omode: byte) {
    if omode == OREAD then Bit(perm, 4)
    else if omode == OWRITE then Bit(perm, 2)
    else if omode == ORDWR then Bit(perm, 2) && Bit(perm, 4)
    else if omode == OEXEC then Bit(perm, 1)
    else false
  }

  /** The permission digit of the mode that applies to a relation. */
  function Digit(mode: u32, r: Relation): nat {
    match r
    case Owner => mode / 64 % 8
    case Group => mode / 8 % 8
    case Other => mode % 8
  }

  predicate OpenPermission(st: Stat, user: Data, omode: byte) {
    OmodePermits(Digit(st.mode, UserRelation(user, st)), omode)
  }

  /** What a mode asks for, as the set of permission bits it needs. */
  function Needs(omode: byte): Option<set<nat>> {
    if omode == OREAD then Some({4})
    else if omode == OWRITE then Some({2})
    else if omode == ORDWR then Some({2, 4})
    else if omode == OEXEC then Some({1})
    else None
  }

  /** Access is granted exactly when the mode is a real one and every bit it needs is in
      the one digit that applies: the owner's for the owner even if the group or the rest
      of the world has more, the group's for group members, the last for everyone else. */
  lemma AccessGranted(st: Stat, user: Data, omode: byte)
    ensures OpenPermission(st, user, omode) <==>
              Needs(omode).Some? &&
              forall b :: b in Needs(omode).value ==>
                (b == 1 || b == 2 || b == 4) &&
                Bit(if user == st.uid then st.mode / 64 else if user == st.gid then st.mode / 8 else st.mode, b)
  {
    var m := if user == st.uid then st.mode / 64 else if user == st.gid then st.mode / 8 else st.mode;
    assert Digit(st.mode, UserRelation(user, st)) == m % 8;
    LowBits(m);
    if Needs(omode).Some? { assert omode == ORDWR ==> 2 in Needs(omode).value && 4 in Needs(omode).value; }
  }

  lemma LowBits(m: nat)
    ensures Bit(m % 8, 1) == Bit(m, 1) && Bit(m % 8, 2) == Bit(m, 2) && Bit(m % 8, 4) == Bit(m, 4)
  {}
}
