// Family groups and their memberships
// (family/domain/Family.java, family/domain/FamilyMember.java,
//  family/repository/FamilyMemberRepository.java, family/service/FamilyService.java).
//
// Users are known by id; the user table is a parameter `users: set<int>`.
// The random draw behind an invite code is a parameter `draw`, which the
// random source guarantees to lie in [0, 900000).

module Families {
  import opened Common

  datatype FamilyRole = PARENT | CHILD

  // ---------------------------------------------------------------- invite code

  const InviteCodeBase: int := 100000
  const InviteCodeDraws: int := 900000

  /** A six-digit invite code: decimal digits only, no leading zero. */
  predicate IsInviteCode(code: string)
  {
    |code| == 6 && code[0] != '0' && forall i | 0 <= i < |code| :: IsDigit(code[i])
  }

  /** The invite code for one random draw: the decimal rendering of 100000 + draw. */
  function InviteCode(draw: int): (code: string)
    requires 0 <= draw < InviteCodeDraws
    ensures IsInviteCode(code)
    ensures DigitsValue(code) == InviteCodeBase + draw
  {
    assert Pow10(5) == 100000 && Pow10(6) == 1000000;
    NatToStringLength(InviteCodeBase + draw, 5);
    NatToStringValue(InviteCodeBase + draw);
    NatToString(InviteCodeBase + draw)
  }

  /** Different draws give different codes, and every code lies in [100000, 999999]. */
  lemma InviteCodeRange(d1: int, d2: int)
    requires 0 <= d1 < InviteCodeDraws && 0 <= d2 < InviteCodeDraws
    ensures 100000 <= DigitsValue(InviteCode(d1)) <= 999999
    ensures InviteCode(d1) == InviteCode(d2) <==> d1 == d2
  {
    if InviteCode(d1) == InviteCode(d2) {
      assert DigitsValue(InviteCode(d1)) == DigitsValue(InviteCode(d2));
    }
  }

  // ------------------------------------------------------------------- entities

  class Family {
    const id: int
    var name: string
    var inviteCode: string
    var members: seq<FamilyMember>

    /** A new family has no members and a fresh six-digit invite code. */
    constructor (id: int, name: string, draw: int)
      requires 0 <= draw < InviteCodeDraws
      ensures this.id == id && this.name == name
      ensures inviteCode == InviteCode(draw) && IsInviteCode(inviteCode)
      ensures members == []
    {
      this.id := id;
      this.name := name;
      inviteCode := InviteCode(draw);
      members := [];
    }

    /**
     * addMember: appends the member, whose back-reference already names
     * this family (it was built for it).
     */
    method AddMember(member: FamilyMember)
      requires member.family == this
      modifies this
      ensures members == old(members) + [member]
      ensures name == old(name) && inviteCode == old(inviteCode)
    {
      members := members + [member];
    }

    /** updateName: changes the name and nothing else. */
    method UpdateName(name: string)
      modifies this
      ensures this.name == name
      ensures inviteCode == old(inviteCode) && members == old(members)
    {
      this.name := name;
    }

    /** regenerateInviteCode: a new code from a new draw, in the same range. */
    method RegenerateInviteCode(draw: int)
      requires 0 <= draw < InviteCodeDraws
      modifies this
      ensures inviteCode == InviteCode(draw) && IsInviteCode(inviteCode)
      ensures name == old(name) && members == old(members)
    {
      inviteCode := InviteCode(draw);
    }
  }

  class FamilyMember {
    const userId: int
    const family: Family
    const role: FamilyRole
    var nickname: string

    constructor (userId: int, family: Family, role: FamilyRole, nickname: string)
      ensures this.userId == userId && this.family == family
      ensures this.role == role && this.nickname == nickname
    {
      this.userId := userId;
      this.family := family;
      this.role := role;
      this.nickname := nickname;
    }

    /** updateNickname: changes the nickname and nothing else. */
    method UpdateNickname(nickname: string)
      modifies this
      ensures this.nickname == nickname
    {
      this.nickname := nickname;
    }

    predicate IsParent()
    {
      role == PARENT
    }

    /** The role has two values, so a member is a child exactly when it is not a parent. */
    function IsChild(): (r: bool)
      ensures r <==> !IsParent()
    {
      role == CHILD
    }
  }

  // ------------------------------------------------- the family_members table

  /** The (user, family) pairs of the table, row by row. */
  function Pairs(table: seq<FamilyMember>): (r: seq<(int, Family)>)
    ensures |r| == |table|
    ensures forall i | 0 <= i < |table| :: r[i] == (table[i].userId, table[i].family)
  {
    if table == [] then [] else Pairs(table[..|table| - 1]) + [(table[|table| - 1].userId, table[|table| - 1].family)]
  }

  /** The unique constraint on (user_id, family_id). */
  ghost predicate UniquePairs(table: seq<FamilyMember>)
  {
    NoDuplicates(Pairs(table))
  }

  /** findByUser: every membership of the user, in table order. */
  function FindByUser(table: seq<FamilyMember>, userId: int): (r: seq<FamilyMember>)
    ensures forall i | 0 <= i < |r| :: r[i] in table && r[i].userId == userId
    ensures forall i | 0 <= i < |table| :: table[i].userId == userId ==> table[i] in r
    ensures r == Filter(table, (m: FamilyMember) => m.userId == userId)
  {
    Filter(table, (m: FamilyMember) => m.userId == userId)
  }

  /** findByFamily: every membership of the family, in table order. */
  function FindByFamily(table: seq<FamilyMember>, family: Family): (r: seq<FamilyMember>)
    ensures forall i | 0 <= i < |r| :: r[i] in table && r[i].family == family
    ensures forall i | 0 <= i < |table| :: table[i].family == family ==> table[i] in r
    ensures multiset(r) <= multiset(table)
    ensures forall i | 0 <= i < |table| && table[i].family == family :: multiset(r)[table[i]] == multiset(table)[table[i]]
    ensures IsSubsequence(r, table)
  {
    FilterCounts(table, InFamily(family));
    FilterIsSubsequence(table, InFamily(family));
    Filter(table, InFamily(family))
  }

  /** The rows with this family, in table order: what findByFamily selects. */
  function Roster(table: seq<FamilyMember>, family: Family): seq<FamilyMember>
  {
    if table == [] then []
    else
      var last := table[|table| - 1];
      Roster(table[..|table| - 1], family) + (if last.family == family then [last] else [])
  }

  /** The condition of findByFamily, family_id = ?. */
  function InFamily(family: Family): FamilyMember -> bool
  {
    (m: FamilyMember) => m.family == family
  }

  /** The roster is what findByFamily returns. */
  lemma RosterIsFindByFamily(table: seq<FamilyMember>, family: Family)
    ensures Roster(table, family) == FindByFamily(table, family)
  {
    RosterIsFilter(table, family);
  }

  /** The roster is the filter on the family. */
  lemma {:induction false} RosterIsFilter(table: seq<FamilyMember>, family: Family)
    ensures Roster(table, family) == Filter(table, InFamily(family))
    decreases |table|
  {
    if table != [] {
      var init, last := table[..|table| - 1], table[|table| - 1];
      RosterIsFilter(init, family);
      assert table == init + [last];
      FilterAppend(init, [last], InFamily(family));
      assert [last][1..] == [];
    }
  }

  /** A family no row points at has an empty roster. */
  lemma {:induction false} RosterOfNewFamily(table: seq<FamilyMember>, family: Family)
    requires forall i | 0 <= i < |table| :: table[i].family != family
    ensures Roster(table, family) == []
    decreases |table|
  {
    if table != [] {
      RosterOfNewFamily(table[..|table| - 1], family);
    }
  }

  /** A saved row shows up at the end of its family's roster and in no other. */
  lemma RosterAppend(table: seq<FamilyMember>, member: FamilyMember, family: Family)
    ensures Roster(table + [member], family) == Roster(table, family) + (if member.family == family then [member] else [])
  {
    assert (table + [member])[..|table|] == table;
  }

  /** The roster of two pieces of a table is the two rosters, one after the other. */
  lemma {:induction false} RosterConcat(a: seq<FamilyMember>, b: seq<FamilyMember>, family: Family)
    ensures Roster(a + b, family) == Roster(a, family) + Roster(b, family)
    decreases |b|
  {
    if b == [] {
      assert a + b == a;
    } else {
      var init, last := b[..|b| - 1], b[|b| - 1];
      RosterConcat(a, init, family);
      assert a + b == (a + init) + [last];
      RosterAppend(a + init, last, family);
      RosterAppend(init, last, family);
      assert init + [last] == b;
    }
  }

  /** Deleting a row of another family leaves this family's roster as it was. */
  lemma RosterRemoveOther(table: seq<FamilyMember>, k: nat, family: Family)
    requires k < |table| && table[k].family != family
    ensures Roster(RemoveAt(table, k), family) == Roster(table, family)
  {
    SplitRoster(table, k, family);
  }

  /** Deleting a row of this family takes exactly that row, at position j, out of its roster. */
  lemma RosterRemoveOwn(table: seq<FamilyMember>, k: nat, family: Family)
    requires k < |table| && table[k].family == family
    ensures var j := |Roster(table[..k], family)|;
            && j < |Roster(table, family)| && Roster(table, family)[j] == table[k]
            && Roster(RemoveAt(table, k), family) == RemoveAt(Roster(table, family), j)
  {
    var a, c := Roster(table[..k], family), Roster(table[k + 1..], family);
    SplitRoster(table, k, family);
    var all := a + [table[k]] + c;
    assert all[|a|] == table[k];
    assert all[..|a|] == a && all[|a| + 1..] == c;
  }

  /** The family's roster, cut around row k. */
  lemma SplitRoster(table: seq<FamilyMember>, k: nat, family: Family)
    requires k < |table|
    ensures Roster(table, family)
            == Roster(table[..k], family) + (if table[k].family == family then [table[k]] else []) + Roster(table[k + 1..], family)
    ensures Roster(RemoveAt(table, k), family) == Roster(table[..k], family) + Roster(table[k + 1..], family)
  {
    var before, after := table[..k], table[k + 1..];
    assert table == (before + [table[k]]) + after;
    RosterConcat(before + [table[k]], after, family);
    RosterAppend(before, table[k], family);
    RosterConcat(before, after, family);
  }

  /** Under the unique pairs, the deleted row is in no roster of the remaining table. */
  lemma DepartedNotListed(table: seq<FamilyMember>, k: nat, family: Family)
    requires k < |table| && UniquePairs(table)
    ensures table[k] !in Roster(RemoveAt(table, k), family)
  {
    DeletedRowGone(table, k);
    RosterIsFindByFamily(RemoveAt(table, k), family);
  }

  /** Under the unique pairs, the deleted row has no second copy left behind. */
  lemma DeletedRowGone(table: seq<FamilyMember>, k: nat)
    requires k < |table| && UniquePairs(table)
    ensures table[k] !in RemoveAt(table, k)
  {
    var ps, rest := Pairs(table), RemoveAt(table, k);
    forall i | 0 <= i < |rest|
      ensures rest[i] != table[k]
    {
      var i' := if i < k then i else i + 1;
      assert rest[i] == table[i'] && ps[i'] != ps[k];
    }
  }

  /** findByFamilyAndRole: the family's memberships with the given role. */
  function FindByFamilyAndRole(table: seq<FamilyMember>, family: Family, role: FamilyRole): (r: seq<FamilyMember>)
    ensures forall i | 0 <= i < |r| :: r[i] in table && r[i].family == family && r[i].role == role
    ensures forall i | 0 <= i < |table| :: table[i].family == family && table[i].role == role ==> table[i] in r
    ensures multiset(r) <= multiset(table)
    ensures forall i | 0 <= i < |table| && table[i].family == family && table[i].role == role
              :: multiset(r)[table[i]] == multiset(table)[table[i]]
    ensures IsSubsequence(r, table)
  {
    var p := (m: FamilyMember) => m.family == family && m.role == role;
    FilterCounts(table, p);
    FilterIsSubsequence(table, p);
    Filter(table, p)
  }

  /** findParentsByFamily: role = 'PARENT'. */
  function FindParentsByFamily(table: seq<FamilyMember>, family: Family): seq<FamilyMember>
  {
    FindByFamilyAndRole(table, family, PARENT)
  }

  /** findChildrenByFamily: role = 'CHILD'. */
  function FindChildrenByFamily(table: seq<FamilyMember>, family: Family): seq<FamilyMember>
  {
    FindByFamilyAndRole(table, family, CHILD)
  }

  /** Parents and children split the family's memberships between them, nothing lost or doubled. */
  lemma ParentsAndChildrenPartition(table: seq<FamilyMember>, family: Family)
    ensures multiset(FindByFamily(table, family))
            == multiset(FindParentsByFamily(table, family)) + multiset(FindChildrenByFamily(table, family))
    ensures |FindByFamily(table, family)| == |FindParentsByFamily(table, family)| + |FindChildrenByFamily(table, family)|
  {
    var all := FindByFamily(table, family);
    var parents, children := FindParentsByFamily(table, family), FindChildrenByFamily(table, family);
    forall x | true
      ensures multiset(all)[x] == multiset(parents)[x] + multiset(children)[x]
    {
      PartitionAt(table, family, x);
    }
    assert multiset(all) == multiset(parents) + multiset(children);
    assert |multiset(all)| == |multiset(parents)| + |multiset(children)|;
  }

  /** One membership's copies: all of them go to the parents or all to the children, as its role says. */
  lemma PartitionAt(table: seq<FamilyMember>, family: Family, x: FamilyMember)
    ensures multiset(FindByFamily(table, family))[x]
            == multiset(FindParentsByFamily(table, family))[x] + multiset(FindChildrenByFamily(table, family))[x]
  {
    var all := FindByFamily(table, family);
    var parents, children := FindParentsByFamily(table, family), FindChildrenByFamily(table, family);
    if x in all {
      var i :| 0 <= i < |all| && all[i] == x;
      var k :| 0 <= k < |table| && table[k] == x;
      assert table[k].family == family;
      assert multiset(all)[x] == multiset(table)[x];
      if x.role == PARENT {
        assert multiset(parents)[x] == multiset(table)[x];
        assert forall c | 0 <= c < |children| :: children[c] != x;
      } else {
        assert multiset(children)[x] == multiset(table)[x];
        assert forall c | 0 <= c < |parents| :: parents[c] != x;
      }
    } else {
      assert forall c | 0 <= c < |parents| :: parents[c] != x;
      assert forall c | 0 <= c < |children| :: children[c] != x;
    }
  }

  /** Index of the first row with this (user, family) pair, if any. */
  function IndexOfMembership(table: seq<FamilyMember>, userId: int, family: Family): (r: Option<nat>)
    ensures r.Some? ==> r.value < |table| && table[r.value].userId == userId && table[r.value].family == family
    ensures r.Some? ==> forall i | 0 <= i < r.value :: !(table[i].userId == userId && table[i].family == family)
    ensures r.None? ==> forall i | 0 <= i < |table| :: !(table[i].userId == userId && table[i].family == family)
  {
    if table == [] then None
    else if table[0].userId == userId && table[0].family == family then Some(0)
    else
      match IndexOfMembership(table[1..], userId, family)
      case None => None
      case Some(i) => Some(i + 1)
  }

  /** findByUserAndFamily. */
  function FindByUserAndFamily(table: seq<FamilyMember>, userId: int, family: Family): Option<FamilyMember>
  {
    match IndexOfMembership(table, userId, family)
    case None => None
    case Some(i) => Some(table[i])
  }

  /** existsByUserAndFamily: some row holds the pair. */
  predicate ExistsByUserAndFamily(table: seq<FamilyMember>, userId: int, family: Family)
  {
    exists i | 0 <= i < |table| :: table[i].userId == userId && table[i].family == family
  }

  /**
   * existsByUserAndFamily holds exactly when findByUserAndFamily finds a row,
   * and under the unique constraint that row is the only one with the pair.
   */
  lemma FindByUserAndFamilyUnique(table: seq<FamilyMember>, userId: int, family: Family)
    ensures ExistsByUserAndFamily(table, userId, family) <==> FindByUserAndFamily(table, userId, family).Some?
    ensures UniquePairs(table) && FindByUserAndFamily(table, userId, family).Some? ==>
              forall i | 0 <= i < |table| && table[i].userId == userId && table[i].family == family ::
                table[i] == FindByUserAndFamily(table, userId, family).value
  {
    var ps := Pairs(table);
    if UniquePairs(table) && FindByUserAndFamily(table, userId, family).Some? {
      var k := IndexOfMembership(table, userId, family).value;
      forall i | 0 <= i < |table| && table[i].userId == userId && table[i].family == family
        ensures table[i] == table[k]
      {
        assert ps[i] == ps[k];
      }
    }
  }

  /** The table without row i (the repository's delete). */
  function RemoveAt<T>(s: seq<T>, i: nat): (r: seq<T>)
    requires i < |s|
    ensures |r| == |s| - 1
  {
    s[..i] + s[i + 1..]
  }

  /** The delete takes out one copy of row i and nothing else. */
  lemma RemoveAtCounts<T>(s: seq<T>, i: nat)
    requires i < |s|
    ensures multiset(RemoveAt(s, i)) + multiset{s[i]} == multiset(s)
  {
    assert s == s[..i] + [s[i]] + s[i + 1..];
  }

  /** The families the given memberships point at, one per membership. */
  function FamiliesOf(ms: seq<FamilyMember>): (r: seq<Family>)
    ensures |r| == |ms|
    ensures forall i | 0 <= i < |ms| :: r[i] == ms[i].family
  {
    if ms == [] then [] else FamiliesOf(ms[..|ms| - 1]) + [ms[|ms| - 1].family]
  }

  /** findById over the families table. */
  function FindFamilyById(families: seq<Family>, id: int): (r: Option<Family>)
    ensures r.Some? ==> r.value in families && r.value.id == id
    ensures r.None? ==> forall i | 0 <= i < |families| :: families[i].id != id
  {
    FindFirst(families, (f: Family) => f.id == id)
  }

  /** findByInviteCode over the families table (the first match). */
  function FindByInviteCode(families: seq<Family>, code: string): (r: Option<Family>)
    reads families
    ensures r.Some? ==> r.value in families && r.value.inviteCode == code
    ensures r.None? ==> forall i | 0 <= i < |families| :: families[i].inviteCode != code
  {
    if families == [] then None
    else if families[0].inviteCode == code then Some(families[0])
    else FindByInviteCode(families[1..], code)
  }

  /** The checks of joinFamily, in the order the code makes them: user, invite code, existing membership. */
  function JoinFailure(userKnown: bool, family: Option<Family>, alreadyMember: bool): Option<Failure>
  {
    if !userKnown then Some(IllegalArgument)
    else if family.None? then Some(IllegalArgument)
    else if alreadyMember then Some(IllegalState)
    else None
  }

  /** The checks of getFamily and leaveFamily, in the order the code makes them: family, user, membership. */
  function AccessFailure(family: Option<Family>, userKnown: bool, isMember: bool): Option<Failure>
  {
    if family.None? then Some(IllegalArgument)
    else if !userKnown then Some(IllegalArgument)
    else if !isMember then Some(IllegalState)
    else None
  }

  // --------------------------------------------------------------- the service

  /** A new member of an existing family (the builder call and addMember of joinFamily). */
  method Enrol(family: Family, userId: int, role: FamilyRole, nickname: string) returns (member: FamilyMember)
    modifies family
    ensures fresh(member) && family.members == old(family.members) + [member]
    ensures member.userId == userId && member.family == family && member.role == role && member.nickname == nickname
    ensures family.name == old(family.name) && family.inviteCode == old(family.inviteCode)
  {
    member := new FamilyMember(userId, family, role, nickname);
    family.AddMember(member);
  }

  /** A new family with its founder as the only member (the builder calls and addMember of createFamily). */
  method Found(id: int, name: string, draw: int, userId: int, role: FamilyRole, nickname: string)
    returns (family: Family)
    requires 0 <= draw < InviteCodeDraws
    ensures FoundedBy(family, userId, role, nickname)
    ensures fresh(family) && fresh(family.members[0])
    ensures family.id == id && family.name == name && family.inviteCode == InviteCode(draw)
  {
    family := new Family(id, name, draw);
    var member := new FamilyMember(userId, family, role, nickname);
    family.AddMember(member);
  }

  /** The family's only member is the founder, with the founder's role and nickname. */
  ghost predicate FoundedBy(f: Family, userId: int, role: FamilyRole, nickname: string)
    reads f, f.members
  {
    && |f.members| == 1 && f.members[0].family == f
    && f.members[0].userId == userId && f.members[0].role == role && f.members[0].nickname == nickname
  }

  class FamilyService {
    var families: seq<Family>
    var members: seq<FamilyMember>

    /**
     * Ids are assigned 1, 2, 3, ... in save order, invite codes are unique
     * (the unique column), (user, family) pairs are unique, and each
     * family's member list is what its query over the membership table
     * returns (the mapped-by side of the relation).
     */
    ghost predicate Valid()
      reads this, families
    {
      && (forall i | 0 <= i < |families| :: families[i].id == i + 1)
      && (forall i, j | 0 <= i < j < |families| :: families[i].inviteCode != families[j].inviteCode)
      && UniquePairs(members)
      && (forall i | 0 <= i < |families| :: families[i].members == Roster(members, families[i]))
    }

    constructor ()
      ensures Valid() && families == [] && members == []
    {
      families := [];
      members := [];
    }

    /**
     * createFamily: an unknown user is refused; a drawn invite code that
     * another family already holds breaks the unique column, so the save
     * fails and nothing is stored; otherwise a new family is saved whose
     * only member is the creator, with the requested role and nickname.
     */
    method CreateFamily(users: set<int>, userId: int, name: string, role: FamilyRole, nickname: string, draw: int)
      returns (r: Result<Family>)
      requires Valid()
      requires 0 <= draw < InviteCodeDraws
      modifies this
      ensures Valid()
      ensures userId !in users ==> r == Failure(IllegalArgument) && families == old(families) && members == old(members)
      ensures userId in users && old(FindByInviteCode(families, InviteCode(draw))).Some? ==>
                r == Failure(Runtime) && families == old(families) && members == old(members)
      ensures userId in users && old(FindByInviteCode(families, InviteCode(draw))).None? ==>
                && r.Success? && fresh(r.value)
                && families == old(families) + [r.value] && r.value.id == |old(families)| + 1
                && r.value.name == name && r.value.inviteCode == InviteCode(draw)
                && FoundedBy(r.value, userId, role, nickname) && members == old(members) + r.value.members
    {
      if userId !in users {
        return Failure(IllegalArgument);
      }
      if FindByInviteCode(families, InviteCode(draw)).Some? {
        return Failure(Runtime);
      }
      var family := Found(|families| + 1, name, draw, userId, role, nickname);
      Register(family, family.members[0]);
      r := Success(family);
    }

    /** Saves a new family together with its founding membership. */
    method Register(family: Family, member: FamilyMember)
      requires Valid()
      requires family.id == |families| + 1 && family.members == [member] && member.family == family
      requires forall i | 0 <= i < |members| :: members[i].family != family
      requires FindByInviteCode(families, family.inviteCode).None?
      modifies this
      ensures Valid() && families == old(families) + [family] && members == old(members) + [member]
    {
      ghost var table := members;
      RosterOfNewFamily(members, family);
      JoinKeepsPairsUnique(members, member);
      families := families + [family];
      members := members + [member];
      forall i | 0 <= i < |families|
        ensures families[i].members == Roster(members, families[i])
      {
        RosterAppend(table, member, families[i]);
      }
    }

    /**
     * joinFamily: an unknown user or invite code is refused, so is a user
     * who already belongs to the family; otherwise exactly one membership
     * is added.
     */
    method JoinFamily(users: set<int>, userId: int, inviteCode: string, role: FamilyRole, nickname: string)
      returns (r: Result<Family>)
      requires Valid()
      modifies this, families
      ensures Valid() && families == old(families)
      ensures var found := old(FindByInviteCode(families, inviteCode));
              var f := JoinFailure(userId in users, found,
                                   found.Some? && old(ExistsByUserAndFamily(members, userId, found.value)));
              && (f.Some? ==> r == Failure(f.value) && members == old(members))
              && (f.None? ==> && r == Success(found.value)
                              && |members| == |old(members)| + 1 && members[..|old(members)|] == old(members)
                              && fresh(members[|old(members)|])
                              && members[|old(members)|].userId == userId && members[|old(members)|].family == found.value
                              && members[|old(members)|].role == role && members[|old(members)|].nickname == nickname
                              && found.value.members == old(found.value.members) + [members[|old(members)|]])
      ensures forall i | 0 <= i < |families| && (r.Failure? || families[i] != r.value) ::
                families[i].members == old(families[i].members)
      ensures forall i | 0 <= i < |families| ::
                families[i].name == old(families[i].name) && families[i].inviteCode == old(families[i].inviteCode)
    {
      if userId !in users {
        return Failure(IllegalArgument);
      }
      var found := FindByInviteCode(families, inviteCode);
      if found.None? {
        return Failure(IllegalArgument);
      }
      var family := found.value;
      if ExistsByUserAndFamily(members, userId, family) {
        return Failure(IllegalState);
      }
      var member := Join(family, userId, role, nickname);
      r := Success(family);
    }

    /** The save of joinFamily: one new membership of this family, and no other family changes. */
    method Join(family: Family, userId: int, role: FamilyRole, nickname: string) returns (member: FamilyMember)
      requires Valid() && family in families && !ExistsByUserAndFamily(members, userId, family)
      modifies this, family
      ensures Valid() && families == old(families) && members == old(members) + [member] && fresh(member)
      ensures member.userId == userId && member.family == family && member.role == role && member.nickname == nickname
      ensures family.members == old(family.members) + [member]
      ensures forall i | 0 <= i < |families| && families[i] != family :: families[i].members == old(families[i].members)
      ensures forall i | 0 <= i < |families| ::
                families[i].name == old(families[i].name) && families[i].inviteCode == old(families[i].inviteCode)
    {
      member := Enrol(family, userId, role, nickname);
      JoinKeepsPairsUnique(members, member);
      forall i | 0 <= i < |families|
        ensures families[i].members == Roster(members + [member], families[i])
      {
        RosterAppend(members, member, families[i]);
      }
      members := members + [member];
    }

    /** getMyFamilies: the family of each of the user's memberships. */
    function GetMyFamilies(users: set<int>, userId: int): (r: Result<seq<Family>>)
      reads this
      ensures userId !in users ==> r == Failure(IllegalArgument)
      ensures userId in users ==> r.Success? && |r.value| == |FindByUser(members, userId)|
      ensures r.Success? ==> forall i | 0 <= i < |r.value| :: r.value[i] == FindByUser(members, userId)[i].family
      ensures r.Success? ==> forall i | 0 <= i < |r.value| ::
                exists j | 0 <= j < |members| :: members[j].userId == userId && members[j].family == r.value[i]
    {
      if userId !in users then Failure(IllegalArgument)
      else
        var mine := FindByUser(members, userId);
        Success(FamiliesOf(mine))
    }

    /** getFamily: only a member may see the family. */
    function GetFamily(users: set<int>, familyId: int, userId: int): (r: Result<Family>)
      reads this, families
      ensures var found := FindFamilyById(families, familyId);
              var f := AccessFailure(found, userId in users,
                                     found.Some? && ExistsByUserAndFamily(members, userId, found.value));
              && (f.Some? ==> r == Failure(f.value))
              && (f.None? ==> r == Success(found.value))
      ensures r.Success? ==> r.value.id == familyId && ExistsByUserAndFamily(members, userId, r.value)
      ensures r.Success? && Valid() ==> r.value.members == FindByFamily(members, r.value)
    {
      match FindFamilyById(families, familyId)
      case None => Failure(IllegalArgument)
      case Some(family) =>
        if userId !in users then Failure(IllegalArgument)
        else if !ExistsByUserAndFamily(members, userId, family) then Failure(IllegalState)
        else
          RosterIsFindByFamily(members, family);
          Success(family)
    }

    /**
     * leaveFamily: an unknown family or user, or a non-member, is refused;
     * otherwise exactly that membership row is deleted, and with it the
     * membership leaves the family's member list (orphan removal: the
     * list no longer holds the deleted row), while every other family's
     * list stays as it was.
     */
    method LeaveFamily(users: set<int>, familyId: int, userId: int) returns (err: Option<Failure>)
      requires Valid()
      modifies this, families
      ensures Valid() && families == old(families)
      ensures var found := FindFamilyById(families, familyId);
              var index := if found.Some? then IndexOfMembership(old(members), userId, found.value) else None;
              && err == AccessFailure(found, userId in users, index.Some?)
              && (err.Some? ==> members == old(members))
              && (err.None? ==> && index.Some? && index.value < |old(members)| && members == RemoveAt(old(members), index.value)
                                && old(members)[index.value] !in found.value.members
                                && exists j | 0 <= j < |old(found.value.members)| ::
                                     old(found.value.members)[j] == old(members)[index.value]
                                     && found.value.members == RemoveAt(old(found.value.members), j))
      ensures forall i | 0 <= i < |families| && (err.Some? || families[i].id != familyId) ::
                families[i].members == old(families[i].members)
      ensures forall i | 0 <= i < |families| ::
                families[i].name == old(families[i].name) && families[i].inviteCode == old(families[i].inviteCode)
    {
      var found := FindFamilyById(families, familyId);
      if found.None? {
        return Some(IllegalArgument);
      }
      if userId !in users {
        return Some(IllegalArgument);
      }
      var index := IndexOfMembership(members, userId, found.value);
      if index.None? {
        return Some(IllegalState);
      }
      Leave(found.value, index.value);
      err := None;
    }

    /**
     * The delete of leaveFamily: row k leaves the table and, at the
     * position it held there, the family's member list.
     */
    method Leave(family: Family, k: nat)
      requires Valid() && family in families && k < |members| && members[k].family == family
      modifies this, family
      ensures Valid() && families == old(families) && members == RemoveAt(old(members), k)
      ensures old(members)[k] !in family.members
      ensures exists j | 0 <= j < |old(family.members)| ::
                old(family.members)[j] == old(members)[k] && family.members == RemoveAt(old(family.members), j)
      ensures family.name == old(family.name) && family.inviteCode == old(family.inviteCode)
    {
      ghost var table := members;
      LeaveKeepsPairsUnique(members, k);
      DepartedNotListed(members, k, family);
      RosterRemoveOwn(members, k, family);
      members := RemoveAt(members, k);
      family.members := Roster(members, family);
      forall i | 0 <= i < |families| && families[i] != family
        ensures families[i].members == Roster(members, families[i])
      {
        RosterRemoveOther(table, k, families[i]);
      }
    }
  }

  /** Appending a row whose pair is new keeps the pairs unique. */
  lemma JoinKeepsPairsUnique(table: seq<FamilyMember>, member: FamilyMember)
    requires UniquePairs(table)
    requires !ExistsByUserAndFamily(table, member.userId, member.family)
    ensures UniquePairs(table + [member])
  {
    var ps, qs := Pairs(table), Pairs(table + [member]);
    forall i, j | 0 <= i < j < |qs|
      ensures qs[i] != qs[j]
    {
      if j < |table| {
        assert qs[i] == ps[i] && qs[j] == ps[j];
      }
    }
  }

  /** Deleting a row keeps the pairs unique. */
  lemma LeaveKeepsPairsUnique(table: seq<FamilyMember>, k: nat)
    requires k < |table|
    requires UniquePairs(table)
    ensures UniquePairs(RemoveAt(table, k))
  {
    var ps, qs := Pairs(table), Pairs(RemoveAt(table, k));
    forall i, j | 0 <= i < j < |qs|
      ensures qs[i] != qs[j]
    {
      var i', j' := if i < k then i else i + 1, if j < k then j else j + 1;
      assert qs[i] == ps[i'] && qs[j] == ps[j'];
    }
  }

  /**
   * Joining and then leaving the same family restores the membership
   * table: the joined row is the only one with its pair, so it is the one
   * deleted.
   */
  lemma JoinThenLeaveRestores(table: seq<FamilyMember>, member: FamilyMember)
    requires !ExistsByUserAndFamily(table, member.userId, member.family)
    ensures IndexOfMembership(table + [member], member.userId, member.family) == Some(|table|)
    ensures RemoveAt(table + [member], |table|) == table
  {
    var t := table + [member];
    var idx := IndexOfMembership(t, member.userId, member.family);
    assert t[|table|] == member;
    assert idx.Some?;
    assert t[..|table|] == table && t[|table| + 1..] == [];
  }
}
