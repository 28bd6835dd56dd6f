/**
 A model of the library member registry: a dictionary of member records keyed
 by member id, an age-tiered fee schedule, and two running accumulators (the
 total fee and the member count) that create, update and delete maintain step
 by step instead of recomputing them from the dictionary.
 */
module LibraryMembership {

  /** An optional argument, standing for Python's `None` default. */
  datatype Option<+T> = None | Some(value: T)

  /** A library member record. */
  datatype Member = Member(memberId: string, name: string, email: string, age: int)

  // ---------------------------------------------------------------------------
  // The fee schedule
  // ---------------------------------------------------------------------------

  /** Membership fee of one member: student under 18, regular from 18 to 64,
      senior above 64. Ages are not validated, so a negative age is a student. */
  function Fee(age: int): (f: int)
    ensures f == 10 || f == 15 || f == 20
  {
    if age < 18 then 10        // student
    else if 18 <= age <= 64 then 20  // regular
    else 15                    // senior
  }

  /** Each tier of the schedule, in both directions, and its boundaries. */
  lemma FeeTiers(age: int)
    ensures Fee(age) == 10 <==> age < 18
    ensures Fee(age) == 20 <==> 18 <= age <= 64
    ensures Fee(age) == 15 <==> 64 < age
    ensures Fee(17) == 10 && Fee(18) == 20 && Fee(64) == 20 && Fee(65) == 15
  {
  }

  // ---------------------------------------------------------------------------
  // The sum of fees over a member dictionary
  // ---------------------------------------------------------------------------

  /** The sum of Fee(m.age) over the members held in `members`. */
  ghost function FeeSum(members: map<string, Member>): int
    decreases |members|
  {
    if members == map[] then 0
    else
      var k :| k in members;
      assert |members - {k}| < |members| by { RemoveOneKey(members, k); }
      Fee(members[k].age) + FeeSum(members - {k})
  }

  /** Removing a present key shrinks a map by exactly one entry. */
  lemma RemoveOneKey(members: map<string, Member>, k: string)
    requires k in members
    ensures (members - {k}).Keys == members.Keys - {k}
    ensures |members - {k}| == |members| - 1
  {
  }

  /** FeeSum does not depend on which key it picks first: any present member
      can be taken out of the sum. */
  lemma {:induction false} FeeSumRemove(members: map<string, Member>, k: string)
    requires k in members
    ensures FeeSum(members) == Fee(members[k].age) + FeeSum(members - {k})
    decreases |members|
  {
    var j :| j in members && FeeSum(members) == Fee(members[j].age) + FeeSum(members - {j});
    if j != k {
      RemoveOneKey(members, j);
      RemoveOneKey(members, k);
      FeeSumRemove(members - {j}, k);
      FeeSumRemove(members - {k}, j);
      assert members - {j} - {k} == members - {k} - {j};
    }
  }

  /** Inserting a fresh key adds exactly that member's fee. */
  lemma FeeSumInsert(members: map<string, Member>, k: string, m: Member)
    requires k !in members
    ensures FeeSum(members[k := m]) == FeeSum(members) + Fee(m.age)
  {
    FeeSumRemove(members[k := m], k);
    assert members[k := m] - {k} == members;
  }

  /** Replacing the member at a present key changes the sum by the difference
      of the old and the new member's fee. */
  lemma FeeSumReplace(members: map<string, Member>, k: string, m: Member)
    requires k in members
    ensures FeeSum(members[k := m]) == FeeSum(members) - Fee(members[k].age) + Fee(m.age)
  {
    FeeSumRemove(members, k);
    FeeSumRemove(members[k := m], k);
    assert members[k := m] - {k} == members - {k};
  }

  /** Every fee lies between 10 and 20, so the sum lies between 10 and 20 per member. */
  lemma {:induction false} FeeSumBounds(members: map<string, Member>)
    ensures 10 * |members| <= FeeSum(members) <= 20 * |members|
    decreases |members|
  {
    if members != map[] {
      var k :| k in members;
      FeeSumRemove(members, k);
      RemoveOneKey(members, k);
      FeeSumBounds(members - {k});
    }
  }

  // ---------------------------------------------------------------------------
  // Optional update arguments, with Python's truthiness
  // ---------------------------------------------------------------------------

  /** `if name:` / `if email:` — None and the empty string are falsy. */
  predicate TextGiven(s: Option<string>) {
    s.Some? && s.value != ""
  }

  /** `if age:` — None and zero are falsy. */
  predicate AgeGiven(a: Option<int>) {
    a.Some? && a.value != 0
  }

  /** The member record after an update: each truthy argument replaces its
      field, every falsy one leaves the field as it was. */
  function Updated(m: Member, name: Option<string>, email: Option<string>, age: Option<int>): (r: Member)
    ensures r.memberId == m.memberId
    ensures r.name == (if TextGiven(name) then name.value else m.name)
    ensures r.email == (if TextGiven(email) then email.value else m.email)
    ensures r.age == (if AgeGiven(age) then age.value else m.age)
  {
    var m1 := if TextGiven(name) then m.(name := name.value) else m;
    var m2 := if TextGiven(email) then m1.(email := email.value) else m1;
    if AgeGiven(age) then m2.(age := age.value) else m2
  }

  /** An update with nothing truthy leaves the record unchanged, and an update
      whose age is falsy leaves the member's fee unchanged. */
  lemma UpdatedFalsyKeeps(m: Member, name: Option<string>, email: Option<string>, age: Option<int>)
    ensures !TextGiven(name) && !TextGiven(email) && !AgeGiven(age) ==> Updated(m, name, email, age) == m
    ensures !AgeGiven(age) ==> Fee(Updated(m, name, email, age).age) == Fee(m.age)
  {
  }

  /** Every member is stored under its own id. */
  ghost predicate KeyedById(members: map<string, Member>) {
    forall k :: k in members ==> members[k].memberId == k
  }

  // ---------------------------------------------------------------------------
  // The registry
  // ---------------------------------------------------------------------------

  class LibraryMembershipSystem {
    var members: map<string, Member>
    var totalFee: int
    var totalMembers: int

    /** The registry invariant: the accumulators agree with the dictionary. */
    ghost predicate Valid()
      reads this
    {
      && KeyedById(members)
      && totalFee == FeeSum(members)
      && totalMembers == |members|
    }

    constructor ()
      ensures Valid()
      ensures members == map[] && totalFee == 0 && totalMembers == 0
    {
      members := map[];
      totalFee := 0;
      totalMembers := 0;
    }

    /** Registers a new member; fails, changing nothing, when the id is taken. */
    method CreateMember(memberId: string, name: string, email: string, age: int) returns (ok: bool)
      requires Valid()
      modifies this
      ensures Valid()
      ensures ok <==> memberId !in old(members)
      ensures !ok ==> members == old(members) && totalFee == old(totalFee) && totalMembers == old(totalMembers)
      ensures ok ==> members == old(members)[memberId := Member(memberId, name, email, age)]
      ensures ok ==> totalFee == old(totalFee) + Fee(age) && totalMembers == old(totalMembers) + 1
    {
      if memberId in members {
        return false;
      }
      FeeSumInsert(members, memberId, Member(memberId, name, email, age));
      members := members[memberId := Member(memberId, name, email, age)];
      UpdateMembershipFee(age);
      return true;
    }

    /** Adds one member's fee, by its own inline copy of the schedule, and
        counts one more member; the dictionary is not touched. */
    method UpdateMembershipFee(age: int)
      modifies this
      ensures members == old(members)
      ensures totalFee == old(totalFee) + Fee(age)
      ensures totalMembers == old(totalMembers) + 1
    {
      if age < 18 {
        totalFee := totalFee + 10;  // student
      } else if 18 <= age <= 64 {
        totalFee := totalFee + 20;  // regular
      } else {
        totalFee := totalFee + 15;  // senior
      }
      totalMembers := totalMembers + 1;
    }

    /** A snapshot of the members held; the registry is not changed. */
    method ReadMembers() returns (snapshot: set<Member>)
      requires Valid()
      ensures forall k :: k in members ==> members[k] in snapshot
      ensures forall m :: m in snapshot ==> m.memberId in members && members[m.memberId] == m
      ensures snapshot == {} <==> members == map[]
    {
      snapshot := members.Values;
    }

    /** Updates the truthy fields of a present member. A new age moves the
        total fee by the difference of the two fees, taken from the stored age
        before it is overwritten. Fails, changing nothing, on an absent id. */
    method UpdateMember(memberId: string, name: Option<string>, email: Option<string>, age: Option<int>)
      returns (ok: bool)
      requires Valid()
      modifies this
      ensures Valid()
      ensures ok <==> memberId in old(members)
      ensures members.Keys == old(members).Keys && totalMembers == old(totalMembers)
      ensures !ok ==> members == old(members) && totalFee == old(totalFee)
      ensures ok ==> members == old(members)[memberId := Updated(old(members)[memberId], name, email, age)]
      ensures ok && AgeGiven(age) ==>
        totalFee == old(totalFee) - Fee(old(members)[memberId].age) + Fee(age.value)
      ensures ok && !AgeGiven(age) ==> totalFee == old(totalFee)
    {
      if memberId !in members {
        return false;
      }
      ghost var before := members;
      if TextGiven(name) {
        members := members[memberId := members[memberId].(name := name.value)];
      }
      if TextGiven(email) {
        members := members[memberId := members[memberId].(email := email.value)];
      }
      if AgeGiven(age) {
        AdjustMembershipFee(members[memberId].age, age.value);
        members := members[memberId := members[memberId].(age := age.value)];
      }
      assert members == before[memberId := Updated(before[memberId], name, email, age)];
      FeeSumReplace(before, memberId, Updated(before[memberId], name, email, age));
      return true;
    }

    /** Moves the total fee from the fee of `oldAge` to the fee of `newAge`. */
    method AdjustMembershipFee(oldAge: int, newAge: int)
      modifies this
      ensures members == old(members) && totalMembers == old(totalMembers)
      ensures totalFee == old(totalFee) - Fee(oldAge) + Fee(newAge)
    {
      totalFee := totalFee - Fee(oldAge);
      totalFee := totalFee + Fee(newAge);
    }

    /** Removes a present member and its fee; fails, changing nothing, on an absent id. */
    method DeleteMember(memberId: string) returns (ok: bool)
      requires Valid()
      modifies this
      ensures Valid()
      ensures ok <==> memberId in old(members)
      ensures !ok ==> members == old(members) && totalFee == old(totalFee) && totalMembers == old(totalMembers)
      ensures ok ==> members == old(members) - {memberId}
      ensures ok ==> totalFee == old(totalFee) - Fee(old(members)[memberId].age)
      ensures ok ==> totalMembers == old(totalMembers) - 1
    {
      if memberId !in members {
        return false;
      }
      var memberAge := members[memberId].age;
      FeeSumRemove(members, memberId);
      RemoveOneKey(members, memberId);
      totalFee := totalFee - Fee(memberAge);
      members := members - {memberId};
      totalMembers := totalMembers - 1;
      return true;
    }

    /** The accumulated total fee, which the invariant equates with the sum
        over the members held. */
    method CalculateTotalMembershipFee() returns (total: int)
      requires Valid()
      ensures total == totalFee
      ensures total == FeeSum(members)
      ensures 10 * |members| <= total <= 20 * |members|
    {
      FeeSumBounds(members);
      return totalFee;
    }

    /** The average fee per member, as exact division; 0 when there are no
        members. With members present it lies between the cheapest and the
        dearest tier. */
    method CalculateAverageMembershipFee() returns (average: real)
      requires Valid()
      ensures totalMembers == 0 ==> average == 0.0
      ensures totalMembers != 0 ==> average == totalFee as real / totalMembers as real
      ensures members != map[] ==> 10.0 <= average <= 20.0
    {
      if totalMembers == 0 {
        return 0.0;
      }
      average := totalFee as real / totalMembers as real;
      FeeSumBounds(members);
      AverageBounds(totalFee, totalMembers, average);
    }
  }

  /** A total between 10 and 20 per member gives an average between 10 and 20. */
  lemma AverageBounds(total: int, count: int, average: real)
    requires 0 < count
    requires 10 * count <= total <= 20 * count
    requires average == total as real / count as real
    ensures 10.0 <= average <= 20.0
  {
    var n := count as real;
    QuotientAtLeast(total as real, n, 10.0);
    QuotientAtMost(total as real, n, 20.0);
  }

  /** A lower bound on a total per unit bounds the quotient from below. */
  lemma QuotientAtLeast(t: real, n: real, c: real)
    requires n > 0.0 && c * n <= t
    ensures c <= t / n
  {
  }

  /** An upper bound on a total per unit bounds the quotient from above. */
  lemma QuotientAtMost(t: real, n: real, c: real)
    requires n > 0.0 && t <= c * n
    ensures t / n <= c
  {
  }

  /** A client that exercises create, update, delete and both queries, with
      every value it asserts derived from the method contracts alone. It
      models no function of the registry itself. */
  method FeeScenario() {
    var registry := new LibraryMembershipSystem();
    var ok := registry.CreateMember("m1", "A", "a@example.org", 17);
    assert ok;
    var total := registry.CalculateTotalMembershipFee();
    assert total == 10;
    ok := registry.CreateMember("m2", "B", "b@example.org", 70);
    assert ok;
    total := registry.CalculateTotalMembershipFee();
    assert total == 25;
    var average := registry.CalculateAverageMembershipFee();
    assert average == 12.5;
    ok := registry.UpdateMember("m1", None, None, Some(30));
    assert ok;
    total := registry.CalculateTotalMembershipFee();
    assert total == 35;
    ok := registry.DeleteMember("m2");
    assert ok;
    total := registry.CalculateTotalMembershipFee();
    assert total == 20 && registry.totalMembers == 1;
    ok := registry.CreateMember("m1", "C", "c@example.org", 40);
    assert !ok && registry.totalFee == 20 && registry.totalMembers == 1;
  }
}
