# Library membership registry, modelled in Dafny

This project models the member registry of a small library membership
system (`library_membership.py`). The registry keeps a dictionary of member
records keyed by member id. It also keeps two running accumulators, the total
fee and the member count. Create, update and delete change the accumulators
step by step; they are never recomputed from the dictionary. A member's fee
follows an age-tiered schedule: 10 under 18, 20 from 18 to 64, 15 above 64.

Everything is in `library_membership.dfy`, module `LibraryMembership`:

- `Member` is a datatype record; `Fee` is the fee schedule.
- `FeeSum` is the sum of `Fee(m.age)` over a member dictionary. Its lemmas
  cover removing, inserting and replacing one key, which carry the invariant
  through every method.
- `LibraryMembershipSystem` is a class with fields `members`, `totalFee` and
  `totalMembers`. Its `Valid()` invariant says that every member is stored
  under its own id, that `totalFee == FeeSum(members)` and that
  `totalMembers == |members|`. The constructor establishes `Valid()`.
  `CreateMember`, `UpdateMember` and `DeleteMember` keep it, and each states
  the whole new state in terms of the old one, including the rejection case,
  which changes nothing.
- `UpdateMembershipFee` and `AdjustMembershipFee` are single steps of create
  and update. They change only the accumulators, so called on their own they
  break the invariant, in the source and in the model alike. Their contracts
  state the exact change to the accumulators and nothing about `Valid()`.
- The optional arguments of `update_member` are `Option` values read with
  Python's truthiness: `None` or `""` for a name or an email, and `None` or
  `0` for an age, all mean "leave unchanged".
- `FeeScenario` is a client that exercises create, update, delete and both
  queries. It models no function of the source and has no row below. Ages 17
  and 70 give a total of 25 and an average of 12.5; changing 17 to 30 gives
  35; deleting the second member gives 20 with one member; a duplicate create
  is refused. Each value is derived from the method contracts alone.

Two consequences of the code that a reader might not expect:
- `update_member` tests truthiness (`if name:`, `if email:`, `if age:`), so an
  update cannot set an age of 0 or an empty name or email. The model does the
  same.
- The code does not validate ages. A negative age is truthy and falls in the
  student tier. The model uses `int` ages and does no validation either.

## Model

| member | source | states |
|---|---|---|
| `LibraryMembership.Fee` | library_membership.py:66-73 | every fee is one of the three tiers 10, 15, 20 |
| `LibraryMembership.FeeTiers` | library_membership.py:66-73 | fee is 10 exactly when age < 18, 20 exactly when 18 <= age <= 64, 15 exactly when age > 64; fee(17)=10, fee(18)=20, fee(64)=20, fee(65)=15 |
| `LibraryMembership.RemoveOneKey` | library_membership.py:83-84 | deleting a present key removes exactly that key and shrinks the dictionary by one, matching the count decrement |
| `LibraryMembership.FeeSumRemove` | library_membership.py:81-83 | the fee sum over the dictionary equals the removed member's fee plus the sum over the rest, for any present key |
| `LibraryMembership.FeeSumInsert` | library_membership.py:21-23 | inserting a fresh id raises the fee sum by exactly the new member's fee |
| `LibraryMembership.FeeSumReplace` | library_membership.py:54-57 | replacing a member changes the fee sum by fee(new age) minus fee(old age) |
| `LibraryMembership.FeeSumBounds` | library_membership.py:66-73 | the fee sum lies between 10 and 20 times the number of members |
| `LibraryMembership.Updated` | library_membership.py:49-57 | the updated record keeps its id; each field takes the argument when it is truthy and keeps its old value otherwise |
| `LibraryMembership.UpdatedFalsyKeeps` | library_membership.py:50-57 | an update with no truthy argument leaves the record unchanged; a falsy age leaves the member's fee unchanged |
| `LibraryMembership.LibraryMembershipSystem.constructor` | library_membership.py:11-14 | a new registry is empty with both accumulators 0, and the invariant holds |
| `LibraryMembership.LibraryMembershipSystem.CreateMember` | library_membership.py:16-24 | succeeds exactly when the id is absent; then the dictionary gains exactly that key with the given fields, the total rises by fee(age) and the count by 1; otherwise nothing changes; the invariant is kept |
| `LibraryMembership.LibraryMembershipSystem.UpdateMembershipFee` | library_membership.py:26-34 | the inline copy of the schedule adds exactly Fee(age) to the total and 1 to the count, so both copies of the schedule agree |
| `LibraryMembership.LibraryMembershipSystem.ReadMembers` | library_membership.py:36-42 | the snapshot holds exactly the stored members, each under its own id; it is empty exactly when the registry is; nothing changes |
| `LibraryMembership.LibraryMembershipSystem.UpdateMember` | library_membership.py:44-59 | succeeds exactly when the id is present; only that member changes, by the truthiness rule; key set and count are unchanged; a truthy age moves the total by fee(new) minus fee(stored old age); a falsy age leaves the total; otherwise nothing changes; the invariant is kept |
| `LibraryMembership.LibraryMembershipSystem.AdjustMembershipFee` | library_membership.py:61-64 | the total moves from fee(old age) to fee(new age); dictionary and count are untouched |
| `LibraryMembership.LibraryMembershipSystem.DeleteMember` | library_membership.py:75-86 | succeeds exactly when the id is present; then exactly that key is removed, the total falls by the removed member's fee and the count by 1; otherwise nothing changes; the invariant is kept |
| `LibraryMembership.LibraryMembershipSystem.CalculateTotalMembershipFee` | library_membership.py:88-90 | returns the accumulator, which equals the fee sum over the members held and lies between 10 and 20 per member; nothing changes |
| `LibraryMembership.LibraryMembershipSystem.CalculateAverageMembershipFee` | library_membership.py:92-96 | 0 with no members, otherwise total / count as exact division, which then lies between 10 and 20; nothing changes |
| `LibraryMembership.AverageBounds` | library_membership.py:96 | a total between 10 and 20 per member gives an average between 10 and 20 |

## Left out

- `main()` and its menu loop (library_membership.py:99-149) are console I/O with `input()` and `print()`. They include the conversion of typed text to an integer age.
- The `print` calls inside the registry methods are left out. Only the returned booleans and the state changes are modelled, and `read_members` returns its members as a set instead of printing them.
- CalculateAverageMembershipFee: Python's `/` gives a float. The model uses exact real division, so float rounding and the two-decimal display are not modelled.
- UpdateMember: the source writes the fields of the stored `Member` object in place. The model writes an updated record back into the dictionary. No other reference to that object exists in the source, so no aliasing is lost.
- Python's dynamic typing is not modelled. Ids, names and emails are strings and ages are integers, as the menu loop supplies them.
