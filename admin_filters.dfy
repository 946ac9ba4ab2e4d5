/** The two list filters of the user admin: by activity (`ActiveUserFilter`)
    and by staff status (`StaffFilter`). Each offers two options and, for
    the option chosen, narrows the user list to one value of a flag. */
module AdminFilters {
  import opened Wrappers
  import opened UsersModels
  import Seqs

  /** One entry of `lookups`: the query value and the text shown for it. */
  datatype Lookup = Lookup(value: string, text: string)

  /** `queryset.filter(flag=want)` over a list of users: the users whose
      flag has that value, each as often as in the list, in their order. */
  function WithFlag(users: seq<Account>, flag: Account -> bool, want: bool): (r: seq<Account>)
    ensures forall u :: u in r <==> u in users && flag(u) == want
    ensures Seqs.IsSubsequence(r, users)
    ensures forall u :: multiset(r)[u] == if flag(u) == want then multiset(users)[u] else 0
  {
    var keep: Account -> bool := u => flag(u) == want;
    forall u {
      Seqs.KeepCount(users, keep, u);
    }
    Seqs.KeepMembership(users, keep);
    Seqs.KeepIsSubsequence(users, keep);
    Seqs.Keep(users, keep)
  }

  /** The shared `queryset` of both filters: `onValue` keeps the users with
      the flag set, `offValue` those without it, and any other value falls
      off the end of the method (None, so the admin leaves the list as it
      is). */
  function FlagQueryset(value: Option<string>, onValue: string, offValue: string,
                        flag: Account -> bool, users: seq<Account>): Option<seq<Account>>
  {
    if value == Some(onValue) then Some(WithFlag(users, flag, true))
    else if value == Some(offValue) then Some(WithFlag(users, flag, false))
    else None
  }

  function IsActive(u: Account): bool { u.isActive }
  function IsStaff(u: Account): bool { u.isStaff }

  /** `ActiveUserFilter.lookups`. */
  function ActiveLookups(): (r: seq<Lookup>)
    ensures |r| == 2 && r[0].value == "active" && r[1].value == "inactive"
  {
    [Lookup("active", "Активные"), Lookup("inactive", "Неактивные")]
  }

  /** `ActiveUserFilter.queryset` for the chosen value `self.value()`. */
  function ActiveQueryset(value: Option<string>, users: seq<Account>): Option<seq<Account>>
  {
    FlagQueryset(value, "active", "inactive", IsActive, users)
  }

  /** `StaffFilter.lookups`. */
  function StaffLookups(): (r: seq<Lookup>)
    ensures |r| == 2 && r[0].value == "staff" && r[1].value == "non_staff"
  {
    [Lookup("staff", "Персонал"), Lookup("non_staff", "Обычные пользователи")]
  }

  /** `StaffFilter.queryset` for the chosen value `self.value()`. */
  function StaffQueryset(value: Option<string>, users: seq<Account>): Option<seq<Account>>
  {
    FlagQueryset(value, "staff", "non_staff", IsStaff, users)
  }

  /** What the two options of a flag filter return, and that together they
      split the list: every user lands in exactly one of the two results,
      and each result keeps the list order. */
  lemma {:induction false} FlagQuerysetSplits(onValue: string, offValue: string, flag: Account -> bool, users: seq<Account>)
    requires onValue != offValue
    ensures var on := FlagQueryset(Some(onValue), onValue, offValue, flag, users);
      var off := FlagQueryset(Some(offValue), onValue, offValue, flag, users);
      && on.Some? && off.Some?
      && (forall u :: u in on.value <==> u in users && flag(u))
      && (forall u :: u in off.value <==> u in users && !flag(u))
      && multiset(on.value) + multiset(off.value) == multiset(users)
      && Seqs.IsSubsequence(on.value, users) && Seqs.IsSubsequence(off.value, users)
  {
    var keepOn: Account -> bool := u => flag(u) == true;
    var keepOff: Account -> bool := u => flag(u) == false;
    Seqs.KeepPartition(users, keepOn, keepOff);
  }

  /** `'active'` gives exactly the active users, `'inactive'` exactly the
      others; together they partition the list, in order. */
  lemma ActiveFilterPartitions(users: seq<Account>)
    ensures var on := ActiveQueryset(Some("active"), users);
      var off := ActiveQueryset(Some("inactive"), users);
      && on.Some? && off.Some?
      && (forall u :: u in on.value <==> u in users && u.isActive)
      && (forall u :: u in off.value <==> u in users && !u.isActive)
      && multiset(on.value) + multiset(off.value) == multiset(users)
      && Seqs.IsSubsequence(on.value, users) && Seqs.IsSubsequence(off.value, users)
  {
    FlagQuerysetSplits("active", "inactive", IsActive, users);
  }

  /** `'staff'` gives exactly the staff, `'non_staff'` exactly the others;
      together they partition the list, in order. */
  lemma StaffFilterPartitions(users: seq<Account>)
    ensures var on := StaffQueryset(Some("staff"), users);
      var off := StaffQueryset(Some("non_staff"), users);
      && on.Some? && off.Some?
      && (forall u :: u in on.value <==> u in users && u.isStaff)
      && (forall u :: u in off.value <==> u in users && !u.isStaff)
      && multiset(on.value) + multiset(off.value) == multiset(users)
      && Seqs.IsSubsequence(on.value, users) && Seqs.IsSubsequence(off.value, users)
  {
    FlagQuerysetSplits("staff", "non_staff", IsStaff, users);
  }

  /** Exactly the values `ActiveUserFilter` offers select a filtered list;
      any other value, or none, imposes no filtering. */
  lemma ActiveOnlyOfferedValuesFilter(value: Option<string>, users: seq<Account>)
    ensures ActiveQueryset(value, users).Some? <==> exists k :: 0 <= k < |ActiveLookups()| && value == Some(ActiveLookups()[k].value)
  {
    if ActiveQueryset(value, users).Some? {
      var k := if value == Some("active") then 0 else 1;
      assert value == Some(ActiveLookups()[k].value);
    }
  }

  /** Exactly the values `StaffFilter` offers select a filtered list; any
      other value, or none, imposes no filtering. */
  lemma StaffOnlyOfferedValuesFilter(value: Option<string>, users: seq<Account>)
    ensures StaffQueryset(value, users).Some? <==> exists k :: 0 <= k < |StaffLookups()| && value == Some(StaffLookups()[k].value)
  {
    if StaffQueryset(value, users).Some? {
      var k := if value == Some("staff") then 0 else 1;
      assert value == Some(StaffLookups()[k].value);
    }
  }
}
