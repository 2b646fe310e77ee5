/** The membership snapshot create_AD_json builds from two directory queries and the
    passwd database: `{root: [{group: [{user: uid}, ...]}, ...]}`. */
module Snapshot {
  import opened Wrappers
  import opened Text
  import opened Json

  /** A directory entry: its string form `str(entry)` and its `sAMAccountName`. */
  datatype Entry = Entry(text: string, accountName: string)

  /** The directory service, one bind and search per call: a search filter gives the
      entries found, or `None` when the bind or the search raises. */
  type Directory = string -> Option<seq<Entry>>

  /** `getpwnam(name)[2]`: the uid of each account the passwd database knows. */
  type Passwd = map<string, nat>

  datatype UserItem = UserItem(name: string, uid: nat)
  datatype GroupItem = GroupItem(name: string, members: seq<UserItem>)
  datatype Snapshot = Snapshot(root: string, groups: seq<GroupItem>)

  /** Why a build stops: a search raised, a group's string form has no second token
      (`IndexError`), or an account has no passwd entry (`KeyError`). */
  datatype BuildError = QueryFailed(filter: string) | NoDn(index: nat) | UnknownUser(name: string)

  /** The filter that finds the users that are members of the group `dn`. */
  function MemberFilter(dn: string): string {
    "(&(objectClass=user)(memberOf=" + dn + "))"
  }

  /** The DN the code reads from a group entry: the second whitespace token of its string form. */
  function DnOf(e: Entry): Option<string> {
    SecondToken(e.text)
  }

  /** The user entries a group's member query returns, if its DN and the query succeed. */
  function MembersFound(e: Entry, dir: Directory): Option<seq<Entry>> {
    match DnOf(e)
    case None => None
    case Some(dn) => dir(MemberFilter(dn))
  }

  // ---- what a successful build contains ----

  /** `items` lists `users` in order, each mapped to the uid of its own account. */
  predicate UsersDescribed(items: seq<UserItem>, users: seq<Entry>, passwd: Passwd) {
    && |items| == |users|
    && forall j :: 0 <= j < |users| ==>
         users[j].accountName in passwd
         && items[j] == UserItem(users[j].accountName, passwd[users[j].accountName])
  }

  predicate GroupDescribed(item: GroupItem, e: Entry, dir: Directory, passwd: Passwd) {
    && item.name == e.accountName
    && MembersFound(e, dir).Some?
    && UsersDescribed(item.members, MembersFound(e, dir).value, passwd)
  }

  /** `s` is the snapshot of `groups`: rooted at `root`, one entry per group in query
      order, each listing its members in query order. */
  predicate Describes(s: Snapshot, root: string, groups: seq<Entry>, dir: Directory, passwd: Passwd) {
    && s.root == root
    && |s.groups| == |groups|
    && forall i :: 0 <= i < |groups| ==> GroupDescribed(s.groups[i], groups[i], dir, passwd)
  }

  /** Everything a group needs for the build to get past it. */
  predicate Resolvable(e: Entry, dir: Directory, passwd: Passwd) {
    && MembersFound(e, dir).Some?
    && forall j :: 0 <= j < |MembersFound(e, dir).value| ==>
         MembersFound(e, dir).value[j].accountName in passwd
  }

  // ---- the build, as the code runs it ----

  /** hierarchy.py:99: every group's DN, computed before any member query. Fails at the first
      group whose string form has fewer than two tokens. */
  function DnList(groups: seq<Entry>): Result<seq<string>, BuildError>
    decreases |groups|
  {
    if groups == [] then Success([])
    else
      var init := groups[..|groups| - 1];
      match DnList(init)
      case Failure(e) => Failure(e)
      case Success(dns) =>
        match DnOf(groups[|groups| - 1])
        case None => Failure(NoDn(|groups| - 1))
        case Some(dn) => Success(dns + [dn])
  }

  /** hierarchy.py:115-118: each user entry becomes `{name: uid}`, in order; the first name
      without a passwd entry stops the build. */
  function Members(users: seq<Entry>, passwd: Passwd): Result<seq<UserItem>, BuildError>
    decreases |users|
  {
    if users == [] then Success([])
    else
      var init := users[..|users| - 1];
      var name := users[|users| - 1].accountName;
      match Members(init, passwd)
      case Failure(e) => Failure(e)
      case Success(items) =>
        if name in passwd then Success(items + [UserItem(name, passwd[name])])
        else Failure(UnknownUser(name))
  }

  /** Every group has a DN: what hierarchy.py:99 establishes before the loop. */
  predicate AllHaveDn(groups: seq<Entry>) {
    forall i :: 0 <= i < |groups| ==> DnOf(groups[i]).Some?
  }

  /** hierarchy.py:107-120 for one group: its DN, its member query, its members. */
  function GroupOf(g: Entry, dir: Directory, passwd: Passwd): Result<GroupItem, BuildError>
    requires DnOf(g).Some?
  {
    var dn := DnOf(g).value;
    match dir(MemberFilter(dn))
    case None => Failure(QueryFailed(MemberFilter(dn)))
    case Some(users) =>
      match Members(users, passwd)
      case Failure(e) => Failure(e)
      case Success(ms) => Success(GroupItem(g.accountName, ms))
  }

  /** hierarchy.py:106-120: each group in order, appended to the list. */
  function Groups(groups: seq<Entry>, dir: Directory, passwd: Passwd): Result<seq<GroupItem>, BuildError>
    requires AllHaveDn(groups)
    decreases |groups|
  {
    if groups == [] then Success([])
    else
      var init := groups[..|groups| - 1];
      match Groups(init, dir, passwd)
      case Failure(e) => Failure(e)
      case Success(items) =>
        match GroupOf(groups[|groups| - 1], dir, passwd)
        case Failure(e) => Failure(e)
        case Success(item) => Success(items + [item])
  }

  /** hierarchy.py:97-122: the group query, the DN check, the member queries, the snapshot. */
  function Build(root: string, query: string, dir: Directory, passwd: Passwd): Result<Snapshot, BuildError> {
    match dir(query)
    case None => Failure(QueryFailed(query))
    case Some(groups) =>
      match DnList(groups)
      case Failure(e) => Failure(e)
      case Success(_) =>
        DnListMeaning(groups);
        match Groups(groups, dir, passwd)
        case Failure(e) => Failure(e)
        case Success(items) => Success(Snapshot(root, items))
  }

  /** The DN list exists exactly when every group has a second token; it is those
      tokens in order; otherwise it names the first group without one. */
  lemma {:induction false} DnListMeaning(groups: seq<Entry>)
    ensures var r := DnList(groups);
            && (r.Success? <==> forall i :: 0 <= i < |groups| ==> DnOf(groups[i]).Some?)
            && (r.Success? ==>
                  && |r.value| == |groups|
                  && forall i :: 0 <= i < |groups| ==> DnOf(groups[i]) == Some(r.value[i]))
            && (r.Failure? ==>
                  && r.error.NoDn? && r.error.index < |groups|
                  && DnOf(groups[r.error.index]).None?
                  && forall i :: 0 <= i < r.error.index ==> DnOf(groups[i]).Some?)
    decreases |groups|
  {
    if groups != [] {
      var init := groups[..|groups| - 1];
      DnListMeaning(init);
      assert forall i :: 0 <= i < |init| ==> init[i] == groups[i];
    }
  }

  /** The members exist exactly when passwd knows every user; they list every user in
      order with its own uid; a failure names an account passwd lacks. */
  lemma {:induction false} MembersMeaning(users: seq<Entry>, passwd: Passwd)
    ensures var r := Members(users, passwd);
            && (r.Success? <==> forall j :: 0 <= j < |users| ==> users[j].accountName in passwd)
            && (r.Success? ==> UsersDescribed(r.value, users, passwd))
            && (r.Failure? ==> r.error.UnknownUser? && r.error.name !in passwd)
    decreases |users|
  {
    if users != [] {
      var init := users[..|users| - 1];
      MembersMeaning(init, passwd);
      assert forall j :: 0 <= j < |init| ==> init[j] == users[j];
    }
  }

  lemma GroupOfMeaning(g: Entry, dir: Directory, passwd: Passwd)
    requires DnOf(g).Some?
    ensures var r := GroupOf(g, dir, passwd);
            && (r.Success? <==> Resolvable(g, dir, passwd))
            && (r.Success? ==> GroupDescribed(r.value, g, dir, passwd))
  {
    if MembersFound(g, dir).Some? {
      MembersMeaning(MembersFound(g, dir).value, passwd);
    }
  }

  /** The groups exist exactly when every group is resolvable; then there is one entry
      per group, in order, describing it. */
  lemma {:induction false} GroupsMeaning(groups: seq<Entry>, dir: Directory, passwd: Passwd)
    requires AllHaveDn(groups)
    ensures var r := Groups(groups, dir, passwd);
            && (r.Success? <==> forall i :: 0 <= i < |groups| ==> Resolvable(groups[i], dir, passwd))
            && (r.Success? ==>
                  && |r.value| == |groups|
                  && forall i :: 0 <= i < |groups| ==> GroupDescribed(r.value[i], groups[i], dir, passwd))
    decreases |groups|
  {
    if groups != [] {
      var init := groups[..|groups| - 1];
      GroupsMeaning(init, dir, passwd);
      GroupOfMeaning(groups[|groups| - 1], dir, passwd);
      assert forall i :: 0 <= i < |init| ==> init[i] == groups[i];
    }
  }

  /** Once a prefix of the users fails, the whole list fails the same way. */
  lemma {:induction false} MembersPrefixFails(users: seq<Entry>, k: nat, passwd: Passwd)
    requires k <= |users| && Members(users[..k], passwd).Failure?
    ensures Members(users, passwd) == Members(users[..k], passwd)
    decreases |users| - k
  {
    if k < |users| {
      assert users[..k + 1][..k] == users[..k];
      MembersPrefixFails(users, k + 1, passwd);
    } else {
      assert users[..k] == users;
    }
  }

  /** Once a prefix of the groups fails, the whole list fails the same way. */
  lemma {:induction false} GroupsPrefixFails(groups: seq<Entry>, k: nat, dir: Directory, passwd: Passwd)
    requires AllHaveDn(groups)
    requires k <= |groups| && Groups(groups[..k], dir, passwd).Failure?
    ensures Groups(groups, dir, passwd) == Groups(groups[..k], dir, passwd)
    decreases |groups| - k
  {
    if k < |groups| {
      assert groups[..k + 1][..k] == groups[..k];
      GroupsPrefixFails(groups, k + 1, dir, passwd);
    } else {
      assert groups[..k] == groups;
    }
  }

  /** The inner loop of the build (hierarchy.py:115-118): one `{name: uid}` per user entry. */
  method ResolveMembers(users: seq<Entry>, passwd: Passwd) returns (r: Result<seq<UserItem>, BuildError>)
    ensures r == Members(users, passwd)
  {
    var members: seq<UserItem> := [];
    var j := 0;
    while j < |users|
      invariant 0 <= j <= |users|
      invariant Members(users[..j], passwd) == Success(members)
    {
      var name := users[j].accountName;
      assert users[..j + 1][..j] == users[..j] && users[..j + 1][j] == users[j];
      if name !in passwd {
        MembersPrefixFails(users, j + 1, passwd);
        return Failure(UnknownUser(name));
      }
      members := members + [UserItem(name, passwd[name])];
      j := j + 1;
    }
    assert users[..j] == users;
    return Success(members);
  }

  /** The body of the outer loop (hierarchy.py:107-120): one group's DN, member query and members. */
  method BuildGroup(g: Entry, dir: Directory, passwd: Passwd) returns (r: Result<GroupItem, BuildError>)
    requires DnOf(g).Some?
    ensures r == GroupOf(g, dir, passwd)
  {
    var dn := DnOf(g).value;
    var filter := MemberFilter(dn);
    var found := dir(filter);
    if found.None? {
      return Failure(QueryFailed(filter));
    }
    var members := ResolveMembers(found.value, passwd);
    if members.Failure? {
      return Failure(members.error);
    }
    return Success(GroupItem(g.accountName, members.value));
  }

  /** The outer loop of the build (hierarchy.py:106-120): one `{group: members}` appended per group. */
  method BuildGroups(groups: seq<Entry>, dir: Directory, passwd: Passwd)
    returns (r: Result<seq<GroupItem>, BuildError>)
    requires AllHaveDn(groups)
    ensures r == Groups(groups, dir, passwd)
  {
    var list: seq<GroupItem> := [];
    var i := 0;
    while i < |groups|
      invariant 0 <= i <= |groups|
      invariant Groups(groups[..i], dir, passwd) == Success(list)
    {
      assert groups[..i + 1][..i] == groups[..i] && groups[..i + 1][i] == groups[i];
      var item := BuildGroup(groups[i], dir, passwd);
      if item.Failure? {
        GroupsPrefixFails(groups, i + 1, dir, passwd);
        return Failure(item.error);
      }
      list := list + [item.value];
      i := i + 1;
    }
    assert groups[..i] == groups;
    return Success(list);
  }

  /** The build of create_AD_json (hierarchy.py:97-122): the group query, the DN list of
      hierarchy.py:99, then the loop over groups. */
  method BuildSnapshot(root: string, query: string, dir: Directory, passwd: Passwd)
    returns (r: Result<Snapshot, BuildError>)
    ensures r == Build(root, query, dir, passwd)
  {
    var found := dir(query);
    if found.None? {
      return Failure(QueryFailed(query));
    }
    var dns := DnList(found.value);
    if dns.Failure? {
      return Failure(dns.error);
    }
    DnListMeaning(found.value);
    var groups := BuildGroups(found.value, dir, passwd);
    if groups.Failure? {
      return Failure(groups.error);
    }
    return Success(Snapshot(root, groups.value));
  }

  // ---- properties of the build ----

  /** The build succeeds exactly when the group query answers and every group has a
      DN, an answering member query and only members passwd knows. */
  lemma BuildSucceedsIff(root: string, query: string, dir: Directory, passwd: Passwd)
    ensures Build(root, query, dir, passwd).Success? <==>
              && dir(query).Some?
              && forall i :: 0 <= i < |dir(query).value| ==> Resolvable(dir(query).value[i], dir, passwd)
  {
    if dir(query).Some? {
      DnListMeaning(dir(query).value);
      if AllHaveDn(dir(query).value) {
        GroupsMeaning(dir(query).value, dir, passwd);
      }
    }
  }

  /** A successful build is the snapshot of the groups the query returned. */
  lemma BuildDescribes(root: string, query: string, dir: Directory, passwd: Passwd)
    requires Build(root, query, dir, passwd).Success?
    ensures dir(query).Some?
    ensures Describes(Build(root, query, dir, passwd).value, root, dir(query).value, dir, passwd)
  {
    if dir(query).Some? {
      DnListMeaning(dir(query).value);
      if AllHaveDn(dir(query).value) {
        GroupsMeaning(dir(query).value, dir, passwd);
      }
    }
  }

  /** `Describes` leaves no freedom: at most one snapshot fits the query answers. */
  lemma {:induction false} DescribesUnique(s1: Snapshot, s2: Snapshot, root: string, groups: seq<Entry>,
                                           dir: Directory, passwd: Passwd)
    requires Describes(s1, root, groups, dir, passwd) && Describes(s2, root, groups, dir, passwd)
    ensures s1 == s2
  {
    forall i | 0 <= i < |groups| ensures s1.groups[i] == s2.groups[i] {
      var g1, g2 := s1.groups[i], s2.groups[i];
      assert GroupDescribed(g1, groups[i], dir, passwd) && GroupDescribed(g2, groups[i], dir, passwd);
      var users := MembersFound(groups[i], dir).value;
      forall j | 0 <= j < |users| ensures g1.members[j] == g2.members[j] {
      }
      assert g1.members == g2.members;
    }
    assert s1.groups == s2.groups;
  }

  /** hierarchy.py:99 checks every group before any member query: the first group without a
      DN stops the build, whatever the member queries and passwd would have said. */
  lemma DnCheckedFirst(root: string, query: string, dir: Directory, passwd: Passwd, i: nat)
    requires dir(query).Some? && i < |dir(query).value|
    requires DnOf(dir(query).value[i]).None?
    requires forall k :: 0 <= k < i ==> DnOf(dir(query).value[k]).Some?
    ensures Build(root, query, dir, passwd) == Failure(NoDn(i))
  {
    DnListMeaning(dir(query).value);
  }

  /** A missing passwd entry aborts the whole build; no user is skipped. */
  lemma UnknownUserAborts(root: string, query: string, dir: Directory, passwd: Passwd, i: nat, j: nat)
    requires dir(query).Some? && i < |dir(query).value|
    requires MembersFound(dir(query).value[i], dir).Some?
    requires j < |MembersFound(dir(query).value[i], dir).value|
    requires MembersFound(dir(query).value[i], dir).value[j].accountName !in passwd
    ensures Build(root, query, dir, passwd).Failure?
  {
    assert !Resolvable(dir(query).value[i], dir, passwd);
    BuildSucceedsIff(root, query, dir, passwd);
  }

  /** A group whose member query returns nothing still appears, with no members. */
  lemma EmptyGroupKept(root: string, query: string, dir: Directory, passwd: Passwd, i: nat)
    requires Build(root, query, dir, passwd).Success? && dir(query).Some?
    requires i < |dir(query).value| && MembersFound(dir(query).value[i], dir) == Some([])
    ensures |Build(root, query, dir, passwd).value.groups| == |dir(query).value|
    ensures Build(root, query, dir, passwd).value.groups[i] == GroupItem(dir(query).value[i].accountName, [])
  {
    BuildDescribes(root, query, dir, passwd);
  }

  // ---- the snapshot as a JSON document ----

  function UserJson(u: UserItem): Json {
    Object(map[u.name := Int(u.uid)])
  }

  function GroupJson(g: GroupItem): Json {
    Object(map[g.name := Array(seq(|g.members|, k requires 0 <= k < |g.members| => UserJson(g.members[k])))])
  }

  /** hierarchy.py:122: `{root_group_name: [{group: [{user: uid}, ...]}, ...]}`. */
  function ToJson(s: Snapshot): Json {
    Object(map[s.root := Array(seq(|s.groups|, k requires 0 <= k < |s.groups| => GroupJson(s.groups[k])))])
  }

  /** The document of a successful build has the single key `root`, one single-key
      object per group in query order, and one `{user: uid}` per member in query order. */
  lemma BuildJsonShape(root: string, query: string, dir: Directory, passwd: Passwd)
    requires Build(root, query, dir, passwd).Success? && dir(query).Some?
    ensures var j := ToJson(Build(root, query, dir, passwd).value);
            var groups := dir(query).value;
            && j.fields.Keys == {root}
            && |j.fields[root].items| == |groups|
            && forall i :: 0 <= i < |groups| ==>
                 && j.fields[root].items[i].fields.Keys == {groups[i].accountName}
                 && MembersFound(groups[i], dir).Some?
                 && var users := MembersFound(groups[i], dir).value;
                    var js := j.fields[root].items[i].fields[groups[i].accountName].items;
                    && |js| == |users|
                    && forall u :: 0 <= u < |users| ==>
                         && users[u].accountName in passwd
                         && js[u] == Object(map[users[u].accountName := Int(passwd[users[u].accountName])])
  {
    BuildDescribes(root, query, dir, passwd);
  }

  lemma UserJsonInjective(u: UserItem, v: UserItem)
    requires PyEq(UserJson(u), UserJson(v))
    ensures u == v
  {
    assert u.name in UserJson(v).fields;
  }

  lemma {:induction false} GroupJsonInjective(g: GroupItem, h: GroupItem)
    requires PyEq(GroupJson(g), GroupJson(h))
    ensures g == h
  {
    assert g.name in GroupJson(h).fields;
    assert g.name == h.name;
    var xs := GroupJson(g).fields[g.name].items;
    var ys := GroupJson(h).fields[h.name].items;
    assert PyEq(Array(xs), Array(ys));
    forall k | 0 <= k < |g.members| ensures g.members[k] == h.members[k] {
      assert PyEq(xs[k], ys[k]);
      UserJsonInjective(g.members[k], h.members[k]);
    }
  }

  /** The cache comparison of hierarchy.py:133 is structural equality of snapshots: the same
      root, the same groups in the same order, the same users in the same order with the
      same uids. */
  lemma {:induction false} SnapshotJsonEqIff(a: Snapshot, b: Snapshot)
    ensures PyEq(ToJson(a), ToJson(b)) <==> a == b
  {
    if a == b {
      PyEqReflexive(ToJson(a));
    }
    if PyEq(ToJson(a), ToJson(b)) {
      assert a.root in ToJson(b).fields;
      assert a.root == b.root;
      var xs := ToJson(a).fields[a.root].items;
      var ys := ToJson(b).fields[b.root].items;
      assert PyEq(Array(xs), Array(ys));
      forall k | 0 <= k < |a.groups| ensures a.groups[k] == b.groups[k] {
        assert PyEq(xs[k], ys[k]);
        GroupJsonInjective(a.groups[k], b.groups[k]);
      }
    }
  }
}
