/**
 * The `/report` command of the bot in a group: the bot must be an
 * administrator, the members are the group's human administrators, each
 * member is counted once, the typed ones are listed as `"• name: TYPE"`,
 * and the group is analysed only when at least 70% of it is typed.
 *
 * The Telegram calls are parameters: `botStatus` is the bot's own member
 * status (`None` when asking raised), `admins` the administrator list
 * (`None` when asking raised), and `typedUsers` the rows of the users table
 * that have a type (`None` when reading them raised).
 */
module Report {
  import opened Outcomes

  /** A Telegram user id. */
  type UserId = int

  /** The user inside a chat member record. */
  datatype Member = Member(id: UserId, username: Option<string>, firstName: string, isBot: bool)

  /** A row of `get_all_users_with_types`. */
  datatype TypedUser = TypedUser(userId: UserId, username: string, personalityType: string)

  /** The share of typed members, in percent, the analysis needs. */
  const Threshold := 70

  /** The statuses that let the bot run the report. */
  predicate BotIsAdmin(status: string) {
    status == "administrator" || status == "creator"
  }

  /** The administrators that are not bots, in their order. */
  function Humans(admins: seq<Member>): (ms: seq<Member>)
    ensures |ms| <= |admins|
  {
    if admins == [] then []
    else
      var last := admins[|admins| - 1];
      Humans(admins[..|admins| - 1]) + (if last.isBot then [] else [last])
  }

  /** Exactly the non-bot administrators are kept. */
  lemma {:induction false} HumansMembers(admins: seq<Member>)
    ensures forall m :: m in Humans(admins) <==> m in admins && !m.isBot
  {
    if admins != [] {
      var init := admins[..|admins| - 1];
      HumansMembers(init);
      assert admins == init + [admins[|admins| - 1]];
    }
  }

  /** Filtering keeps the order: two runs filter to the two filtered runs. */
  lemma {:induction false} HumansAppend(xs: seq<Member>, ys: seq<Member>)
    ensures Humans(xs + ys) == Humans(xs) + Humans(ys)
  {
    if ys == [] {
      assert xs + ys == xs;
    } else {
      var init := ys[..|ys| - 1];
      HumansAppend(xs, init);
      assert (xs + ys)[..|xs + ys| - 1] == xs + init;
    }
  }

  /** `get_all_group_members`: the non-bot administrators, or no one when
   *  asking for the administrators raised. */
  method NonBotAdmins(admins: Option<seq<Member>>) returns (members: seq<Member>)
    ensures admins.None? ==> members == []
    ensures admins.Some? ==> members == Humans(admins.value)
  {
    members := [];
    if admins.None? {
      return;
    }
    var all := admins.value;
    var i := 0;
    while i < |all|
      invariant 0 <= i <= |all|
      invariant members == Humans(all[..i])
    {
      assert all[..i + 1][..i] == all[..i];
      if !all[i].isBot {
        members := members + [all[i]];
      }
      i := i + 1;
    }
    assert all[..i] == all;
  }

  /** The ids occurring in a member list. */
  function Ids(ms: seq<Member>): set<UserId> {
    if ms == [] then {} else Ids(ms[..|ms| - 1]) + {ms[|ms| - 1].id}
  }

  /** The id of a record is among the ids. */
  lemma {:induction false} IdOf(ms: seq<Member>, k: int)
    requires 0 <= k < |ms|
    ensures ms[k].id in Ids(ms)
  {
    if k < |ms| - 1 {
      IdOf(ms[..|ms| - 1], k);
    }
  }

  /** Every id comes from some record. */
  lemma {:induction false} IdFrom(ms: seq<Member>, id: UserId) returns (k: int)
    requires id in Ids(ms)
    ensures 0 <= k < |ms| && ms[k].id == id
  {
    if ms[|ms| - 1].id == id {
      k := |ms| - 1;
    } else {
      k := IdFrom(ms[..|ms| - 1], id);
    }
  }

  /** A non-empty member list has at least one id. */
  lemma IdsNonEmpty(ms: seq<Member>)
    requires ms != []
    ensures |Ids(ms)| > 0
  {
    assert ms[|ms| - 1].id in Ids(ms);
  }

  /** Each id occurs at most once. */
  ghost predicate DistinctIds(ms: seq<Member>) {
    forall i, j :: 0 <= i < j < |ms| ==> ms[i].id != ms[j].id
  }

  /** The first record of each id, in order of first appearance. */
  function FirstSeen(ms: seq<Member>): seq<Member> {
    if ms == [] then []
    else
      var init := ms[..|ms| - 1];
      var last := ms[|ms| - 1];
      FirstSeen(init) + (if last.id in Ids(init) then [] else [last])
  }

  /** Deduplication loses no id and adds none. */
  lemma {:induction false} FirstSeenIds(ms: seq<Member>)
    ensures Ids(FirstSeen(ms)) == Ids(ms)
  {
    if ms != [] {
      var init := ms[..|ms| - 1];
      var last := ms[|ms| - 1];
      FirstSeenIds(init);
      if last.id in Ids(init) {
        assert FirstSeen(ms) == FirstSeen(init);
      } else {
        assert FirstSeen(ms) == FirstSeen(init) + [last];
        IdsSnoc(FirstSeen(init), last);
      }
    }
  }

  /** Every kept record is one of the list's records. */
  lemma {:induction false} FirstSeenDrawn(ms: seq<Member>)
    ensures forall m :: m in FirstSeen(ms) ==> m in ms
  {
    if ms != [] {
      FirstSeenDrawn(ms[..|ms| - 1]);
      assert ms == ms[..|ms| - 1] + [ms[|ms| - 1]];
    }
  }

  /** Deduplication keeps one record per id. */
  lemma {:induction false} FirstSeenDistinct(ms: seq<Member>)
    ensures DistinctIds(FirstSeen(ms))
  {
    if ms != [] {
      var init := ms[..|ms| - 1];
      var last := ms[|ms| - 1];
      FirstSeenDistinct(init);
      FirstSeenIds(init);
      var fs := FirstSeen(ms);
      if last.id !in Ids(init) {
        forall i, j | 0 <= i < j < |fs|
          ensures fs[i].id != fs[j].id
        {
          if j == |fs| - 1 {
            IdOf(FirstSeen(init), i);
          }
        }
      }
    }
  }

  /** Record `i` is the first with its id. */
  ghost predicate FirstOfItsId(ms: seq<Member>, i: int)
    requires 0 <= i < |ms|
  {
    forall j :: 0 <= j < i ==> ms[j].id != ms[i].id
  }

  /** Dropping the last record does not change which earlier records are
   *  first occurrences. */
  lemma FirstOfItsIdInit(ms: seq<Member>)
    requires ms != []
    ensures forall i :: 0 <= i < |ms| - 1 ==>
      (FirstOfItsId(ms[..|ms| - 1], i) <==> FirstOfItsId(ms, i))
  {
  }

  /** Deduplication keeps exactly the first record of each id, in list
   *  order: `p` gives, for each kept record, its strictly increasing
   *  position in `ms`, every such position is a first occurrence, and every
   *  first occurrence is kept. */
  lemma {:induction false} FirstSeenPositions(ms: seq<Member>) returns (p: seq<int>)
    ensures |p| == |FirstSeen(ms)|
    ensures forall k :: 0 <= k < |p| ==>
      0 <= p[k] < |ms| && FirstSeen(ms)[k] == ms[p[k]] && FirstOfItsId(ms, p[k])
    ensures forall k, l :: 0 <= k < l < |p| ==> p[k] < p[l]
    ensures forall i :: 0 <= i < |ms| && FirstOfItsId(ms, i) ==> i in p
  {
    if ms == [] {
      return [];
    }
    var init := ms[..|ms| - 1];
    var last := ms[|ms| - 1];
    var q := FirstSeenPositions(init);
    FirstOfItsIdInit(ms);
    var fs0 := FirstSeen(init);
    if last.id in Ids(init) {
      assert FirstSeen(ms) == fs0;
      var j := IdFrom(init, last.id);
      assert !FirstOfItsId(ms, |ms| - 1);
      p := q;
    } else {
      assert FirstSeen(ms) == fs0 + [last];
      forall j | 0 <= j < |ms| - 1
        ensures ms[j].id != last.id
      {
        IdOf(init, j);
      }
      assert FirstOfItsId(ms, |ms| - 1);
      p := q + [|ms| - 1];
    }
  }

  /** An id no record carries is not among the ids. */
  lemma {:induction false} IdAbsent(ms: seq<Member>, id: UserId)
    requires forall k :: 0 <= k < |ms| ==> ms[k].id != id
    ensures id !in Ids(ms)
  {
    if ms != [] {
      IdAbsent(ms[..|ms| - 1], id);
    }
  }

  /** Appending a record adds its id. */
  lemma IdsSnoc(ms: seq<Member>, m: Member)
    ensures Ids(ms + [m]) == Ids(ms) + {m.id}
  {
    assert (ms + [m])[..|ms|] == ms;
  }

  /** In a list with distinct ids, the last id is not among the earlier ones. */
  lemma LastIdIsNew(ms: seq<Member>)
    requires ms != [] && DistinctIds(ms)
    ensures ms[|ms| - 1].id !in Ids(ms[..|ms| - 1])
  {
    IdAbsent(ms[..|ms| - 1], ms[|ms| - 1].id);
  }

  /** A list with distinct ids has as many records as ids. */
  lemma {:induction false} DistinctCount(ms: seq<Member>)
    requires DistinctIds(ms)
    ensures |Ids(ms)| == |ms|
  {
    if ms != [] {
      var init := ms[..|ms| - 1];
      assert DistinctIds(init);
      DistinctCount(init);
      LastIdIsNew(ms);
    }
  }

  /** The distinct members are as many as the distinct ids. */
  lemma FirstSeenCount(ms: seq<Member>)
    ensures |FirstSeen(ms)| == |Ids(ms)|
  {
    FirstSeenDistinct(ms);
    FirstSeenIds(ms);
    DistinctCount(FirstSeen(ms));
  }

  /** `{user['user_id']: user['personality_type'] for user in typed_users}`:
   *  one entry per id, the last row winning. */
  function TypedIndex(users: seq<TypedUser>): map<UserId, string> {
    if users == [] then map[]
    else
      var last := users[|users| - 1];
      TypedIndex(users[..|users| - 1])[last.userId := last.personalityType]
  }

  /** The index has an entry for each id among the rows, holding the type of
   *  the last row with that id. */
  lemma {:induction false} TypedIndexSpec(users: seq<TypedUser>)
    ensures TypedIndex(users).Keys == set u | u in users :: u.userId
    ensures forall i :: 0 <= i < |users| && (forall j :: i < j < |users| ==> users[j].userId != users[i].userId) ==>
      TypedIndex(users)[users[i].userId] == users[i].personalityType
  {
    if users != [] {
      var init := users[..|users| - 1];
      TypedIndexSpec(init);
      assert users == init + [users[|users| - 1]];
    }
  }

  /** The members that have a type, in order. */
  function TypedOf(ms: seq<Member>, index: map<UserId, string>): (ts: seq<Member>)
    ensures |ts| <= |ms|
  {
    if ms == [] then []
    else
      var last := ms[|ms| - 1];
      TypedOf(ms[..|ms| - 1], index) + (if last.id in index then [last] else [])
  }

  /** Appending a member appends it to the typed ones when it has an entry. */
  lemma TypedOfSnoc(ms: seq<Member>, m: Member, index: map<UserId, string>)
    ensures TypedOf(ms + [m], index) == TypedOf(ms, index) + (if m.id in index then [m] else [])
  {
    assert (ms + [m])[..|ms|] == ms;
  }

  /** The typed members are exactly the members with an entry. */
  lemma {:induction false} TypedOfMembers(ms: seq<Member>, index: map<UserId, string>)
    ensures forall m :: m in TypedOf(ms, index) <==> m in ms && m.id in index
  {
    if ms != [] {
      TypedOfMembers(ms[..|ms| - 1], index);
      assert ms == ms[..|ms| - 1] + [ms[|ms| - 1]];
    }
  }

  /** The ids of the typed members are the members' ids that have an entry. */
  lemma {:induction false} TypedOfIds(ms: seq<Member>, index: map<UserId, string>)
    ensures Ids(TypedOf(ms, index)) == Ids(ms) * index.Keys
  {
    if ms != [] {
      var init := ms[..|ms| - 1];
      var last := ms[|ms| - 1];
      TypedOfIds(init, index);
      if last.id in index {
        assert TypedOf(ms, index) == TypedOf(init, index) + [last];
        IdsSnoc(TypedOf(init, index), last);
      } else {
        assert TypedOf(ms, index) == TypedOf(init, index);
      }
    }
  }

  /** Filtering keeps ids distinct. */
  lemma {:induction false} TypedOfDistinct(ms: seq<Member>, index: map<UserId, string>)
    requires DistinctIds(ms)
    ensures DistinctIds(TypedOf(ms, index))
  {
    if ms != [] {
      var init := ms[..|ms| - 1];
      var last := ms[|ms| - 1];
      assert DistinctIds(init);
      TypedOfDistinct(init, index);
      if last.id in index {
        var prev := TypedOf(init, index);
        var ts := prev + [last];
        LastIdIsNew(ms);
        TypedOfIds(init, index);
        forall i, j | 0 <= i < j < |ts|
          ensures ts[i].id != ts[j].id
        {
          if j == |ts| - 1 {
            IdOf(prev, i);
          }
        }
      }
    }
  }

  /** The name shown for a member: `@username` when the username is set and
   *  non-empty, otherwise the first name. */
  function DisplayName(m: Member): string {
    if m.username.Some? && m.username.value != "" then "@" + m.username.value else m.firstName
  }

  /** `f"• {username}: {personality_type}"`. */
  function EntryLine(m: Member, personalityType: string): string {
    "• " + DisplayName(m) + ": " + personalityType
  }

  /** One line per member that has a type, in order. */
  function Entries(ms: seq<Member>, index: map<UserId, string>): seq<string> {
    if ms == [] then []
    else
      var last := ms[|ms| - 1];
      Entries(ms[..|ms| - 1], index) + (if last.id in index then [EntryLine(last, index[last.id])] else [])
  }

  /** Appending a member appends its line when it has an entry. */
  lemma EntriesSnoc(ms: seq<Member>, m: Member, index: map<UserId, string>)
    ensures Entries(ms + [m], index) ==
      Entries(ms, index) + (if m.id in index then [EntryLine(m, index[m.id])] else [])
  {
    assert (ms + [m])[..|ms|] == ms;
  }

  /** Line `k` is the entry of the `k`-th typed member, with its type. */
  lemma {:induction false} EntriesSpec(ms: seq<Member>, index: map<UserId, string>)
    ensures |Entries(ms, index)| == |TypedOf(ms, index)|
    ensures forall k :: 0 <= k < |TypedOf(ms, index)| ==>
      TypedOf(ms, index)[k].id in index &&
      Entries(ms, index)[k] == EntryLine(TypedOf(ms, index)[k], index[TypedOf(ms, index)[k].id])
  {
    if ms != [] {
      EntriesSpec(ms[..|ms| - 1], index);
    }
  }

  /** One more member: deduplication keeps it iff its id is new, and then it
   *  is counted and listed iff it has an entry. */
  lemma CoverageSnoc(prefix: seq<Member>, member: Member, index: map<UserId, string>)
    ensures member.id in Ids(prefix) ==> FirstSeen(prefix + [member]) == FirstSeen(prefix)
    ensures member.id !in Ids(prefix) ==>
      && TypedOf(FirstSeen(prefix + [member]), index) ==
           TypedOf(FirstSeen(prefix), index) + (if member.id in index then [member] else [])
      && Entries(FirstSeen(prefix + [member]), index) ==
           Entries(FirstSeen(prefix), index) + (if member.id in index then [EntryLine(member, index[member.id])] else [])
  {
    assert (prefix + [member])[..|prefix|] == prefix;
    TypedOfSnoc(FirstSeen(prefix), member, index);
    EntriesSnoc(FirstSeen(prefix), member, index);
  }

  /** The same step, at position `i` of the member list. */
  lemma CoverageStep(members: seq<Member>, i: nat, index: map<UserId, string>)
    requires i < |members|
    ensures Ids(members[..i + 1]) == Ids(members[..i]) + {members[i].id}
    ensures members[i].id in Ids(members[..i]) ==>
      FirstSeen(members[..i + 1]) == FirstSeen(members[..i])
    ensures members[i].id !in Ids(members[..i]) ==>
      && TypedOf(FirstSeen(members[..i + 1]), index) ==
           TypedOf(FirstSeen(members[..i]), index) + (if members[i].id in index then [members[i]] else [])
      && Entries(FirstSeen(members[..i + 1]), index) ==
           Entries(FirstSeen(members[..i]), index) +
           (if members[i].id in index then [EntryLine(members[i], index[members[i].id])] else [])
  {
    assert members[..i + 1] == members[..i] + [members[i]];
    IdsSnoc(members[..i], members[i]);
    CoverageSnoc(members[..i], members[i], index);
  }

  /** The counts the loop leaves equal the distinct ids and their typed part. */
  lemma CoverageCounts(members: seq<Member>, index: map<UserId, string>)
    ensures |FirstSeen(members)| == |Ids(members)|
    ensures |TypedOf(FirstSeen(members), index)| == |Ids(members) * index.Keys|
    ensures |Entries(FirstSeen(members), index)| == |TypedOf(FirstSeen(members), index)|
  {
    var distinct := FirstSeen(members);
    FirstSeenCount(members);
    FirstSeenIds(members);
    FirstSeenDistinct(members);
    TypedOfIds(distinct, index);
    TypedOfDistinct(distinct, index);
    DistinctCount(TypedOf(distinct, index));
    EntriesSpec(distinct, index);
  }

  /** The loop of `cmd_report`: each id once, counting and listing the typed
   *  ones.  `total` is the number of distinct ids, `typed` the number of
   *  those with an entry, and there is one line per typed member. */
  method Coverage(members: seq<Member>, index: map<UserId, string>)
    returns (total: nat, typed: nat, info: seq<string>)
    ensures total == |Ids(members)|
    ensures typed == |Ids(members) * index.Keys|
    ensures info == Entries(FirstSeen(members), index)
    ensures |info| == typed <= total
  {
    typed := 0;
    info := [];
    var seen: set<UserId> := {};
    var i := 0;
    while i < |members|
      invariant 0 <= i <= |members|
      invariant seen == Ids(members[..i])
      invariant info == Entries(FirstSeen(members[..i]), index)
      invariant typed == |TypedOf(FirstSeen(members[..i]), index)|
    {
      var member := members[i];
      CoverageStep(members, i, index);
      if member.id in seen {
        i := i + 1;
        continue;
      }
      seen := seen + {member.id};
      if member.id in index {
        typed := typed + 1;
        info := info + [EntryLine(member, index[member.id])];
      }
      i := i + 1;
    }
    assert members[..i] == members;
    total := |seen|;
    CoverageCounts(members, index);
  }

  /** `(typed / total) * 100 >= 70`, stated exactly in integers. */
  predicate Proceeds(typed: nat, total: nat) {
    typed * 100 >= Threshold * total
  }

  /** Multiplying by a positive number keeps a comparison. */
  lemma ScaleKeepsOrder(a: real, b: real, n: real)
    requires n > 0.0
    ensures a >= b <==> a * n >= b * n
  {
    if a >= b {
      assert (a - b) * n >= 0.0;
    } else {
      assert (b - a) * n > 0.0;
    }
  }

  /** The integer gate read over the reals. */
  lemma GateOverReals(typed: nat, total: nat)
    ensures Proceeds(typed, total) <==> typed as real * 100.0 >= 70.0 * total as real
  {
    assert (typed * 100) as real == typed as real * 100.0;
    assert (Threshold * total) as real == 70.0 * total as real;
  }

  /** A quotient times its divisor gives the dividend back. */
  lemma QuotientTimesDivisor(t: real, n: real)
    requires n > 0.0
    ensures (t / n) * 100.0 * n == t * 100.0
  {
    var p := t / n;
    assert p * n == t;
    assert p * 100.0 * n == (p * n) * 100.0;
  }

  /** For a non-empty group the integer gate is the percentage comparison
   *  over exact fractions; exactly 70% proceeds. */
  lemma GateIsPercentage(typed: nat, total: nat)
    requires total > 0
    ensures Proceeds(typed, total) <==> (typed as real / total as real) * 100.0 >= Threshold as real
  {
    var n := total as real;
    GateOverReals(typed, total);
    QuotientTimesDivisor(typed as real, n);
    ScaleKeepsOrder((typed as real / n) * 100.0, 70.0, n);
  }

  /** What `/report` ends with. */
  datatype ReportOutcome =
    | BotCheckFailed
    | BotNotAdmin
    | NoMembers
    | Failed                // a call inside the `try` raised
    | NoParticipants
    | InsufficientCoverage(total: nat, typed: nat, info: seq<string>)
    | ReadyForAnalysis(total: nat, typed: nat, info: seq<string>)

  /** `cmd_report` up to the analysis: the bot check, the members, the
   *  coverage, the statistics message and the 70% gate.  `statsSent` says
   *  whether sending the statistics message succeeded; it is sent before
   *  the gate, and a failure ends the report in the `except` branch. */
  method CmdReport(botStatus: Option<string>, admins: Option<seq<Member>>,
                   typedUsers: Option<seq<TypedUser>>, statsSent: bool)
    returns (outcome: ReportOutcome)
    ensures botStatus.None? ==> outcome == BotCheckFailed
    ensures botStatus.Some? && !BotIsAdmin(botStatus.value) ==> outcome == BotNotAdmin
    ensures botStatus.Some? && BotIsAdmin(botStatus.value) ==>
      var members := if admins.Some? then Humans(admins.value) else [];
      && (members == [] ==> outcome == NoMembers)
      && (members != [] && typedUsers.None? ==> outcome == Failed)
      && (members != [] && typedUsers.Some? ==>
            var index := TypedIndex(typedUsers.value);
            var total := |Ids(members)|;
            var typed := |Ids(members) * index.Keys|;
            var info := Entries(FirstSeen(members), index);
            && (!statsSent ==> outcome == Failed)
            && (statsSent ==>
                  outcome == if Proceeds(typed, total) then ReadyForAnalysis(total, typed, info)
                             else InsufficientCoverage(total, typed, info)))
  {
    if botStatus.None? {
      return BotCheckFailed;
    }
    if !(botStatus.value == "administrator" || botStatus.value == "creator") {
      return BotNotAdmin;
    }
    var members := NonBotAdmins(admins);
    if members == [] {
      return NoMembers;
    }
    if typedUsers.None? {
      return Failed;
    }
    var index := TypedIndex(typedUsers.value);
    var total, typed, info := Coverage(members, index);
    if total == 0 {
      IdsNonEmpty(members);
      assert false;
      return NoParticipants;
    }
    if !statsSent {
      return Failed;
    }
    if typed * 100 < Threshold * total {
      return InsufficientCoverage(total, typed, info);
    }
    outcome := ReadyForAnalysis(total, typed, info);
  }
}
