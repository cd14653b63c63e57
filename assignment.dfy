/** The ticket auto-assignment service (`src/lib/ticketAssignment.ts`): agent workloads, the
    availability classifier, the four agent-selection strategies, rule selection and the statistics.
    Database reads become parameters: the last assignment, team memberships, and what the database
    returns for an agent when its workload is recalculated. */
module TicketAssignment {
  import opened Wrappers
  import opened Documents
  import opened Sorting
  import Tally

  // ---------------------------------------------------------------------------------------------
  // Entities

  datatype Availability = Available | Busy | Offline

  /** An agent's workload. The source keeps `averageResolutionTime` as a floating-point quotient;
      here its numerator and denominator are kept instead. */
  datatype AgentWorkload = AgentWorkload(
    userId: string,
    email: string,
    displayName: string,
    activeTickets: nat,
    totalTickets: nat,
    resolutionTimeTotal: int,
    resolvedTickets: nat,
    expertise: seq<string>,
    availability: Availability,
    lastActivity: int,
    rating: int)

  datatype RuleType = RoundRobin | LeastBusy | Expertise | SpecificUser | Team | UnknownRuleType(name: string)

  datatype AssignmentRule = AssignmentRule(
    id: string,
    name: string,
    ruleType: RuleType,
    conditions: seq<Condition>,
    priority: int,
    isActive: bool,
    targetUsers: Option<seq<string>>,
    targetTeam: Option<string>,
    expertise: Option<seq<string>>,
    maxWorkload: Option<int>)

  /** A document of the `teamMembers` collection. */
  datatype TeamMember = TeamMember(teamId: string, userId: string)

  /** A document of the `ticketAssignments` collection. */
  datatype AssignmentRecord = AssignmentRecord(
    ticketId: Value,
    assignedTo: Value,
    assignedBy: string,
    assignmentType: string,
    reason: string,
    assignedAt: int,
    priority: Value)

  /** The fields of a `users` document the workload calculation reads; times are milliseconds. */
  datatype UserDoc = UserDoc(
    email: Option<string>,
    displayName: Option<string>,
    expertise: Option<seq<string>>,
    lastActivity: Option<int>,
    activeTickets: Option<int>,
    rating: Option<int>)

  /** The fields of a ticket assigned to an agent that the workload calculation reads. */
  datatype AgentTicket = AgentTicket(status: string, resolvedAt: Option<int>, assignedAt: Option<int>)

  const OfflineAfterMs: int := 30 * 60 * 1000
  const BusyAbove: int := 5

  // ---------------------------------------------------------------------------------------------
  // Availability and workload

  /** `determineAvailability(userData)` at time `now`. It reads the user document, whose
      `activeTickets` field is usually absent, so an agent is then never classified busy. */
  function DetermineAvailability(user: Option<UserDoc>, now: int): (a: Availability)
    ensures a == Offline <==>
      user.None? || user.value.lastActivity.None? || now - user.value.lastActivity.value > OfflineAfterMs
    ensures a == Busy <==>
      a != Offline && user.value.activeTickets.Some? && user.value.activeTickets.value > BusyAbove
  {
    if user.None? || user.value.lastActivity.None? then Offline
    else if now - user.value.lastActivity.value > OfflineAfterMs then Offline
    else if user.value.activeTickets.Some? && user.value.activeTickets.value > BusyAbove then Busy
    else Available
  }

  predicate IsActiveStatus(status: string) {
    status in ["new", "in_progress", "waiting"]
  }

  predicate IsResolvedWithTimes(t: AgentTicket) {
    t.status == "resolved" && t.resolvedAt.Some? && t.assignedAt.Some?
  }

  /** The size of the query for the agent's tickets in an active status. */
  function CountActive(ts: seq<AgentTicket>): (n: nat)
    ensures n <= |ts|
  {
    if ts == [] then 0 else CountActive(ts[..|ts| - 1]) + (if IsActiveStatus(ts[|ts| - 1].status) then 1 else 0)
  }

  /** How many tickets count towards the average resolution time. */
  function ResolvedCount(ts: seq<AgentTicket>): (n: nat)
    ensures n <= |ts|
  {
    if ts == [] then 0 else ResolvedCount(ts[..|ts| - 1]) + (if IsResolvedWithTimes(ts[|ts| - 1]) then 1 else 0)
  }

  /** The sum of `resolvedAt - assignedAt` over those tickets. */
  function ResolutionTimeSum(ts: seq<AgentTicket>): int {
    if ts == [] then 0
    else
      var t := ts[|ts| - 1];
      ResolutionTimeSum(ts[..|ts| - 1]) + (if IsResolvedWithTimes(t) then t.resolvedAt.value - t.assignedAt.value else 0)
  }

  /** A ticket is never both in an active status and resolved, so the two counts fit in the total. */
  lemma {:induction false} ActiveAndResolvedFitInTotal(ts: seq<AgentTicket>)
    ensures CountActive(ts) + ResolvedCount(ts) <= |ts|
  {
    if ts != [] {
      ActiveAndResolvedFitInTotal(ts[..|ts| - 1]);
    }
  }

  /** The workload `calculateAgentWorkload` builds: counts and sums over the agent's tickets, the
      availability, and the user document's fields with their defaults (`''`, `[]`, now, 0). */
  function WorkloadOf(userId: string, tickets: seq<AgentTicket>, user: Option<UserDoc>, now: int): AgentWorkload {
    AgentWorkload(
      userId,
      if user.Some? then user.value.email.GetOr("") else "",
      if user.Some? then user.value.displayName.GetOr("") else "",
      CountActive(tickets), |tickets|, ResolutionTimeSum(tickets), ResolvedCount(tickets),
      if user.Some? then user.value.expertise.GetOr([]) else [],
      DetermineAvailability(user, now),
      if user.Some? then user.value.lastActivity.GetOr(now) else now,
      if user.Some? then user.value.rating.GetOr(0) else 0)
  }

  /** `calculateAgentWorkload(userId)`, given the agent's tickets and user document. */
  method CalculateAgentWorkload(userId: string, tickets: seq<AgentTicket>, user: Option<UserDoc>, now: int)
    returns (w: AgentWorkload)
    ensures w == WorkloadOf(userId, tickets, user, now)
    ensures w.userId == userId
    ensures w.activeTickets == CountActive(tickets) && w.totalTickets == |tickets|
    ensures w.resolvedTickets == ResolvedCount(tickets) && w.resolutionTimeTotal == ResolutionTimeSum(tickets)
    ensures w.resolvedTickets <= w.totalTickets
    ensures w.availability == DetermineAvailability(user, now)
    ensures w.email == (if user.Some? then user.value.email.GetOr("") else "")
    ensures w.displayName == (if user.Some? then user.value.displayName.GetOr("") else "")
    ensures w.expertise == (if user.Some? then user.value.expertise.GetOr([]) else [])
    ensures w.lastActivity == (if user.Some? then user.value.lastActivity.GetOr(now) else now)
    ensures w.rating == (if user.Some? then user.value.rating.GetOr(0) else 0)
  {
    var totalResolutionTime := 0;
    var resolvedTickets := 0;
    for i := 0 to |tickets|
      invariant totalResolutionTime == ResolutionTimeSum(tickets[..i])
      invariant resolvedTickets == ResolvedCount(tickets[..i])
    {
      assert tickets[..i + 1][..i] == tickets[..i];
      var t := tickets[i];
      if t.status == "resolved" && t.resolvedAt.Some? && t.assignedAt.Some? {
        totalResolutionTime := totalResolutionTime + (t.resolvedAt.value - t.assignedAt.value);
        resolvedTickets := resolvedTickets + 1;
      }
    }
    assert tickets[..|tickets|] == tickets;
    var email, displayName, expertise, lastActivity, rating := "", "", [], now, 0;
    if user.Some? {
      email := user.value.email.GetOr("");
      displayName := user.value.displayName.GetOr("");
      expertise := user.value.expertise.GetOr([]);
      lastActivity := user.value.lastActivity.GetOr(now);
      rating := user.value.rating.GetOr(0);
    }
    w := AgentWorkload(userId, email, displayName, CountActive(tickets), |tickets|,
                       totalResolutionTime, resolvedTickets, expertise,
                       DetermineAvailability(user, now), lastActivity, rating);
  }

  // ---------------------------------------------------------------------------------------------
  // The workload map: a `Map<string, AgentWorkload>` keyed by user id, in insertion order

  ghost predicate UniqueIds(ws: seq<AgentWorkload>) {
    forall i, j :: 0 <= i < j < |ws| ==> ws[i].userId != ws[j].userId
  }

  /** `Array.from(agentWorkloads.keys())`. */
  function Ids(ws: seq<AgentWorkload>): (ids: seq<string>)
    ensures |ids| == |ws| && forall i :: 0 <= i < |ws| ==> ids[i] == ws[i].userId
  {
    if ws == [] then [] else [ws[0].userId] + Ids(ws[1..])
  }

  /** `agentWorkloads.get(id)`. */
  function Lookup(ws: seq<AgentWorkload>, id: string): (r: Option<AgentWorkload>)
    ensures r.Some? <==> id in Ids(ws)
    ensures r.Some? ==> r.value in ws && r.value.userId == id
  {
    if ws == [] then None else if ws[0].userId == id then Some(ws[0]) else Lookup(ws[1..], id)
  }

  lemma {:induction false} LookupUnique(ws: seq<AgentWorkload>, k: nat)
    requires UniqueIds(ws) && k < |ws|
    ensures Lookup(ws, ws[k].userId) == Some(ws[k])
  {
    if k > 0 {
      LookupUnique(ws[1..], k - 1);
    }
  }

  /** `agentWorkloads.set(w.userId, w)`: an existing key keeps its place, a new key goes last. */
  function Upsert(ws: seq<AgentWorkload>, w: AgentWorkload): (r: seq<AgentWorkload>)
    ensures Ids(r) == if w.userId in Ids(ws) then Ids(ws) else Ids(ws) + [w.userId]
  {
    if ws == [] then [w]
    else if ws[0].userId == w.userId then
      var r := [w] + ws[1..];
      assert r[1..] == ws[1..];
      r
    else
      var r := [ws[0]] + Upsert(ws[1..], w);
      assert r[1..] == Upsert(ws[1..], w);
      r
  }

  /** After the update the key maps to the new workload and every other key is unaffected. */
  lemma {:induction false} UpsertLookup(ws: seq<AgentWorkload>, w: AgentWorkload, id: string)
    ensures Lookup(Upsert(ws, w), w.userId) == Some(w)
    ensures id != w.userId ==> Lookup(Upsert(ws, w), id) == Lookup(ws, id)
  {
    if ws != [] && ws[0].userId != w.userId {
      UpsertLookup(ws[1..], w, id);
      assert ([ws[0]] + Upsert(ws[1..], w))[1..] == Upsert(ws[1..], w);
    } else if ws != [] {
      assert ([w] + ws[1..])[1..] == ws[1..];
    }
  }

  lemma UpsertKeepsUnique(ws: seq<AgentWorkload>, w: AgentWorkload)
    requires UniqueIds(ws)
    ensures UniqueIds(Upsert(ws, w))
  {
    var r := Upsert(ws, w);
    var ids, ids' := Ids(ws), Ids(r);
    assert forall i :: 0 <= i < |r| ==> ids'[i] == r[i].userId;
    assert forall i :: 0 <= i < |ws| ==> ids[i] == ws[i].userId;
  }

  predicate NotOffline(w: AgentWorkload) {
    w.availability != Offline
  }

  // ---------------------------------------------------------------------------------------------
  // Round robin

  /** `users.filter(id => get(id) && get(id).availability !== 'offline')`. */
  function RoundRobinPool(ws: seq<AgentWorkload>, ids: seq<string>): (pool: seq<string>)
    ensures |pool| <= |ids|
    ensures forall id :: id in pool <==> id in ids && Lookup(ws, id).Some? && NotOffline(Lookup(ws, id).value)
  {
    if ids == [] then []
    else
      var rest := RoundRobinPool(ws, ids[1..]);
      assert forall id :: id in ids <==> id == ids[0] || id in ids[1..];
      if Lookup(ws, ids[0]).Some? && NotOffline(Lookup(ws, ids[0]).value) then [ids[0]] + rest else rest
  }

  /** `xs.indexOf(x)`. */
  function IndexOf(xs: seq<string>, x: string): (r: int)
    ensures -1 <= r < |xs|
    ensures r == -1 <==> x !in xs
    ensures r >= 0 ==> xs[r] == x && x !in xs[..r]
  {
    if xs == [] then -1
    else if xs[0] == x then 0
    else
      var r := IndexOf(xs[1..], x);
      assert r >= 0 ==> xs[..r + 1] == [xs[0]] + xs[1..][..r];
      if r == -1 then -1 else r + 1
  }

  lemma IndexOfFirst(xs: seq<string>, x: string, i: nat)
    requires i < |xs| && xs[i] == x && x !in xs[..i]
    ensures IndexOf(xs, x) == i
  {
    assert xs[i] in xs;
  }

  /** The round-robin step over the online candidates: the candidate after the first occurrence of
      `last`, wrapping around; `indexOf` gives -1 for somebody who is not a candidate, so the first
      candidate then. */
  function RoundRobinNext(pool: seq<string>, last: Option<string>): (r: Option<string>)
    ensures r.None? <==> pool == []
    ensures r.Some? ==> r.value in pool
  {
    if |pool| == 0 then None
    else
      var next := if last.None? then 0 else (IndexOf(pool, last.value) + 1) % |pool|;
      assert pool[next] in pool;
      Some(pool[next])
  }

  /** `roundRobinAssignment(targetUsers)`, `last` being whom the latest assignment went to.
      It yields nobody exactly when no candidate is online, and otherwise an online candidate. */
  function RoundRobinAssignment(ws: seq<AgentWorkload>, targetUsers: Option<seq<string>>, last: Option<string>)
    : (r: Option<string>)
    ensures r.None? <==> RoundRobinPool(ws, targetUsers.GetOr(Ids(ws))) == []
    ensures r.Some? ==> r.value in RoundRobinPool(ws, targetUsers.GetOr(Ids(ws)))
    ensures r.Some? ==> Lookup(ws, r.value).Some? && NotOffline(Lookup(ws, r.value).value)
  {
    RoundRobinNext(RoundRobinPool(ws, targetUsers.GetOr(Ids(ws))), last)
  }

  /** Round robin starts from the first candidate when the last assignee is not a candidate. */
  lemma RoundRobinStarts(pool: seq<string>, last: Option<string>)
    requires pool != [] && (last.None? || last.value !in pool)
    ensures RoundRobinNext(pool, last) == Some(pool[0])
  {
    if last.Some? {
      assert IndexOf(pool, last.value) == -1;
    }
  }

  /** Otherwise it yields the candidate after the last assignee, wrapping around. */
  lemma RoundRobinRotates(pool: seq<string>, last: Option<string>, i: nat)
    requires i < |pool| && last == Some(pool[i]) && pool[i] !in pool[..i]
    ensures RoundRobinNext(pool, last) == Some(pool[(i + 1) % |pool|])
  {
    IndexOfFirst(pool, pool[i], i);
  }

  // ---------------------------------------------------------------------------------------------
  // Least busy

  /** `maxWorkload && workload.activeTickets >= maxWorkload`. */
  predicate OverCap(w: AgentWorkload, cap: Option<int>) {
    cap.Some? && cap.value != 0 && w.activeTickets >= cap.value
  }

  predicate EligibleForLeastBusy(w: AgentWorkload, cap: Option<int>) {
    NotOffline(w) && !OverCap(w, cap)
  }

  /** `users.map(id => get(id)).filter(...)`. */
  function LeastBusyPool(ws: seq<AgentWorkload>, ids: seq<string>, cap: Option<int>): (pool: seq<AgentWorkload>)
    ensures forall w :: w in pool ==> EligibleForLeastBusy(w, cap) && w.userId in ids && Lookup(ws, w.userId) == Some(w)
    ensures forall id :: id in ids && Lookup(ws, id).Some? && EligibleForLeastBusy(Lookup(ws, id).value, cap) ==>
              Lookup(ws, id).value in pool
  {
    if ids == [] then []
    else
      var rest := LeastBusyPool(ws, ids[1..], cap);
      var w := Lookup(ws, ids[0]);
      if w.Some? && EligibleForLeastBusy(w.value, cap) then [w.value] + rest else rest
  }

  predicate FewerTickets(a: AgentWorkload, b: AgentWorkload) {
    a.activeTickets < b.activeTickets
  }

  lemma FewerTicketsIsStrictWeakOrder()
    ensures StrictWeakOrder(FewerTickets)
  {
  }

  /** `leastBusyAssignment(targetUsers, maxWorkload)`. */
  function LeastBusyAssignment(ws: seq<AgentWorkload>, targetUsers: Option<seq<string>>, cap: Option<int>)
    : Option<string>
  {
    var sorted := SortBy(LeastBusyPool(ws, targetUsers.GetOr(Ids(ws)), cap), FewerTickets);
    if |sorted| > 0 then Some(sorted[0].userId) else None
  }

  /** Least busy picks an agent of the pool, the first in candidate order with the fewest active
      tickets; it is never offline and, with a non-zero cap, below the cap. */
  lemma LeastBusyChoice(ws: seq<AgentWorkload>, targetUsers: Option<seq<string>>, cap: Option<int>)
    returns (k: nat)
    ensures var pool := LeastBusyPool(ws, targetUsers.GetOr(Ids(ws)), cap);
      && (LeastBusyAssignment(ws, targetUsers, cap).None? <==> pool == [])
      && (pool != [] ==>
            && k < |pool|
            && LeastBusyAssignment(ws, targetUsers, cap) == Some(pool[k].userId)
            && (forall j :: 0 <= j < |pool| ==> pool[k].activeTickets <= pool[j].activeTickets)
            && (forall j :: 0 <= j < k ==> pool[j].activeTickets > pool[k].activeTickets))
  {
    var pool := LeastBusyPool(ws, targetUsers.GetOr(Ids(ws)), cap);
    k := 0;
    if pool != [] {
      FewerTicketsIsStrictWeakOrder();
      k := SortByHead(pool, FewerTickets);
      forall j | 0 <= j < k ensures pool[j].activeTickets > pool[k].activeTickets {
        assert !IsLeast(pool, j, FewerTickets);
      }
    }
  }

  /** Whatever least busy returns is a known, not offline agent under the cap. */
  lemma LeastBusyRespectsCap(ws: seq<AgentWorkload>, targetUsers: Option<seq<string>>, cap: Option<int>)
    ensures var r := LeastBusyAssignment(ws, targetUsers, cap);
      r.Some? ==> && Lookup(ws, r.value).Some?
                  && NotOffline(Lookup(ws, r.value).value)
                  && (cap.Some? && cap.value != 0 ==> Lookup(ws, r.value).value.activeTickets < cap.value)
                  && (targetUsers.Some? ==> r.value in targetUsers.value)
  {
    var pool := LeastBusyPool(ws, targetUsers.GetOr(Ids(ws)), cap);
    var k := LeastBusyChoice(ws, targetUsers, cap);
    if pool != [] {
      assert pool[k] in pool;
    }
  }

  // ---------------------------------------------------------------------------------------------
  // Expertise

  /** `requiredExpertise || [category]`: the skills the rule asks for, or the ticket's category
      alone when it names none. */
  function RequiredExpertise(category: Value, required: Option<seq<string>>): (exp: seq<Value>)
    ensures required.Some? ==> |exp| == |required.value| && forall i :: 0 <= i < |exp| ==> exp[i] == Str(required.value[i])
    ensures required.None? ==> exp == [category]
    ensures forall e :: e in exp <==> if required.Some? then e.Str? && e.s in required.value else e == category
  {
    match required
    case Some(r) => seq(|r|, i requires 0 <= i < |r| => Str(r[i]))
    case None => [category]
  }

  /** `workload.expertise.includes(e)`. */
  predicate Knows(w: AgentWorkload, e: Value) {
    e.Str? && e.s in w.expertise
  }

  /** `expertise.filter(e => w.expertise.includes(e)).length`. */
  function MatchCount(exp: seq<Value>, w: AgentWorkload): (n: nat)
    ensures n <= |exp|
    ensures n > 0 <==> exists i :: 0 <= i < |exp| && Knows(w, exp[i])
  {
    if exp == [] then 0
    else
      var rest := MatchCount(exp[1..], w);
      assert forall i :: 1 <= i < |exp| ==> exp[i] == exp[1..][i - 1];
      (if Knows(w, exp[0]) then 1 else 0) + rest
  }

  predicate Qualified(exp: seq<Value>, w: AgentWorkload) {
    NotOffline(w) && MatchCount(exp, w) > 0
  }

  /** `Array.from(agentWorkloads.values()).filter(...)`. */
  function ExpertPool(ws: seq<AgentWorkload>, exp: seq<Value>): (pool: seq<AgentWorkload>)
    ensures forall w :: w in pool <==> w in ws && Qualified(exp, w)
  {
    if ws == [] then []
    else
      var rest := ExpertPool(ws[1..], exp);
      assert forall w :: w in ws <==> w == ws[0] || w in ws[1..];
      if Qualified(exp, ws[0]) then [ws[0]] + rest else rest
  }

  /** The expertise comparator: more matches first, then fewer active tickets. */
  predicate ExpertBefore(exp: seq<Value>, a: AgentWorkload, b: AgentWorkload) {
    var (ma, mb) := (MatchCount(exp, a), MatchCount(exp, b));
    ma > mb || (ma == mb && a.activeTickets < b.activeTickets)
  }

  /** The comparator as the order `sort` uses. */
  function ExpertOrder(exp: seq<Value>): (AgentWorkload, AgentWorkload) -> bool {
    (a, b) => ExpertBefore(exp, a, b)
  }

  lemma ExpertOrderIsStrictWeakOrder(exp: seq<Value>)
    ensures StrictWeakOrder(ExpertOrder(exp))
  {
  }

  /** `expertiseAssignment(category, requiredExpertise)`. */
  function ExpertiseAssignment(ws: seq<AgentWorkload>, category: Value, required: Option<seq<string>>)
    : Option<string>
  {
    var exp := RequiredExpertise(category, required);
    var sorted := SortBy(ExpertPool(ws, exp), ExpertOrder(exp));
    if |sorted| > 0 then Some(sorted[0].userId) else None
  }

  /** The head of the sorted pool has the most matches, and the fewest active tickets among those. */
  lemma ExpertHead(pool: seq<AgentWorkload>, exp: seq<Value>) returns (k: nat)
    requires pool != []
    ensures k < |pool| && SortBy(pool, ExpertOrder(exp))[0] == pool[k]
    ensures forall w :: w in pool ==>
      MatchCount(exp, w) <= MatchCount(exp, pool[k])
      && (MatchCount(exp, w) == MatchCount(exp, pool[k]) ==> pool[k].activeTickets <= w.activeTickets)
  {
    ExpertOrderIsStrictWeakOrder(exp);
    k := SortByHead(pool, ExpertOrder(exp));
    forall w | w in pool
      ensures MatchCount(exp, w) <= MatchCount(exp, pool[k])
      ensures MatchCount(exp, w) == MatchCount(exp, pool[k]) ==> pool[k].activeTickets <= w.activeTickets
    {
      var j :| 0 <= j < |pool| && pool[j] == w;
      assert !ExpertOrder(exp)(pool[j], pool[k]);
    }
  }

  /** Expertise assignment picks a known, not offline agent that has at least one of the required
      skills; no qualified agent has more matches, and none with as many has fewer active tickets. */
  lemma ExpertiseChoice(ws: seq<AgentWorkload>, category: Value, required: Option<seq<string>>)
    returns (best: AgentWorkload)
    ensures var exp := RequiredExpertise(category, required);
      var r := ExpertiseAssignment(ws, category, required);
      && (r.None? <==> forall w :: w in ws ==> !Qualified(exp, w))
      && (r.Some? ==>
            && r.value == best.userId && best in ws && NotOffline(best)
            && (exists i :: 0 <= i < |exp| && Knows(best, exp[i]))
            && (forall w :: w in ws && Qualified(exp, w) ==>
                  MatchCount(exp, w) <= MatchCount(exp, best)
                  && (MatchCount(exp, w) == MatchCount(exp, best) ==> best.activeTickets <= w.activeTickets)))
  {
    var exp := RequiredExpertise(category, required);
    var pool := ExpertPool(ws, exp);
    best := if ws == [] then AgentWorkload("", "", "", 0, 0, 0, 0, [], Offline, 0, 0) else ws[0];
    if pool == [] {
      assert forall w :: w in ws ==> !Qualified(exp, w);
    } else {
      var k := ExpertHead(pool, exp);
      best := pool[k];
      assert pool[k] in pool;
    }
  }

  // ---------------------------------------------------------------------------------------------
  // Specific user and team

  /** `rule.targetUsers?.[0] || null`. */
  function SpecificUserAssignment(targetUsers: Option<seq<string>>): (r: Option<string>)
    ensures r.Some? <==> targetUsers.Some? && |targetUsers.value| > 0 && targetUsers.value[0] != ""
    ensures r.Some? ==> r.value == targetUsers.value[0]
  {
    if targetUsers.Some? && |targetUsers.value| > 0 && targetUsers.value[0] != "" then Some(targetUsers.value[0])
    else None
  }

  /** The user ids of the `teamMembers` documents of a team, in query order. */
  function TeamMembers(members: seq<TeamMember>, teamId: string): (ids: seq<string>)
    ensures forall id :: id in ids <==> exists i :: 0 <= i < |members| && members[i] == TeamMember(teamId, id)
  {
    if members == [] then []
    else
      var rest := TeamMembers(members[1..], teamId);
      assert forall i :: 1 <= i < |members| ==> members[i] == members[1..][i - 1];
      if members[0].teamId == teamId then [members[0].userId] + rest else rest
  }

  /** `teamAssignment(teamId)`: least busy among the team's members, with no cap. */
  function TeamAssignment(ws: seq<AgentWorkload>, members: seq<TeamMember>, teamId: Option<string>)
    : (r: Option<string>)
    ensures teamId.None? || teamId.value == "" ==> r.None?
    ensures teamId.Some? && teamId.value != "" ==>
              r == LeastBusyAssignment(ws, Some(TeamMembers(members, teamId.value)), None)
  {
    if teamId.None? || teamId.value == "" then None
    else LeastBusyAssignment(ws, Some(TeamMembers(members, teamId.value)), None)
  }

  // ---------------------------------------------------------------------------------------------
  // Rules

  /** `executeAssignmentRule(rule, ticketData)`. */
  function ExecuteAssignmentRule(ws: seq<AgentWorkload>, rule: AssignmentRule, ticket: Doc,
                                 last: Option<string>, members: seq<TeamMember>): Option<string>
  {
    match rule.ruleType
    case RoundRobin => RoundRobinAssignment(ws, rule.targetUsers, last)
    case LeastBusy => LeastBusyAssignment(ws, rule.targetUsers, rule.maxWorkload)
    case Expertise => ExpertiseAssignment(ws, Field(ticket, "category"), rule.expertise)
    case SpecificUser => SpecificUserAssignment(rule.targetUsers)
    case Team => TeamAssignment(ws, members, rule.targetTeam)
    case UnknownRuleType(_) => None
  }

  /** A rule assigns the ticket: it applies, and its strategy yields a non-empty user id. */
  predicate Fires(ws: seq<AgentWorkload>, rule: AssignmentRule, ticket: Doc, last: Option<string>,
                  members: seq<TeamMember>)
  {
    && AllConditionsHold(ticket, rule.conditions)
    && var a := ExecuteAssignmentRule(ws, rule, ticket, last, members);
       a.Some? && a.value != ""
  }

  /** `rules.filter(rule => rule.isActive)`. */
  function ActiveRules(rules: seq<AssignmentRule>): (r: seq<AssignmentRule>)
    ensures forall x :: x in r <==> x in rules && x.isActive
    ensures multiset(r) <= multiset(rules)
  {
    if rules == [] then []
    else
      var rest := ActiveRules(rules[1..]);
      assert rules == [rules[0]] + rules[1..];
      if rules[0].isActive then [rules[0]] + rest else rest
  }

  predicate HigherPriority(a: AssignmentRule, b: AssignmentRule) {
    a.priority > b.priority
  }

  /** The order in which `autoAssignTicket` tries its rules. */
  function SortedRules(rules: seq<AssignmentRule>): seq<AssignmentRule> {
    SortBy(ActiveRules(rules), HigherPriority)
  }

  /** Only active rules are tried, each active rule once, in non-increasing priority. */
  lemma SortedRulesOrder(rules: seq<AssignmentRule>)
    ensures multiset(SortedRules(rules)) == multiset(ActiveRules(rules))
    ensures forall x :: x in SortedRules(rules) <==> x in rules && x.isActive
    ensures forall i, j :: 0 <= i < j < |SortedRules(rules)| ==>
              SortedRules(rules)[i].priority >= SortedRules(rules)[j].priority
  {
    assert StrictWeakOrder(HigherPriority);
    SortBySorted(ActiveRules(rules), HigherPriority);
    var s := SortedRules(rules);
    forall x ensures x in s <==> x in rules && x.isActive {
      assert x in s <==> x in multiset(s);
    }
  }

  /** The index of the first element of `xs` that satisfies `p`, if any. */
  function FirstWhere<T>(xs: seq<T>, p: T -> bool): (r: Option<nat>)
    ensures r.Some? ==> r.value < |xs| && p(xs[r.value])
    ensures r.Some? ==> forall j :: 0 <= j < r.value ==> !p(xs[j])
    ensures r.None? ==> forall j :: 0 <= j < |xs| ==> !p(xs[j])
  {
    if xs == [] then None
    else if p(xs[0]) then Some(0)
    else
      var rest := FirstWhere(xs[1..], p);
      assert forall j :: 1 <= j < |xs| ==> xs[j] == xs[1..][j - 1];
      if rest.None? then None else Some(rest.value + 1)
  }

  /** A loop that tries the elements in order and stops at the first that satisfies `p`. */
  method FindFirst<T>(xs: seq<T>, p: T -> bool) returns (first: Option<nat>)
    ensures first == FirstWhere(xs, p)
  {
    var i := 0;
    while i < |xs|
      invariant 0 <= i <= |xs|
      invariant forall j :: 0 <= j < i ==> !p(xs[j])
    {
      if p(xs[i]) {
        FirstWhereAt(xs, p, i);
        return Some(i);
      }
      i := i + 1;
    }
    FirstWhereAt(xs, p, i);
    return None;
  }

  /** The element found is the first one after a run of elements that do not satisfy `p`. */
  lemma {:induction false} FirstWhereAt<T>(xs: seq<T>, p: T -> bool, k: nat)
    requires k <= |xs|
    requires forall j :: 0 <= j < k ==> !p(xs[j])
    ensures k < |xs| && p(xs[k]) ==> FirstWhere(xs, p) == Some(k)
    ensures k == |xs| ==> FirstWhere(xs, p).None?
  {
    var r := FirstWhere(xs, p);
    if r.Some? {
      assert r.value >= k;
    }
  }

  /** `rule` assigns the ticket, as a predicate on rules. */
  function FiresFor(ws: seq<AgentWorkload>, ticket: Doc, last: Option<string>, members: seq<TeamMember>)
    : AssignmentRule -> bool
  {
    rule => Fires(ws, rule, ticket, last, members)
  }

  /** The index of the first rule of `rules` that fires, if any. */
  function FirstFiring(ws: seq<AgentWorkload>, rules: seq<AssignmentRule>, ticket: Doc, last: Option<string>,
                       members: seq<TeamMember>): (r: Option<nat>)
    ensures r.Some? ==> r.value < |rules| && Fires(ws, rules[r.value], ticket, last, members)
    ensures r.Some? ==> forall j :: 0 <= j < r.value ==> !Fires(ws, rules[j], ticket, last, members)
    ensures r.None? ==> forall j :: 0 <= j < |rules| ==> !Fires(ws, rules[j], ticket, last, members)
  {
    var r := FirstWhere(rules, FiresFor(ws, ticket, last, members));
    assert forall j :: 0 <= j < |rules| ==>
      FiresFor(ws, ticket, last, members)(rules[j]) == Fires(ws, rules[j], ticket, last, members);
    r
  }

  function RuleTypeName(t: RuleType): string {
    match t
    case RoundRobin => "round_robin"
    case LeastBusy => "least_busy"
    case Expertise => "expertise"
    case SpecificUser => "specific_user"
    case Team => "team"
    case UnknownRuleType(name) => name
  }

  /** The document `recordAssignment` adds to `ticketAssignments`. */
  function AssignmentRecordFor(ticket: Doc, agent: string, assignmentType: string, now: int): (a: AssignmentRecord)
    ensures a.ticketId == Field(ticket, "id") && a.assignedTo == Str(agent)
    ensures a.assignedBy == "system" && a.assignmentType == assignmentType && a.assignedAt == now
  {
    AssignmentRecord(Field(ticket, "id"), Str(agent), "system", assignmentType,
                     "Asignación automática por " + assignmentType, now, Str("medium"))
  }

  // ---------------------------------------------------------------------------------------------
  // Available agents and statistics

  function AvailablePool(ws: seq<AgentWorkload>): (pool: seq<AgentWorkload>)
    ensures forall w :: w in pool <==> w in ws && w.availability == Available
    ensures multiset(pool) <= multiset(ws)
  {
    if ws == [] then []
    else
      var rest := AvailablePool(ws[1..]);
      assert ws == [ws[0]] + ws[1..];
      if ws[0].availability == Available then [ws[0]] + rest else rest
  }

  /** `getAvailableAgents()`: the available agents, fewest active tickets first. */
  function AvailableAgents(ws: seq<AgentWorkload>): (r: seq<AgentWorkload>)
    ensures forall w :: w in r <==> w in ws && w.availability == Available
    ensures multiset(r) == multiset(AvailablePool(ws))
    ensures forall i, j :: 0 <= i < j < |r| ==> r[i].activeTickets <= r[j].activeTickets
  {
    var r := SortBy(AvailablePool(ws), FewerTickets);
    FewerTicketsIsStrictWeakOrder();
    SortBySorted(AvailablePool(ws), FewerTickets);
    assert forall w :: w in r <==> w in multiset(r);
    r
  }

  datatype AssignmentStats = AssignmentStats(
    totalAssignments: nat,
    byType: Tally.Tally,
    byAgent: Tally.Tally,
    averageResolutionTime: int,
    agentWorkloads: seq<AgentWorkload>)

  function TypesOf(xs: seq<AssignmentRecord>): (ts: seq<string>)
    ensures |ts| == |xs| && forall i :: 0 <= i < |xs| ==> ts[i] == xs[i].assignmentType
  {
    seq(|xs|, i requires 0 <= i < |xs| => xs[i].assignmentType)
  }

  /** The property names `byAgent[a.assignedTo]` uses. */
  function AgentsOf(xs: seq<AssignmentRecord>): (ts: seq<string>)
    ensures |ts| == |xs| && forall i :: 0 <= i < |xs| ==> ts[i] == ToJsString(xs[i].assignedTo)
  {
    seq(|xs|, i requires 0 <= i < |xs| => ToJsString(xs[i].assignedTo))
  }

  /** The counting part of `getAssignmentStats()` over the assignments read from the database. */
  method AssignmentStatsOf(assignments: seq<AssignmentRecord>, ws: seq<AgentWorkload>) returns (stats: AssignmentStats)
    ensures stats.totalAssignments == |assignments| && stats.agentWorkloads == ws
    ensures stats.byType == Tally.TallyOf(TypesOf(assignments))
    ensures stats.byAgent == Tally.TallyOf(AgentsOf(assignments))
  {
    ghost var types, agents := TypesOf(assignments), AgentsOf(assignments);
    var byType: Tally.Tally := [];
    var byAgent: Tally.Tally := [];
    for i := 0 to |assignments|
      invariant byType == Tally.TallyOf(types[..i])
      invariant byAgent == Tally.TallyOf(agents[..i])
    {
      var a := assignments[i];
      var agentKey := ToJsString(a.assignedTo);
      Tally.TallyOfStep(types, i);
      Tally.TallyOfStep(agents, i);
      byType := Tally.Bump(byType, a.assignmentType);
      byAgent := Tally.Bump(byAgent, agentKey);
    }
    assert types[..|assignments|] == types && agents[..|assignments|] == agents;
    stats := AssignmentStats(|assignments|, byType, byAgent, 0, ws);
  }

  /** Both dictionaries account for every assignment once, and `byType` counts each type. */
  lemma AssignmentStatsTotals(assignments: seq<AssignmentRecord>, k: string)
    ensures Tally.Total(Tally.TallyOf(TypesOf(assignments))) == |assignments|
    ensures Tally.Total(Tally.TallyOf(AgentsOf(assignments))) == |assignments|
    ensures Tally.Get(Tally.TallyOf(TypesOf(assignments)), k) == Tally.Occurrences(TypesOf(assignments), k)
  {
    Tally.TallyOfTotal(TypesOf(assignments));
    Tally.TallyOfTotal(AgentsOf(assignments));
    Tally.TallyOfGet(TypesOf(assignments), k);
  }

  // ---------------------------------------------------------------------------------------------
  // The service object

  class AssignmentService {
    var assignmentRules: seq<AssignmentRule>
    var agentWorkloads: seq<AgentWorkload>

    ghost predicate Valid()
      reads this
    {
      UniqueIds(agentWorkloads)
    }

    /** The service once its rules and workloads are loaded. */
    constructor (rules: seq<AssignmentRule>, workloads: seq<AgentWorkload>)
      requires UniqueIds(workloads)
      ensures Valid()
      ensures assignmentRules == rules && agentWorkloads == workloads
    {
      assignmentRules := rules;
      agentWorkloads := workloads;
    }

    /** `agentWorkloads.set(w.userId, w)`. */
    method SetWorkload(w: AgentWorkload)
      requires Valid()
      modifies this
      ensures Valid()
      ensures agentWorkloads == Upsert(old(agentWorkloads), w)
      ensures assignmentRules == old(assignmentRules)
      ensures Lookup(agentWorkloads, w.userId) == Some(w)
      ensures forall id :: id != w.userId ==> Lookup(agentWorkloads, id) == Lookup(old(agentWorkloads), id)
    {
      UpsertKeepsUnique(agentWorkloads, w);
      forall id ensures Lookup(Upsert(agentWorkloads, w), w.userId) == Some(w)
        ensures id != w.userId ==> Lookup(Upsert(agentWorkloads, w), id) == Lookup(agentWorkloads, id)
      {
        UpsertLookup(agentWorkloads, w, id);
      }
      agentWorkloads := Upsert(agentWorkloads, w);
    }

    /** `getAgentWorkload(userId)`. */
    function GetAgentWorkload(userId: string): (r: Option<AgentWorkload>)
      reads this
      ensures r.Some? <==> userId in Ids(agentWorkloads)
      ensures r.Some? ==> r.value in agentWorkloads && r.value.userId == userId
    {
      Lookup(agentWorkloads, userId)
    }

    /** `getAvailableAgents()`. */
    function GetAvailableAgents(): (r: seq<AgentWorkload>)
      reads this
      ensures forall w :: w in r <==> w in agentWorkloads && w.availability == Available
      ensures forall i, j :: 0 <= i < j < |r| ==> r[i].activeTickets <= r[j].activeTickets
    {
      AvailableAgents(agentWorkloads)
    }

    /** `recordAssignment(ticketId, agent, type)`: the assignment document, then the agent's
        workload recalculated from what the database holds after the write. */
    method RecordAssignment(ticket: Doc, agent: string, assignmentType: string, now: int,
                            agentTickets: seq<AgentTicket>, agentUser: Option<UserDoc>)
      returns (record: AssignmentRecord)
      requires Valid()
      modifies this
      ensures Valid()
      ensures record == AssignmentRecordFor(ticket, agent, assignmentType, now)
      ensures assignmentRules == old(assignmentRules)
      ensures Ids(agentWorkloads) == if agent in Ids(old(agentWorkloads)) then Ids(old(agentWorkloads))
                                     else Ids(old(agentWorkloads)) + [agent]
      ensures forall id :: id != agent ==> Lookup(agentWorkloads, id) == Lookup(old(agentWorkloads), id)
      ensures Lookup(agentWorkloads, agent) == Some(WorkloadOf(agent, agentTickets, agentUser, now))
      ensures Lookup(agentWorkloads, agent).value.activeTickets == CountActive(agentTickets)
    {
      record := AssignmentRecordFor(ticket, agent, assignmentType, now);
      var w := CalculateAgentWorkload(agent, agentTickets, agentUser, now);
      SetWorkload(w);
    }

    /** `autoAssignTicket(ticketData)`: the first active rule, by priority, that applies and
        yields an agent decides, and the assignment is recorded. Otherwise least busy over all
        agents decides and nothing is recorded. `ticketsOf` and `userOf` give what the database
        returns for an agent when its workload is recalculated. */
    method AutoAssignTicket(ticket: Doc, last: Option<string>, members: seq<TeamMember>, now: int,
                            ticketsOf: string -> seq<AgentTicket>, userOf: string -> Option<UserDoc>)
      returns (agent: Option<string>, record: Option<AssignmentRecord>)
      requires Valid()
      modifies this
      ensures Valid() && assignmentRules == old(assignmentRules)
      ensures var sorted := SortedRules(old(assignmentRules));
        var first := FirstFiring(old(agentWorkloads), sorted, ticket, last, members);
        && (first.Some? ==>
              && agent == ExecuteAssignmentRule(old(agentWorkloads), sorted[first.value], ticket, last, members)
              && record == Some(AssignmentRecordFor(ticket, agent.value, RuleTypeName(sorted[first.value].ruleType), now))
              && Lookup(agentWorkloads, agent.value) == Some(WorkloadOf(agent.value, ticketsOf(agent.value), userOf(agent.value), now))
              && (forall id :: id != agent.value ==> Lookup(agentWorkloads, id) == Lookup(old(agentWorkloads), id)))
        && (first.None? ==>
              && agent == LeastBusyAssignment(old(agentWorkloads), None, None)
              && record.None? && agentWorkloads == old(agentWorkloads))
    {
      var sorted := SortedRules(assignmentRules);
      // the first rule whose conditions hold and whose strategy yields a non-empty user id
      var first := FindFirst(sorted, FiresFor(agentWorkloads, ticket, last, members));
      if first.Some? {
        var chosen := ExecuteAssignmentRule(agentWorkloads, sorted[first.value], ticket, last, members);
        var r := RecordAssignment(ticket, chosen.value, RuleTypeName(sorted[first.value].ruleType), now,
                                  ticketsOf(chosen.value), userOf(chosen.value));
        agent, record := chosen, Some(r);
      } else {
        agent := LeastBusyAssignment(agentWorkloads, None, None);
        record := None;
      }
    }

    /** `getAssignmentStats()` over the assignments read from the database. */
    method GetAssignmentStats(assignments: seq<AssignmentRecord>) returns (stats: AssignmentStats)
      ensures stats.totalAssignments == |assignments| && stats.agentWorkloads == agentWorkloads
      ensures Tally.Total(stats.byType) == stats.totalAssignments
      ensures Tally.Total(stats.byAgent) == stats.totalAssignments
    {
      stats := AssignmentStatsOf(assignments, agentWorkloads);
      AssignmentStatsTotals(assignments, "");
    }
  }
}
