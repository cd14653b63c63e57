/** The ticket escalation service (`src/lib/ticketEscalation.ts`): rule ordering and matching, the
    de-duplication against an active escalation, escalation records and their action lists, the
    per-action parameter checks, the resolve and cancel transitions and the statistics.
    The document database is a `Store` value that the operations take and return; an escalation's
    document id is its position in `escalations`. */
module TicketEscalation {
  import opened Wrappers
  import opened Documents
  import opened Sorting
  import Tally
  import TicketAssignment

  // ---------------------------------------------------------------------------------------------
  // Entities

  datatype ActionType = Notify | Assign | UpdateStage | UpdatePriority | CreateTask | SendEmail | UnknownAction(name: string)

  datatype ActionStatus = Pending | Completed | Failed

  datatype EscalationStatus = Active | Resolved | Cancelled

  /** An entry of an escalation's `actions`; `result` is `None` while it is not set. */
  datatype EscalationAction = EscalationAction(
    actionType: ActionType,
    executedAt: int,
    status: ActionStatus,
    parameters: Doc,
    result: Option<bool>)

  /** A `ticketEscalations` document; `escalationType` is the trigger of the rule that created it. */
  datatype Escalation = Escalation(
    ticketId: Value,
    escalatedFrom: Value,
    escalatedTo: string,
    reason: string,
    escalationType: string,
    escalatedAt: int,
    resolvedAt: Option<int>,
    notes: string,
    actions: seq<EscalationAction>,
    status: EscalationStatus)

  datatype ActionConfig = ActionConfig(id: string, actionType: ActionType, parameters: Doc)

  datatype EscalationRule = EscalationRule(
    id: string,
    name: string,
    description: string,
    trigger: string,
    conditions: seq<Condition>,
    actions: seq<ActionConfig>,
    delay: int,
    priority: int,
    isActive: bool,
    escalationLevel: int,
    targetUsers: Option<seq<string>>)

  /** A `tasks` document written by the `create_task` action. */
  datatype TaskRecord = TaskRecord(
    title: Value,
    description: Value,
    assignedTo: Value,
    priority: Value,
    dueDate: Value,
    relatedTicket: Value,
    createdAt: int,
    status: string)

  /** The collections the service reads and writes. */
  datatype Store = Store(
    tickets: map<string, Doc>,
    escalations: seq<Escalation>,
    assignments: seq<TicketAssignment.AssignmentRecord>,
    tasks: seq<TaskRecord>)

  const DayMs: int := 24 * 60 * 60 * 1000

  // ---------------------------------------------------------------------------------------------
  // Rule ordering

  /** `rules.filter(rule => rule.isActive)`. */
  function ActiveRules(rules: seq<EscalationRule>): (r: seq<EscalationRule>)
    ensures forall x :: x in r <==> x in rules && x.isActive
    ensures multiset(r) <= multiset(rules)
  {
    if rules == [] then []
    else
      var rest := ActiveRules(rules[1..]);
      assert rules == [rules[0]] + rules[1..];
      if rules[0].isActive then [rules[0]] + rest else rest
  }

  /** The comparator: higher priority first, then lower escalation level. */
  predicate RuleBefore(a: EscalationRule, b: EscalationRule) {
    a.priority > b.priority || (a.priority == b.priority && a.escalationLevel < b.escalationLevel)
  }

  lemma RuleBeforeIsStrictWeakOrder()
    ensures StrictWeakOrder(RuleBefore)
  {
  }

  /** The order in which `checkTicketEscalation` tries the rules. */
  function SortedRules(rules: seq<EscalationRule>): seq<EscalationRule> {
    SortBy(ActiveRules(rules), RuleBefore)
  }

  /** The rules tried are exactly the active ones, each once, by priority descending and then
      escalation level ascending. */
  lemma SortedRulesOrder(rules: seq<EscalationRule>)
    ensures multiset(SortedRules(rules)) == multiset(ActiveRules(rules))
    ensures forall x :: x in SortedRules(rules) <==> x in rules && x.isActive
    ensures forall i, j :: 0 <= i < j < |SortedRules(rules)| ==>
              var (a, b) := (SortedRules(rules)[i], SortedRules(rules)[j]);
              a.priority > b.priority || (a.priority == b.priority && a.escalationLevel <= b.escalationLevel)
  {
    RuleBeforeIsStrictWeakOrder();
    SortBySorted(ActiveRules(rules), RuleBefore);
    var s := SortedRules(rules);
    forall x ensures x in s <==> x in rules && x.isActive {
      assert x in s <==> x in multiset(s);
    }
  }

  // ---------------------------------------------------------------------------------------------
  // Active escalations and de-duplication

  /** An active escalation of the ticket. */
  predicate ActiveFor(e: Escalation, ticketId: Value) {
    e.status == Active && e.ticketId == ticketId
  }

  /** `getActiveEscalation(ticketId)`: the first active escalation of the ticket. */
  function ActiveEscalationOf(escs: seq<Escalation>, ticketId: Value): (r: Option<Escalation>)
    ensures r.Some? ==> r.value in escs && r.value.status == Active && r.value.ticketId == ticketId
    ensures r.None? <==> forall e :: e in escs ==> !(e.status == Active && e.ticketId == ticketId)
    ensures r.Some? ==> exists i :: 0 <= i < |escs| && escs[i] == r.value && forall j :: 0 <= j < i ==> !ActiveFor(escs[j], ticketId)
  {
    if escs == [] then None
    else if escs[0].status == Active && escs[0].ticketId == ticketId then Some(escs[0])
    else
      assert forall e :: e in escs <==> e == escs[0] || e in escs[1..];
      ActiveEscalationOf(escs[1..], ticketId)
  }

  /** `!existingEscalation || existingEscalation.escalationType !== rule.trigger`. */
  predicate MayEscalate(escs: seq<Escalation>, ticketId: Value, trigger: string) {
    var existing := ActiveEscalationOf(escs, ticketId);
    existing.None? || existing.value.escalationType != trigger
  }

  /** With no active escalation for the ticket any rule may fire; otherwise the ticket's first
      active escalation, at whatever index `i` it is, blocks exactly its own trigger. */
  lemma MayEscalateCases(escs: seq<Escalation>, ticketId: Value, trigger: string, i: nat)
    ensures (forall e :: e in escs ==> !(e.status == Active && e.ticketId == ticketId)) ==>
              MayEscalate(escs, ticketId, trigger)
    ensures i < |escs| && ActiveFor(escs[i], ticketId) && (forall j :: 0 <= j < i ==> !ActiveFor(escs[j], ticketId)) ==>
              (MayEscalate(escs, ticketId, trigger) <==> escs[i].escalationType != trigger)
  {
    if i < |escs| && ActiveFor(escs[i], ticketId) && (forall j :: 0 <= j < i ==> !ActiveFor(escs[j], ticketId)) {
      assert escs[i] in escs;
      var r := ActiveEscalationOf(escs, ticketId);
      var i0 :| 0 <= i0 < |escs| && escs[i0] == r.value && forall j :: 0 <= j < i0 ==> !ActiveFor(escs[j], ticketId);
      assert ActiveFor(escs[i0], ticketId);
      assert i0 == i;
    }
  }

  /** Only the first active escalation of a ticket is compared with the rule's trigger, so an
      active escalation further down with the rule's trigger does not block the rule. */
  lemma OnlyFirstActiveIsCompared(escs: seq<Escalation>, ticketId: Value, i: nat, j: nat)
    requires i < j < |escs|
    requires ActiveFor(escs[i], ticketId) && forall k :: 0 <= k < i ==> !ActiveFor(escs[k], ticketId)
    requires ActiveFor(escs[j], ticketId) && escs[j].escalationType != escs[i].escalationType
    ensures MayEscalate(escs, ticketId, escs[j].escalationType)
  {
    MayEscalateCases(escs, ticketId, escs[j].escalationType, i);
  }

  // ---------------------------------------------------------------------------------------------
  // Actions

  /** The ticket snapshot's document id, when it is a string. */
  function TicketKey(ticket: Doc): Option<string> {
    match Field(ticket, "id")
    case Str(s) => Some(s)
    case _ => None
  }

  /** `updateDoc` on the ticket succeeds: its document exists. */
  predicate TicketStored(ids: set<string>, ticket: Doc) {
    TicketKey(ticket).Some? && TicketKey(ticket).value in ids
  }

  function SetField(tickets: map<string, Doc>, k: string, field: string, v: Value): (r: map<string, Doc>)
    requires k in tickets
    ensures r.Keys == tickets.Keys && r[k] == tickets[k][field := v]
    ensures forall k' :: k' in tickets && k' != k ==> r[k'] == tickets[k']
  {
    tickets[k := tickets[k][field := v]]
  }

  predicate IsValidPriority(v: Value) {
    v in [Str("low"), Str("medium"), Str("high"), Str("critical")]
  }

  /** The ticket `k` with `field` set to `v` and `updatedAt` to `now`: one `updateDoc`. */
  function Touched(tickets: map<string, Doc>, k: string, field: string, v: Value, now: int): (r: map<string, Doc>)
    requires k in tickets
    ensures r.Keys == tickets.Keys
  {
    SetField(SetField(tickets, k, field, v), k, "updatedAt", Num(now))
  }

  /** The `ticketAssignments` document of an escalation's reassignment. */
  function ReassignmentRecord(ticket: Doc, assignee: Value, now: int): TicketAssignment.AssignmentRecord {
    TicketAssignment.AssignmentRecord(
      Field(ticket, "id"), assignee, "system", "escalation", "Reasignación por escalación", now,
      Field(ticket, "priority"))
  }

  /** `executeAssignAction`: `userId || team` must be given, and becomes the ticket's
      `assignedTo`; the reassignment is logged in `ticketAssignments`. */
  function AssignAction(store: Store, ticket: Doc, params: Doc, now: int): (r: (bool, Store))
    ensures r.1.escalations == store.escalations && r.1.tickets.Keys == store.tickets.Keys
    ensures r.0 <==> Truthy(Or(Field(params, "userId"), Field(params, "team"))) && TicketStored(store.tickets.Keys, ticket)
    ensures !r.0 ==> r.1 == store
    ensures r.0 ==> var k := TicketKey(ticket).value;
      && Field(r.1.tickets[k], "assignedTo") == (if Truthy(Field(params, "userId")) then Field(params, "userId") else Field(params, "team"))
      && Field(r.1.tickets[k], "updatedAt") == Num(now)
      && (forall k' :: k' in store.tickets && k' != k ==> r.1.tickets[k'] == store.tickets[k'])
      && |r.1.assignments| == |store.assignments| + 1 && r.1.assignments[..|store.assignments|] == store.assignments
      && r.1.assignments[|store.assignments|].ticketId == Field(ticket, "id")
      && r.1.assignments[|store.assignments|].assignedTo == Field(r.1.tickets[k], "assignedTo")
      && r.1.assignments[|store.assignments|].assignmentType == "escalation"
      && r.1.tasks == store.tasks
  {
    var assignee := Or(Field(params, "userId"), Field(params, "team"));
    if !Truthy(assignee) || !TicketStored(store.tickets.Keys, ticket) then (false, store)
    else
      var k := TicketKey(ticket).value;
      (true, store.(tickets := Touched(store.tickets, k, "assignedTo", assignee, now),
                    assignments := store.assignments + [ReassignmentRecord(ticket, assignee, now)]))
  }

  /** `executeUpdateStageAction`: a stage must be given. */
  function UpdateStageAction(store: Store, ticket: Doc, params: Doc, now: int): (r: (bool, Store))
    ensures r.1.escalations == store.escalations && r.1.tickets.Keys == store.tickets.Keys
    ensures r.0 <==> Truthy(Field(params, "stage")) && TicketStored(store.tickets.Keys, ticket)
    ensures !r.0 ==> r.1 == store
    ensures r.0 ==> var k := TicketKey(ticket).value;
      && Field(r.1.tickets[k], "stage") == Field(params, "stage") && Field(r.1.tickets[k], "updatedAt") == Num(now)
      && (forall k' :: k' in store.tickets && k' != k ==> r.1.tickets[k'] == store.tickets[k'])
    ensures r.1.assignments == store.assignments && r.1.tasks == store.tasks
  {
    var stage := Field(params, "stage");
    if !Truthy(stage) || !TicketStored(store.tickets.Keys, ticket) then (false, store)
    else
      var k := TicketKey(ticket).value;
      (true, store.(tickets := Touched(store.tickets, k, "stage", stage, now)))
  }

  /** `executeUpdatePriorityAction`: only `low`, `medium`, `high` and `critical` are accepted. */
  function UpdatePriorityAction(store: Store, ticket: Doc, params: Doc, now: int): (r: (bool, Store))
    ensures r.1.escalations == store.escalations && r.1.tickets.Keys == store.tickets.Keys
    ensures r.0 <==> IsValidPriority(Field(params, "priority")) && TicketStored(store.tickets.Keys, ticket)
    ensures !r.0 ==> r.1 == store
    ensures r.0 ==> var k := TicketKey(ticket).value;
      && Field(r.1.tickets[k], "priority") == Field(params, "priority") && Field(r.1.tickets[k], "updatedAt") == Num(now)
      && (forall k' :: k' in store.tickets && k' != k ==> r.1.tickets[k'] == store.tickets[k'])
    ensures r.1.assignments == store.assignments && r.1.tasks == store.tasks
  {
    var priority := Field(params, "priority");
    if !(Truthy(priority) && IsValidPriority(priority)) || !TicketStored(store.tickets.Keys, ticket) then (false, store)
    else
      var k := TicketKey(ticket).value;
      (true, store.(tickets := Touched(store.tickets, k, "priority", priority, now)))
  }

  /** The task `executeCreateTaskAction` writes: each parameter, or the ticket's own value. */
  function TaskFor(ticket: Doc, params: Doc, now: int): (t: TaskRecord)
    ensures Truthy(t.title) && Truthy(t.description)
    ensures Truthy(Field(params, "title")) ==> t.title == Field(params, "title")
    ensures Truthy(Field(params, "description")) ==> t.description == Field(params, "description")
    ensures Truthy(Field(params, "dueDate")) ==> t.dueDate == Field(params, "dueDate")
    ensures t.assignedTo == Or(Field(params, "assignedTo"), Field(ticket, "assignedTo"))
    ensures t.priority == Or(Field(params, "priority"), Field(ticket, "priority"))
    ensures !Truthy(Field(params, "dueDate")) ==> t.dueDate == Num(now + DayMs)
    ensures t.relatedTicket == Field(ticket, "id") && t.createdAt == now && t.status == "pending"
  {
    TaskRecord(
      Or(Field(params, "title"), Str("Seguimiento de ticket " + ToJsString(Field(ticket, "id")))),
      Or(Field(params, "description"), Str("Ticket escalado: " + ToJsString(Field(ticket, "subject")))),
      Or(Field(params, "assignedTo"), Field(ticket, "assignedTo")),
      Or(Field(params, "priority"), Field(ticket, "priority")),
      Or(Field(params, "dueDate"), Num(now + DayMs)),
      Field(ticket, "id"),
      now,
      "pending")
  }

  /** What an action returns: the notification service's answer for `notify`, the parameter checks
      for the ticket updates, `true` for the task and the e-mail, and nothing for an unknown type. */
  function ActionResult(ids: set<string>, ticket: Doc, config: ActionConfig, notifyOk: bool): Option<bool> {
    var params := config.parameters;
    match config.actionType
    case Notify => Some(notifyOk)
    case Assign => Some(Truthy(Or(Field(params, "userId"), Field(params, "team"))) && TicketStored(ids, ticket))
    case UpdateStage => Some(Truthy(Field(params, "stage")) && TicketStored(ids, ticket))
    case UpdatePriority => Some(IsValidPriority(Field(params, "priority")) && TicketStored(ids, ticket))
    case CreateTask => Some(true)
    case SendEmail => Some(true)
    case UnknownAction(_) => None
  }

  /** The actions that update the ticket document. */
  predicate WritesTicket(t: ActionType) {
    t.Assign? || t.UpdateStage? || t.UpdatePriority?
  }

  /** The ticket field such an action sets, and the value it sets there. */
  function TicketWrite(config: ActionConfig): (string, Value)
    requires WritesTicket(config.actionType)
  {
    var params := config.parameters;
    if config.actionType.Assign? then ("assignedTo", Or(Field(params, "userId"), Field(params, "team")))
    else if config.actionType.UpdateStage? then ("stage", Field(params, "stage"))
    else ("priority", Field(params, "priority"))
  }

  /** The `switch` of `executeEscalationAction`: the action's result and the store it leaves. A
      successful ticket action sets its field and `updatedAt` on the ticket, a successful
      reassignment is logged, `create_task` appends its task, and nothing else is written. */
  function RunAction(store: Store, ticket: Doc, config: ActionConfig, now: int, notifyOk: bool): (r: (Option<bool>, Store))
    ensures r.0 == ActionResult(store.tickets.Keys, ticket, config, notifyOk)
    ensures r.1.escalations == store.escalations && r.1.tickets.Keys == store.tickets.Keys
    ensures r.1.tickets == if WritesTicket(config.actionType) && r.0 == Some(true)
              then Touched(store.tickets, TicketKey(ticket).value, TicketWrite(config).0, TicketWrite(config).1, now)
              else store.tickets
    ensures r.1.assignments == store.assignments
              + if config.actionType.Assign? && r.0 == Some(true) then [ReassignmentRecord(ticket, TicketWrite(config).1, now)] else []
    ensures r.1.tasks == store.tasks + if config.actionType.CreateTask? then [TaskFor(ticket, config.parameters, now)] else []
    ensures forall k :: k in store.tickets ==> Field(r.1.tickets[k], "escalationCount") == Field(store.tickets[k], "escalationCount")
  {
    var params := config.parameters;
    match config.actionType
    case Notify => (Some(notifyOk), store)
    case Assign =>
      var (ok, s) := AssignAction(store, ticket, params, now);
      (Some(ok), s)
    case UpdateStage =>
      var (ok, s) := UpdateStageAction(store, ticket, params, now);
      (Some(ok), s)
    case UpdatePriority =>
      var (ok, s) := UpdatePriorityAction(store, ticket, params, now);
      (Some(ok), s)
    case CreateTask => (Some(true), store.(tasks := store.tasks + [TaskFor(ticket, params, now)]))
    case SendEmail => (Some(true), store)
    case UnknownAction(_) => (None, store)
  }

  /** The entry an action leaves in the escalation's `actions`: completed exactly when the action
      returned `true`. */
  function FinishedAction(config: ActionConfig, now: int, result: Option<bool>): (a: EscalationAction)
    ensures a.status == Completed <==> result == Some(true)
    ensures a.status != Pending
    ensures a.actionType == config.actionType && a.parameters == config.parameters && a.result == result
  {
    EscalationAction(config.actionType, now, if result == Some(true) then Completed else Failed, config.parameters, result)
  }

  /** The escalation with id `id` gets the action list `actions`; nothing else changes. */
  function WithActions(store: Store, id: nat, actions: seq<EscalationAction>): (r: Store)
    requires id < |store.escalations|
    ensures |r.escalations| == |store.escalations| && r.escalations[id] == store.escalations[id].(actions := actions)
    ensures forall j :: 0 <= j < |store.escalations| && j != id ==> r.escalations[j] == store.escalations[j]
    ensures r.tickets == store.tickets && r.assignments == store.assignments && r.tasks == store.tasks
  {
    store.(escalations := store.escalations[id := store.escalations[id].(actions := actions)])
  }

  /** `executeEscalationAction(escalationId, ticketData, actionConfig)`: a pending entry is appended
      to the escalation's actions, the action runs, and that last entry is patched with the result.
      Out of range, reading the escalation fails and nothing happens. */
  method ExecuteEscalationAction(store: Store, id: nat, ticket: Doc, config: ActionConfig, now: int, notifyOk: bool)
    returns (store': Store)
    ensures id >= |store.escalations| ==> store' == store
    ensures id < |store.escalations| ==>
      var result := ActionResult(store.tickets.Keys, ticket, config, notifyOk);
      && |store'.escalations| == |store.escalations|
      && store'.escalations[id] == store.escalations[id].(actions := store.escalations[id].actions + [FinishedAction(config, now, result)])
      && (forall j :: 0 <= j < |store.escalations| && j != id ==> store'.escalations[j] == store.escalations[j])
      && store'.tickets.Keys == store.tickets.Keys
      && (forall k :: k in store.tickets ==> Field(store'.tickets[k], "escalationCount") == Field(store.tickets[k], "escalationCount"))
    ensures id < |store.escalations| ==> store'.(escalations := store.escalations) == RunAction(store, ticket, config, now, notifyOk).1
  {
    if id >= |store.escalations| {
      return store;
    }
    var pending := EscalationAction(config.actionType, now, Pending, config.parameters, None);
    var updatedActions := store.escalations[id].actions + [pending];
    store' := WithActions(store, id, updatedActions);
    RunActionIgnoresEscalations(store, store'.escalations, ticket, config, now, notifyOk);
    assert store.(escalations := store'.escalations) == store';
    var (result, s) := RunAction(store', ticket, config, now, notifyOk);
    store' := s;
    var last := |updatedActions| - 1;
    updatedActions := updatedActions[last := updatedActions[last].(status := if result == Some(true) then Completed else Failed, result := result)];
    assert updatedActions == store.escalations[id].actions + [FinishedAction(config, now, result)];
    store' := WithActions(store', id, updatedActions);
  }

  /** The actions read and write no escalation document. */
  lemma RunActionIgnoresEscalations(store: Store, escs: seq<Escalation>, ticket: Doc, config: ActionConfig, now: int, notifyOk: bool)
    ensures RunAction(store.(escalations := escs), ticket, config, now, notifyOk)
         == (RunAction(store, ticket, config, now, notifyOk).0, RunAction(store, ticket, config, now, notifyOk).1.(escalations := escs))
  {
  }

  /** The store a sequence of actions leaves, one `RunAction` after the other. */
  function AfterActions(store: Store, ticket: Doc, configs: seq<ActionConfig>, now: int, notifyOk: bool): (r: Store)
    ensures r.escalations == store.escalations && r.tickets.Keys == store.tickets.Keys
    ensures forall k :: k in store.tickets ==> Field(r.tickets[k], "escalationCount") == Field(store.tickets[k], "escalationCount")
    decreases |configs|
  {
    if configs == [] then store
    else RunAction(AfterActions(store, ticket, configs[..|configs| - 1], now, notifyOk), ticket, configs[|configs| - 1], now, notifyOk).1
  }

  lemma {:induction false} AfterActionsIgnoresEscalations(store: Store, escs: seq<Escalation>, ticket: Doc,
                                                          configs: seq<ActionConfig>, now: int, notifyOk: bool)
    ensures AfterActions(store.(escalations := escs), ticket, configs, now, notifyOk)
         == AfterActions(store, ticket, configs, now, notifyOk).(escalations := escs)
    decreases |configs|
  {
    if configs != [] {
      var init := configs[..|configs| - 1];
      AfterActionsIgnoresEscalations(store, escs, ticket, init, now, notifyOk);
      RunActionIgnoresEscalations(AfterActions(store, ticket, init, now, notifyOk), escs, ticket, configs[|configs| - 1], now, notifyOk);
    }
  }

  /** The tasks of the `create_task` actions among `configs`, in order. */
  function CreatedTasks(ticket: Doc, configs: seq<ActionConfig>, now: int): seq<TaskRecord>
    decreases |configs|
  {
    if configs == [] then []
    else
      var last := configs[|configs| - 1];
      CreatedTasks(ticket, configs[..|configs| - 1], now) + if last.actionType.CreateTask? then [TaskFor(ticket, last.parameters, now)] else []
  }

  /** The reassignments logged by the `assign` actions among `configs` that succeed, in order. */
  function LoggedReassignments(ids: set<string>, ticket: Doc, configs: seq<ActionConfig>, now: int)
    : seq<TicketAssignment.AssignmentRecord>
    decreases |configs|
  {
    if configs == [] then []
    else
      var last := configs[|configs| - 1];
      var assignee := Or(Field(last.parameters, "userId"), Field(last.parameters, "team"));
      LoggedReassignments(ids, ticket, configs[..|configs| - 1], now)
      + if last.actionType.Assign? && Truthy(assignee) && TicketStored(ids, ticket) then [ReassignmentRecord(ticket, assignee, now)] else []
  }

  /** A rule's actions append one task per `create_task` action and one assignment document per
      successful `assign` action, in the order of the actions, and keep what was there. */
  lemma {:induction false} AfterActionsAppends(store: Store, ticket: Doc, configs: seq<ActionConfig>, now: int, notifyOk: bool)
    ensures AfterActions(store, ticket, configs, now, notifyOk).tasks == store.tasks + CreatedTasks(ticket, configs, now)
    ensures AfterActions(store, ticket, configs, now, notifyOk).assignments
         == store.assignments + LoggedReassignments(store.tickets.Keys, ticket, configs, now)
    decreases |configs|
  {
    if configs != [] {
      var init := configs[..|configs| - 1];
      var last := configs[|configs| - 1];
      AfterActionsAppends(store, ticket, init, now, notifyOk);
      var s := AfterActions(store, ticket, init, now, notifyOk);
      var r := RunAction(s, ticket, last, now, notifyOk);
      var t := if last.actionType.CreateTask? then [TaskFor(ticket, last.parameters, now)] else [];
      assert r.1.tasks == (store.tasks + CreatedTasks(ticket, init, now)) + t;
      assert store.tasks + CreatedTasks(ticket, configs, now) == store.tasks + (CreatedTasks(ticket, init, now) + t);
      var assignee := Or(Field(last.parameters, "userId"), Field(last.parameters, "team"));
      var a := if last.actionType.Assign? && Truthy(assignee) && TicketStored(store.tickets.Keys, ticket)
               then [ReassignmentRecord(ticket, assignee, now)] else [];
      assert r.1.assignments == (store.assignments + LoggedReassignments(store.tickets.Keys, ticket, init, now)) + a;
      assert store.assignments + LoggedReassignments(store.tickets.Keys, ticket, configs, now)
          == store.assignments + (LoggedReassignments(store.tickets.Keys, ticket, init, now) + a);
    }
  }

  // ---------------------------------------------------------------------------------------------
  // Escalations

  /** The record `executeEscalation` creates before running the rule's actions. */
  function NewEscalation(ticket: Doc, rule: EscalationRule, now: int): (e: Escalation)
    ensures e.status == Active && e.actions == [] && e.resolvedAt.None?
    ensures e.ticketId == Field(ticket, "id") && e.escalatedFrom == Field(ticket, "assignedTo")
    ensures e.escalationType == rule.trigger && e.notes == rule.description && e.escalatedTo == ""
  {
    Escalation(Field(ticket, "id"), Field(ticket, "assignedTo"), "", "Escalación automática: " + rule.name,
               rule.trigger, now, None, rule.description, [], Active)
  }

  /** The entries the rule's actions leave, in order. */
  function FinishedActions(ids: set<string>, ticket: Doc, configs: seq<ActionConfig>, now: int, notifyOk: bool)
    : (r: seq<EscalationAction>)
    ensures |r| == |configs|
    ensures forall i :: 0 <= i < |configs| ==> r[i] == FinishedAction(configs[i], now, ActionResult(ids, ticket, configs[i], notifyOk))
  {
    seq(|configs|, i requires 0 <= i < |configs| => FinishedAction(configs[i], now, ActionResult(ids, ticket, configs[i], notifyOk)))
  }

  /** The ticket `k` once escalated: `escalationCount` from the snapshot's count plus one, and
      `lastEscalation` and `updatedAt` set to `now`. */
  function CountedEscalation(tickets: map<string, Doc>, k: string, ticket: Doc, now: int): (r: map<string, Doc>)
    requires k in tickets
    ensures r.Keys == tickets.Keys
    ensures Field(r[k], "escalationCount") == IncrementCount(Field(ticket, "escalationCount"))
    ensures Field(r[k], "lastEscalation") == Num(now) && Field(r[k], "updatedAt") == Num(now)
    ensures forall k' :: k' in tickets && k' != k ==> r[k'] == tickets[k']
  {
    var counted := SetField(tickets, k, "escalationCount", IncrementCount(Field(ticket, "escalationCount")));
    SetField(SetField(counted, k, "lastEscalation", Num(now)), k, "updatedAt", Num(now))
  }

  /** The record of the escalation once the rule's actions have run. */
  function FinishedEscalation(ids: set<string>, ticket: Doc, rule: EscalationRule, now: int, notifyOk: bool): Escalation {
    NewEscalation(ticket, rule, now).(actions := FinishedActions(ids, ticket, rule.actions, now, notifyOk))
  }

  /** The store `executeEscalation` leaves: the escalation record appended, the writes of the rule's
      actions, and the ticket's escalation bookkeeping. */
  function Escalated(store: Store, ticket: Doc, rule: EscalationRule, now: int, notifyOk: bool): (r: Store)
    ensures |r.escalations| == |store.escalations| + 1 && r.escalations[..|store.escalations|] == store.escalations
    ensures r.escalations[|store.escalations|] == FinishedEscalation(store.tickets.Keys, ticket, rule, now, notifyOk)
    ensures r.tickets.Keys == store.tickets.Keys
    ensures TicketStored(store.tickets.Keys, ticket) ==>
              var k := TicketKey(ticket).value;
              && Field(r.tickets[k], "escalationCount") == IncrementCount(Field(ticket, "escalationCount"))
              && Field(r.tickets[k], "lastEscalation") == Num(now) && Field(r.tickets[k], "updatedAt") == Num(now)
    ensures !TicketStored(store.tickets.Keys, ticket) ==>
              forall k :: k in store.tickets ==> Field(r.tickets[k], "escalationCount") == Field(store.tickets[k], "escalationCount")
  {
    var e := FinishedEscalation(store.tickets.Keys, ticket, rule, now, notifyOk);
    var s := AfterActions(store, ticket, rule.actions, now, notifyOk);
    var tickets := if TicketStored(store.tickets.Keys, ticket) then CountedEscalation(s.tickets, TicketKey(ticket).value, ticket, now)
                   else s.tickets;
    assert (store.escalations + [e])[..|store.escalations|] == store.escalations;
    s.(escalations := store.escalations + [e], tickets := tickets)
  }

  /** `executeEscalation(ticketData, rule)`: a new active escalation, one finished entry per action
      of the rule, the actions' writes, and the ticket's `escalationCount` set from the snapshot's
      count plus one. */
  method ExecuteEscalation(store: Store, ticket: Doc, rule: EscalationRule, now: int, notifyOk: bool)
    returns (store': Store)
    ensures store' == Escalated(store, ticket, rule, now, notifyOk)
    ensures |store'.escalations| == |store.escalations| + 1
    ensures store'.escalations[..|store.escalations|] == store.escalations
    ensures store'.escalations[|store.escalations|] ==
              NewEscalation(ticket, rule, now).(actions := FinishedActions(store.tickets.Keys, ticket, rule.actions, now, notifyOk))
    ensures store'.tickets.Keys == store.tickets.Keys
    ensures TicketStored(store.tickets.Keys, ticket) ==>
              var k := TicketKey(ticket).value;
              && Field(store'.tickets[k], "escalationCount") == IncrementCount(Field(ticket, "escalationCount"))
              && Field(store'.tickets[k], "lastEscalation") == Num(now) && Field(store'.tickets[k], "updatedAt") == Num(now)
    ensures !TicketStored(store.tickets.Keys, ticket) ==>
              forall k :: k in store.tickets ==> Field(store'.tickets[k], "escalationCount") == Field(store.tickets[k], "escalationCount")
  {
    var id := |store.escalations|;
    var ids := store.tickets.Keys;
    var escalation := NewEscalation(ticket, rule, now);
    store' := store.(escalations := store.escalations + [escalation]);
    ghost var created := store';
    store' := RunActions(store', id, ticket, rule.actions, now, notifyOk);
    AfterActionsIgnoresEscalations(store, created.escalations, ticket, rule.actions, now, notifyOk);
    AppendedOne(store.escalations, escalation, store'.escalations, FinishedActions(ids, ticket, rule.actions, now, notifyOk));
    if TicketStored(ids, ticket) {
      store' := store'.(tickets := CountedEscalation(store'.tickets, TicketKey(ticket).value, ticket, now));
    }
  }

  /** The escalation list after `RunActions` on a freshly appended escalation `e`. */
  lemma AppendedOne(escs: seq<Escalation>, e: Escalation, after: seq<Escalation>, finished: seq<EscalationAction>)
    requires e.actions == [] && |after| == |escs| + 1 && after[|escs|] == e.(actions := e.actions + finished)
    requires forall j :: 0 <= j < |escs| + 1 && j != |escs| ==> after[j] == (escs + [e])[j]
    ensures after == escs + [e.(actions := finished)]
  {
    assert e.actions + finished == finished;
    forall j | 0 <= j < |escs| ensures after[j] == escs[j] {
      assert (escs + [e])[j] == escs[j];
    }
  }

  /** The loop of `executeEscalation` over the rule's actions, on the escalation with id `id`. */
  method RunActions(store: Store, id: nat, ticket: Doc, configs: seq<ActionConfig>, now: int, notifyOk: bool)
    returns (store': Store)
    requires id < |store.escalations|
    ensures |store'.escalations| == |store.escalations|
    ensures forall j :: 0 <= j < |store.escalations| && j != id ==> store'.escalations[j] == store.escalations[j]
    ensures store'.escalations[id] == store.escalations[id].(actions := store.escalations[id].actions
                                        + FinishedActions(store.tickets.Keys, ticket, configs, now, notifyOk))
    ensures store'.tickets.Keys == store.tickets.Keys
    ensures forall k :: k in store.tickets ==> Field(store'.tickets[k], "escalationCount") == Field(store.tickets[k], "escalationCount")
    ensures store'.(escalations := store.escalations) == AfterActions(store, ticket, configs, now, notifyOk)
  {
    var ids := store.tickets.Keys;
    var e := store.escalations[id];
    store' := store;
    for i := 0 to |configs|
      invariant store'.(escalations := store.escalations) == AfterActions(store, ticket, configs[..i], now, notifyOk)
      invariant |store'.escalations| == |store.escalations|
      invariant forall j :: 0 <= j < |store.escalations| && j != id ==> store'.escalations[j] == store.escalations[j]
      invariant store'.escalations[id] == e.(actions := e.actions + FinishedActions(ids, ticket, configs[..i], now, notifyOk))
      invariant store'.tickets.Keys == ids
      invariant forall k :: k in store.tickets ==> Field(store'.tickets[k], "escalationCount") == Field(store.tickets[k], "escalationCount")
    {
      ghost var prev := store';
      store' := ExecuteEscalationAction(store', id, ticket, configs[i], now, notifyOk);
      FinishedActionsStep(ids, ticket, configs, now, notifyOk, i);
      RunActionIgnoresEscalations(prev, store.escalations, ticket, configs[i], now, notifyOk);
      assert configs[..i + 1][..i] == configs[..i];
      assert store'.(escalations := store.escalations) == store'.(escalations := prev.escalations).(escalations := store.escalations);
    }
    assert configs[..|configs|] == configs;
  }

  /** One more action adds its finished entry at the end. */
  lemma FinishedActionsStep(ids: set<string>, ticket: Doc, configs: seq<ActionConfig>, now: int, notifyOk: bool, i: nat)
    requires i < |configs|
    ensures FinishedActions(ids, ticket, configs[..i + 1], now, notifyOk)
         == FinishedActions(ids, ticket, configs[..i], now, notifyOk)
            + [FinishedAction(configs[i], now, ActionResult(ids, ticket, configs[i], notifyOk))]
  {
  }

  // ---------------------------------------------------------------------------------------------
  // One pass over a ticket

  /** Escalation `k` was created by a rule whose conditions hold on the ticket, and the active
      escalations before it did not block that rule. */
  ghost predicate FiredFor(escs: seq<Escalation>, k: nat, ticket: Doc, sorted: seq<EscalationRule>)
    requires k < |escs|
  {
    && escs[k].ticketId == Field(ticket, "id")
    && escs[k].status == Active
    && MayEscalate(escs[..k], Field(ticket, "id"), escs[k].escalationType)
    && exists r :: r in sorted && AllConditionsHold(ticket, r.conditions)
                && escs[k].escalationType == r.trigger && escs[k].reason == "Escalación automática: " + r.name
  }

  /** Rule `rule` escalates the ticket on the store `s`: its conditions hold on the snapshot and the
      ticket's first active escalation in `s` does not block its trigger. */
  predicate Fires(s: Store, ticket: Doc, rule: EscalationRule) {
    AllConditionsHold(ticket, rule.conditions) && MayEscalate(s.escalations, Field(ticket, "id"), rule.trigger)
  }

  /** The store one pass over `rules` leaves: each rule in turn escalates the ticket when it fires
      on the store the earlier rules left. */
  function Pass(store: Store, ticket: Doc, rules: seq<EscalationRule>, now: int, notifyOk: bool): Store
    decreases |rules|
  {
    if rules == [] then store
    else
      var s := Pass(store, ticket, rules[..|rules| - 1], now, notifyOk);
      var rule := rules[|rules| - 1];
      if Fires(s, ticket, rule) then Escalated(s, ticket, rule, now, notifyOk) else s
  }

  /** The pass over the first `i + 1` rules is the pass over the first `i`, then rule `i`. */
  lemma PassUnfold(store: Store, ticket: Doc, rules: seq<EscalationRule>, now: int, notifyOk: bool, i: nat)
    requires i < |rules|
    ensures var s := Pass(store, ticket, rules[..i], now, notifyOk);
            Pass(store, ticket, rules[..i + 1], now, notifyOk)
              == if Fires(s, ticket, rules[i]) then Escalated(s, ticket, rules[i], now, notifyOk) else s
  {
    assert rules[..i + 1][..i] == rules[..i];
  }

  /** Rule `i` of a pass adds an escalation exactly when it fires on the store the rules before it
      left; that escalation is active, for the ticket, with the rule's trigger and reason and one
      finished entry per action. A rule that does not fire changes nothing. */
  lemma PassStep(store: Store, ticket: Doc, rules: seq<EscalationRule>, now: int, notifyOk: bool, i: nat)
    requires i < |rules|
    ensures var before := Pass(store, ticket, rules[..i], now, notifyOk);
            var after := Pass(store, ticket, rules[..i + 1], now, notifyOk);
            var n := |before.escalations|;
            && (|after.escalations| > n <==> Fires(before, ticket, rules[i]))
            && (Fires(before, ticket, rules[i]) ==>
                  && |after.escalations| == n + 1 && after.escalations[..n] == before.escalations
                  && ActiveFor(after.escalations[n], Field(ticket, "id"))
                  && after.escalations[n].escalationType == rules[i].trigger
                  && after.escalations[n].reason == "Escalación automática: " + rules[i].name
                  && |after.escalations[n].actions| == |rules[i].actions|)
            && (!Fires(before, ticket, rules[i]) ==> after == before)
  {
    PassUnfold(store, ticket, rules, now, notifyOk, i);
  }

  /** The escalation service; `escalationRules` is what its constructor loads. */
  class EscalationService {
    var escalationRules: seq<EscalationRule>

    constructor (rules: seq<EscalationRule>)
      ensures escalationRules == rules
    {
      escalationRules := rules;
    }

    /** `checkTicketEscalation(ticketData)`: every active rule, in order, whose conditions hold on
        the snapshot and that the ticket's first active escalation does not block, escalates the
        ticket. Earlier escalations are never changed, and however many rules fire, the ticket's
        `escalationCount` ends one above the snapshot's. The pass is `Pass` over the sorted rules,
        which says rule by rule which of them fire (`PassStep`). */
    method CheckTicketEscalation(store: Store, ticket: Doc, now: int, notifyOk: bool) returns (store': Store)
      ensures store' == Pass(store, ticket, SortedRules(escalationRules), now, notifyOk)
      ensures |store.escalations| <= |store'.escalations| <= |store.escalations| + |SortedRules(escalationRules)|
      ensures store'.escalations[..|store.escalations|] == store.escalations
      ensures forall k :: |store.escalations| <= k < |store'.escalations| ==>
                FiredFor(store'.escalations, k, ticket, SortedRules(escalationRules))
      ensures |store'.escalations| == |store.escalations| ==> store' == store
      ensures store'.tickets.Keys == store.tickets.Keys
      ensures |store'.escalations| > |store.escalations| && TicketStored(store.tickets.Keys, ticket) ==>
                Field(store'.tickets[TicketKey(ticket).value], "escalationCount") == IncrementCount(Field(ticket, "escalationCount"))
    {
      var sorted := SortedRules(escalationRules);
      var n0 := |store.escalations|;
      store' := store;
      for i := 0 to |sorted|
        invariant store' == Pass(store, ticket, sorted[..i], now, notifyOk)
      {
        var rule := sorted[i];
        PassUnfold(store, ticket, sorted, now, notifyOk, i);
        if AllConditionsHold(ticket, rule.conditions) {
          var existing := ActiveEscalationOf(store'.escalations, Field(ticket, "id"));
          if existing.None? || existing.value.escalationType != rule.trigger {
            store' := ExecuteEscalation(store', ticket, rule, now, notifyOk);
          }
        }
      }
      assert sorted[..|sorted|] == sorted;
      PassFired(store, ticket, sorted, sorted, now, notifyOk);
    }
  }

  /** Every escalation a pass adds was fired by one of its rules, unblocked at its turn; earlier
      escalations are kept, and once any rule fires the ticket's `escalationCount` is one above the
      snapshot's. */
  lemma {:induction false} PassFired(store: Store, ticket: Doc, rules: seq<EscalationRule>, all: seq<EscalationRule>,
                                     now: int, notifyOk: bool)
    requires forall r :: r in rules ==> r in all
    ensures var p := Pass(store, ticket, rules, now, notifyOk);
            var n0 := |store.escalations|;
            && n0 <= |p.escalations| <= n0 + |rules|
            && p.escalations[..n0] == store.escalations
            && (forall k :: n0 <= k < |p.escalations| ==> FiredFor(p.escalations, k, ticket, all))
            && (|p.escalations| == n0 ==> p == store)
            && p.tickets.Keys == store.tickets.Keys
            && (|p.escalations| > n0 && TicketStored(store.tickets.Keys, ticket) ==>
                  Field(p.tickets[TicketKey(ticket).value], "escalationCount") == IncrementCount(Field(ticket, "escalationCount")))
    decreases |rules|
  {
    if rules != [] {
      var init := rules[..|rules| - 1];
      var rule := rules[|rules| - 1];
      assert forall r :: r in init ==> r in rules;
      PassFired(store, ticket, init, all, now, notifyOk);
      var s := Pass(store, ticket, init, now, notifyOk);
      if Fires(s, ticket, rule) {
        var p := Escalated(s, ticket, rule, now, notifyOk);
        assert p.escalations[..|store.escalations|] == s.escalations[..|store.escalations|];
        FiredKept(s.escalations, p.escalations, |store.escalations|, ticket, all, rule);
      }
    }
  }

  /** Appending an escalation created by `rule` keeps the earlier ones as they were fired and adds
      one that was fired too. */
  lemma FiredKept(escs: seq<Escalation>, escs': seq<Escalation>, n0: nat, ticket: Doc,
                  sorted: seq<EscalationRule>, rule: EscalationRule)
    requires n0 <= |escs| && |escs'| == |escs| + 1 && escs'[..|escs|] == escs
    requires forall k :: n0 <= k < |escs| ==> FiredFor(escs, k, ticket, sorted)
    requires rule in sorted && AllConditionsHold(ticket, rule.conditions)
    requires MayEscalate(escs, Field(ticket, "id"), rule.trigger)
    requires escs'[|escs|].ticketId == Field(ticket, "id") && escs'[|escs|].status == Active
    requires escs'[|escs|].escalationType == rule.trigger && escs'[|escs|].reason == "Escalación automática: " + rule.name
    ensures escs'[..n0] == escs[..n0]
    ensures forall k :: n0 <= k < |escs'| ==> FiredFor(escs', k, ticket, sorted)
  {
    forall k | n0 <= k < |escs'| ensures FiredFor(escs', k, ticket, sorted) {
      if k < |escs| {
        assert escs'[..k] == escs[..k];
        assert escs'[k] == escs[k];
        assert FiredFor(escs, k, ticket, sorted);
      } else {
        assert escs'[..k] == escs;
      }
    }
  }

  // ---------------------------------------------------------------------------------------------
  // Transitions

  /** `resolveEscalation(escalationId, resolution)`; a missing document makes the update fail. */
  function ResolveEscalation(store: Store, id: nat, resolution: string, now: int): (r: Store)
    ensures id >= |store.escalations| ==> r == store
    ensures id < |store.escalations| ==>
      && r.escalations == store.escalations[id := store.escalations[id].(status := Resolved, resolvedAt := Some(now), notes := resolution)]
      && r.tickets == store.tickets && r.assignments == store.assignments && r.tasks == store.tasks
  {
    if id < |store.escalations| then
      store.(escalations := store.escalations[id := store.escalations[id].(status := Resolved, resolvedAt := Some(now), notes := resolution)])
    else store
  }

  /** `cancelEscalation(escalationId, reason)`. */
  function CancelEscalation(store: Store, id: nat, reason: string, now: int): (r: Store)
    ensures id >= |store.escalations| ==> r == store
    ensures id < |store.escalations| ==>
      && r.escalations == store.escalations[id := store.escalations[id].(status := Cancelled, resolvedAt := Some(now), notes := reason)]
      && r.tickets == store.tickets && r.assignments == store.assignments && r.tasks == store.tasks
  {
    if id < |store.escalations| then
      store.(escalations := store.escalations[id := store.escalations[id].(status := Cancelled, resolvedAt := Some(now), notes := reason)])
    else store
  }

  /** Either transition takes the escalation out of the active ones for good, whatever its previous
      status, and no other escalation changes. */
  lemma ClosingEndsActivity(store: Store, id: nat, text: string, now: int, cancel: bool)
    requires id < |store.escalations|
    ensures var r := if cancel then CancelEscalation(store, id, text, now) else ResolveEscalation(store, id, text, now);
      && r.escalations[id].status == (if cancel then Cancelled else Resolved)
      && r.escalations[id].resolvedAt == Some(now) && r.escalations[id].notes == text
      && r.escalations[id].actions == store.escalations[id].actions
      && r.escalations[id].ticketId == store.escalations[id].ticketId
      && (forall j :: 0 <= j < |store.escalations| && j != id ==> r.escalations[j] == store.escalations[j])
      && ActiveEscalationOf(r.escalations, store.escalations[id].ticketId) != Some(r.escalations[id])
  {
  }

  // ---------------------------------------------------------------------------------------------
  // Statistics

  function CountStatus(escs: seq<Escalation>, status: EscalationStatus): (n: nat)
    ensures n <= |escs|
  {
    if escs == [] then 0 else (if escs[0].status == status then 1 else 0) + CountStatus(escs[1..], status)
  }

  /** Every escalation has exactly one of the three statuses. */
  lemma {:induction false} StatusCountsPartition(escs: seq<Escalation>)
    ensures CountStatus(escs, Active) + CountStatus(escs, Resolved) + CountStatus(escs, Cancelled) == |escs|
  {
    if escs != [] {
      StatusCountsPartition(escs[1..]);
    }
  }

  datatype EscalationStats = EscalationStats(
    totalEscalations: nat,
    activeEscalations: nat,
    resolvedEscalations: nat,
    byType: Tally.Tally,
    byReason: Tally.Tally,
    averageResolutionTime: int)

  function TypesOf(escs: seq<Escalation>): (ts: seq<string>)
    ensures |ts| == |escs| && forall i :: 0 <= i < |escs| ==> ts[i] == escs[i].escalationType
  {
    seq(|escs|, i requires 0 <= i < |escs| => escs[i].escalationType)
  }

  function ReasonsOf(escs: seq<Escalation>): (ts: seq<string>)
    ensures |ts| == |escs| && forall i :: 0 <= i < |escs| ==> ts[i] == escs[i].reason
  {
    seq(|escs|, i requires 0 <= i < |escs| => escs[i].reason)
  }

  /** `getEscalationStats()` over the escalations read from the database. */
  method GetEscalationStats(escs: seq<Escalation>) returns (stats: EscalationStats)
    ensures stats.totalEscalations == |escs|
    ensures stats.activeEscalations == CountStatus(escs, Active)
    ensures stats.resolvedEscalations == CountStatus(escs, Resolved)
    ensures stats.activeEscalations + stats.resolvedEscalations <= stats.totalEscalations
    ensures stats.byType == Tally.TallyOf(TypesOf(escs)) && stats.byReason == Tally.TallyOf(ReasonsOf(escs))
    ensures Tally.Total(stats.byType) == stats.totalEscalations
    ensures Tally.Total(stats.byReason) == stats.totalEscalations
  {
    ghost var types, reasons := TypesOf(escs), ReasonsOf(escs);
    var byType: Tally.Tally := [];
    var byReason: Tally.Tally := [];
    for i := 0 to |escs|
      invariant byType == Tally.TallyOf(types[..i])
      invariant byReason == Tally.TallyOf(reasons[..i])
    {
      Tally.TallyOfStep(types, i);
      Tally.TallyOfStep(reasons, i);
      byType := Tally.Bump(byType, escs[i].escalationType);
      byReason := Tally.Bump(byReason, escs[i].reason);
    }
    assert types[..|escs|] == types && reasons[..|escs|] == reasons;
    Tally.TallyOfTotal(types);
    Tally.TallyOfTotal(reasons);
    StatusCountsPartition(escs);
    stats := EscalationStats(|escs|, CountStatus(escs, Active), CountStatus(escs, Resolved), byType, byReason, 0);
  }
}
