# Ticket routing, escalation, project phases and live collaboration: a Dafny model

This project models the rule-driven core of a support dashboard: automatic ticket assignment, ticket escalation, the phase bookkeeping of the project detail view and the helpers of the real-time collaboration panel. It proves those models' properties in Dafny.

- **TicketAssignment** (`assignment.dfy`) is the assignment service. It covers:
  - agent workloads and the availability classifier (offline after 30 minutes without activity, busy above 5 active tickets);
  - the four selection strategies: round robin, least busy with an optional workload cap, expertise match, and specific user or team;
  - rule selection: active rules only, highest priority first, the first rule that applies and yields an agent wins, with least busy as the fallback;
  - the recording of an assignment and the statistics.
  
  The service is a class. Its workload map is a field, kept as a key-unique sequence in insertion order, as a JavaScript `Map` iterates.
- **TicketEscalation** (`escalation.dfy`) is the escalation service. It covers:
  - rule ordering (priority descending, then escalation level ascending);
  - the de-duplication against the ticket's active escalation;
  - the escalation record, whose action list gets one pending entry per action, and that entry is then patched to completed or failed;
  - the per-action parameter checks, the optional task's defaults, the ticket's `escalationCount`;
  - the resolve and cancel transitions and the statistics.
  
  The database is a `Store` value that operations take and return, and an escalation's id is its index.
- **ProjectDetails** (`project_phases.dfy`) is the project detail view. It covers:
  - expand/collapse toggling of phase and task panels;
  - the admin- and input-guarded handlers that change a phase's state, add, edit and delete phases;
  - the per-phase and per-project progress percentages, the status colour tables and the metric counters.
  
  The component's state is a class.
- **Collaboration** (`collaboration.dfy`) is the collaboration panel. It covers:
  - `formatTime`;
  - the join-or-create logic for a project's session;
  - presence and cursor colours;
  - the stats tick and the three toggles.
  
  The panel's state is a class.
- **Shared modules.**
  - `documents.dfy` holds the Firestore-style values and documents, plus the condition evaluator. That evaluator has the same text in both ticket services, so one definition serves both.
  - `text.dfy` holds decimal rendering, `padStart`, `includes` and `trim`.
  - `sorting.dfy` holds `Array.prototype.sort` as a stable insertion sort by a strict weak order. This determines which element comes first among ties.
  - `tally.dfy` holds `Record<string, number>` counters.
  - `wrappers.dfy` holds `Option`.

Database reads become parameters, such as the last assignment, team memberships, an agent's tickets and user document, the sessions of the project, and the notification service's answer. Writes become returned values or updated fields. Times are integers: milliseconds in the ticket services, seconds in `formatTime`.

## Model

| member | source | states |
|---|---|---|
| Documents.Or | src/lib/ticketEscalation.ts:298 | `a \|\| b` is one of its operands, truthy exactly when either operand is, and the first one whenever that one is truthy |
| Documents.IncrementCount | src/lib/ticketEscalation.ts:197 | `(count \|\| 0) + 1`: a falsy count becomes 1, a number grows by one |
| Documents.NotEqualsNegatesEquals | src/lib/ticketAssignment.ts:368-371 | `not_equals` holds exactly when `equals` does not, for the same field and value |
| Documents.MembershipOperators | src/lib/ticketAssignment.ts:379-384 | `in` holds iff the condition value is a list that contains the field value; `not_in` is false whenever the value is not a list and otherwise negates `in`; an unknown operator is false |
| Documents.ComparisonsExclusive | src/lib/ticketAssignment.ts:375-378 | `greater_than` and `less_than` never both hold, and neither holds when either side is not a number |
| Documents.EqualsImpliesContains | src/lib/ticketAssignment.ts:369-374 | a field strictly equal to the value also `contains` it, because both render to the same string |
| Documents.StrictEqualsSameString | src/lib/ticketAssignment.ts:374 | strictly equal values have the same `String(...)` rendering |
| Documents.NumberOfRenderedInt | src/lib/ticketAssignment.ts:376 | `Number(String(n))` is `n` for every integer |
| Documents.NoConditionsAlwaysHold | src/lib/ticketEscalation.ts:153-155 | a rule with no conditions applies to every ticket |
| Text.NatToStringRoundTrip | src/components/RealTimeCollaboration.tsx:409 | reading the decimal rendering of `n` back gives `n` |
| Text.IntToString | src/lib/ticketAssignment.ts:374 | `String(i)` starts with `-` exactly when `i` is negative, and the digits after the sign read back as the magnitude of `i` |
| Text.PadStart2 | src/components/RealTimeCollaboration.tsx:409 | `padStart(2, '0')` is at least two characters long, and ends with the input after leading zeros |
| Text.Includes | src/lib/ticketAssignment.ts:374 | `s.includes(t)` iff `t` occurs in `s` at some position |
| Text.Trim | src/components/VerDetallesProyecto.tsx:358 | the trimmed string neither starts nor ends with whitespace |
| Text.TrimDropsOnlyEnds | src/components/VerDetallesProyecto.tsx:358 | `trim()` is a slice `s[i..j]` of its input, and every character outside the slice is whitespace |
| Text.TrimEmptyIffBlank | src/components/VerDetallesProyecto.tsx:358 | `trim()` is empty iff every character is whitespace |
| Sorting.SortBy | src/lib/ticketAssignment.ts:295 | the sort is a permutation of its input |
| Sorting.SortBySorted | src/lib/ticketAssignment.ts:295 | the sort orders its result by any strict weak order |
| Sorting.SortByHead | src/lib/ticketAssignment.ts:297 | `sorted[0]` is the leftmost input element that nothing comes strictly before |
| Tally.BumpSpec | src/lib/ticketAssignment.ts:446-447 | `t[k] = (t[k] \|\| 0) + 1` adds one under `k`, keeps other counts, and adds `k` last if it is new |
| Tally.TallyOfTotal | src/lib/ticketEscalation.ts:535-538 | the counts of a dictionary filled one increment per item sum to the number of items |
| Tally.TallyOfGet | src/lib/ticketAssignment.ts:445-448 | each key's count is its number of occurrences |
| Tally.TallyOfKeys | src/lib/ticketAssignment.ts:445-448 | the keys are exactly the items seen, each once |
| TicketAssignment.DetermineAvailability | src/lib/ticketAssignment.ts:186-200 | offline iff `lastActivity` is missing or more than 30 minutes old; otherwise busy iff more than 5 active tickets; otherwise available |
| TicketAssignment.ActiveAndResolvedFitInTotal | src/lib/ticketAssignment.ts:121-148 | active and resolved tickets are disjoint, so together they fit in the total |
| TicketAssignment.CalculateAgentWorkload | src/lib/ticketAssignment.ts:118-171 | the workload is `WorkloadOf` the agent's tickets and user document: the active-ticket count, the total, the resolution-time sum and count from the loop, the availability, and `email`, `displayName`, `expertise`, `lastActivity` and `rating` with their defaults `''`, `''`, `[]`, now and 0 |
| TicketAssignment.Lookup | src/lib/ticketAssignment.ts:489 | `get(id)` finds a workload iff `id` is a key, and that workload has that id |
| TicketAssignment.UpsertLookup | src/lib/ticketAssignment.ts:421 | after `set(w.userId, w)` the key maps to `w` and every other key maps to what it did |
| TicketAssignment.UpsertKeepsUnique | src/lib/ticketAssignment.ts:109 | `set` keeps the keys unique |
| TicketAssignment.RoundRobinPool | src/lib/ticketAssignment.ts:254-258 | the candidates are exactly the target users that have a workload that is not offline |
| TicketAssignment.IndexOf | src/lib/ticketAssignment.ts:273 | `indexOf` is -1 iff absent, and otherwise the first position of the element |
| TicketAssignment.RoundRobinNext | src/lib/ticketAssignment.ts:268-277 | the step over the candidates yields none iff there are none, and otherwise a candidate |
| TicketAssignment.RoundRobinAssignment | src/lib/ticketAssignment.ts:252-282 | null iff no candidate is online; otherwise a known, not offline candidate |
| TicketAssignment.RoundRobinStarts | src/lib/ticketAssignment.ts:269-277 | the step over the candidates (which `RoundRobinAssignment` applies) picks the first candidate when there is no last assignment or the last assignee is not a candidate |
| TicketAssignment.RoundRobinRotates | src/lib/ticketAssignment.ts:272-277 | otherwise the candidate after the last assignee is chosen, wrapping around `(i + 1) mod n` |
| TicketAssignment.LeastBusyPool | src/lib/ticketAssignment.ts:287-294 | the pool holds exactly the known target agents that are not offline and, with a non-zero cap, under it |
| TicketAssignment.LeastBusyChoice | src/lib/ticketAssignment.ts:285-302 | null iff the pool is empty; otherwise the pool's first agent with the fewest active tickets |
| TicketAssignment.LeastBusyRespectsCap | src/lib/ticketAssignment.ts:290-293 | the chosen agent is known, not offline, a target user, and under a non-zero cap |
| TicketAssignment.RequiredExpertise | src/lib/ticketAssignment.ts:307 | the skills asked for are exactly the rule's `expertise`, or the ticket's category alone when the rule names none |
| TicketAssignment.MatchCount | src/lib/ticketAssignment.ts:315 | the number of matches is positive iff the agent has one of the required skills |
| TicketAssignment.ExpertPool | src/lib/ticketAssignment.ts:308-312 | the pool holds exactly the not-offline agents with at least one required skill |
| TicketAssignment.ExpertOrderIsStrictWeakOrder | src/lib/ticketAssignment.ts:313-322 | the expertise comparator is a consistent order, so `sort` respects it |
| TicketAssignment.ExpertiseChoice | src/lib/ticketAssignment.ts:305-330 | null iff no agent qualifies; otherwise a not-offline agent with a required skill; no qualifier has more matches, and none with as many has fewer active tickets |
| TicketAssignment.TeamMembers | src/lib/ticketAssignment.ts:339-344 | the team's member ids are those of its `teamMembers` documents |
| TicketAssignment.TeamAssignment | src/lib/ticketAssignment.ts:333-351 | no team gives null; otherwise least busy among the team's members with no cap |
| TicketAssignment.ActiveRules | src/lib/ticketAssignment.ts:207 | exactly the active rules are kept |
| TicketAssignment.SortedRulesOrder | src/lib/ticketAssignment.ts:206-208 | the rules tried are the active ones, each once, in non-increasing priority |
| TicketAssignment.FirstWhere | src/lib/ticketAssignment.ts:210-223 | the index found satisfies the test and none before it does; none found means none does |
| TicketAssignment.FindFirst | src/lib/ticketAssignment.ts:210-223 | the loop with the early return finds exactly that first index |
| TicketAssignment.FirstWhereAt | src/lib/ticketAssignment.ts:210-223 | after a run of failures, the next success is the first |
| TicketAssignment.FirstFiring | src/lib/ticketAssignment.ts:210-223 | the index of the first rule whose conditions hold and whose strategy yields an agent |
| TicketAssignment.AssignmentRecordFor | src/lib/ticketAssignment.ts:391-399 | the assignment document names the ticket, the agent, `system`, the rule type and the time |
| TicketAssignment.AvailableAgents | src/lib/ticketAssignment.ts:481-485 | exactly the available agents, a permutation of them, by non-decreasing active tickets |
| TicketAssignment.AssignmentStatsOf | src/lib/ticketAssignment.ts:428-455 | the totals, and `byType`/`byAgent` as the counts of each assignment's type and agent |
| TicketAssignment.AssignmentStatsTotals | src/lib/ticketAssignment.ts:445-448 | `byType` and `byAgent` each sum to the number of assignments; `byType[k]` counts type `k` |
| TicketAssignment.AssignmentService.constructor | src/lib/ticketAssignment.ts:85-115 | the service starts with the loaded rules and workloads |
| TicketAssignment.AssignmentService.SetWorkload | src/lib/ticketAssignment.ts:418-425 | `set` maps the id to the new workload, leaves other ids alone and keeps ids unique |
| TicketAssignment.AssignmentService.GetAgentWorkload | src/lib/ticketAssignment.ts:488-490 | the workload of a known id, otherwise null |
| TicketAssignment.AssignmentService.GetAvailableAgents | src/lib/ticketAssignment.ts:481-485 | exactly the available agents, by non-decreasing active tickets |
| TicketAssignment.AssignmentService.RecordAssignment | src/lib/ticketAssignment.ts:389-415 | the assignment document is produced; the agent's entry becomes `WorkloadOf` what the database holds for it after the write, a new agent going last, and no other agent changes |
| TicketAssignment.AssignmentService.AutoAssignTicket | src/lib/ticketAssignment.ts:203-231 | the first firing rule decides and is recorded, and the chosen agent's workload is recalculated from its tickets and user document with no other agent changed; with no firing rule, least busy over all agents decides and nothing is recorded |
| TicketAssignment.AssignmentService.GetAssignmentStats | src/lib/ticketAssignment.ts:428-455 | `byType` and `byAgent` each sum to `totalAssignments` |
| TicketEscalation.ActiveRules | src/lib/ticketEscalation.ts:143 | exactly the active rules are kept |
| TicketEscalation.RuleBeforeIsStrictWeakOrder | src/lib/ticketEscalation.ts:144-149 | the escalation comparator is a consistent order |
| TicketEscalation.SortedRulesOrder | src/lib/ticketEscalation.ts:142-149 | the active rules each once, by priority descending and then escalation level ascending |
| TicketEscalation.ActiveEscalationOf | src/lib/ticketEscalation.ts:472-491 | the first active escalation of the ticket (no active one of the ticket comes before it), and none iff the ticket has none |
| TicketEscalation.MayEscalateCases | src/lib/ticketEscalation.ts:159-163 | with no active escalation every rule may fire; otherwise the ticket's first active escalation, wherever it is, blocks exactly its own trigger |
| TicketEscalation.OnlyFirstActiveIsCompared | src/lib/ticketEscalation.ts:159-163 | an active escalation of the ticket with the rule's trigger does not block the rule when the ticket's first active escalation has another trigger |
| TicketEscalation.SetField | src/lib/ticketEscalation.ts:299-303 | `updateDoc` changes one field of one stored document |
| TicketEscalation.AssignAction | src/lib/ticketEscalation.ts:295-324 | succeeds iff `userId \|\| team` is given and the ticket exists; then sets `assignedTo` to `userId` if truthy, else `team`, and logs an `escalation` assignment; a failure changes nothing |
| TicketEscalation.UpdateStageAction | src/lib/ticketEscalation.ts:327-345 | succeeds iff a stage is given and the ticket exists; then sets the stage; a failure changes nothing |
| TicketEscalation.UpdatePriorityAction | src/lib/ticketEscalation.ts:348-366 | succeeds iff the priority is `low`, `medium`, `high` or `critical` and the ticket exists |
| TicketEscalation.TaskFor | src/lib/ticketEscalation.ts:369-388 | a given title, description, assignee, priority and due date are kept, each missing one becomes the ticket's default; due in one day by default; status `pending` |
| TicketEscalation.RunAction | src/lib/ticketEscalation.ts:234-253 | the action's result, and the store it leaves: a successful ticket action sets its field and `updatedAt`, a successful reassignment is logged, `create_task` appends its task, and nothing else is written |
| TicketEscalation.FinishedAction | src/lib/ticketEscalation.ts:256-261 | the patched entry is completed iff the result is true, otherwise failed, never pending |
| TicketEscalation.WithActions | src/lib/ticketEscalation.ts:229-230 | that escalation's `actions` are replaced; its other fields, the other escalations and the rest of the store are unchanged |
| TicketEscalation.ExecuteEscalationAction | src/lib/ticketEscalation.ts:211-268 | exactly one entry is appended to that escalation and patched with the result, other escalations are untouched, and the rest of the store is what `RunAction` leaves; a missing escalation changes nothing |
| TicketEscalation.AfterActionsAppends | src/lib/ticketEscalation.ts:191-193 | a rule's actions append one task per `create_task` action and one assignment document per successful `assign` action, in order, and keep the earlier documents |
| TicketEscalation.NewEscalation | src/lib/ticketEscalation.ts:175-185 | the new record is active, with no actions, the rule's trigger and description, and the ticket's assignee as `escalatedFrom` |
| TicketEscalation.Escalated | src/lib/ticketEscalation.ts:172-208 | the escalations gain exactly the finished record; a stored ticket gets the incremented count, `lastEscalation` and `updatedAt`; for an unknown ticket no count changes |
| TicketEscalation.FinishedActions | src/lib/ticketEscalation.ts:191-193 | one finished entry per configured action, in order |
| TicketEscalation.RunActions | src/lib/ticketEscalation.ts:191-193 | the loop appends exactly those entries to the escalation, leaves the other escalations as they were, and leaves the rest of the store as the actions, one after the other, write it |
| TicketEscalation.ExecuteEscalation | src/lib/ticketEscalation.ts:172-208 | the store becomes `Escalated`: one new escalation with the actions' entries, the actions' writes, and the ticket's `escalationCount` set to the snapshot's count (missing is 0) plus one |
| TicketEscalation.EscalationService.constructor | src/lib/ticketEscalation.ts:96-107 | the service starts with the loaded rules |
| TicketEscalation.EscalationService.CheckTicketEscalation | src/lib/ticketEscalation.ts:139-169 | the result is `Pass` over the sorted active rules, so every rule that fires at its turn escalates (`PassStep`); only new escalations are added, each from a rule whose conditions hold and that the active escalations did not block; no escalation means nothing changed |
| TicketEscalation.PassStep | src/lib/ticketEscalation.ts:151-165 | rule `i` adds an escalation exactly when its conditions hold and the store left by the rules before it does not block it; that escalation is active, for the ticket, with the rule's trigger, reason and one entry per action; otherwise nothing changes |
| TicketEscalation.PassFired | src/lib/ticketEscalation.ts:151-165 | every escalation a pass adds was fired by one of its rules, unblocked at its turn; earlier escalations are kept; once a rule fires, a stored ticket's count is one above the snapshot's |
| TicketEscalation.FiredKept | src/lib/ticketEscalation.ts:151-165 | each loop step keeps the earlier escalations as fired and adds a fired one |
| TicketEscalation.ResolveEscalation | src/lib/ticketEscalation.ts:494-504 | status `resolved`, `resolvedAt` and the notes set on that escalation only; a missing id changes nothing |
| TicketEscalation.CancelEscalation | src/lib/ticketEscalation.ts:507-517 | status `cancelled`, `resolvedAt` and the notes set on that escalation only; a missing id changes nothing |
| TicketEscalation.ClosingEndsActivity | src/lib/ticketEscalation.ts:494-517 | after either transition the escalation is no longer the ticket's active escalation, and its actions are kept |
| TicketEscalation.StatusCountsPartition | src/lib/ticketEscalation.ts:526-529 | active, resolved and cancelled counts add up to the total |
| TicketEscalation.GetEscalationStats | src/lib/ticketEscalation.ts:520-545 | active plus resolved is at most the total, and `byType` and `byReason` each sum to the total |
| ProjectDetails.Toggled | src/components/VerDetallesProyecto.tsx:179-187 | exactly the given key changes membership |
| ProjectDetails.ToggledTwice | src/components/VerDetallesProyecto.tsx:179-197 | toggling twice restores the set |
| ProjectDetails.WithEstado | src/components/VerDetallesProyecto.tsx:205-216 | phases with the key get the new state and change record, and others are unchanged |
| ProjectDetails.WithEstadoOnlyMatching | src/components/VerDetallesProyecto.tsx:205-216 | keys and order are kept, and a key that is absent changes nothing |
| ProjectDetails.Edited | src/components/VerDetallesProyecto.tsx:414-428 | on matching phases only, the description, dates and state are replaced and the modification is recorded |
| ProjectDetails.EditedKeepsKeys | src/components/VerDetallesProyecto.tsx:414-428 | editing keeps the keys and their order |
| ProjectDetails.Deleted | src/components/VerDetallesProyecto.tsx:468 | exactly the phases with another key remain |
| ProjectDetails.DeletedAppend | src/components/VerDetallesProyecto.tsx:468 | deletion keeps the remaining phases in order |
| ProjectDetails.DeletedTwice | src/components/VerDetallesProyecto.tsx:468 | deleting twice is deleting once |
| ProjectDetails.NewFase | src/components/VerDetallesProyecto.tsx:363-373 | the new phase has the form's description, dates and state, the creator, the creation time, a time-based key, empty tasks and comments, and no change records |
| ProjectDetails.AddedPhaseGoesLast | src/components/VerDetallesProyecto.tsx:375 | the new phase is appended last, and the earlier phases are a prefix |
| ProjectDetails.FindFase | src/components/VerDetallesProyecto.tsx:542 | `find` by key: the first phase with the key, and none iff no phase has it |
| ProjectDetails.CountsPartition | src/components/VerDetallesProyecto.tsx:986-1009 | completed plus not-completed tasks are all tasks |
| ProjectDetails.CountStatusAll | src/components/VerDetallesProyecto.tsx:545 | the completed count equals the total iff every task is completed |
| ProjectDetails.RoundPercentRange | src/components/VerDetallesProyecto.tsx:546 | a rounded percentage of a part is in 0..100, and is 100 for the whole and 0 for nothing |
| ProjectDetails.RoundPercentIncomplete | src/components/VerDetallesProyecto.tsx:546 | with fewer than 200 tasks, an incomplete phase stays under 100 |
| ProjectDetails.RoundPercentRoundsUpToFull | src/components/VerDetallesProyecto.tsx:546 | with 1000 tasks of which 999 are completed, the rounding shows 100 |
| ProjectDetails.PhaseProgressRange | src/components/VerDetallesProyecto.tsx:541-547 | 0 without the phase or its tasks; at most 100; 100 when all tasks are completed, and (under 200 tasks) only then |
| ProjectDetails.ProgressSumBound | src/components/VerDetallesProyecto.tsx:552-554 | the sum of the phase progresses is at most 100 per phase |
| ProjectDetails.ProjectProgressRange | src/components/VerDetallesProyecto.tsx:549-557 | 0 without phases, otherwise a rounded mean of at most 100 |
| ProjectDetails.ColorIn | src/components/VerDetallesProyecto.tsx:559-567 | the colour of the first matching entry, or `bg-gray-500` when none matches |
| ProjectDetails.StatusColorTable | src/components/VerDetallesProyecto.tsx:559-562 | each phase state of `ESTADOS_FASE` gets its table colour, and any other state the default |
| ProjectDetails.TareaStatusColorTable | src/components/VerDetallesProyecto.tsx:564-567 | each task status of `ESTADOS_TAREA` gets its table colour, and any other status the default |
| ProjectDetails.MetricasOf | src/components/VerDetallesProyecto.tsx:940-1021 | completed plus pending is the task total; completed, in-progress and blocked fit in it; finished phases fit in the phase count; progress is at most 100 |
| ProjectDetails.StatusesDisjoint | src/components/VerDetallesProyecto.tsx:1009-1021 | the three status counters together never exceed the task count |
| ProjectDetails.AllTareasAppend | src/components/VerDetallesProyecto.tsx:942 | the metrics' tasks are each phase's tasks in turn |
| ProjectDetails.ProjectView.constructor | src/components/VerDetallesProyecto.tsx:86-123 | the view starts with the project copied locally, nothing expanded and empty forms |
| ProjectDetails.ProjectView.ToggleFase | src/components/VerDetallesProyecto.tsx:179-187 | only the expanded-phase set changes, by toggling the key |
| ProjectDetails.ProjectView.ToggleTareas | src/components/VerDetallesProyecto.tsx:189-197 | only the expanded-task set changes, by toggling the key |
| ProjectDetails.ProjectView.HandleEstadoFase | src/components/VerDetallesProyecto.tsx:199-239 | a non-admin, or a project with no id, changes nothing; otherwise a successful write sets the matching phases' state and reports the project |
| ProjectDetails.ProjectView.HandleAgregarFase | src/components/VerDetallesProyecto.tsx:357-406 | a blank description or a non-admin changes nothing; otherwise a successful write appends the phase and clears the form, a failed one keeps the phases and the form, and `loading` ends false either way |
| ProjectDetails.ProjectView.HandleEditarFase | src/components/VerDetallesProyecto.tsx:408-460 | guarded like the others; a successful write edits the matching phases and leaves edit mode, a failed one keeps the phases and edit mode, and `loading` ends false either way |
| ProjectDetails.ProjectView.HandleEliminarFase | src/components/VerDetallesProyecto.tsx:462-491 | guarded like the others; a successful write removes the phases with the key, a failed one keeps them, and `loading` ends false either way |
| Collaboration.SplitFormatTime | src/components/RealTimeCollaboration.tsx:403-412 | the colon fields of `formatTime(s)` are the hours (if any), minutes and seconds of `s` |
| Collaboration.FormatTimeFields | src/components/RealTimeCollaboration.tsx:403-412 | `H:MM:SS` (three fields) from one hour on, `M:SS` below; the padded fields are two digits below 60 |
| Collaboration.FormatTimeRoundTrip | src/components/RealTimeCollaboration.tsx:403-412 | reading the clock back gives `s`, i.e. `hours*3600 + minutes*60 + secs = s` |
| Collaboration.NewSession | src/components/RealTimeCollaboration.tsx:224-245 | a new session has exactly the user as participant, is active, and has every sharing flag off |
| Collaboration.Joined | src/components/RealTimeCollaboration.tsx:251-263 | the user is a participant afterwards, the old participants are kept in order, and an existing member changes nothing |
| Collaboration.JoinedMembers | src/components/RealTimeCollaboration.tsx:251-263 | the participants are the old ones plus the user, with no new duplicate |
| Collaboration.JoinedTwice | src/components/RealTimeCollaboration.tsx:251-263 | joining twice is joining once |
| Collaboration.ActiveSessionIndex | src/components/RealTimeCollaboration.tsx:211-221 | the first active session of the project, or none iff there is none |
| Collaboration.JoinOrCreate | src/components/RealTimeCollaboration.tsx:219-263 | no active session creates one and appends it; otherwise the user joins the first one |
| Collaboration.JoinOrCreateTwice | src/components/RealTimeCollaboration.tsx:219-263 | initializing again for the same user changes nothing |
| Collaboration.JoinOrCreateTouchesOne | src/components/RealTimeCollaboration.tsx:246-263 | joining rewrites only the joined session's participants |
| Collaboration.CursorFor | src/components/RealTimeCollaboration.tsx:277-286 | admins get role `admin` and `#ef4444`, everyone else role `client` and `#3b82f6` |
| Collaboration.PresenceStatusColor | src/components/RealTimeCollaboration.tsx:415-423 | gray iff the status is not `available`, `busy` or `away` |
| Collaboration.PresenceColorsDistinct | src/components/RealTimeCollaboration.tsx:415-423 | the presence statuses map to distinct colours, with `offline` gray |
| Collaboration.CollaborationPanel.constructor | src/components/RealTimeCollaboration.tsx:90-102 | the panel's initial state |
| Collaboration.CollaborationPanel.InitializeSession | src/components/RealTimeCollaboration.tsx:207-271 | no project or no user changes nothing; otherwise the join-or-create result becomes the session |
| Collaboration.CollaborationPanel.OnPresenceSnapshot | src/components/RealTimeCollaboration.tsx:162-168 | the online users are replaced, and `totalParticipants` is their number |
| Collaboration.CollaborationPanel.Tick | src/components/RealTimeCollaboration.tsx:335-342 | with a session, `activeTime` grows by exactly one, and the other stats are unchanged |
| Collaboration.CollaborationPanel.ToggleCursorSharing | src/components/RealTimeCollaboration.tsx:353-368 | the flag flips, and the session document's `sharedCursor` is written with the new flag |
| Collaboration.CollaborationPanel.TogglePresenceVisibility | src/components/RealTimeCollaboration.tsx:371-379 | only the presence flag flips |
| Collaboration.CollaborationPanel.ToggleNotifications | src/components/RealTimeCollaboration.tsx:382-390 | only the notification flag flips |
| Collaboration.SetSharedCursor | src/components/RealTimeCollaboration.tsx:356-358 | the sessions with the id get the flag, and others are unchanged |
| Collaboration.SetSharedCursorIdempotent | src/components/RealTimeCollaboration.tsx:356-358 | writing the same flag twice is writing it once |

## Left out

- Database access:
  - Every Firestore call (`getDocs`, `getDoc`, `addDoc`, `updateDoc`, `setDoc`, `onSnapshot`, `serverTimestamp`) is out. Its results are parameters, and its writes are returned or stored values.
  - Query results are taken in insertion order. The "first active escalation" and the "first active session" are the earliest in the store.
- Failures:
  - Thrown errors and the `catch` blocks that log and return `null` are modelled only as a missing document, an out-of-range escalation id, or `writeOk == false` in the project view.
- External services:
  - The notification service's answer to `notify` is the parameter `notifyOk`. The escalation notifications sent after an escalation (`sendEscalationNotifications`), the e-mail action's logging, toasts and the clipboard are external effects with no state of their own.
- Timers and loading:
  - The 5-minute escalation monitor and the 1-second stats timer are out; one pass is `CheckTicketEscalation` and one tick is `Tick`.
  - The constructors' asynchronous loads (`loadEscalationRules`, `loadAgentWorkloads`) are constructor parameters.
- Numbers:
  - `averageResolutionTime` is a floating-point quotient in the source; the model keeps its sum and count, and the statistics report 0 as the source does.
  - `Number(...)` is modelled on integers and decimal integer strings; other strings and values count as not a number.
  - `trim` and `includes` work on characters with an approximate whitespace set; there is no Unicode normalisation.
  - `Math.round(c / n * 100)` is the exact round-half-up, with no floating-point error.
- Dictionary order:
  - JavaScript's own ordering of integer-like property names in `byType`, `byAgent` and `byReason` is not modelled; keys stay in insertion order.
- Ticket assignment:
  - `recordAssignment`'s `updateDoc` of the ticket (`assignedTo`, `assignedAt`, `updatedAt`) has no ticket store here. Only the `ticketAssignments` document and the workload update are modelled.
  - `reassignTicket` is not part of this model.
- Escalation:
  - `escalationCount` is written from the ticket snapshot taken before the pass, as the source does. Several rules firing in one pass therefore raise it by one, not by their number.
  - De-duplication compares the rule only with the ticket's first active escalation, as the source does.
  - The `notify` action's answer is one parameter `notifyOk` for every `notify` action of a pass, so one notification failing while another succeeds is not expressed.
  - The `activeEscalations` field is never read and is left out.
- Project view:
  - `iniciarEdicionFase`, comments, tasks, and the rest of the rendering are outside this core.
  - Firestore's rejection of `undefined` fields is not modelled.
- Collaboration:
  - Cursor listeners and mouse events, `copySessionLink`, the cleanup effects and the connection flags are out. The cursor feed from `cursorPositions` is out as well.
  - The session's `startTime` server timestamp is the parameter `now`.
  - As in the source, `toggleCursorSharing` does not update the local session copy.
  - The failure of `updateDoc` when the session document is gone is not modelled.
- ProjectDetails.PhaseProgressRange: "100 only when all tasks are completed" is proved for fewer than 200 tasks. From 200 tasks on, the round-half-up rounding shows 100 with one task left (`RoundPercentRoundsUpToFull`).
- ExecuteEscalation: the record is stored with `escalatedFrom` `undefined` when the ticket is unassigned. With Firestore's default settings `addDoc` rejects such a document, and then no action runs and the count is not raised. The Firestore initialisation, where `ignoreUndefinedProperties` would be set, is not part of this model, so that failure is not modelled.
- TaskFor: likewise, a task whose `assignedTo` or `priority` is `undefined` (no parameter and no value on the ticket) is stored as such; its rejection by `addDoc` is not modelled.
