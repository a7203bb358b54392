# Declarative state, sessions and bootstrap of OutlabsAuth

This project models the administrative side of OutlabsAuth in Dafny and proves what its operators rely on.

**Declarative state** (`outlabs_auth/cli_support/declarative.py`) is the core: a small compiler and executor. A manifest
is validated, the remote state is read and compared field by field, entities are put into parent-first order, and a plan
of operations is written in which ids that do not exist yet appear as placeholders. Before a plan is applied its digests
are checked again; then its operations are sent one after the other, placeholders being replaced by the ids of what has
been created on the way.

- `Text`, `Sorting`, `JsonValues`, `Outcomes`, `Indexing`: strings as Python orders and folds them, stable sorting, JSON
  values with their canonical form, dictionaries built from lists.
- `ParentForest`, `LevelOrder`: parent links, depth, cycles (with the pigeonhole argument), and the round-by-round order.
- `Validation`, `Manifests`, `EntityOrder`, `DeleteDepth`, `DeleteOrder`, `RemoteStore`, `Planner`, `PlanShape`: from the
  document to the plan.
- `Executor`, `Drift`, `ApplyPlan`, `StartingIds`: placeholders, the drift check, the server as a store, the application of
  a plan and what it knows from the start.
- `SnapshotFacts`, `References`, `ReferenceSafety`, `RunFacts`, `RunOfPlan`, `FinalState`: what a read shows, what a
  placeholder can refer to, what every state of a run keeps.
- `ResolutionExactness`, `LiteralPlaceholder`: exactly which placeholders resolve, known before anything is sent.
- `Convergence`, `FinalMemberships`, `SecondPlan`, `SecondMemberships`, `MembershipsAgain`, `SecondApply`,
  `ApplyTheorems`: a complete application reaches the declared state, and exactly when planning
  again finds nothing to do.
- `PlanErrors`, `PlanFailures`, `DeclaredState`: when planning succeeds, what an error and what an empty plan mean, said of
  manifest and store alone.
- `PlannedRequests`, `PlanExactness`, `PlanOrder`, `RoleEntities`: a plan is exactly what manifest and store call for,
  request by request and in which order, and the entities a created role ends with.
- `DriftExactness`: the drift check lets through exactly the unchanged plans, and reports exactly what has changed.
- `IntermediateForests`, `ForestStages`, `UndeclaredBetween`: exactly when the stored entities form a forest at every
  point of a run.
- `Recovery`: wherever an apply stops, a fresh plan can be made, and completing it reaches the declared state.

**The others**: `ClosureTable` (an ancestor index), `RemoteSession` (tokens, refreshing, the one-shot retry),
`Paging` (listings put back together), `Bootstrap`, `BootstrapRun` and `BootstrapExactness` (classification,
retries, seeding, doctor, idempotence, which runs succeed), `TokenFreshness` (timestamps of a token).

## How the remote side is modelled

The remote API is a store of rows by id (memberships by entity and user). A creation stores the submitted fields under
an id that no row bears or mentions, an update or move overwrites fields, a deletion removes the row; the server may
refuse any request, and it may leave the id out of its answer. SHA-256 is injective: a digest is the canonical value of
each field of the row. `casefold` is ASCII lower-casing.

Hypotheses of the theorems, each a predicate a caller could evaluate beforehand: identities that differ after folding
(`FoldDistinct`), no '@' in slugs (`PlainSlugs`, `PlainMembershipNames`, `ValidRow`), no present item that refers to a
declared-absent one (`NoAbsentReferences`), rows with ids and usable, distinct identities (`ValidRemote`), references
between rows that are ids or null (`PlainReferences`).

## What turned out not to hold as stated

- Identities are compared as written when duplicates are looked for, but every dictionary is keyed by the folded
  identity. Of two slugs that differ only in case one item silently disappears: `EntityOrder.CaseCollisionDropsItem`
  shows it for "a" and "A", `EntityOrder.OutputIsPermutationIff` says exactly when nothing is lost.
- A manifest value of the shape `{"$outlabs_ref": ...}` is taken for a placeholder when the plan is applied. It can stop
  an apply that the server would accept (`LiteralPlaceholder.UnknownPlaceholderStops`): the apply completes exactly when
  each such value is well formed and names a row that the drift check saw or an earlier operation creates
  (`ResolutionExactness.ApplyCompletesIff`). Where it resolves it is replaced by an id, and a plan that carries such a
  value never settles: `ApplyTheorems.CompletedApplyConvergesIff`, `LiteralPlaceholder.PlaceholderValueNeverSettles`.
- Intermediate forests need more than acyclic manifests: an undeclared entity between two moved ones closes a circle
  half-way, `UndeclaredBetween.CircleHalfWay`. `ForestStages.ForestThroughoutIff` gives the exact condition: with the
  declared parent for the entities already placed and the stored one for all others, climbing from the parent that the
  next item names never leads back to the item. Three conditions that imply it are easier to check: no named parent
  hangs, in the store, on or below an entity that is moved; every named parent is placed by the manifest too; every
  stored entity is declared with a parent.
- A malformed `iat_ms` or `iat` is not always stale. `outlabs_auth/authentication/strategy.py:206-222` does not catch
  `OverflowError`, so an infinite claim, or one beyond 64-bit seconds, makes the check raise:
  `TokenFreshness.StaleExactly`, `TokenFreshness.OverflowRaises`. Such a token is rejected all the same, because
  `authenticate` turns every exception into a refusal: `TokenFreshness.MalformedNeverAccepted`.
- `outlabs_auth/utils/jwt.py:62-63` and `120-121` truncate towards zero. For fractions of a second before 1970 the
  written microseconds are one second late and the written milliseconds one millisecond late:
  `TokenFreshness.MicrosClaimExactIff`, `TokenFreshness.MillisNeverFreshenIff`.

## Model

| member | source | states |
|---|---|---|
| JsonValues.CanonicalIdempotent | outlabs_auth/cli_support/declarative.py:70-78 | the canonical form of a canonical form is itself |
| JsonValues.CanonicalCharacterised | outlabs_auth/cli_support/declarative.py:70-78 | two values have equal canonical forms exactly when they differ only in the order of keys and of all-scalar lists, at any depth; lists with a non-scalar keep their order |
| Validation.ValidateGroup | outlabs_auth/cli_support/declarative.py:122-170 | a group is accepted exactly when it lists objects with a known state, allowed fields and usable identities, no identity twice as written; each item of the result is its entry with the state it gives, or `present` if it gives none, and no other change; a rejection names the first offending entry and what is wrong with it |
| Validation.ValidateManifest | outlabs_auth/cli_support/declarative.py:90-172 | a document is accepted exactly when version, spec, group names and all four groups are acceptable; every group is completed entry by entry in the same way, a missing group is empty, what comes out is a valid manifest, and each error is explained by the document |
| EntityOrder.PopReady | outlabs_auth/cli_support/declarative.py:349-351 | popping the ready keys moves exactly them, in order, from pending to ordered and resolved |
| EntityOrder.Round | outlabs_auth/cli_support/declarative.py:334-351 | a round either shows that no order exists or makes progress towards the one order |
| EntityOrder.TopologicalEntities | outlabs_auth/cli_support/declarative.py:330-352 | the loop ends and returns the parent-first order, or the cycle error |
| EntityOrder.CycleErrorExact | outlabs_auth/cli_support/declarative.py:342-348 | the cycle error is raised exactly when following declared parents from some declared entity visits an entity twice, self-parents included |
| EntityOrder.OutputIsCanonical | outlabs_auth/cli_support/declarative.py:334-352 | on success the output is the one listing of the entities sorted by number of declared ancestors, then slug |
| EntityOrder.OutputIsPermutationIff | outlabs_auth/cli_support/declarative.py:331 | the output rearranges the input exactly when no two slugs collide after folding |
| EntityOrder.CaseCollisionDropsItem | outlabs_auth/cli_support/declarative.py:331 | a loss: validation accepts the slugs "a" and "A", and the order contains only the second |
| EntityOrder.OrderIgnoresInputOrder | outlabs_auth/cli_support/declarative.py:330-352 | the order of the manifest's entries has no influence |
| EntityOrder.ParentBeforeChild | outlabs_auth/cli_support/declarative.py:334-351 | every declared parent stands strictly before its child |
| DeleteDepth.EntityDepth | outlabs_auth/cli_support/declarative.py:676-685 | the loop ends on any parent data, circular or not, and counts the links up to the first repetition |
| DeleteDepth.DepthIsAncestorCount | outlabs_auth/cli_support/declarative.py:676-685 | without circles the depth is the number of ancestors |
| DeleteDepth.DescendantIsDeeper | outlabs_auth/cli_support/declarative.py:676-685 | without circles k parent links lower the depth by k |
| DeleteOrder.DescendantsDeletedFirst | outlabs_auth/cli_support/declarative.py:671-698 | in a plan made from acyclic data an entity is deleted before each of its ancestors that is deleted too |
| RemoteStore.ReadMemberships | outlabs_auth/cli_support/declarative.py:224-259 | the loop reads each user once and joins rows with user and entity, or reports the first missing user of a present membership |
| RemoteStore.ReadSnapshot | outlabs_auth/cli_support/declarative.py:195-269 | reading fails exactly when a membership declared present names a user who is not stored; otherwise each table the manifest touches is shown completely, row for row, and no other |
| SnapshotFacts.ContextRows | outlabs_auth/cli_support/declarative.py:185-192 | the dictionaries file every stored row under its folded identity, and nothing else |
| SnapshotFacts.IdentityDetermines | outlabs_auth/cli_support/declarative.py:182 | without '@' in slugs the text of a membership identity determines user and entity |
| SnapshotFacts.MembershipFound | outlabs_auth/cli_support/declarative.py:224-259 | a membership of a user who was asked for is found under its identity exactly when it is stored, joined with its own user and entity |
| SnapshotFacts.FoundMembership | outlabs_auth/cli_support/declarative.py:224-259 | whatever is found under a membership identity is the stored membership of that user in that entity |
| Planner.PlanGroup | outlabs_auth/cli_support/declarative.py:373-424 | one pass over a group collects the changes and deletions of its items in order, or the first error |
| Planner.BuildPlan | outlabs_auth/cli_support/declarative.py:355-698 | the method with its loops returns the plan that the theorems speak about, which `PlanExactness.PlansAreExact` fixes operation by operation and `PlanFailures.PlanFailureMeans` error by error |
| PlanShape.ItemOperations | outlabs_auth/cli_support/declarative.py:375-669 | what an item can contribute: one creation if it is missing, updates and moves of its own row if it exists, one deletion if it is declared absent |
| PlanShape.PlanInPhases | outlabs_auth/cli_support/declarative.py:689-698 | a plan creates and updates permissions, entities, roles and memberships in this order and then deletes in the opposite one |
| PlanShape.DeleteIsPlanned | outlabs_auth/cli_support/declarative.py:689-698 | every deletion of every group stands in the plan, after all changes |
| PlanErrors.ItemPlannable | outlabs_auth/cli_support/declarative.py:375-669 | planning one present item succeeds exactly when what it refers to is stored or declared present, its user exists, its roles are names, and a missing row brings the required fields |
| PlanErrors.PlanSucceedsIff | outlabs_auth/cli_support/declarative.py:355-698 | planning a whole manifest succeeds exactly when declared parents run in no circle and every present item meets these demands |
| PlanFailures.PlanFailureMeans | outlabs_auth/cli_support/declarative.py:355-669 | a planning error is about a present item of the manifest, and what it says is so: the user is not stored, the reference it names is made by the item and neither stored nor declared present, the fields it lists are required, missing and the row not stored, or the roles are not names; a circle is reported only of declared parents that run in one |
| PlannedRequests.ItemAnswers | outlabs_auth/cli_support/declarative.py:375-669 | what an item is planned to do is exactly what the store calls for: each request's verb, address, body field by field (own fields as given, each reference under its own name standing for the row or placeholder of the name given, roles in order), whether it is destructive, and nothing more |
| PlanOrder.PlansFollowTheManifest | outlabs_auth/cli_support/declarative.py:373-698 | within each phase a plan takes the items as the manifest lists them, present entities parents first; only the deletions of entities have an order of their own |
| PlanExactness.PlansAreExact | outlabs_auth/cli_support/declarative.py:355-698 | every operation of a plan is one that some item intends, in all its parts; an item's creation, update, move or deletion is in the plan exactly when the stored row calls for it; nothing is planned twice |
| DeclaredState.EmptyPlanIffDeclaredState | outlabs_auth/cli_support/declarative.py:355-698 | the plan is empty exactly when it can be made and the store already shows every present item, parents and roles included, and nothing of the absent ones |
| DeclaredState.CompleteRunReachesStateIff | outlabs_auth/cli_support/declarative.py:855-911 | a complete run leaves the store in the declared state exactly when the plan carried no manifest value with a placeholder |
| RunFacts.ServedTable | outlabs_auth/cli_support/declarative.py:868-872 | an accepted request changes exactly the addressed row of the addressed table, and users never |
| RunFacts.IdsKept | outlabs_auth/cli_support/declarative.py:882-885 | a known id changes only when a creation of that very identity returns one |
| ReferenceSafety.ItemBodies | outlabs_auth/cli_support/declarative.py:276-292 | a looked-up field of a planned body is null, an id, or a placeholder for something declared present that does not exist |
| ReferenceSafety.PlansAreReferenceSafe | outlabs_auth/cli_support/declarative.py:689-698 | in every plan the row behind each placeholder that the planner wrote is created by a strictly earlier operation |
| ReferenceSafety.LookedUpFieldResolves | outlabs_auth/cli_support/declarative.py:829-852 | at its turn every looked-up field resolves, if creations return ids |
| ResolutionExactness.KnownIff | outlabs_auth/cli_support/declarative.py:882-885 | at its turn an operation knows an id exactly if it was known at the start or an earlier operation created that identity |
| ResolutionExactness.RunsResolveExactly | outlabs_auth/cli_support/declarative.py:829-867 | at every operation a run reaches, resolving succeeds exactly when each placeholder inside a manifest value is well formed and names a row known at the start or created by an earlier operation |
| ResolutionExactness.ApplyCompletesIff | outlabs_auth/cli_support/declarative.py:829-911 | an undrifted apply that no refusal stops completes exactly when all placeholders in manifest values meet that condition, which needs only the plan and the store the drift check saw |
| ReferenceSafety.OnlyRefusalsStopPlainRuns | outlabs_auth/cli_support/declarative.py:855-882 | with plain manifest values a run only ever stops because the server refused a request |
| References.ResolveKeepsCanonicalIff | outlabs_auth/cli_support/declarative.py:829-852 | resolving leaves the canonical form of a value alone exactly when the value holds no placeholder |
| RunOfPlan.CreatedRowStays | outlabs_auth/cli_support/declarative.py:864-885 | a created row of a plain table stays exactly as it was created to the end of the run |
| RunOfPlan.TouchedRow | outlabs_auth/cli_support/declarative.py:375-669 | an operation addresses only the row it was planned from, and remembers that row |
| RunOfPlan.IdentityNotWritten | outlabs_auth/cli_support/declarative.py:375-571 | ids and identities of existing rows are never rewritten |
| RunOfPlan.TableStaysValid | outlabs_auth/cli_support/declarative.py:864-885 | at every point of a run rows carry their ids and no two rows of a table share a folded identity |
| FinalState.PresentKeyDenotes | outlabs_auth/cli_support/declarative.py:864-885 | in the end every present item's identity denotes a row: the stored one, or the one created for it |
| FinalState.AbsentKeyGone | outlabs_auth/cli_support/declarative.py:488-506 | in the end no row bears an identity that is declared absent |
| FinalState.LookupMeans | outlabs_auth/cli_support/declarative.py:829-885 | a looked-up value, once resolved, is the id of the row its identity denotes, at every point of a run |
| RoleEntities.CreatedRolesStandForTheirEntities | outlabs_auth/cli_support/declarative.py:530-542 | after a complete run each role it created has under `root_entity_id` and `scope_entity_id` the id of the final row whose folded slug the item names there, null for a falsy name and no field where the item names none |
| Convergence.ExistingFieldFinal | outlabs_auth/cli_support/declarative.py:295-300 | a managed field of an existing row ends canonically as declared exactly when the value sent for it, if any, held no placeholder |
| Convergence.CreatedFieldFinal | outlabs_auth/cli_support/declarative.py:398-485 | the same for a created row |
| FinalMemberships.MembershipAt | outlabs_auth/cli_support/declarative.py:574-669 | at every point of a run a membership row names the user and the entity it is stored under |
| FinalMemberships.StaysValid | outlabs_auth/cli_support/declarative.py:864-885 | the store is as well formed at every accepted point of a run as before, and users are untouched |
| SecondPlan.ExistingParent | outlabs_auth/cli_support/declarative.py:475-485 | a stored entity that declares a parent ends under the row that parent denotes |
| SecondPlan.PlainItemAgain | outlabs_auth/cli_support/declarative.py:375-571 | planning a permission, entity or role again succeeds, deletes nothing, and changes nothing exactly when its carried values were plain |
| MembershipsAgain.PairRoles | outlabs_auth/cli_support/declarative.py:616-665 | a membership ends with the ids of the roles it declares |
| SecondApply.AbsentMembershipGone | outlabs_auth/cli_support/declarative.py:581-594 | no membership of the final store bears an identity that is declared absent |
| SecondApply.PresentMembershipAgain | outlabs_auth/cli_support/declarative.py:595-669 | planning a present membership again finds it and changes nothing exactly when its carried values were plain |
| SecondApply.SecondPlanEmptyIff | outlabs_auth/cli_support/declarative.py:355-698 | convergence: after a complete run planning succeeds again and is empty exactly when the first plan carried no manifest value with a placeholder |
| Drift.SyntheticManifest | outlabs_auth/cli_support/declarative.py:755-770 | the loop builds the absent items that make the reader fetch what the operations are about |
| Drift.CheckPlanDrift | outlabs_auth/cli_support/declarative.py:780-806 | the loop reports, in order, every operation whose current digest differs, with that digest or none; no report lets the plan pass |
| DriftExactness.CurrentIsBehind | outlabs_auth/cli_support/declarative.py:755-777 | what the check compares with is what the store holds under the identity, memberships recovered from their text included |
| DriftExactness.PlannedFromBehind | outlabs_auth/cli_support/declarative.py:303-327 | an operation's digest is that of what the store held under its identity |
| DriftExactness.DriftFreeIff | outlabs_auth/cli_support/declarative.py:780-806 | a plan passes exactly when, for each of its operations, the canonical value behind it is unchanged |
| DriftExactness.DriftIsReported | outlabs_auth/cli_support/declarative.py:783-804 | a rejected plan's report lists, in plan order, exactly the operations behind which a canonical value has changed, each with the digest of what the store holds now, or none where it holds nothing; the read itself never fails |
| DriftExactness.DigestsAgreeIff | outlabs_auth/cli_support/declarative.py:303-327 | two recorded digests agree exactly when both rows are absent or have the same keys with canonically equal values |
| DriftExactness.UnchangedNeverDrifts | outlabs_auth/cli_support/declarative.py:780-806 | on the store it was made from no plan drifts, whatever its operations |
| ApplyPlan.Server.Send | outlabs_auth/cli_support/declarative.py:868-872 | one request: refused without effect, or accepted, logged and stored |
| ApplyPlan.ApplyOperations | outlabs_auth/cli_support/declarative.py:861-911 | the loop ends in the state and outcome of the run, and the server's log grows by exactly the completed operations in order |
| ApplyPlan.ApplyPlan | outlabs_auth/cli_support/declarative.py:855-911 | drift check and loop together: outcome, store and logged writes |
| ApplyPlan.PrefixExecution | outlabs_auth/cli_support/declarative.py:861-911 | at every point the completed operations are a prefix of the plan, the store is the one they made, and a failure belongs to the next operation, which changed nothing |
| ApplyTheorems.DriftPreventsWritesIff | outlabs_auth/cli_support/declarative.py:859 | an apply is rejected, with nothing written, exactly when something behind an operation has changed |
| ApplyTheorems.OutcomeNamesPrefix | outlabs_auth/cli_support/declarative.py:886-911 | the outcome names exactly what was written: nothing, the prefix and the operation that failed, or everything |
| ResolutionExactness.OutcomeNamesCause | outlabs_auth/cli_support/declarative.py:861-911 | a failed or partial apply names the operation that failed and why: a placeholder in its body that is malformed or names a row unknown at its turn, or the server's own refusal |
| ApplyTheorems.ResolvedIdsMatch | outlabs_auth/cli_support/declarative.py:809-826 | the ids an apply starts with are those of stored rows of that identity |
| StartingIds.StartsWithStoredIds | outlabs_auth/cli_support/declarative.py:809-826 | an apply knows an id under an identity from the start exactly if its plan is about that table and the store holds the row of that identity under that id |
| ApplyTheorems.CompletedApplyConvergesIff | outlabs_auth/cli_support/declarative.py:855-911 | whoever is told that everything was applied plans again to an empty plan, exactly when the plan carried no manifest value with a placeholder |
| LiteralPlaceholder.PlaceholderValueNeverSettles | outlabs_auth/cli_support/declarative.py:829-852 | a concrete manifest and store that meet all hypotheses of convergence, whose plan is applied completely and is still not empty afterwards |
| LiteralPlaceholder.UnknownPlaceholderStops | outlabs_auth/cli_support/declarative.py:829-852 | a concrete manifest and store that meet all hypotheses, on which the apply fails with an unresolved reference although the server would accept everything |
| IntermediateForests.SettledPlaced | outlabs_auth/cli_support/declarative.py:429-486 | once an item's operations are done its entity stands under the row its declared parent denotes, at every later point where that parent is not deleted |
| ForestStages.StageMirrored | outlabs_auth/cli_support/declarative.py:429-486 | while changes are applied, the stored links are those that manifest and original store determine for the stage, under other names |
| ForestStages.ForestThroughoutIff | outlabs_auth/cli_support/declarative.py:429-486 | a complete run from a forest passes through forests only, exactly when no item names a parent from which the links of its stage lead back to it |
| ForestStages.EveryPrefixIsForest | outlabs_auth/cli_support/declarative.py:429-486 | under that condition the parent links are a forest wherever a run stands or has stopped |
| ForestStages.KeptChainsCloseNothing | outlabs_auth/cli_support/declarative.py:429-486 | the condition holds if no named parent hangs, in the store, on or below an entity the manifest places |
| ForestStages.SettledParentsCloseNothing | outlabs_auth/cli_support/declarative.py:429-486 | the condition holds if every named parent is placed by the manifest itself |
| ForestStages.DeclaringAllSettles | outlabs_auth/cli_support/declarative.py:429-486 | a manifest that declares every stored entity present with a parent places every parent it names, swaps of ancestor and descendant included |
| UndeclaredBetween.CircleHalfWay | outlabs_auth/cli_support/declarative.py:429-486 | a concrete plan around an undeclared entity: a forest before and after, a circle in between |
| Recovery.PrefixCanBePlannedFrom | outlabs_auth/cli_support/declarative.py:886-911 | what any accepted prefix of a plan leaves meets all hypotheses again, and planning succeeds there |
| Recovery.FreshPlanRecovers | outlabs_auth/cli_support/declarative.py:886-911 | however an apply ends, a fresh plan can be made from what it left, and once that is applied completely the store is in the declared state, exactly when the fresh plan carries no manifest value with a placeholder |
| ClosureTable.Closures.CreateClosure | examples/enterprise_rbac/reset_test_env.py:338-360 | the table grows by the self row and one row per row of the parent, one deeper |
| ClosureTable.InsertKeepsIndex | examples/enterprise_rbac/reset_test_env.py:338-360 | inserting a new entity below an existing one, or as a root, keeps the index exact with one row per pair |
| ClosureTable.ClosureIsReachability | examples/enterprise_rbac/reset_test_env.py:338-360 | after any proper history a row (a, d, k) exists exactly when k parent links lead from d to a, and no pair has two rows |
| ClosureTable.PairDistanceUnique | examples/enterprise_rbac/reset_test_env.py:338-360 | two related entities have one distance |
| ClosureTable.BuildClosures | examples/enterprise_rbac/reset_test_env.py:380-638 | a sequence of calls builds the table of its history |
| RemoteSession.CredentialStore.Put | outlabs_auth/cli_support/credentials.py:179-181 | a session replaces the one of its profile and no other |
| RemoteSession.CredentialStore.Delete | outlabs_auth/cli_support/credentials.py:217-221 | exactly the profile's session is forgotten |
| RemoteSession.FoundIsBound | outlabs_auth/cli_support/credentials.py:183-215 | a session handed out for a target is that target's, and its tokens were issued there |
| RemoteSession.RemoteClient.AuthenticationCredential | outlabs_auth/cli_support/client.py:136-162 | environment first; otherwise the session stored for this very target is used, and refreshed exactly when both looks at the clock find it expiring within 30 seconds; the credential is the access token kept or just granted; without one nothing is sent |
| RemoteSession.RemoteClient.RefreshStoredSession | outlabs_auth/cli_support/client.py:334-385 | the session given, else the stored one, is refreshed exactly if forced or expiring within 30 seconds; succeeds exactly on an answer that gives both tokens and a positive lifetime, each taken from its own field, and then replaces only this profile's session; the error says what the answer was |
| RemoteSession.RemoteClient.Request | outlabs_auth/cli_support/client.py:164-267 | which exchanges are made, with which credential, and which answer decides: the environment's credential once; else the token of the session kept for this target, readied first; after a 401 to it, if a retry is allowed, one refresh and, only if that grants, the same request with the token granted; any other answer ends the call; without a credential nothing is sent |
| RemoteSession.RemoteClient.RequestIsModest | outlabs_auth/cli_support/client.py:164-267 | whatever servers and clock do, such a request makes at most five exchanges, at most two of them authenticated, the second only after a 401 to a session's token; no other profile is touched; what it returns is what its own last exchange was answered |
| RemoteSession.GrantOfExactly | outlabs_auth/cli_support/client.py:292-319 | a payload passes exactly if it gives two nonempty texts and a positive lifetime, and each part is taken from its own field |
| RemoteSession.RemoteClient.StoreSessionPayload | outlabs_auth/cli_support/client.py:284-332 | stores a session exactly if the answer gives both tokens and a positive lifetime: those tokens, bound to this target, expiring that long after now |
| RemoteSession.RemoteClient.SignIn | outlabs_auth/cli_support/client.py:274-282 | one anonymous exchange; on a granting answer this profile's session is the one granted, field by field, on any other nothing changes and the error says what the answer was |
| RemoteSession.RemoteClient.Logout | outlabs_auth/cli_support/auth_commands.py:522-551 | which exchanges a logout makes, which refresh token it names, and when it forgets the session: local only at once, otherwise after a kept session about to expire has been refreshed and the logout request has succeeded |
| RemoteSession.RemoteClient.LogoutForgets | outlabs_auth/cli_support/auth_commands.py:522-551 | a logout that is not local only and succeeds ends with a successful answer of this target to its own logout request and forgets exactly this profile; one that fails keeps every stored profile |
| RemoteSession.GrantIsBound | outlabs_auth/cli_support/client.py:320-331 | a session renewed with what the last answer grants is bound to where that answer came from |
| RemoteSession.RunCalls | outlabs_auth/cli_support/client.py:108-385 | for any interleaving of sign-ins, requests, refreshes and logouts by clients of any targets on one store, no stored token is ever sent to a target that had not issued it |
| Paging.Paginate | outlabs_auth/cli_support/client.py:401-452 | the loop collects the pages in order, or reports the first bad envelope |
| Paging.PaginatedExactly | outlabs_auth/cli_support/client.py:401-452 | for any server: a single page is the envelope of the page and limit asked for; all pages are those from 1 to the number the first envelope gives, each with the largest limit, joined in order; the first improper page is blamed, unreadable figures are reported |
| Paging.PageCountCovers | examples/enterprise_rbac/team_directory.py:153 | the page count covers the list, without an empty last page |
| Paging.AllPagesAreTheList | outlabs_auth/cli_support/client.py:401-452 | reading all pages of an unchanging list returns exactly that list, whatever page size the server uses |
| Bootstrap.RunDoctor | outlabs_auth/cli.py:857-887 | the checks in order, with those skipped that a failed one makes pointless |
| Bootstrap.DoctorAllOkIff | outlabs_auth/cli.py:857-1101 | all checks pass exactly in the healthy, current state with all core tables |
| Bootstrap.DoctorReportsEverything | outlabs_auth/cli.py:857-887 | always five checks in order, a skipped one after a failed one, and for each of them when it passes, fails and is skipped, by reachability, schema, version table, revision and core tables |
| Bootstrap.RetryIsBounded | outlabs_auth/cli.py:354-381 | no more attempts than allowed; all but the last failed on a lock timeout; the last one committed, failed on something else or was the last allowed |
| Bootstrap.Database.RunAlembicCommand | outlabs_auth/cli.py:323-384 | the body is committed once if the command returns and not at all if it raises; every attempt but the last failed on a lock timeout, and the result is that of the last one; the loop never falls through |
| Bootstrap.Database.AdoptExistingSchema | outlabs_auth/cli.py:437-499 | stamps exactly a schema without version table that has all core tables, if the command returns; a success without stamping and a refusal change nothing; an incomplete schema is refused |
| Bootstrap.Database.RunMigrations | outlabs_auth/cli.py:387-432 | for a consistent library a success ends at head; a schema at head is left alone; an incomplete unversioned one is refused untouched; a failure after a commit leaves the stamped baseline |
| Bootstrap.Database.SeedSystemRecords | outlabs_auth/bootstrap.py:84-128 | afterwards the whole catalog and the configuration exist; the counters say how many were new; a failed session changes nothing |
| Bootstrap.Database.BootstrapSuperuser | outlabs_auth/bootstrap.py:131-180 | a user is added only where there was none, with the normalised e-mail; every failure leaves everything as it was; says exactly when it fails, and with which error |
| BootstrapRun.RunBootstrap | outlabs_auth/cli.py:1178-1297 | the steps are executed in order until one fails, then the doctor decides; `BootstrapExactness` says on which databases, to what end and with what report |
| BootstrapExactness.RefusedIffUnfit | outlabs_auth/cli.py:1006-1127 | a run is refused, with nothing changed or reported as done, exactly if the database cannot be reached, the named schema is missing, there are tables but neither the version table nor all core tables, or the stamped revision is neither head nor known |
| BootstrapExactness.StepsLead | outlabs_auth/cli.py:1218-1285 | the steps of a run that is taken on all go through exactly if the schema can be migrated and seeded and the administrator is acceptable; where they lead and what they report, also when one of them fails, is said on the database, the catalog and the arguments |
| BootstrapExactness.SucceedsIff | outlabs_auth/cli.py:1178-1297 | a real run that is not refused succeeds exactly if its commands return, they lead to a sane schema at head, no session it needs fails and the administrator asked for has a password and an acceptable e-mail; it leaves the schema at head with seeds and administrator as asked and otherwise as it was, and migrates exactly if the schema was not at head |
| BootstrapExactness.FitDatabasesAreBrought | outlabs_auth/cli.py:1178-1297 | with a consistent library whose upgrades leave the core tables, a first boot, a legacy schema and every known revision are brought to a sane head unless a command, a session or the administrator fails |
| BootstrapRun.AbortedOrDryChangesNothing | outlabs_auth/cli.py:1198-1216 | an aborted or dry run changes nothing |
| BootstrapRun.SuccessIsHealthy | outlabs_auth/cli.py:1288-1297 | a real run that reports success ends healthy, current and with all core tables |
| BootstrapRun.SuccessSettles | outlabs_auth/cli.py:1218-1297 | after a success the seeds and the administrator asked for exist |
| BootstrapRun.SecondRunChangesNothing | outlabs_auth/cli.py:1178-1297 | a second run with the same arguments migrates and creates nothing and leaves the database as it is, whatever else fails |
| BootstrapRun.InterruptedRunCanBeRepeated | outlabs_auth/cli.py:387-499 | however a run ends, even between stamping and upgrading, the schema is never left in a state that bootstrap refuses |
| TokenFreshness.MicrosExact | outlabs_auth/authentication/strategy.py:196-204 | splitting and recombining microseconds is exact for every representable integer, negatives included, and anything else is unreadable |
| TokenFreshness.StaleIffBefore | outlabs_auth/authentication/strategy.py:224-242 | with a microsecond claim a token is stale exactly when issued before the change, or beyond the representable range |
| TokenFreshness.StaleExactly | outlabs_auth/authentication/strategy.py:193-242 | once a change time exists the check raises exactly when the claim read overflows, lets a token through exactly when its claims name a representable instant not before the change, and calls all else stale |
| TokenFreshness.MalformedIsStaleIff | outlabs_auth/authentication/strategy.py:230-235 | claims that name no instant are stale exactly when they do not overflow |
| TokenFreshness.OverflowRaises | outlabs_auth/authentication/strategy.py:206-222 | an infinite number of milliseconds, and ten to the twenty-second, make the check raise |
| TokenFreshness.MalformedNeverAccepted | outlabs_auth/authentication/strategy.py:155-191 | after a password change a token whose claims name no instant is rejected, stale or raising |
| TokenFreshness.MalformedMicrosAreStale | outlabs_auth/authentication/strategy.py:196-199 | a microsecond claim that is not a whole number makes the token stale whatever the other claims say |
| TokenFreshness.SecondsNeverFreshen | outlabs_auth/authentication/strategy.py:213-222 | rounding the instant down to seconds never turns a stale token fresh |
| TokenFreshness.MillisNeverFreshenIff | outlabs_auth/utils/jwt.py:62 | writing milliseconds never turns a stale token fresh, exactly for instants from 1970 on or on a whole millisecond |
| TokenFreshness.MicrosClaimExactIff | outlabs_auth/utils/jwt.py:63 | the written microseconds are the instant exactly when it is not a fraction of a second before 1970, where they are one second late |
| TokenFreshness.WrittenReadsBackIff | outlabs_auth/authentication/strategy.py:194-222 | reading back the claims written for an instant gives the instant, with the same exception |
| TokenFreshness.Authenticate | outlabs_auth/authentication/strategy.py:80-191 | the cascade of early returns accepts exactly the tokens that meet all conditions |
| TokenFreshness.ChangeRevokesOldTokens | outlabs_auth/authentication/strategy.py:158-160 | after a password change no token written before it is accepted, for instants from 1970 on |

## Left out

- Python's equality of `1`, `True` and `1.0` when canonical values are compared: values of different JSON types differ here, as in the digests.
- Floats: kept as their text, so NaN and the choice among texts of one number are not modelled.
- Casefolding beyond ASCII, and text forms of lists and objects used as names.
- The limit of 100 rows when a user's memberships are read: the read is complete here.
- `root_entity` and `scope_entity` of an existing role are never compared by the code, so convergence says nothing about them.
- Server-side effects (archiving instead of deleting, roles assigned automatically, status coupling) and writes by others between the drift check and the last operation.
- A request that the server carried out although the client saw an error counts as refused.
- Plan documents edited by hand: operations without `id`, with foreign paths, or a whole body that is a placeholder.
- Executor.ResolveDict: of several unresolvable fields the one with the least name is reported, the code takes the first in insertion order.
- Planner.PlanGroup: an error is the value the code raises without its wording and exit code.
- Rows without id or identity, on which the code raises `KeyError` or skips the row.
- ClosureTable.InsertKeepsIndex: moving and deleting entities is not part of the inserted step.
- RemoteSession.RunCalls: the credential file (permissions, links, atomic replacement) and sessions stored by earlier invocations are not modelled; the store starts empty. A session with an empty prefix is kept in memory as any other.
- HTTP, TLS, JSON decoding, prompts, output and exit codes; a response is what an oracle answers.
- Bootstrap.Database.RunAlembicCommand: a commit either takes effect or is reported as a failure; what Alembic migrations do is a function of the library.
- TokenFreshness: rounding of floats; reals stand for them. JWT signatures and `proof_is_current` are facts given from outside.
- Lockout, API keys, Redis, and the services behind the routers.
