# Verified model of the shithub core

shithub is a self-hosted forge. This project models the parts of it where correctness is a matter
of logic rather than of plumbing, and proves what they promise for every input, every run and every
interleaving. `dafny verify dfyconfig.toml` checks all of it.

Conventions shared by all modules:

- A database table is a field of a class, or of a value that a step function maps to the next one. A
  class method is proved equal to its step function; the theorems are then about runs of steps.
- I/O, clocks, randomness and calls into code outside the model (regular expressions, tsquery
  matching, git, the policy engine, mail transport) are parameters of the step, so every theorem
  holds for each way they may answer. A failing query or transaction is one such answer.
- Go's random map order is an arbitrary choice (`Prelude.Pick`), so a contract about a loop over a
  map holds for each order.
- Text is a sequence of bytes, each modelled by the character with its code. Integers are unbounded;
  none of the modelled arithmetic comes near a machine limit. Identifiers of 0 stand for absence
  where the source uses them so.
- Closed vocabularies that the source spells as strings or Postgres enums are datatypes; where the
  source parses them from user text, so does the model.

The modules, by area:

| area | modules |
|---|---|
| private-collaboration cap and ownership of organizations | `OrgData`, `PrivateCollaboration`, `OrgSteps`, `OrgTheorems`, `OrgGates`, `OrgStore` |
| search language: scanner, parser, dates, compilation to SQL | `SearchText`, `SearchScanner`, `SearchDates`, `SearchParse`, `SearchFields`, `SearchSql`, `SearchPages`, `SearchTerms`, `SearchEndToEnd`, `SearchWords` |
| runner job session | `RunnerSession`, `RunnerOutcome` |
| notification fan-out | `FanoutCursor`, `NotifRouting`, `NotifDispatch`, `NotifInbox`, `NotifRules`, `NotifRetry`, `EmailDampener` |
| pull-request create and merge | `PullProtocol`, `PullGates` |
| secret scanner | `SecretScan` |
| check suites and the required-checks gate | `CheckRollup`, `CheckStore`, `CheckOverlap`, `CheckGate` |
| notification digests | `DigestSchedule` |

Where the code and what is written about it disagree, the model follows the code:

- `SetTeamParent` can push a limited organization past its cap, because no gate runs there.
  `OrgTheorems.SetTeamParentCanPassCap` gives the organization; `OrgTheorems.SetTeamParentKeepsCapIff`
  shows that the existing check on the team's members would have been exactly the right gate.
- The trigger that limits team nesting to one level looks only at the new parent, so a parent change
  can nest deeper or across organizations: `OrgTheorems.SetTeamParentKeepsValidIff`,
  `OrgTheorems.SetTeamParentCanBreakNesting`.
- The comment on check updates (internal/checks/update.go:25-27) speaks of validated status
  transitions. The code accepts every move; `CheckStore.StatusMayMoveAnywhere` says so for all of
  them.
- The comment on `NextSendTime` (internal/notifications/digest.go:212-213) says "at or after base".
  The code returns the tick strictly after it, and that is what is proved.
- The excerpt of a secret finding is centred on the first text that spells the marker, which need
  not be the one standing for the match. `SecretScan.OwnMarkerShownIff` gives the exact condition,
  `SecretScan.OwnMarkerCanBeMissed` a line where it fails.
- "The raw secret value never leaves this package" (internal/secretscan/scan.go:11): an excerpt
  redacts its own match only, so two matches on one line show each other.
  `SecretScan.RevealsIff` gives the exact condition, `SecretScan.OtherMatchCanBeRevealed` a line.
- Reopening a pull request and changing its base take no lock and can create a second open pull
  request on the same branches; a reopening that read before a Merge commits and writes after it leaves
  a merged pull request open: `PullProtocol.ReopenKeepsIff`, `PullProtocol.SetBaseKeepsIff`,
  `PullProtocol.ReopenCanDuplicate`, `PullProtocol.ReopenCanFollowMerge`,
  `PullProtocol.SetBaseCanDuplicate`.
- A Merge moves the base branch on disk before its row commits, so a rollback in between leaves a merge
  on disk that no row records: `PullProtocol.DiskIsAccounted`.
- Retrying a partly written dispatch doubles the inbox rows of events without a thread. With a
  thread, users whom the first attempt subscribed may get a row, or another row, that a clean dispatch
  would not have written: `NotifRetry.RetryIsCleanIff`, `NotifRetry.RetryCanAddRow`.
- A digest goes out before its row is advanced, so a failed advance repeats the message an hour later,
  unless the next tick comes first: `DigestSchedule.RepeatsIff`, `DigestSchedule.MailCanRepeat`.
  Likewise a message whose log insert fails escapes the email dampener:
  `EmailDampener.WindowExceedsIff`, `EmailDampener.LostInsertCanRepeat`.
- A check Create locks its suite's row before it lists the runs, so Creates take turns. An Update locks
  it only to store what it has derived: if another Update or a Create of the suite commits after the
  listing and before the store, the stored rollup can be stale. `CheckOverlap.OrderlyRunsAreRight` and
  `CheckOverlap.CreatesAloneAreRight` say when nothing goes wrong, `CheckOverlap.CommitIsRightIff` and
  `CheckOverlap.OneMissedIsRightIff` when it does, `CheckOverlap.OverlappingUpdatesLoseCompletion` and
  `CheckOverlap.UpdateMissesCreate` are runs.
- The lookup that makes a retried check Create safe (internal/checks/create.go:40-63) comes before the
  transaction and the index is not unique, so a retry that overlaps the first attempt inserts a second
  run: `CheckOverlap.CommitKeepsExternalIff`, `CheckOverlap.OverlappingRetryDuplicates`.

## Model

| member | source | states |
|---|---|---|
| `PrivateCollaboration.FoundIsNew` | internal/entitlements/private_collaboration.go:81-94 | The candidate loop, one user at a time and marking each as current, finds exactly the distinct non-zero candidates that were not counted before. |
| `PrivateCollaboration.CountNew` | internal/entitlements/private_collaboration.go:81-94 | The loop's counter is the (non-negative) anonymous count plus the number of those users, however many duplicates and zeros the list holds. |
| `PrivateCollaboration.CheckPrivateCollaborationExpansion` | internal/entitlements/private_collaboration.go:66-104 | The check's allowed flag, use, added and would-use depend only on the set of candidates, for unlimited organizations, limited ones and failed lookups. |
| `PrivateCollaboration.PredictionIsUnionSize` | internal/entitlements/private_collaboration.go:81-103 | On a limited organization would-use is the size of the union of the full recount and the candidates. |
| `PrivateCollaboration.AllowedExpansionKeepsBound` | internal/entitlements/private_collaboration.go:95-103 | If a limited organization's expansion is not refused, any set of users within recount plus candidates is at most max(limit, size before). |
| `PrivateCollaboration.ExpansionAllowsIff` | internal/entitlements/private_collaboration.go:77-103 | On a limited organization the check allows an expansion exactly when recount plus candidates stays within max(limit, size before). |
| `OrgTheorems.TeamMemberAdded` | internal/entitlements/private_collaboration.go:189-198 | Adding a team member adds at most that user to the recount of any organization, and nobody when the team does not reach a private repository. |
| `OrgTheorems.GrantAdded` | internal/entitlements/private_collaboration.go:361-372 | Granting a repository adds at most the candidate query's users (the team's and its children's members and so on) to any recount. |
| `OrgTheorems.VisibilityChanged` | internal/entitlements/private_collaboration.go:330-359 | Making a repository private turns the recount into exactly recount plus candidate query. |
| `OrgTheorems.StepKeepsCap` | internal/orgs/members.go:30-66 | Every gated or shrinking operation leaves every limited organization's recounted collaborator set at no more than max(limit, size before). |
| `OrgTheorems.RunKeepsCap` | internal/entitlements/private_collaboration.go:295-328 | Over any run of operations on any number of organizations, a limited organization's recount never exceeds max(limit, its size at the start). |
| `OrgTheorems.RunKeepsValid` | internal/orgs/teams.go:52-90 | Every run of operations keeps the foreign keys, and teams nested one level deep inside their own organization, which the recount query relies on. |
| `OrgTheorems.VisibilityPredictionIsExact` | internal/entitlements/private_collaboration.go:135-154 | When making a repository private is allowed on a limited organization, would-use equals the size of the collaborator set recounted after the write. |
| `OrgTheorems.GrantCountsCandidates` | internal/entitlements/private_collaboration.go:361-372 | Granting a private repository to a same-organization team makes the recount exactly recount plus candidates. |
| `OrgTheorems.GrantPredictionIsExact` | internal/entitlements/private_collaboration.go:200-213 | When such a grant is allowed, would-use equals the size of the set recounted after it. |
| `OrgTheorems.ParentedCollaborators` | internal/orgs/teams.go:95-104 | Exactly who counts after a parent change, from the tables before it: with a granting parent the team's members join; otherwise, clearing included, those leave who counted only through the old parent. |
| `OrgTheorems.SetTeamParentKeepsCapIff` | internal/orgs/teams.go:95-104 | A limited organization stays within its cap if and only if the new parent grants no private access or the expansion check on the team's members would have allowed it; for top-level, re-parented and unlinked teams alike. |
| `OrgTheorems.SetTeamParentKeepsValidIff` | internal/migrationsfs/migrations/0035_teams.sql:48-63 | The change keeps the schema exactly when it is refused, clears the link, or links a childless team to a parent of its own organization. |
| `OrgTheorems.SetTeamParentCanBreakNesting` | internal/migrationsfs/migrations/0035_teams.sql:48-63 | Two accepted changes after which teams are nested two deep, and across organizations. |
| `OrgTheorems.SetTeamParentCanPassCap` | internal/orgs/teams.go:95-104 | A valid organization that one parent change takes past the cap. |
| `OrgTheorems.ChangeRoleKeepsOwned` | internal/orgs/members.go:71-108 | A role change, promotion or refused demotion of the last owner, leaves every organization an owner. |
| `OrgTheorems.RemoveMemberKeepsOwned` | internal/orgs/members.go:113-156 | So does a removal, for whichever member. |
| `OrgTheorems.InsertKeepsOwned` | internal/orgs/members.go:50-57 | Inserting a member changes no existing role, also when the pair exists with another one, and leaves every organization an owner. |
| `OrgTheorems.StepKeepsOwned` | internal/orgs/invitations.go:188-247 | Every operation, accepting an owner invitation included, keeps every organization owned. |
| `OrgTheorems.RunKeepsOwned` | internal/orgs/create.go:88-95 | Every organization reached by any run of operations has at least one owner. |
| `OrgGates.CappedPlansStayWithinThree` | internal/entitlements/entitlements.go:911-923 | Over any run while an organization is on another plan than Team, or its subscription is neither active, nor on trial, nor past due inside its grace, its recount never exceeds max(3, its size at the start). |
| `OrgGates.TeamPlansAreNotCapped` | internal/entitlements/entitlements.go:639-645 | An operation gated by an organization on Team that is active, on trial, or past due inside its grace is never refused for the cap. |
| `OrgGates.CountedIff` | internal/entitlements/private_collaboration.go:295-328 | A user is in the recount exactly when some live private repository of the organization opens to them as owner, direct collaborator, or through a team of the organization or its parent. |
| `OrgGates.CapRefusalIsExact` | internal/entitlements/private_collaboration.go:135-213 | Each operation is refused for the cap exactly when the full recount with the users it would count goes past max(3, recount), and a private repository exactly in an organization that is or would come beyond 3. |
| `OrgGates.AcceptedIff` | internal/orgs/invitations.go:188-247 | An invitation is accepted exactly when it is pending, unexpired and the acceptor's, both rows exist and an owner role does not exceed the cap; a new member has the invited role, an old one keeps theirs. |
| `OrgStore.Store.AddMember` | internal/orgs/members.go:22-66 | The user is a member afterwards and no existing role has changed, or nothing has; no organization loses its last owner, breaks the schema or passes its cap. |
| `OrgStore.Store.ChangeRole` | internal/orgs/members.go:71-108 | Exactly the named role changes, or nothing; a sole owner cannot be demoted; schema, ownership and every cap are kept. |
| `OrgStore.Store.RemoveMember` | internal/orgs/members.go:113-156 | Exactly the member is gone, or nothing; a sole owner cannot be removed; schema, ownership and every cap are kept. |
| `OrgStore.Store.AcceptInvitation` | internal/orgs/invitations.go:188-247 | The acceptor is a member and the invitation is spent for every later instant, or nothing has changed; schema, ownership and every cap are kept. |
| `OrgStore.Store.CreateOrg` | internal/orgs/create.go:88-95 | The new organization has exactly its creator as owner, or nothing has changed; schema, ownership and every cap are kept. |
| `OrgStore.Store.CreateTeam` | internal/orgs/teams.go:52-90 | The new team is empty and its parent, if any, is a top-level team of the same organization, or nothing has changed; schema, ownership and every cap are kept. |
| `OrgStore.Store.AddTeamMember` | internal/orgs/teams.go:109-127 | Exactly the user joins and counts wherever the team reaches private repositories, or nothing has changed; schema, ownership and every cap are kept. |
| `OrgStore.Store.RemoveTeamMember` | internal/orgs/teams.go:132-136 | Exactly the user leaves, and no organization counts anyone it did not count before. |
| `OrgStore.Store.GrantTeamRepoAccess` | internal/orgs/teams.go:140-158 | The grant is there, and for a private repository of the team's organization the recount is exactly recount plus candidates, or nothing has changed; schema, ownership and every cap are kept. |
| `OrgStore.Store.RevokeTeamRepoAccess` | internal/orgs/teams.go:163-167 | Exactly the grant goes, and no organization counts anyone it did not count before. |
| `SearchScanner.ScanBody` | internal/search/query_parse.go:158-180 | The inner loop over quotes and escapes reads one token's value, quotedness and end, as the recursive definition does from any position. |
| `SearchScanner.ScanQueryTokens` | internal/search/query_parse.go:142-186 | The scanner terminates on every byte string and returns the tokens of the recursive definition. |
| `SearchScanner.BodyReadsEscaped` | internal/search/query_parse.go:158-180 | A value with quotes and backslashes escaped, inside quotes, is read back as the value, up to its closing quote. |
| `SearchScanner.RoundTrip` | internal/search/query_parse.go:142-186 | Printing any list of non-empty trimmed values as optionally negated quoted tokens joined by spaces, then scanning, gives the same values and negations in order. |
| `SearchScanner.TokensAreVisible` | internal/search/query_parse.go:181-183 | Every scanned token has a non-empty value that trimming leaves as it is. |
| `SearchScanner.RescanKeepsTokens` | internal/search/query_parse.go:142-186 | Printing what any text scans to, and scanning again, gives the same values and signs in order. |
| `SearchDates.DayNumbersKeepOrder` | internal/search/query_parse.go:448-456 | Day numbers of valid calendar dates, leap years included, order as the dates do and are equal only for equal dates. |
| `SearchDates.EveryDayHasItsDate` | internal/search/query_parse.go:448-456 | The calendar leaves no day out: every day from year 0 on has a valid date with its day number. |
| `SearchDates.RangeMeansComparison` | internal/search/query_parse.go:387-446 | A date qualifier is accepted exactly when it reads as a comparison (at least, after, at most, before, between, open ranges, exact day), and the half-open range then holds of an instant on a given date exactly when the date satisfies the comparison as written. |
| `SearchDates.RangeMeansDay` | internal/search/query_parse.go:387-446 | The same for every instant from year 0 on, with the date it falls on. |
| `SearchParse.ParseQuery` | internal/search/query_parse.go:99-134 | The parsing loop, truncation, phrase and joined text give the parsed query of the recursive definition. |
| `SearchParse.ApplyQualifierTo` | internal/search/query_parse.go:202-346 | The 27-key interpreter as field updates: a rejected qualifier changes no field, an accepted one appends to the qualifiers and, unless negated, sets its filter. |
| `SearchParse.AcceptanceIsStateless` | internal/search/query_parse.go:202-346 | Whether a qualifier is accepted depends on its key and value alone, not on earlier ones. |
| `SearchParse.Conservation` | internal/search/query_parse.go:99-134 | Each scanned token lands in exactly one of qualifiers, terms and excluded terms, and each list keeps the order. |
| `SearchParse.ReplayRebuildsFilters` | internal/search/query_parse.go:202-346 | Replaying the positive qualifiers on an empty query rebuilds every filter field. |
| `SearchFields.KeyHasItsName` | internal/search/query_parse.go:203-211 | A text is read as a key if and only if it is that key's name, for all 27 keys. |
| `SearchFields.NamesAreWords` | internal/search/query_parse.go:225-250 | The words of `is:`, `type:`, `state:` and `visibility:` are exactly the listed ones, with two more spellings for pull requests. |
| `SearchFields.QualifierSetsField` | internal/search/query_parse.go:218-343 | One accepted qualifier changes every filter field as a table by field says: the fields it speaks about get its value, every other field keeps its own. |
| `SearchFields.FieldsAreReadOff` | internal/search/query_parse.go:99-134 | Every filter field of any parsed query is the last value, or for lists all values in order, that its recorded positive qualifiers give to that field. |
| `SearchParse.HasContentIffTokens` | internal/search/query_parse.go:458-472 | A parsed query has content exactly when the scan of its text is not empty. |
| `SearchTerms.TextAndPhrase` | internal/search/query_parse.go:114-132 | For every raw text, the phrase is the first quoted positive term that is no qualifier, or empty, and the text is all other positive terms in order with one space between each two. |
| `SearchWords.WordsParse` | internal/search/query_parse.go:99-134 | Any plain words, set apart by spaces, tabs or line breaks, parse to exactly those words with one space between each two, and to nothing else. |
| `SearchWords.KeysIgnoreCase` | internal/search/query_parse.go:192-200 | A qualifier's key may be written in any case. |
| `SearchWords.OnlyFirst256` | internal/search/query_parse.go:104-106 | A longer text parses as its first 256 bytes do. |
| `SearchWords.SortValues` | internal/search/query_parse.go:348-370 | A sort column alone or with -desc sorts downwards, with -asc upwards. |
| `SearchWords.BoolValues` | internal/search/query_parse.go:376-385 | Exactly true, yes, 1 and only mean true, and false, no and 0 false. |
| `SearchWords.MissingValues` | internal/search/query_parse.go:288-294 | `no:` takes exactly label, milestone, assignee and project, and adds it. |
| `SearchSql.LaterArgsDoNotMatter` | internal/search/filter_sql.go:7-78 | A clause whose placeholders are bound means the same under every longer argument list. |
| `SearchSql.ConjoinMeans` | internal/search/filter_sql.go:7-14 | Appending arguments and a bound clause that uses joined aliases means conjunction and keeps every placeholder and alias bound. |
| `SearchSql.AppendCIText` | internal/search/filter_sql.go:7-14 | Accepts the rows whose column equals the value up to case; an empty value accepts all. |
| `SearchSql.AppendDateRange` | internal/search/filter_sql.go:34-50 | Accepts the rows whose time exists and lies in the half-open range; no range accepts all. |
| `SearchSql.AppendTopics` | internal/search/filter_sql.go:68-76 | The loop accepts the rows that carry every topic. |
| `SearchSql.AppendRepoQualifiers` | internal/search/filter_sql.go:52-78 | Visibility, fork, archived and topic filters together mean their conjunction. |
| `SearchSql.AppendRepo` | internal/search/repo_owner_sql.go:18-28 | Accepts the rows whose repository is, in the repository table, an undeleted one with that owner and name. |
| `SearchSql.RepoMeansOwnerAndName` | internal/search/repo_owner_sql.go:18-28 | For a row of that table, with unique ids, this means that its own repository has the owner and name and is not deleted. |
| `SearchSql.AppendOwner` | internal/search/issues.go:87-94 | Accepts the rows whose repository's owning user or organization has the name. |
| `SearchSql.AppendVisibility` | internal/auth/policy/visibility_predicate.go:38-75 | Adds exactly what the actor may see: nothing deleted, and public, owned or shared repositories, all of them for a site administrator. |
| `SearchSql.StartWithFullText` | internal/search/repos.go:50-55 | The text payload is the first argument, bound to the phrase constructor when there is a phrase. |
| `SearchSql.ValidateNotShortOnly` | internal/search/repos.go:186-199 | The counting loop accepts exactly the texts with two adjacent letters or digits. |
| `SearchSql.CountSelectsLikePage` | internal/search/repos.go:88-146 | Run on the arguments minus the last two, the count query selects by the same predicate as the page query, and its placeholders and aliases stay bound. |
| `SearchPages.AppendPerson` | internal/search/issues.go:105-150 | Author, assignee, commenter and reviewer filters: resolves @me, and an unresolvable name accepts no row. |
| `SearchPages.AppendMention` | internal/search/issues.go:358-367 | Accepts the rows whose title, body or a comment mentions the name. |
| `SearchPages.DisjoinInvolved` | internal/search/issues.go:159-173 | The loop over involves filters binds two arguments per resolved name, skips the others, and means: some named person is involved in one of four ways. |
| `SearchPages.AppendLabels` | internal/search/issues.go:190-199 | The loop accepts the rows that carry every label. |
| `SearchPages.AppendMissing` | internal/search/issues.go:209-220 | The loop accepts the rows that lack every listed field; unknown fields accept all. |
| `SearchPages.EffectiveKindMeans` | internal/search/issues.go:28-52 | The effective kind, or the early empty answer, is exactly the conjunction of tab, kind filter and the filters that force pull requests. |
| `SearchPages.BuildIssueWhere` | internal/search/issues.go:70-250 | The compiled issue WHERE, under the final arguments, accepts a row exactly when the row satisfies every positive filter, the full text and visibility. |
| `SearchPages.SearchIssues` | internal/search/issues.go:23-308 | Which queries are empty, have no rows, are too short or run, each exactly; a statement that runs selects, on page and count alike, exactly the rows the query describes, and every placeholder is bound. |
| `SearchPages.ParsedKindsAreKinds` | internal/search/query_parse.go:202-346 | Every parsed query meets what the issue search asks of its kind filter. |
| `SearchPages.BuildRepoWhere` | internal/search/repos.go:59-79 | The same meaning theorem for repository search. |
| `SearchPages.SearchRepos` | internal/search/repos.go:19-146 | The same for the whole repository search, with the count query's smaller join. |
| `SearchEndToEnd.SearchRaw` | internal/search/issues.go:23-308 | Parser and compiler together on any raw text: empty exactly when nothing scans, and otherwise selects what the parsed text means. |
| `SearchEndToEnd.CreatedMeansDay` | internal/search/query_parse.go:328-343 | The text `created:` with any date value, from scanner to filter, means: visible, and created on a day that satisfies the comparison as written. |
| `SearchEndToEnd.SearchCreated` | internal/search/issues.go:228-229 | That search always runs and selects, on page and count, exactly those rows. |
| `SearchEndToEnd.IsoRoundTrip` | internal/search/query_parse.go:448-456 | Every date up to year 9999, written as YYYY-MM-DD, is read back. |
| `SearchEndToEnd.CreatedAfter` | internal/search/query_parse.go:400-405 | `created:>D` means exactly the visible issues and pull requests created on a later day than D. |
| `SearchWords.SearchForWords` | internal/search/issues.go:23-308 | A search for plain words selects, on page and count, exactly the visible rows that match all of the words, and is refused exactly when there are no two letters or digits in a row. |
| `SearchWords.SearchForPhrase` | internal/search/issues.go:23-308 | A search for a quoted text selects exactly the visible rows that match it as a phrase. |
| `SearchWords.FreeTextMeans` | internal/search/repos.go:159-167 | Text without qualifiers means the visible rows that match its first quoted term as a phrase, or else all its positive terms. |
| `SearchWords.UndrivenIff` | internal/search/issues.go:311-321 | An issue search is driven by nothing exactly when there is no full text and every filter but sort, kind, language, path and extension is as in the empty query. |
| `SearchWords.RepoUndrivenIff` | internal/search/repos.go:29-36 | A repository search exactly when only filters that speak of issues are set. |
| `SearchWords.PeopleNames` | internal/search/issues.go:344-356 | A name stands for itself with or without @, and me in any case for a signed-in actor or nobody. |
| `RunnerSession.StepKeeps` | internal/runner/runner.go:127-243 | Every step of the main, drain and watcher threads and of the server keeps the session invariant. |
| `RunnerSession.EveryCallPresentsTheLatestToken` | internal/runner/runner.go:298-366 | In every interleaving each call presents the token the server then holds valid, no accepted token is presented again, and with no call in flight client and server agree or the job is finished. |
| `RunnerSession.EveryRunFollowsTheProtocol` | internal/runner/runner.go:127-296 | In every interleaving a terminal status call is the last call; log, step and cancel-check calls come after an accepted running call, which is made at most once; a terminal call after a running one says cancelled exactly when the server answered some cancel check so. |
| `RunnerOutcome.PreparationDecides` | internal/runner/runner.go:143-166 | Every run prepares first and once; after a failure the server sees at most one call, a failure status, and nothing is opened or executed; after a success the first call is the running status. |
| `RunnerOutcome.TerminalUnlessBroken` | internal/runner/runner.go:158-250 | No terminal status is sent once a stream does not open, the watcher or the drain fails, or a running, log or step call is refused; a main thread that has returned has sent one exactly when none of this happened. |
| `RunnerOutcome.StepsThenTerminal` | internal/runner/runner.go:205-245 | From the join of the drain on every call is a step status, none of these when steps were streamed, or the terminal status; after a failed drain there is none. |
| `RunnerOutcome.StepsAreReportedIff` | internal/runner/runner.go:205-230 | After both joins without failure the main thread can report steps exactly when the opened stream does not carry them, and can end the job only with the status the cancel watch decides. |
| `FanoutCursor.Worker.FanoutOnce` | internal/notif/fanout.go:36-80 | One tick dispatches the longest succeeding prefix of the batch, logs it, moves the cursor only after progress and a successful write, and returns count and success accordingly. |
| `FanoutCursor.TickDispatchesSlice` | internal/notif/fanout.go:46-69 | A tick dispatches, in ascending order and at most 200, a gapless run of the events right after the cursor. |
| `FanoutCursor.NeverSkips` | internal/notif/fanout.go:36-80 | Over any run of ticks, appends, failing dispatches and failing cursor writes, every event at or below the cursor was dispatched successfully and the cursor never moves back. |
| `FanoutCursor.ExactlyOnce` | internal/notif/fanout.go:71-79 | While cursor writes succeed, the successful dispatches are exactly the events up to the cursor, each once and in order. |
| `FanoutCursor.HealthyTickAdvances` | internal/notif/fanout.go:46-79 | A tick without failures shortens the backlog by 200 or clears it. |
| `FanoutCursor.HealthyTicksDrain` | internal/notif/fanout.go:36-80 | Enough such ticks dispatch every event. |
| `NotifRouting.MatrixByRelation` | internal/notif/routing.go:66-149 | The switch by kind equals the table by relation: who is reached by which kinds, one reason per relation, which pairs do not email, only mentions and review requests override an ignore. |
| `NotifRouting.PickAction` | internal/notif/fanout.go:253-260 | The loop returns the action of the first routable relation, SKIP exactly when none routes. |
| `NotifRouting.LifecycleMeans` | internal/notif/fanout.go:604-614 | The kinds for which the owner slot is filled are exactly those the matrix routes to an owner. |
| `NotifDispatch.EnsureAdd` | internal/notif/fanout.go:293-300 | A relation is appended once, only to that user's list. |
| `NotifDispatch.ComputeRecipients` | internal/notif/fanout.go:310-399 | The recipients are exactly the users other than the actor with some relation, each with all its relations in slot order, whatever duplicates the slots hold. |
| `NotifDispatch.PickAutoReason` | internal/notif/fanout.go:414-434 | The subscription switch, folded over the relations. |
| `NotifDispatch.AutoReasonMeans` | internal/notif/fanout.go:414-434 | Its outcome: review request before assignment before authorship before mention, and watching alone does not subscribe. |
| `NotifInbox.Inbox.ApplyAutoSubscriptions` | internal/notif/fanout.go:405-446 | In every order, subscribes exactly the recipients with a reason and no row yet, and keeps every existing row, explicit unsubscription included. |
| `NotifInbox.Inbox.DispatchTo` | internal/notif/fanout.go:117-156 | For one recipient, writes the row exactly when it is notified, or stops on a lookup or write error. |
| `NotifInbox.Inbox.DispatchEvent` | internal/notif/fanout.go:84-177 | Reads the subscribers from the table it also writes; in every order, a successful dispatch leaves exactly the rows of the notified users, a failed one some of them. |
| `NotifInbox.NotifiedMeans` | internal/notif/fanout.go:117-151 | The finite set written by a dispatch misses nobody: it is every visible non-actor whose first routable relation notifies and who does not ignore the repository or is overridden. |
| `NotifInbox.MentionAlwaysReaches` | internal/notif/fanout.go:319-328 | For kinds with a mention route, a mentioned visible non-actor is notified, as mentioned, whatever its watch level. |
| `NotifInbox.IgnoreMutesTheRest` | internal/notif/fanout.go:140-151 | An ignore-level watch lets through only mentions and review requests. |
| `NotifRules.NotifiedIff` | internal/notif/fanout.go:107-151 | Exactly who is notified: not the actor, who can see the repository, who is related in a way the kind reaches, and who does not ignore the repository or is mentioned or asked for the review. |
| `NotifRules.ReasonIff` | internal/notif/fanout.go:253-260 | And as what: by the first of mention, author, assignee, subscriber, watcher, owner and reviewer that they are and that the kind reaches. |
| `NotifRules.UnsubscribedHearsNothing` | internal/notif/fanout.go:345-354 | Whoever unsubscribed from the thread and is related in no other way hears nothing. |
| `NotifRules.RowsWritten` | internal/notif/fanout.go:405-446 | On a thread each user written to has one unread row with the event's kind, source, actor and reason, in the repository of a row that was there; all other rows are as they were. |
| `NotifRules.ThreadlessRowsWritten` | internal/notif/fanout.go:405-446 | Without a thread each gets one more row beside those that were there. |
| `NotifRetry.SecondNotice` | internal/notif/fanout.go:345-354 | A second attempt treats only those users differently whom the first one subscribed and to whom only that subscription routes the event: they are notified, with another reason. |
| `NotifRetry.RetryIsCleanIff` | internal/notif/fanout.go:107-114 | Repeating a partly written dispatch on the tables it left gives the inbox of one clean dispatch if and only if, with a thread, there is no such user, and without one, nothing had been written. |
| `NotifRetry.RetryCanAddRow` | internal/notif/fanout.go:405-446 | A review on a thread with an unsubscribed assignee: the retry writes a row that a clean dispatch does not. |
| `EmailDampener.Mailer.MaybeSendEmail` | internal/notif/fanout.go:452-505 | A message goes out exactly when the preference allows, both windows have room and the transport works, and is then logged if the insert succeeds. |
| `EmailDampener.AttemptKeepsDampened` | internal/notif/email.go:76-93 | One attempt keeps every window of the log within its cap, for every recipient and thread. |
| `EmailDampener.WindowHoldsCapAndUnlogged` | internal/notif/email.go:84-100 | Over any run, every window holds at most its cap of messages plus those in it whose log insert failed. |
| `EmailDampener.WindowExceedsIff` | internal/notif/email.go:84-100 | Over any run, a window holds more messages than its cap exactly when the logged and the unlogged ones in it together exceed the cap. |
| `EmailDampener.EveryWindowIsDampened` | internal/notif/notif.go:77-82 | Over any run with successful inserts, every ten minutes hold at most 1 message per recipient and thread, and every hour at most 100 per recipient. |
| `EmailDampener.LostInsertCanRepeat` | internal/notif/email.go:93-100 | One lost insert is enough for a second message at the same instant. |
| `EmailDampener.WindowIsHalfOpen` | internal/notif/queries/email_log.sql:12-27 | The bound is tight: a message exactly ten minutes after the last one goes out. |
| `EmailDampener.SentWasAllowed` | internal/notif/fanout.go:452-505 | Every message of a run was allowed by its recipient's preference, and its probes and transport worked. |
| `PullProtocol.CommitCreateKeeps` | internal/pulls/pulls.go:159-222 | Committing a Create keeps uniqueness and every other Create's probe, also when lock keys collide. |
| `PullProtocol.CommitMergeKeepsRecords` | internal/pulls/merge.go:181-190 | Committing a Merge adds the first and only record of its pull request, with every gate passed. |
| `PullProtocol.AtMostOneOpen` | internal/pulls/pulls.go:159-222 | In every interleaving of Creates, Merges, closes and updates, with any lock-key function, no two open pull requests share repository, base and head. |
| `PullProtocol.MergesAtMostOnceAndOnlyWhenAllowed` | internal/pulls/merge.go:57-135 | In every interleaving each pull request is merged at most once, exactly when a Merge committed, and each commit saw it open and clean, its head not in base, and both gates satisfied. |
| `PullProtocol.CommitMergesWhatWasChecked` | internal/pulls/merge.go:69-75 | At a commit the row still has the head and base the gates were asked about, and is not merged yet. |
| `PullGates.EveryMergePassedItsGates` | internal/pulls/merge.go:57-135 | In every interleaving, before a Merge commits the run has locked the row, unmerged, clean and with its present head and base, has read it open, has not heard that the head is in the base unless an object id was missing, and has heard yes from the review gate and from the checks gate. |
| `PullGates.EveryPullHasTwoBranches` | internal/pulls/pulls.go:122-145 | In every interleaving each pull request has two named, different branches, and one just added two different commits. |
| `PullProtocol.DiskIsAccounted` | internal/pulls/merge.go:157-190 | In every interleaving the merges of a pull request on disk are the recorded one, those whose transaction rolled back afterwards and at most one in flight; with none in flight it is merged on disk unrecorded exactly when one was lost and none recorded, and more than once exactly when two were lost, or one lost and one recorded. |
| `PullProtocol.ReopenKeepsIff` | internal/pulls/state.go:21-59 | The write of a reopening, made after and apart from the read of the merged column, keeps what Create promises exactly when the branches are free, and everything exactly when also no Merge has committed since. |
| `PullProtocol.ReopenCanFollowMerge` | internal/issues/issues.go:416-467 | A run in which a reopening reads, a Merge commits, and the write leaves the pull request merged and open. |
| `PullProtocol.SetBaseKeepsIff` | internal/pulls/pulls.go:768-821 | Changing the base keeps it exactly when the pull request is closed or the new branches are free. |
| `PullProtocol.ReopenCanDuplicate` | internal/pulls/state.go:30-46 | The run create, close, create, for any branches and lock keys, after which reopening makes a second open pull request. |
| `PullProtocol.SetBaseCanDuplicate` | internal/pulls/pulls.go:768-821 | The run of two creates with one head and two bases, after which moving the second to the first base does the same. |
| `SecretScan.BuildLineStarts` | internal/secretscan/scan.go:60-65 | The loop builds 0 and the offset after every newline, in order. |
| `SecretScan.LineForOffset` | internal/secretscan/scan.go:87-98 | The binary search counts the entries at or before the offset. |
| `SecretScan.SearchGivesLine` | internal/secretscan/scan.go:85-98 | On the content's index that count is 1 plus the newlines before the offset. |
| `SecretScan.StartIsLineStart` | internal/secretscan/scan.go:109-109 | The index entry of the line is where the line of the offset begins. |
| `SecretScan.NextStartIsLineEnd` | internal/secretscan/scan.go:110-115 | The next entry, less one, or the end of the content, is where it ends. |
| `SecretScan.RedactLine` | internal/secretscan/scan.go:104-176 | Every slice is in range for any span; for an in-range match on its line the result is the excerpt. |
| `SecretScan.Scan` | internal/secretscan/scan.go:45-86 | One finding per long-enough match of every pattern in the possibly truncated content, in order, with its line and excerpt. |
| `SecretScan.FoundIff` | internal/secretscan/scan.go:45-86 | The scan of the first maxBytes bytes tells of every match of every pattern that is long enough, with its line and excerpt, and of nothing else. |
| `SecretScan.ExcerptIsWindow` | internal/secretscan/scan.go:146-175 | The excerpt is a window of at most 160 bytes of the line with the marker in place of the match, plus an ellipsis on each side that was cut; the branch without a marker is never taken. |
| `SecretScan.ExcerptHidesMatch` | internal/secretscan/scan.go:137-146 | Two contents that differ only inside the match get the same excerpt, as long as both matches or neither span a line end: the matched bytes do not reach the excerpt. |
| `SecretScan.FirstMarker` | internal/secretscan/scan.go:152-155 | The first marker found in the redacted line is the first one before the match, or else the match's own. |
| `SecretScan.OwnMarkerShownIff` | internal/secretscan/scan.go:148-164 | The match's own marker is inside the window exactly when the line is short, no earlier text spells the marker, or the earliest that does is at most 75 bytes before it. |
| `SecretScan.OwnMarkerCanBeMissed` | internal/secretscan/scan.go:148-164 | A family of lines whose window misses the match. |
| `SecretScan.ShownByteIsThere` | internal/secretscan/scan.go:137-175 | A byte of the content inside a finding's window stands in its excerpt as it is. |
| `SecretScan.RevealsIff` | internal/secretscan/scan.go:67-83 | A finding's excerpt shows bytes of another match exactly when that match reaches into the stretch of line shown before the marker or the one shown after it. |
| `SecretScan.OtherMatchCanBeRevealed` | internal/secretscan/scan.go:10-13 | A line with two matches where the excerpt of one shows the other. |
| `CheckRollup.BestRank` | internal/checks/suite_rollup.go:81-94 | The loop finds the least rank of all conclusions, -1 exactly when there is none. |
| `CheckRollup.DeriveSuiteRollup` | internal/checks/suite_rollup.go:52-99 | The loops compute a rollup that depends only on the set of run states, so neither on order nor on repetition. |
| `CheckRollup.ConclusionIsTheirs` | internal/checks/suite_rollup.go:18-24 | For completed runs with conclusions the aggregate is a conclusion of one of them and none has higher priority. |
| `CheckRollup.StatusByRuns` | internal/checks/suite_rollup.go:52-72 | Completed exactly when there are runs and all are, queued exactly when none has moved, in progress otherwise, pending never. |
| `CheckRollup.ConclusionByRuns` | internal/checks/suite_rollup.go:73-99 | What completed runs conclude, by name: failure if any failed, else timed out, cancelled, action required, success, neutral (also when none has a conclusion), skipped, stale; each exactly when it is there and no earlier one is. |
| `CheckStore.CreateKeepsValid` | internal/checks/create.go:44-137 | Create keeps: stored rollups recomputable, completed runs concluded, external ids unique per repository, commit and name. |
| `CheckStore.UpdateKeepsValid` | internal/checks/update.go:47-157 | So does Update. |
| `CheckStore.StoredRollupsAreRecomputed` | internal/checks/suite_rollup.go:28-47 | After any run of Creates and Updates, one at a time, each stored suite equals the rollup of its runs, and a completed suite's conclusion is one of theirs, never the neutral fallback. |
| `CheckRollup.SameRollupIff` | internal/checks/suite_rollup.go:52-99 | Two sets of runs, completed ones concluded, have the same rollup exactly when both are all completed and each has, for every conclusion of the other, one of the same or higher priority, or neither is and both or neither are all queued. |
| `CheckRollup.UnnoticedIff` | internal/checks/suite_rollup.go:52-99 | One run's change leaves the rollup as it is exactly when: with the others unfinished, they are not all queued or the run is queued before and after or neither; with the others completed, the run is completed before and after or neither, and if so with the same conclusion or twice with one that the others outrank or match. |
| `CheckRollup.AdditionUnnoticedIff` | internal/checks/suite_rollup.go:52-99 | One run more leaves it as it is exactly when: with the others unfinished, they are not all queued or it is queued; with the others completed, it is completed and they outrank or match its conclusion. |
| `CheckOverlap.StepKeeps` | internal/checks/create.go:66-137 | Every step of every transaction keeps: row locks held by one, ids fit and differ, and each listing together with the commits it missed gives the suite as it is. |
| `CheckOverlap.OrderlyRunsAreRight` | internal/checks/update.go:114-146 | In every interleaving of Creates and Updates in which no transaction lists before another's commit to the suite and stores after it, each stored suite is the rollup of its runs. |
| `CheckOverlap.CreatesAreNeverOutdated` | internal/checks/queries/checks.sql:5-15 | In every interleaving, no commit to its suite comes between a Create's listing and its own commit. |
| `CheckOverlap.CreatesAloneAreRight` | internal/checks/create.go:66-137 | Creates alone, however they interleave, leave each stored suite the rollup of its runs. |
| `CheckOverlap.CommitIsRightIff` | internal/checks/suite_rollup.go:28-47 | In every reachable state a commit stores the right rollup exactly when the run states it listed and those it leaves are both all completed with conclusions covering each other's, or neither and both or neither all queued; however many commits it missed. |
| `CheckOverlap.OneMissedIsRightIff` | internal/checks/update.go:114-146 | With one commit missed, it is right exactly when the suite's other runs do not notice that commit's change of state (an Update) or addition (a Create), as stated over the runs' states. |
| `CheckOverlap.OverlappingUpdatesLoseCompletion` | internal/checks/update.go:114-146 | A run from empty tables: two overlapping Updates complete the last two runs and the suite is stored as in progress. |
| `CheckOverlap.UpdateMissesCreate` | internal/checks/suite_rollup.go:28-47 | A run from empty tables: an Update lists, a Create commits, the Update stores; the suite is stored as passed with a queued run in it. |
| `CheckOverlap.CommitKeepsExternalIff` | internal/checks/create.go:51-63 | A commit keeps external ids unique exactly when it is an Update's or no run with the Create's external id has committed since its lookup. |
| `CheckOverlap.OverlappingRetryDuplicates` | internal/checks/create.go:40-63 | A Create and its retry that both look up before either commits leave two runs with one external id. |
| `CheckStore.RetriedCreateIsIdempotent` | internal/checks/create.go:51-63 | A Create repeated with its external id changes nothing. |
| `CheckStore.RetriedUpdateIsIdempotent` | internal/checks/update.go:25-27 | Neither does a repeated Update. |
| `CheckStore.StatusMayMoveAnywhere` | internal/checks/update.go:57-79 | Any status may follow any other, changing nothing else, exactly unless a completed run would lack a conclusion. |
| `CheckStore.Store.Create` | internal/checks/create.go:44-137 | Validation errors in order, the existing run on a retry, otherwise a new run and its suite's rollup. |
| `CheckStore.Store.Update` | internal/checks/update.go:47-157 | The patched run and its suite's rollup, or the error and no change. |
| `CheckStore.FailingMeans` | internal/checks/required_eval.go:53-69 | A required name is missing exactly when its latest run on the commit has not completed with success or neutral, or there is no commit. |
| `CheckStore.EvaluateRequiredChecks` | internal/checks/required_eval.go:39-78 | The gate's missing names in required order, open exactly when every name passes; a failed lookup never opens it. |
| `CheckGate.PassesIff` | internal/checks/required_eval.go:53-69 | A required name passes exactly when the run of that name created last on that repository and commit has completed with success or neutral. |
| `CheckGate.NewestDecides` | internal/checks/required_eval.go:53-69 | A write of a name's newest run opens or closes the gate by its own state, a write of an older one changes nothing. |
| `CheckGate.OthersDoNotNotice` | internal/checks/required_eval.go:53-69 | Nor does a write of another name, commit or repository. |
| `CheckGate.NewRunClosesGate` | internal/checks/create.go:114-127 | A new run of a name decides its gate at once: closed until it has passed. |
| `CheckGate.NamesAreRead` | internal/checks/checks.go:58-73 | A text is read as a status or conclusion exactly when it is its name. |
| `CheckGate.CreateAcceptedIff` | internal/checks/create.go:139-176 | Exactly which new runs are accepted, with the bounds on name, commit, status, conclusion, text and summary, and what an accepted one holds. |
| `CheckGate.CreateAddsIff` | internal/checks/create.go:51-63 | An accepted Create adds one run, unless one of the same repository, commit, name and external id is there, when it changes nothing. |
| `CheckGate.UpdateSets` | internal/checks/update.go:57-115 | An Update sets what it is given, keeps the rest, and is refused exactly when a completed run would have no conclusion or a text is too long. |
| `DigestSchedule.NextDailyAfter` | internal/notifications/digest.go:228-234 | The daily branch computes the closed form. |
| `DigestSchedule.NextWeeklyAfter` | internal/notifications/digest.go:236-244 | The weekly loop terminates for every weekday 0..6 and computes the closed form. |
| `DigestSchedule.NextSendTimeIsNextTick` | internal/notifications/digest.go:218-244 | The result is the least tick strictly after base, within 24 hours or 7 days. |
| `DigestSchedule.Sweeper.SweepOnce` | internal/notifications/digest.go:65-148 | A sweep sends before it advances: its messages, in order, the advanced rows at their next tick, the others an hour ahead, and the count of those advanced. |
| `DigestSchedule.SweptIsNotDue` | internal/notifications/digest.go:139-148 | A claimed row is not due again at the sweep's instant, nor an advanced one at the instant it was handled. |
| `DigestSchedule.WeeklyDay` | internal/notifications/digest.go:236-244 | A weekly digest goes out at its hour on its day, Sunday when none is given, within a week. |
| `DigestSchedule.DisabledIsNeverMailed` | internal/notif/queries/digests.sql:46-58 | Over any run of sweeps a disabled row is never claimed. |
| `DigestSchedule.RunIsSpaced` | internal/notif/queries/digests.sql:33-72 | Over any run of sweeps, every handling of a row comes after a tick since its last advance, and an unadvanced row is not claimed again within the hour. |
| `DigestSchedule.AdvancedBetween` | internal/notifications/digest.go:139-148 | Over any run, two handlings of a row have a tick between them when one from the first on and before the second advanced it. |
| `DigestSchedule.RepeatsIff` | internal/notifications/digest.go:123-148 | After a sweep has handled a user, some continuation of the run mails the user again with no tick in between if and only if the row was not advanced and, before the next tick after the handling, the hour's claim runs out and the sweep's rows have all been handled. |
| `DigestSchedule.AtMostOncePerTick` | internal/notifications/digest.go:123-148 | When every message's advance succeeds, every two messages to a user have a tick between them. |
| `DigestSchedule.RepeatsAreAnHourApart` | internal/notif/queries/digests.sql:33-49 | A message whose advance failed is not repeated within the hour. |
| `DigestSchedule.MailCanRepeat` | internal/notifications/digest.go:123-136 | Two sweeps in which the user is mailed twice with no tick in between. |

## Left out

- OrgTheorems.RunKeepsCap: leaves SetTeamParent out of its steps, because no gate runs there; the exact condition is proved instead.
- Restoring a soft-deleted private repository and transferring a repository to an organization: ungated in the source and not steps of the model.
- Races between a collaboration check and the write that follows it: check and write are one step, as the source does not lock between them.
- Slug, display-name and team-role validation, sending, declining and cancelling invitations, and deleting users: easy members without effect on the theorems.
- Unicode lower-casing beyond what a comparison with an ASCII keyword can see.
- tsquery matching, ranking and ORDER BY, trigram code search and user search: Postgres behaviour; full-text matching is a parameter.
- Negated qualifiers: they are parsed and conserved, and like the source the compiler ignores them.
- A server that consumes a runner token and then fails to answer: an erring call is modelled as not accepted, so the next call's token would be stale in that case.
- A job session whose accepted non-terminal call returns no next token: the server always returns one, and the source aborts on its absence only after the running call.
- The job session as an object with a mutex: its token, its lock and its three threads are one state machine, because the properties are about interleavings.
- Rule engine, email preferences by kind, email bodies and unsubscribe links: answers of the outside world or presentation.
- EmailDampener.EveryWindowIsDampened: attempts do not overlap, since nothing locks between probe and insert.
- NotifRetry.RetryIsCleanIff: both attempts get the same answers from the lookups outside the inbox tables; a lookup whose answer changes in between adds differences of its own.
- Row ids and timestamps of inbox rows, and the snooze, tab and rule columns.
- PullProtocol.AtMostOneOpen: covers runs without reopen and base change, which take no lock; their exact conditions are proved instead.
- Ref resolution, the FNV lock hash (any function), the content of git merges, linked-issue closing, default-branch bookkeeping and auditing around pull requests.
- `review.Evaluate` and the ancestor probe are answers of the outside world; a probe that fails lets a merge pass, as in the source.
- MarkStaleForPreviousHead: it deliberately overwrites the rollup.
- The regular expressions of the secret patterns: any finder whose spans lie in the content.
- Changing a digest's settings between sweeps, and sweeps that overlap because one took over an hour.
- Cron schedules, billing operations, Markdown, avatars, badges, command line, HTTP, object storage, git subprocesses, imports and cryptography.
