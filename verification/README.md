# OpenFederation protocol model

A Dafny model of the protocols inside an OpenFederation personal data server, with
proofs of what they keep. `dafny verify dfyconfig.toml` checks everything.

**Governance** (`DecisionRules`, `VoteTally`, `DelegationLoop`, `ProposalRecords`,
`ProposalMachine`, `Community`). A community decides by proposals: votes and delegated
votes are signed records in the voters' own repositories, the vote lists on the proposal
are a cache, and a proposal is decided only when both agree. An approved change waits out
a contest window, in which enough objections hold it and open an override round with a
higher, frozen bar. `ProposalMachine` is the state machine over durable writes: a request
plans its writes in order and may die after any of them, sweeps come late or never, and
amending, which takes no lock, is two steps. `Community` is the same as a class, one
method a handler, in the handlers' own order with their own loops; every method ends in
exactly the machine's state. The results are in `ProposalEvolution`, `ProposalHistory`,
`ProposalEvidence`, `OverrideRound`, `RecordAgreement`, `LineageLimit`, `SettingsSafety`,
`VoteRules`, `HoldRules` and `SettingsRules`, which say what a request does in terms of the
records it finds (`StoredRules` reads the configured numbers off the settings record),
and, against the eager machine of `EagerWindows`, in `ContestWindows`, `LazyRequests`,
`LazyWindows`, `LateHolds` and `SweepOrder`.
The rules in `src/governance/` are modelled from their code.

**Sessions** (`SessionStore`, `SessionMachine`, `SessionServer`). Refresh-token rotation
(section 4.14.2 of RFC 9700) and `token_version`: each SQL statement is one step, each
request a program counter, and any number of requests interleave. `SessionServer` is the
class form, with an `Interference` step between any two statements. The results are in
`SessionSafety`, `SessionReuse`, `SessionStatus` and `SessionAnswers`.

**Smaller cores.** `AttestationAccess`: SQL visibility against disclosure.
`CanonicalJson`: claim commitments. `Lockout`: login lockout arithmetic. `PartnerQuota`:
a sliding window under a row lock. `CreationTokens`: tokens and reserved keys across
transactions. `LexiconTypes`: the schema compiler. `ImportBoundaries`: the import checker.

Conventions: identifiers, DIDs, record keys and CIDs are numbers drawn once from a counter;
times are integers in milliseconds; configured numbers are reals. Randomness, the clock,
repository lookups (`repos`), failing record writes (`lost`), the electorate's size, the
order a query returns rows in, and where a process dies (`survived`, `lives`, `failing`)
are parameters. Hashes are assumed injective and random values fresh; a valid creation
token is one that was issued.

## What is not so

Some properties one might expect fail in some runs. The code is kept as it is, and the
failure is exhibited, with the exact condition under which the property holds.

- An amendment takes no lock, so its write may land on anything. If a decision fell in
  between, it reopens the decided proposal (`ProposalEvolution.StaleAmendmentReopens`); if
  another amendment did, it drops that from the history (`SecondAmendmentDropsFirst`); if a
  vote did, the name and the record are both lost to the amended proposal
  (`RecordAgreement.VoteDuringAmendmentIsErased`), or, when that vote died before its commit,
  the record counts with no name on the list (`CutVoteOutlivesAmendment`). A write advances
  the proposal exactly when that is still open, keeps its history exactly when the stored
  one is the one read (`ProposalEvolution.StepEvolves`), and keeps records and cache in
  agreement exactly when no countable record is dated at or after the amendment
  (`RecordAgreement.AmendmentAgreesExactly`). Runs whose amendments land on open proposals
  are called orderly.
- A proposal may target governance's own records, to delete them or to write over them
  (`ProposalEvidence.ReservedTargetsAccepted`), and the change takes effect by a sweep or,
  without a contest window, with the vote. It displaces exactly the proposal it targets and
  strips exactly the proposals that cite the decision it targets
  (`ProposalEvidence.ReservedChangeEvolves`, `ReservedChangeEvidence`, `FirstReservedChange`,
  `WrittenOverReopens`). Runs in which no such change is made, whatever is proposed, are
  called plain; every run is one up to its first such change, and every orderly run is one.
- A vote record counts exactly as long as no more than 500 rewrites have followed the state
  it cites (`LineageLimit.RecordCountsWhileRemembered`).
- Deactivation and moderation raise the version before they revoke. A refresh between the
  two leaves a token of a revoked session accepted, for a suspension when another moderator
  lifts it first (`SessionStatus.DeactivationLeavesTokenCurrent`,
  `ModerationLeavesTokenCurrent`). The exact condition is `StatusFirstTokenIsStale`.
- An objection whose process dies between its record and the hold it causes is weighed only
  by the next sweep, and the override round runs from that sweep, not from the end of the
  window; when the two can be told apart is `LateHolds.CutObjectionDiverges`.
- Creating and amending a proposal, delegating and the endpoints outside governance do not
  sweep, so they can miss a change that is due; exactly when that shows is
  `LazyWindows.StepAlikeExactly`, and `CreationOutlivesModel` is a creation for which it does.
- Due proposals are applied by record key, not by due time, so two of them swept together may
  land in the other order, and one may be refused that would not have been;
  `SweepOrder.SweepOrderInvisible` says exactly when that shows.
- The advisory lock is per proposal, so handlers of two proposals can compute settings
  changes from the same records, and the first change is lost unless
  `SweepOrder.InterleavedUpdateLost` says otherwise.
- A deletion of a private attestation that stops early leaves a listed row behind: shown to
  everyone after its third statement, and to those it was shown to before after its first and
  second, while disclosure no longer finds it (`AttestationAccess.CutDeletion`,
  `CutDeletionLeaks`). After its first statement it also strands live grants
  (`CutDeletionStrandsGrants`), and so does a deletion between a grant's check and its insert
  (`LateGrantDangles`).
- A lexicon reference into another document is emitted as `undefined`, and an array without
  `items` as an array of `undefined` (`LexiconTypes.UnresolvedReference`, `UntypedArray`).

## Model

| member | source | states |
|---|---|---|
| SessionSafety.ExchangedAtMostOnce | src/api/com.atproto.server.refreshSession.ts:132-178 | In every interleaving of any number of requests, at most one request is ever answered with a successor of a given refresh token |
| SessionSafety.HashesStayDistinct | src/api/com.atproto.server.refreshSession.ts:148-159 | In every reachable state the current refresh-token hashes are pairwise distinct |
| SessionSafety.SpentHashesStayRetired | src/api/com.atproto.server.refreshSession.ts:148-159 | A hash that was ever exchanged is no session's current hash in any later state |
| SessionSafety.BlockedAccountHoldsNoToken | src/api/com.atproto.admin.updateSubjectStatus.ts:87-154 | While an account is suspended or taken down, no access token ever signed for it, by login or refresh, carries the stored `token_version` |
| SessionSafety.RevokedSessionTokensAreStale | src/api/com.atproto.server.refreshSession.ts:40-58 | For a token returned by a refresh: once the refresh, logout or revocation that revoked its session has finished its bump, the token's version is strictly below the stored one |
| SessionReuse.DeadForGood | src/api/net.openfederation.account.revokeSession.ts:42-70 | Revocation is permanent: the row is never unrevoked and never changes hash, however the run goes on |
| SessionReuse.SpentTokenNeverExchanged | src/api/com.atproto.server.refreshSession.ts:27-74 | A request presenting an already exchanged token never gets a successor |
| SessionReuse.ReuseIsLookedUp | src/api/com.atproto.server.refreshSession.ts:27-58 | A hash some row still remembers as its predecessor always leads the request to the reuse check, on lookup and after a failed rotation alike |
| SessionReuse.ReuseRevokesFamily | src/api/com.atproto.server.refreshSession.ts:40-58 | Once that request has answered, every session its user had when the check ran is revoked or gone, and the request got no successor |
| SessionStatus.StatusFirstTokenIsStale | src/api/com.atproto.admin.updateSubjectStatus.ts:87-154 | Deactivation and moderation write status and version first and revoke second. Once such a request is through and while the version stands as it left it, a token returned for a session it revoked is rejected if and only if it was signed before that write; one signed later is never behind the write |
| SessionStatus.StatusFirstRevokesExactly | src/api/com.atproto.server.deactivateAccount.ts:40-69 | In every run, such a request leaves every token of a session it revoked rejected if and only if no token of that session, at the version still stored, was signed after its status write |
| SessionStatus.RevokedRowHasRevoker | src/api/com.atproto.server.deleteSession.ts:24-41 | A stored session is revoked exactly when some request revoked it, and that request is one that revokes first or one that writes its owner's status first; so the two staleness theorems cover every revoked session |
| SessionStatus.DeactivationLeavesTokenCurrent | src/api/com.atproto.server.deactivateAccount.ts:40-69 | The failing case: from any state with an approved user and a live session, a refresh between the two statements of `deactivateAccount` leaves a token of a session it revoked accepted |
| SessionStatus.ModerationLeavesTokenCurrent | src/api/com.atproto.admin.updateSubjectStatus.ts:130-181 | The same for moderation: a suspension's first statement, its lifting by another moderator, a refresh, and the suspension's second statement |
| SessionAnswers.RefreshedWasLive | src/api/com.atproto.server.refreshSession.ts:60-178 | In every run, a request answered with a successor found the presented hash, at its lookup, on an unrevoked session whose end had not come; signed while the user could hold a session, at the stored version; and exchanged the hash while the session was unrevoked and still had it. Said of the tables at those three moments |
| SessionAnswers.ExpiredNeverRefreshed | src/api/com.atproto.server.refreshSession.ts:68-74 | A request whose lookup finds its hash on a revoked or expired session is refused, and whatever runs afterwards, never answered with anything else |
| SessionAnswers.LiveIsRefreshed | src/api/com.atproto.server.refreshSession.ts:60-178 | Conversely, statement by statement: a session that is live at the lookup, whose user can hold a session at the signing, and that still has the hash at the exchange, is refreshed |
| SessionAnswers.LoggedInPassed | src/api/com.atproto.server.createSession.ts:120-178 | In every run, a login answered with a session passed its password check while its user could hold one, at the version its token carries, and opened a new session of that user with a hash of its own |
| SessionAnswers.RefusedLoginFailed | src/api/com.atproto.server.createSession.ts:101-130 | ... and one that is refused failed the check, or its user could not hold a session |
| SessionAnswers.FailedLoginIsRefused | src/api/com.atproto.server.createSession.ts:101-130 | A login whose password check fails is refused for good and changes no table |
| SessionServer.LoginAnswers | src/api/com.atproto.server.createSession.ts:101-195 | No login of the server whose password check failed ends in a session, and one whose check passed is refused only for its user's status |
| SessionServer.Server.RefreshSession | src/api/com.atproto.server.refreshSession.ts:27-179 | The handler in its own order, with any other requests between two statements, is one refresh request of the machine, run to the answer it returns; a successor it answers with is the session's, with the new end |
| SessionServer.Server.DeleteSession | src/api/com.atproto.server.deleteSession.ts:24-41 | Revokes the row, then bumps: one logout request of the machine, run to its end |
| SessionServer.Server.RevokeSession | src/api/net.openfederation.account.revokeSession.ts:42-70 | One or all of the sessions, then the bump if any was revoked: one revoke request of the machine |
| SessionServer.Server.UpdateSubjectStatus | src/api/com.atproto.admin.updateSubjectStatus.ts:70-181 | Takedown and suspension branches in order: one moderation request of the machine, refused where the caller may not moderate the target |
| SessionServer.Server.DeactivateAccount | src/api/com.atproto.server.deactivateAccount.ts:26-69 | Status and version in one statement, then the sessions: one deactivation request of the machine |
| SessionServer.Server.ActivateAccount | src/api/com.atproto.server.activateAccount.ts:33-97 | One activation request of the machine, refused where the identity does not point here |
| SessionServer.Server.CreateSession | src/api/com.atproto.server.createSession.ts:29-195 | Password and status check, then a session minted with the version that was read: one login request of the machine. A wrong password is always refused, and a session it answers with is stored for that user |
| DecisionRules.OverrideBarIsStronger | src/governance/decision-rules.ts:342-349 | An unconfigured override bar is reachable by any non-empty electorate, at least two thirds of it, and above the quorum exactly when the electorate is |
| DecisionRules.MergeChangesOnlyWhatItNames | src/governance/timelock.ts:411-431 | An applied settings proposal changes exactly the configuration keys and fields it names |
| VoteRules.RefusedVote | src/api/net.openfederation.community.voteOnProposal.ts:84-135 | A vote out of time, repeated, or that cannot be recorded changes nothing, except that an open proposal past its end is closed as expired |
| VoteRules.VoteCounts | src/api/net.openfederation.community.voteOnProposal.ts:137-250 | A vote that may be taken adds to the list of its side exactly the voter and whoever a stored delegation record makes vote with them, has not voted and can be recorded, each once, and leaves the other list |
| VoteRules.VoteWrites | src/api/net.openfederation.community.voteOnProposal.ts:137-250 | It writes exactly one record for each counted name whose write does not fail, on its side, citing the proposal as it was |
| VoteRules.TallyExactly | src/governance/proposal-resolution.ts:158-208 | A voter is on a side of the tally if and only if the earliest of their records that count, by date and then by key, is on that side; what counts is said of the record's own fields |
| VoteRules.OpenVoteDecides | src/api/net.openfederation.community.voteOnProposal.ts:252-339 | A vote on an open proposal decides it if and only if the two lists together reach the stored quorum, or 3 where no nonzero number is stored, and, where records are the evidence, so does the tally with the same majority; it is then approved if and only if more are for it than against; and an approval waits exactly the stored hours, unless they are zero or records are not the evidence |
| VoteRules.VoteCloses | src/api/net.openfederation.community.voteOnProposal.ts:333-400 | A vote leaves everything else on the proposal as it was, except that a decision is dated and cited, and a round it carries is marked so, and as applied unless the change is refused |
| VoteRules.CutVote | src/api/net.openfederation.community.voteOnProposal.ts:137-400 | A vote whose process dies leaves the records it got to write, in order; lists and decision are stored only after all of them |
| VoteRules.DecisionStates | src/governance/proposal-resolution.ts:329-419 | A vote that changes the status cites a decision naming the votes of the tally, the bar read off the settings or the round, and the latest decision it supersedes; or the latest, if that has the same outcome from the same votes |
| HoldRules.ObjectionHolds | src/api/net.openfederation.community.objectToProposal.ts:83-212 | An objection is recorded if and only if the window is open and the objector can sign and has not objected; and it holds the proposal if and only if those standing with it, counted from the records, reach the stored threshold |
| HoldRules.SweepDecides | src/governance/timelock.ts:516-629 | A sweep leaves a proposal alone until its window has ended, and then holds it if and only if the standing objections reach the stored threshold; a hold is final where the settings say so, and else opens a round with the stored bar and the stored days to run, or two thirds of the electorate where no bar is stored |
| HoldRules.RoundLapses | src/governance/timelock.ts:164-207 | A round that has ended uncarried is rejected as lapsed, and nothing else is changed by closing rounds |
| HoldRules.HeldRoundCarries | src/governance/decision-rules.ts:342-349 | In every plain run, a vote counted in a round a hold opened carries the change if and only if its For list, and the tally where records are the evidence, reaches the bar the settings stated when the round opened, whatever they state by then |
| SettingsRules.SoundRead | src/governance/settings-rules.ts:187-246 | Settings are accepted if and only if, field by field, the model is absent or one of the three, and under a voting model everything the rules need is there and everything they read is in range |
| SettingsRules.SettingsStayRecognized | src/governance/timelock.ts:366-373 | In every run the stored settings are recognized in that sense at every point, whatever proposals are created and voted through, if other endpoints write only recognized ones |
| SettingsRules.CreationExactly | src/api/net.openfederation.community.createProposal.ts:29-133 | A creation stores one new open proposal, with the stored days to run, and its seed vote if that can be recorded, if and only if the community votes, a write says what to write, proposed settings are recognized, and the proposer's repository could be checked; else nothing changes |
| SettingsRules.SettingsChangeExactly | src/governance/timelock.ts:411-488 | A sweep that approves a settings proposal stores the settings merged field by field if and only if they are recognized, and otherwise leaves the settings |
| SettingsRules.PlainChangeExactly | src/governance/timelock.ts:460-488 | Any other approved write stores what it proposes, and an approved deletion leaves nothing |
| VoteTally.TallyFromVoteRecords | src/governance/proposal-resolution.ts:158-208 | The scan returns, for every voter with a countable record, the earliest one, whatever order the rows come in, and lists every other voter with the reason for the first of its records |
| VoteTally.TallyIgnoresOrder | src/governance/proposal-resolution.ts:158-208 | Two scans of the same records count the same records and reject the same voters, however rows are ordered or repeated |
| VoteTally.OneVotePerVoter | src/governance/proposal-resolution.ts:187-200 | Nobody is counted twice, on one side or both, and everyone with a countable record is counted |
| DelegationLoop.CountDelegations | src/api/net.openfederation.community.voteOnProposal.ts:164-238 | The loop appends the voter and then exactly the delegators `Added` names to one list, and its vote-record inputs match the added names one to one, each citing a delegation row of that name |
| DelegationLoop.AddedExactly | src/api/net.openfederation.community.voteOnProposal.ts:179-238 | As a set, the delegators added are exactly the recordable ones who had not voted, each once; duplicate rows are harmless |
| DelegationLoop.AddedIgnoresOrder | src/api/net.openfederation.community.voteOnProposal.ts:172-238 | The order of the delegation rows changes neither who is added nor how many |
| ProposalEvolution.StepEvolves | src/api/net.openfederation.community.amendProposal.ts:34-72 | One event of any kind advances a stored proposal (status rank down or unchanged, closed and frozen parts kept) if and only if it is no amendment's write onto a proposal that is no longer open; it also keeps its history and its names if and only if, besides, the stored history is the one the draft was made from |
| ProposalEvolution.ProposalsAdvance | src/api/net.openfederation.community.voteOnProposal.ts:101-135 | Between two points of a plain run a proposal stays stored, and every step advances it (status rank open, pending, override, closed never rises, charter and frozen round stay) if and only if no draft is written over it in between unless it is open |
| ProposalEvolution.ProposalsEvolve | src/api/net.openfederation.community.amendProposal.ts:46-79 | ... and every step also keeps its amendments and, between resets, its names if and only if whatever draft is written over it was read from what is stored |
| ProposalEvolution.ClosedIsFinal | src/api/net.openfederation.community.voteOnProposal.ts:345-399 | From one point to any later one of a plain run, a closed proposal is identical throughout if and only if no draft is written over it in between |
| ProposalEvolution.SecondAmendmentDropsFirst | src/api/net.openfederation.community.amendProposal.ts:34-72 | Two amendments of an open proposal, both read before either is written: the second write drops the first from the history |
| ProposalEvolution.StaleAmendmentReopens | src/api/net.openfederation.community.amendProposal.ts:46-72 | The failing case: an amendment read before a decision and written after it reopens the decided proposal |
| ProposalEvolution.AmendmentKeepsHistory | src/api/net.openfederation.community.amendProposal.ts:46-79 | Read and written with nothing between, an amendment extends the history with the record it replaced and clears both vote lists |
| ProposalHistory.StatusNeverReturns | src/api/net.openfederation.community.objectToProposal.ts:83-121 | In a plain run, while no draft is written over the proposal unless it is open, a status once left is never entered again: at most one hold, one override round, one close |
| ProposalHistory.AppliedAtMostOnce | src/governance/timelock.ts:600-629 | Under the same condition no two commits in the log of a plain run make the same proposal's change, and a proposal whose change was made is closed |
| OverrideRound.PendingChangeWaits | src/governance/timelock.ts:516-629 | Under the same condition, once a proposal waits out its window its change is made by a sweep of the unchanged proposal at or after `applyAt`, with fewer standing objections than the threshold; or else, after a hold, by the vote that brings the For list to the round's frozen bar |
| ProposalHistory.ListsStaySound | src/api/net.openfederation.community.voteOnProposal.ts:137-238 | At every point of every plain run the vote lists of every proposal are duplicate-free and disjoint, amendments landing where they may |
| ProposalHistory.EveryNameWasCast | src/api/net.openfederation.community.createProposal.ts:99-133 | In every plain run every name on a list is the seeded proposer, a direct voter, or a delegator whose delegate voted that side while a delegation record named them, and has been on the list ever since |
| ProposalEvidence.CrashConsistency | src/api/net.openfederation.community.voteOnProposal.ts:314-399 | At every durable point of every plain run, wherever requests die between two writes and wherever amendments land: every evidence-model proposal past voting cites a stored, justified decision of its outcome, and every approved one was closed by a commit that also made its change unless that was refused |
| ProposalEvidence.DecisionsArePermanent | src/governance/proposal-resolution.ts:329-419 | In every plain run a decision record is never overwritten or removed |
| ProposalEvidence.ChangeOfStep | src/governance/timelock.ts:460-488 | A step of a proposal with such a target carries its change exactly when it closes the proposal as approved and there is something to write or delete, whether a vote or a sweep closes it |
| ProposalEvidence.ReservedChangeEvolves | src/governance/timelock.ts:460-488 | After any step of any proposal, with any change, every stored proposal has evolved if and only if the change did not delete it or put in its place something it could not evolve to |
| ProposalEvidence.ReservedChangeEvidence | src/governance/timelock.ts:460-488 | ... and every other proposal, the one that stepped included, is still evidenced if and only if the change did not delete the decision it cites or put another in its place |
| ProposalEvidence.ForgedIsEvidenced | src/governance/timelock.ts:460-488 | The proposal whose own record is written over: what is put there is evidenced if and only if the decisions stored without it attest what it claims |
| ProposalEvidence.FirstReservedChange | src/governance/timelock.ts:600-629 | In every run up to and with the first change to one of governance's own records, both conditions hold of that step: a stored proposal evolves if and only if it is not displaced, and stays evidenced if and only if it is not stripped |
| ProposalEvidence.WrittenOverReopens | src/governance/timelock.ts:516-629 | The failing case: a due proposal to write over a closed proposal makes it open again |
| SettingsSafety.SettingsStaySound | src/governance/timelock.ts:366-373 | The settings record passes the rules' own check at every point of every run in which other endpoints write only settings that pass it, reserved targets and stale amendments included; `SettingsRules` says what passing means |
| OverrideRound.ClosesAtBar | src/api/net.openfederation.community.voteOnProposal.ts:252-299 | An in-window vote, for or against, closes an override round exactly when records and cache both reach the bar frozen on the proposal; only For votes count |
| OverrideRound.HoldStartsOver | src/governance/timelock.ts:127-154 | A hold keeps the decision and the window's end as evidence; the round it opens starts with empty lists, no vote record from before it counts, and whatever the settings become it is carried exactly at the bar frozen now |
| OverrideRound.RoundsAnswerTheirBar | src/api/net.openfederation.community.voteOnProposal.ts:109-120 | While records and cache agree, at every point of every run an open round is below its bar, an approved one reached it before its expiry, and a rejected one lapsed below it, whatever happens to the settings |
| RecordAgreement.RecordsMatchCache | src/api/net.openfederation.community.voteOnProposal.ts:244-299 | In every plain run where requests finish, the records of counted votes get written, and what starts a tally over finds it empty, the countable vote records and the cached lists of every proposal in voting are the same names on the same sides |
| RecordAgreement.NeverDeferred | src/governance/proposal-resolution.ts:260-276 | A vote in such a run is never deferred: the tally it resolves on is the cached lists, name for name |
| RecordAgreement.CleanRunsAgree | src/api/net.openfederation.community.voteOnProposal.ts:291-299 | Such runs satisfy the agreement the override theorem assumes |
| RecordAgreement.HoldAgreesExactly | src/governance/proposal-resolution.ts:210-258 | A hold that opens an override round leaves records and cache in agreement if and only if no vote record dated at or after it cites a state the proposal knows |
| RecordAgreement.AmendmentAgreesExactly | src/api/net.openfederation.community.amendProposal.ts:46-79 | An amendment's write leaves records and cache in agreement if and only if no vote record dated at or after the amendment cites a state in the lineage its draft was read with, or the one it overwrites |
| RecordAgreement.VoteDuringAmendmentIsErased | src/api/net.openfederation.community.amendProposal.ts:34-79 | The failing case: a vote counted between an amendment's read and its write is gone from the list, and its signed record does not count, unless the draft's lineage already had the state it cites |
| RecordAgreement.CutVoteOutlivesAmendment | src/api/net.openfederation.community.amendProposal.ts:34-79 | The other failing case: a vote that dies before its commit, while an amendment is under way, counts in the tally of the amended proposal though no list names the voter |
| LineageLimit.RecordCountsWhileRemembered | src/governance/proposal-resolution.ts:113-145 | In every plain run, while a proposal is not amended and its tally not started over, a vote record counts if and only if no more than 500 rewrites have followed the state it cites |
| LineageLimit.LineagesStaySound | src/governance/proposal-resolution.ts:113-145 | In every plain run lineages hold at most 500 states, each once, all of them past |
| EagerWindows.ClosingIsTheSweeps | src/governance/timelock.ts:516-629 | What the eager machine commits at the end of a window or round is what the sweep would commit at that very moment |
| LazyWindows.LazyRefinesEager | src/governance/timelock.ts:652-674 | Two machines handle the same requests, one sweeping lazily, one without sweeps that closes each window and round at its end: at every point they differ only in the ended windows the lazy one has yet to close |
| LazyWindows.SweptStatusIsEager | src/api/net.openfederation.community.voteOnProposal.ts:65-76 | What a vote or objection sees after its sweeps is the eager status, and while the proposal is live the eager proposal |
| LazyWindows.SweptRecordIsEager | src/governance/timelock.ts:600-629 | A record that no unswept window is about is the eager machine's: the same changes have been made to it, in the same order |
| LazyWindows.ReadIsEager | src/api/net.openfederation.community.getProposal.ts:24-33 | A read whose two sweeps finish returns the eager status |
| LazyWindows.StepAlikeExactly | src/api/net.openfederation.community.createProposal.ts:46-66 | A sweep leaves the two machines alike if and only if it comes in turn; and a creation, an amendment's read, a delegation write or any other direct write, whose handlers do not sweep, if and only if the pending changes leave what it reads, or commute with what it writes |
| LazyWindows.CreationOutlivesModel | src/api/net.openfederation.community.createProposal.ts:46-66 | The failing case: a creation that comes while a due proposal to leave the voting model is unswept is stored on the lazy machine and refused on the eager one |
| LateHolds.CutObjectionDiverges | src/api/net.openfederation.community.objectToProposal.ts:159-212 | An objection dies between its record and its hold: the eager machine holds at the end of the window, the late sweep when it comes, which is when its round's clock starts. Whatever other windows end meanwhile, unless they are about the settings, the statuses agree if and only if the objection was not the one to reach the threshold, or holds are final, or the eager round is not over when the sweep comes |
| SweepOrder.SweepOrderInvisible | src/governance/timelock.ts:640-674 | Sweeps go by record key, not by due time: two sweeps about one record, in either order, leave it the same if and only if the guards and fields of the two changes say so, the refusal of an inapplicable settings change included |
| SweepOrder.OutOfTurnExactly | src/governance/timelock.ts:640-674 | The same condition decides whether the later of two due windows about one record may be swept first without the refinement noticing |
| SweepOrder.AgreementIsNotEnough | src/governance/timelock.ts:366-373 | The failing case: two settings proposals that agree on every field both name, one of which is refused unless the other comes first |
| SweepOrder.InterleavedUpdateLost | src/governance/timelock.ts:411-431 | Two handlers that compute settings changes from the same records: the second commit leaves what handling them in turn would if and only if it names whatever the first would change, or one of them is refused |
| Community.Community.VoteOnProposal | src/api/net.openfederation.community.voteOnProposal.ts:65-468 | Both sweeps, then gates, delegation loop, vote records, tally, decision and one commit: ends in exactly the machine's state for this vote, with its answer |
| Community.Community.CastVote | src/api/net.openfederation.community.voteOnProposal.ts:84-468 | The part under the lock is one vote of the machine, run to completion |
| Community.Community.ObjectToProposal | src/api/net.openfederation.community.objectToProposal.ts:62-212 | Both sweeps, then one objection of the machine |
| Community.Community.CastObjection | src/api/net.openfederation.community.objectToProposal.ts:68-212 | Record the objection, recount, and hold at the threshold: one objection of the machine |
| Community.Community.ApplyIfDue | src/governance/timelock.ts:516-629 | Hold, close, or close with the change in one commit: one due application of the machine, or nothing if it fails |
| Community.Community.ApplyDueProposals | src/governance/timelock.ts:652-674 | Applies exactly the due proposals, in ascending key order, a failing one stopping none of the others |
| Community.Community.CloseExpiredOverride | src/governance/timelock.ts:164-207 | A round past its window is rejected as lapsed |
| Community.Community.CountableObjections | src/governance/timelock.ts:281-328 | Each objector with a countable record, once |
| Community.Community.PrepareDecision | src/governance/proposal-resolution.ts:329-419 | The latest decision is reused when outcome and cited votes are the same, else superseded by a new one |
| Community.Community.Decide | src/api/net.openfederation.community.voteOnProposal.ts:252-339 | An outcome exists only where records and cache agree on it |
| Community.Community.Resolve | src/api/net.openfederation.community.voteOnProposal.ts:345-399 | Decision, proposal and change in one commit |
| Community.Community.CreateProposal | src/api/net.openfederation.community.createProposal.ts:29-133 | The proposal and then its seed vote, or nothing: one creation of the machine |
| Community.Community.ReadForAmendment | src/api/net.openfederation.community.amendProposal.ts:34-50 | Leaves a draft exactly when the proposal is open |
| Community.Community.WriteAmendment | src/api/net.openfederation.community.amendProposal.ts:52-79 | Writes the draft over whatever is stored |
| Community.Community.SetDelegation | src/api/net.openfederation.community.setDelegation.ts:22-61 | Delete then insert, two commits; nobody delegates to themselves |
| Community.Community.GetProposal | src/api/net.openfederation.community.getProposal.ts:20-50 | Applies or closes its own proposal first, and reports the objections standing against a pending one |
| AttestationAccess.ListIsDisclosure | src/api/net.openfederation.community.listAttestations.ts:31-73 | For a private row whose tables are in step, under SQL null logic, the list admits exactly the callers disclosure authorizes and those a non-array allowlist names |
| AttestationAccess.DisclosedExactly | src/api/net.openfederation.attestation.requestDisclosure.ts:24-115 | A private attestation that exists is disclosed exactly to administrators, its subject, its community's owner, those its policy admits and those with a live grant |
| AttestationAccess.RedeemedExactly | src/attestation/lifecycle.ts:94-155 | A grant is redeemed exactly by its grantee, while active, up to and with the moment it expires, while record and encryption row are there; and each refusal exactly when |
| AttestationAccess.EveryRunAgrees | src/api/net.openfederation.attestation.requestDisclosure.ts:78-115 | Over every run, wherever its handlers stop: list and disclosure admit the same callers to a private attestation under a well-formed policy if and only if its record and its index row are both there or both missing |
| AttestationAccess.FinishedRunsStayInStep | src/api/net.openfederation.community.issueAttestation.ts:123-165 | In runs whose issues and deletions finish, record, index row and encryption row stay in step for every attestation |
| AttestationAccess.DeletedForGood | src/api/net.openfederation.community.deleteAttestation.ts:44-64 | A finished deletion removes record, rows and active grants for good: nothing lists or discloses the key again |
| AttestationAccess.CutDeletion | src/api/net.openfederation.community.deleteAttestation.ts:44-64 | A deletion cut short leaves list and disclosure in agreement about a caller if and only if it made none or all four of its statements, or stopped after the first and the caller was not authorized, or after the second and the caller was not authorized without a grant |
| AttestationAccess.CutDeletionLeaks | src/api/net.openfederation.community.deleteAttestation.ts:44-64 | It leaves the row's metadata listed to everyone if and only if it stopped after its third statement |
| AttestationAccess.CutIssue | src/api/net.openfederation.community.issueAttestation.ts:123-165 | An issue cut short leaves disclosure and list apart for the subject if and only if it stopped after its second statement |
| AttestationAccess.GrantsAlwaysRedeem | src/attestation/lifecycle.ts:94-115 | In every run whose deletions never stop right after their first statement, issues and other deletions cut short included, redeeming a grant never finds its attestation missing |
| AttestationAccess.CutDeletionStrandsGrants | src/api/net.openfederation.community.deleteAttestation.ts:44-51 | A deletion leaves a redeemable grant without its attestation if and only if it stops right after its first statement |
| AttestationAccess.LateGrantDangles | src/attestation/lifecycle.ts:52-92 | Creating a grant checks and then inserts: the inserted grant finds its attestation missing if and only if record or encryption row went in between |
| AttestationAccess.FilterGrantedFields | src/attestation/lifecycle.ts:318-333 | Exactly the granted fields the claim has, or all of it when none are named |
| AttestationAccess.ListRow | src/api/net.openfederation.community.listAttestations.ts:31-73 | The clause list as the handler builds it decides the row as its WHERE clause does |
| AttestationAccess.RequestDisclosure | src/api/net.openfederation.attestation.requestDisclosure.ts:24-115 | The flag reassigned through the branches gives the disclosure decision |
| AttestationAccess.Attestations.IssueAttestation | src/api/net.openfederation.community.issueAttestation.ts:100-196 | Record, encryption row, index row, in this order, as far as the process lives |
| AttestationAccess.Attestations.DeleteAttestation | src/api/net.openfederation.community.deleteAttestation.ts:44-64 | Record, grants, encryption row, index row, in this order, as far as the process lives |
| AttestationAccess.Attestations.CreateViewingGrant | src/attestation/lifecycle.ts:52-92 | Only the subject of a stored private attestation grants, and the grant is live |
| AttestationAccess.Attestations.RevokeViewingGrant | src/attestation/lifecycle.ts:157-184 | Only the subject revokes, and only an active grant |
| CanonicalJson.CanonicalFormDecides | src/attestation/encryption.ts:51-69 | Two claims have one canonical form if and only if they are equal up to key order at every depth |
| CanonicalJson.LessIsLexicographic | src/attestation/encryption.ts:51-59 | Object keys are ordered by their first different code unit, a proper prefix before what it begins |
| CanonicalJson.CanonicalizeIdempotent | src/attestation/encryption.ts:51-59 | Canonicalizing twice is canonicalizing once |
| CanonicalJson.CanonicalizeKeepsDepth | src/api/net.openfederation.community.issueAttestation.ts:27-39 | A claim and its canonical form have the same depth, so the depth limit means the same for both |
| CanonicalJson.DepthExactly | src/api/net.openfederation.community.issueAttestation.ts:27-39 | Scalars have depth 0, an empty container 1, and any other is one deeper than its deepest child |
| CanonicalJson.CanonicalizeValue | src/attestation/encryption.ts:51-59 | Mapping arrays and filling objects in sorted key order computes the canonical form |
| CanonicalJson.JsonDepth | src/api/net.openfederation.community.issueAttestation.ts:27-39 | The running maximum over children is the nesting depth |
| Lockout.LateFailuresAreSlow | src/api/com.atproto.server.createSession.ts:64-132 | From the twentieth on, the n-th consecutive failed check comes at least 180 + 120(n - 20) minutes after the fifth, for any mix of endpoints |
| Lockout.BoundIsTight | src/api/com.atproto.server.createSession.ts:101-118 | A guesser who always waits just long enough is never refused and meets the bound exactly |
| Lockout.LockedExactly | src/api/com.atproto.server.createSession.ts:64-118 | After any attempts an account is locked exactly while the lock of its last failure runs, from the fifth consecutive failure on |
| Lockout.AttemptExactly | src/api/com.atproto.server.createSession.ts:64-132 | An attempt while locked does nothing; a correct one clears the failures, and a wrong one adds one |
| Lockout.Account.CreateSession | src/api/com.atproto.server.createSession.ts:64-132 | Locked accounts are refused before the password is looked at; failures and successes move the shared counter as the timing theorem assumes |
| Lockout.Account.RetrieveForUpgrade | src/api/net.openfederation.wallet.retrieveForUpgrade.ts:59-91 | The same counter with the account type checked first |
| PartnerQuota.EveryHourWithinQuota | src/api/net.openfederation.partner.register.ts:44-107 | However transactions interleave, commit out of creation order, abort, and users are deleted, no half-open hour holds more surviving registrations than the key's highest limit |
| PartnerQuota.PartnerKey.PartnerRegister | src/api/net.openfederation.partner.register.ts:44-107 | The handler's transaction is the run of its statements, and adds one user or none |
| PartnerQuota.PartnerKey.CountRecent | src/api/net.openfederation.partner.register.ts:57-70 | Counts the surviving users created in the last hour |
| CreationTokens.TokensAndKeysOpenOnce | src/api/net.openfederation.pseudonym.createAccount.ts:45-64 | Over any run of committing and aborting transactions no token opens two accounts, no key ends in two, and a used key is off the reservation table |
| CreationTokens.TokensAreConserved | src/api/net.openfederation.pseudonym.collectTokens.ts:37-43 | Token-opened accounts that exist are no more than tokens spent, spent tokens are exactly those that opened an account, and no more than tokensPerEpoch for each collected batch |
| CreationTokens.DidsStayUnique | src/api/com.atproto.server.createAccount.ts:110-181 | However transactions interleave, no DID ever has two accounts at once |
| CreationTokens.PseudonymReady | src/api/net.openfederation.pseudonym.createAccount.ts:45-64 | Begun from any state, the three statements leave a transaction that can commit if and only if no account has the DID, the token was issued and neither spent nor being spent, and the key is reserved and unclaimed |
| CreationTokens.Registry.ReserveSigningKey | src/api/com.atproto.server.reserveSigningKey.ts:33-41 | Replaces the DID's reservation, appends the new one, trims: at most 10,000 remain, the new one last |
| CreationTokens.Registry.CreatePseudonym | src/api/net.openfederation.pseudonym.createAccount.ts:45-64 | Creates the account, spending the token and deleting the key's row, if and only if nothing fails, the DID is free, the token usable and the key available; otherwise nothing at all changes |
| CreationTokens.Registry.CreateMigrated | src/api/com.atproto.server.createAccount.ts:110-181 | Takes the DID's reservation or makes a key; an account is committed if and only if the DID is free and a token, if given, is usable, and a repository failure removes it but not the spending |
| CreationTokens.Registry.RedeemToken | src/identity/pseudonym/tokens.ts:150-165 | Valid and unspent, or the transaction ends |
| CreationTokens.Registry.CollectTokens | src/api/net.openfederation.pseudonym.collectTokens.ts:37-43 | One batch a user and epoch |
| LexiconTypes.CompilationSound | scripts/generate-lexicon-contracts.ts:114-135 | On documents with acyclic references, every value valid for a schema inhabits the emitted type, provided the references the schema reaches resolve and its arrays say what they hold |
| LexiconTypes.CompilationExact | scripts/generate-lexicon-contracts.ts:114-135 | If besides the schema reaches no integers, no unrecognised kinds and no undeclared required names, the emitted type admits nothing else |
| LexiconTypes.ContractSound | scripts/generate-lexicon-contracts.ts:71-84 | The same for an endpoint's input and output, a missing schema meaning no body |
| LexiconTypes.UnresolvedReference | scripts/generate-lexicon-contracts.ts:114-141 | A reference that does not resolve in its document is emitted as `undefined`: sound if and only if it describes no value |
| LexiconTypes.UntypedArray | scripts/generate-lexicon-contracts.ts:123-123 | An array schema without `items` is emitted as an array of `undefined`: of the arrays it describes exactly the empty one fits |
| LexiconTypes.RankingIrrelevant | scripts/generate-lexicon-contracts.ts:114-135 | The emitted type does not depend on the measure that proves termination |
| ImportBoundaries.FindBoundaryViolations | scripts/check-import-boundaries.ts:133-187 | Reports nothing if and only if every import of every source file is allowed, and every report is of a forbidden import with its reason |
| ImportBoundaries.EntersByIndex | scripts/check-import-boundaries.ts:111-187 | If nothing is reported, every import path of any length that ends in a module and starts outside it enters from a composition root by the module's index |
| ImportBoundaries.ModulesCanBeDropped | scripts/check-import-boundaries.ts:111-187 | Without the composition roots no path leads from core into a module or from one module into another |
| ImportBoundaries.Walk | scripts/check-import-boundaries.ts:94-104 | Pushes onto `out` the sources of each directory as it meets them |
| ImportBoundaries.WalkFindsAll | scripts/check-import-boundaries.ts:94-104 | The walk finds every source file at any depth and nothing else |
| ImportBoundaries.NormalizeIdempotent | scripts/check-import-boundaries.ts:120-126 | A resolved path is normal, and normalizing it again changes nothing |
| ImportBoundaries.RelativeImports | scripts/check-import-boundaries.ts:111-131 | A relative specifier resolves from its file's own directory, up one for each `..` and then down by name to a source file |
| ImportBoundaries.MayImportExactly | scripts/check-import-boundaries.ts:133-187 | An import is allowed if and only if its target is in no module, or in the importing file's own, or is a module's index imported from a composition root |

## Left out

- ProposalEvidence.CrashConsistency: for plain runs, hence up to the first change to a reserved record; that step itself is `FirstReservedChange`, and later steps are not covered.
- ProposalEvidence.DecisionsArePermanent: for plain runs, for the same reason.
- ProposalHistory.AppliedAtMostOnce: while drafts are written only over the open proposal; a reopened one can be decided and applied again.
- OverrideRound.RoundsAnswerTheirBar: assumes records and cache are on the same side of the bar at each vote of a round; `ClosesAtBar` is the statement without the assumption, and `CleanRunsAgree` gives runs that meet it.
- RecordAgreement.RecordsMatchCache: assumes that requests finish, that the records of counted votes get written, that lineages stay under 500 states where votes are counted, and that resets find no countable record; `HoldAgreesExactly` and `AmendmentAgreesExactly` say that the last is needed.
- LazyWindows.LazyRefinesEager: for orderly runs with a fixed objection threshold, in which no window about a reserved record ends, no objection is cut off before the hold it causes, and every step is prompt. For a sweep and for a request that never sweeps, prompt is exactly what `StepAlikeExactly` shows to be needed; for a vote that is accepted it is that no window about the settings, a delegation or its target is due, and for an objection none about the settings, as is so after their sweeps succeed. The threshold and the electorate's size are constants of the eager machine.
- LazyWindows.SweptRecordIsEager: contents of records, not their CIDs: a change is written at different moments.
- LateHolds.CutObjectionDiverges: where a window about the settings ends in between, whether holds are final and how long rounds last can change between the two holds, and the statuses with them.
- SweepOrder.SweepOrderInvisible: where both changes merge into the settings, for settings with a configuration, as every voting community's have.
- SessionStatus.StatusFirstTokenIsStale: about tokens a refresh returned, like `RevokedSessionTokensAreStale`; a login's token carries a version read before the session exists.
- LexiconTypes.CompilationExact: excludes integers, which widen to `number`; and required names that are no property, which the emitted type does not mention.
- AttestationAccess.DeletedForGood: one event per handler, so a grant inserted after a deletion that ran between its check and its insert is not among the later states; `LateGrantDangles` says what such a grant is worth.
- PartnerQuota.PartnerKey.PartnerRegister: one transaction from a given state; interleavings are the state machine's, statement by statement.
- CreationTokens.Registry.CreatePseudonym: one transaction from a given state, which gives up where a statement would wait for another one's claim; the waiting is in the runs. The same holds of `CreateMigrated`.
- Lockout.LateFailuresAreSlow: one attempt is one step, so attempts racing between the lock check and the counter update are not covered; the OAuth login form, which runs the same statement, is not modelled separately.
- Expiry of open proposals in the lazy/eager comparison: only a vote closes them, and an amendment renews them.
- Permission checks, membership checks and the electorate query: callers are authorized, and the electorate's size is a parameter.
- Settings checks on `protectedCollections` and anchoring, and the normalization that adds mandatory protected collections: no rule here reads them.
- The order of votes inside a decision record, audit entries, responses and anchoring receipts: nothing reads them back.
- Malformed stored values that the code tolerates, such as a quorum stored as text or a proposal whose vote lists are missing.
- Handlers on two different proposals interleaving: a handler under its lock is one event here. `SweepOrder.InterleavedUpdateLost` says what two of them lose; runs with such interleavings are not covered.
- An amendment landing inside the span between a locked handler's read and its commit: handlers under the lock are one event.
- Importing a repository that already holds vote or objection records for a proposal: records enter only by voting and objecting.
- User deletion, account creation's first session, partner registration's session, password reset and recovery: they add no step of a new kind to the session protocol.
- The prefix match of `revokeSession` is an arbitrary set of session ids.
- Serialization of canonical JSON to text, salts and SHA-256: canonical forms are compared as values; keys are ordinary strings, without JavaScript's special order for integer-like ones.
- Finding import specifiers in source text by regular expression, and directory reading: specifiers and trees are inputs.
- Rendering of TypeScript text and type names: types are compared as trees.
- Repository trees, commit signing, key encryption, blind signatures and the PLC directory: `RepoEngine` is not part of this model; a batch of writes is one atomic commit.
- Access to public attestations, paging and filters of lists: easy members only.
- Approving, rejecting and suspending communities, ActivityPub, CLI and demos: one-guard status flips and plumbing.
