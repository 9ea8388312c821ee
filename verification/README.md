# Verification of the auth, e-mail and policy services

A Dafny model of the transactional protocols of this repository: the auth store with its verification rows and
refresh sessions, the e-mail pipeline from the request handlers through the Redis queue to the worker, its retry
timers and the status callbacks, the Casbin table adapter, the rate limiters, and the counts of the KPI report.

Each committed transaction is one function from tables to tables (`Transactions`, `Delivery`). Whole runs are
sequences of such steps with a clock that never goes back and ids that are never drawn twice (`AuthRuns` for the auth
store alone, `Pipeline` for everything that touches an e-mail record). Safety properties are proved of every
run. The code that works by changing things step by step is modelled a second time in that form, as classes whose
methods are proved to perform those functions (`AuthStore`, `Worker`, `Queue`, `Handlers`, `PolicyAdapter`,
`FixedWindow.RateLimit`).

The files, bottom up:

| file | contents |
|---|---|
| `Base`, `Addresses`, `Tables` | text functions, when two addresses are the same mailbox, rows, unique indexes, foreign keys |
| `Transactions`, `AuthRuns` | the auth store's transactions; runs of them |
| `AuthInvariants`, `Activation`, `RowSteps`, `OtpAttempts` | what every transaction keeps; activation; attempt counters |
| `HeldRows`, `ResendRollback`, `Supersession`, `OtpSupersession` | what outstanding resends hold, compensation, what a newer resend invalidates |
| `FailedRegistration`, `WithoutRequest`, `FailedRegistrationSaga`, `FailedResend` | failed requests leave no trace, whatever others do in between |
| `TokenRoundTrips`, `Answers` | which issued tokens are accepted, and until when; the answer of every transaction, refusals included |
| `SessionChains`, `SessionOrigins` | `replaced_by` chains, rotation, logout, revoke-all; the login every session goes back to |
| `Delivery`, `DeliveryFacts`, `Pipeline` | the worker's transactions; the whole pipeline as a transition system |
| `Conservation`, `Retries`, `Finished`, `Callbacks`, `Sagas` | properties of every run of the pipeline |
| `SentMails`, `Addressing`, `SentLog` | what is recorded of each send and found by callbacks; every mail goes to its user; what is logged as sent was sent |
| `KpiReport`, `ActivationMethod` | the counts of the report, and that they name what activated each user |
| `ConcreteRuns`, `OldOtpRun`, `ConcretePipelineRuns` | runs from the empty system for each finding |
| `PolicyText`, `PolicyTable`, `PolicyRoundTrip`, `PolicyAdapter` | the text of a policy line, the table against the list, save and load, the adapter |
| `Limiters` | request limiter, login guard, resend limiter |
| `AuthStore`, `Queue`, `Worker`, `Handlers` | the services as classes |

What turned out not to hold of the code. For each there is a lemma with runs from the empty system, or an input, that
show it, and one with the condition:

- A resend whose rollback arrives after a later resend has committed revives what the later one had superseded, links
  (`ConcreteRuns.LateRollbackLetsOldLinkVerify`) and OTPs (`OldOtpRun.LateRollbackLetsOldOtpVerify`).
  `Supersession.SupersededLinkVerifiesExactlyWhen` and `OtpSupersession.SupersededOtpVerifiesExactlyWhen` have the exact
  conditions.
- The OTP of a resend is not always the one that gets compared: an OTP row of the same user created at the same
  instant with a larger id is preferred, and that one is revoked (`ConcreteRuns.SameInstantResendIsRefused`;
  `TokenRoundTrips.ResentTokensVerifyExactlyWhen` has the exact condition).
- The report does not always count a user under the token that activated the account: of two rows verified at the same
  instant it takes the one with the smaller id (`ActivationMethod.SameInstantLinkTakesTheCount`;
  `ActivationMethod.FirstRowIsTheActivatingOneExactlyWhen` has the exact condition).
- Cleaning up a failed registration deletes every record of its user, so a second, accepted e-mail of that user loses
  its record while its job stays queued, and the handling of that job can never be recorded
  (`ConcretePipelineRuns.CleanupOrphansJob`, `Sagas.CleanupOrphansAcceptedJob`; `Sagas.RecordsDisappearExactlyWhen`
  says exactly when a record can disappear).
- A request whose enqueue fails can leave a record for which no job, timer, attempt or outcome ever appears: that of a
  bootstrap, which has no compensation (`ConcretePipelineRuns.BootstrapStrandsRecord`), and that of a registration whose
  user has verified meanwhile through a resent mail, which the clean-up refuses
  (`ConcretePipelineRuns.VerifiedMeanwhileStrandsRecord`). `Sagas.FailedRequestStrandsExactlyWhen` has the exact condition.
- `RemovePolicy` does not find a rule that has an empty or untrimmed field (`PolicyTable.RemoveMissesEmptyField`;
  `PolicyTable.AddThenRemoveExactlyWhen` has the exact condition), and removing a rule takes the rows of other rules
  that are stored alike, for instance with an extra space (`PolicyTable.RemoveTakesAnother`).
  `PolicyTable.RemoveAgreesExactlyWhen` says exactly when table and memory agree after a removal.
- Saving and loading a policy can lose a whole rule: two rules that differ only in empty last fields or in spaces come
  back as one (`PolicyRoundTrip.TwoRulesBecomeOne`; `PolicyRoundTrip.NoRuleLostExactlyWhen` has the exact condition).

## Model

| member | source | states |
|---|---|---|
| `AuthInvariants.StepKeepsInv` | services/auth-api/internal/store/store.go:123-735 | Every transaction keeps foreign keys, unique indexes, the agreement of status, verification time and verified rows, sessions only for verified users, and attempts within 0..6. |
| `AuthInvariants.RunKeepsInv` | services/auth-api/internal/store/store.go:123-735 | So does every run of transactions, in any order. |
| `Activation.ReachableStatesAgree` | services/auth-api/internal/store/store.go:345-468 | From an empty database, in every reachable state a user's status is 1 iff the address is verified iff the user has a verified row, and every session belongs to a verified user. |
| `Activation.AnswerNamesOneUser` | services/auth-api/internal/store/store.go:403-416 | A verify call answers true iff it turned exactly one pending user active; no other step activates anybody. |
| `Activation.ActivatedAtMostOnce` | services/auth-api/internal/store/store.go:403-467 | In any run `activatedNow` is true at most once per user, and never for a user who is already active. |
| `ActivationMethod.VerifiedSinceActivation` | services/auth-api/internal/store/store.go:403-467 | In every continuation the user's verification time is the instant of the call that activated the account. |
| `OtpAttempts.AtMostSixComparisons` | services/auth-api/internal/store/store.go:383-406 | Over any run, with any resends and rollbacks around it, at most six hash comparisons are made on one OTP row. |
| `OtpAttempts.AttemptsOverRuns` | services/auth-api/internal/store/store.go:383-406 | The attempt counter never decreases and never passes six, and a row that reached six never verifies. |
| `OtpAttempts.GoneForGood` | services/auth-api/internal/store/store.go:302-311 | A deleted verification row never comes back. |
| `Answers.OtpAcceptedExactlyWhen` | services/auth-api/internal/store/store.go:345-417 | For all tables, an OTP is accepted iff the newest unverified OTP row of the address has its digest, at most five wrong guesses and time left. |
| `Answers.OtpAnswerByRow` | services/auth-api/internal/store/store.go:383-416 | The row asked for decides the answer and the new tables: too many attempts, expired from the expiry on, invalid with one attempt counted (the sixth answered as too many), or verified. |
| `Answers.OtpAnswerWithoutRow` | services/auth-api/internal/store/store.go:375-381 | Without an unverified OTP row of the address the OTP is invalid and nothing changes. |
| `Answers.GuessesAfterRegistration` | services/auth-api/internal/store/store.go:345-417 | After a registration and any run about others, the first five wrong guesses are invalid and all further ones too many; the right OTP verifies after up to five and is refused after six. |
| `Answers.LinkAnswer` | services/auth-api/internal/store/store.go:419-468 | A link is invalid iff no unverified link row has its digest, expired iff that row is, and verifies and marks exactly that row otherwise. |
| `Answers.CreateAnswer` | services/auth-api/internal/store/store.go:776-823 | Rows and a queued record with the user's address are created iff the user exists and the digest of the link is unused. |
| `Answers.RegisterAnswer` | services/auth-api/internal/store/store.go:123-161 | A registration succeeds iff no user has the address and the digest of its link is unused, and names which of the two refused it. |
| `Answers.SameMailboxIsTaken` | services/auth-api/internal/handler/handler.go:160-200 | An address that differs from a registered one only in case and outer white space is refused as taken. |
| `Answers.ResendAnswer` | services/auth-api/internal/store/store.go:185-283 | A resend succeeds iff the user exists, is unverified and the digest is unused; each refusal iff its own reason, and then nothing changes. |
| `Answers.BootstrapAnswer` | services/auth-api/internal/store/store.go:566-636 | A new address becomes a pending user; a known one needs the right password and a verified address; the tenant name must be free; each refusal iff its own reason. |
| `Answers.LoginAnswer` | services/auth-api/internal/handler/handler.go:755-801 | A login succeeds, for that user, iff the password is right, the address belongs to a verified user of status 1 and the token is unused; each refusal iff its own reason, and then nothing changes. |
| `Answers.RotationAnswer` | services/auth-api/internal/store/store.go:666-721 | A rotation is answered not found, revoked, expired, clashing or rotated, each iff the session with the old token says so; refused, nothing changes. |
| `HeldRows.RunKeepsHolds` | services/auth-api/internal/store/store.go:222-343 | In every run, verifications and clean-ups included, each row revoked by an outstanding resend is held by that ticket only and stays unverified and expired at the instant of that resend until its own rollback. |
| `ResendRollback.CompensatedRunKeepsBefore` | services/auth-api/internal/store/store.go:185-343 | At every step of a run of resends and rollbacks the tables with all outstanding resends taken away never change. |
| `ResendRollback.RolledBackRunRestoresTables` | services/auth-api/internal/store/store.go:185-343 | Once every resend of a run has been rolled back, in any order and interleaving and for any number of users, users, verifications, records and history are exactly what they were. |
| `Supersession.ResendLeavesOnlyItsOwnRowsLive` | services/auth-api/internal/store/store.go:222-269 | Right after an accepted resend the live rows of its user are the OTP and the magic link it created and no others. |
| `Supersession.EarlierRowsNeverVerify` | services/auth-api/internal/store/store.go:222-269 | After an accepted resend no earlier OTP or link of that user ever verifies, in every continuation that rolls back no resend with a still unexpired saved expiry for that row. |
| `Supersession.SettledResendsSupersede` | services/auth-api/internal/store/store.go:222-269 | In particular when neither this resend nor an earlier one of the user is rolled back any more. |
| `Supersession.SupersededLinkVerifiesExactlyWhen` | services/auth-api/internal/store/store.go:285-343 | A superseded link can still verify, in some continuation that does not undo the superseding resend, iff another outstanding resend holds the link with an expiry after the superseding one. |
| `OtpSupersession.SupersededOtpVerifiesExactlyWhen` | services/auth-api/internal/store/store.go:345-417 | A superseded OTP can still verify, in some continuation that does not undo the superseding resend, iff it has guesses left, another outstanding resend holds it with an expiry after the superseding one, and every newer unverified OTP row of the user can be deleted by another rollback or verified first. |
| `OtpSupersession.RunKeepsOrder` | services/auth-api/internal/store/store.go:185-343 | Every reachable state is one of which that holds. |
| `Supersession.RollbackWakes` | services/auth-api/internal/store/store.go:324-340 | In any state of any run, rolling back a resend restores the saved expiry of every row it holds, whatever was resent since. |
| `ConcreteRuns.LateRollbackLetsOldLinkVerify` | services/auth-api/internal/store/store.go:285-343 | From the empty database: registration, two resends, rollback of the first, and the link of the registration, superseded twice, verifies; for every choice of fresh ids and digests. |
| `OldOtpRun.LateRollbackLetsOldOtpVerify` | services/auth-api/internal/store/store.go:285-417 | From the empty database: registration, two resends, rollback of the first, the OTP of the second verifies, and then so does that of the registration. |
| `TokenRoundTrips.RegisteredTokensVerifyExactlyWhen` | services/auth-api/internal/store/store.go:364-467 | After any run of transactions about others, the OTP and the link of a registration verify and activate iff presented before their expiry, and are expired from that instant on. |
| `TokenRoundTrips.ResentTokensVerifyExactlyWhen` | services/auth-api/internal/store/store.go:364-467 | After any run of transactions about others, the link of a resend verifies iff presented before its expiry; its OTP iff, besides, no earlier OTP row of the same user and instant has a larger id. |
| `TokenRoundTrips.SameInstantResendFails` | services/auth-api/internal/store/store.go:364-377 | A resend at the instant of the registration whose OTP row draws the smaller id has an OTP that does not verify after any run of transactions about others. |
| `ConcreteRuns.SameInstantResendIsRefused` | services/auth-api/internal/store/store.go:364-389 | From the empty database: registration, such a resend, and the OTP sent last is refused. |
| `TokenRoundTrips.RunKeepsPast` | services/auth-api/internal/store/store.go:776-823 | In every run no verification row is created in the future, the premise of the two lemmas above. |
| `TokenRoundTrips.IssuedTokenRotatesExactlyWhen` | services/auth-api/internal/store/store.go:666-721 | After any run that neither rotates nor revokes it, the token of a login rotates, for the same user, iff it is not past its expiry, equality included, and the new token is unused. |
| `FailedRegistration.CleanupIsErasure` | services/auth-api/internal/store/store.go:542-564 | On a consistent database clean-up succeeds iff the user is there and unverified; then exactly that user's rows, records and logs go, cascades included, and nobody else's. |
| `FailedRegistration.TransactionElsewhere` | services/auth-api/internal/store/store.go:123-735 | Any transaction about somebody else gives the same answer with and without a pending user, and the same tables but for that user. |
| `FailedRegistration.TransactionKeepsOwn` | services/auth-api/internal/store/store.go:123-735 | Any transaction about somebody else leaves the user, the user's rows, records and logs exactly as they were. |
| `FailedRegistration.FailedRegistrationLeavesNoTrace` | services/auth-api/internal/handler/handler.go:186-218 | In the auth store: registration, then transactions of others, then clean-up: the clean-up succeeds and the tables are exactly those the others alone would have produced. |
| `FailedRegistrationSaga.FailedRegistrationLeavesNoTrace` | services/auth-api/internal/handler/handler.go:186-218 | In the whole system: registration, then any actions of the rest (transactions, enqueues and compensations of others, worker, timers, callbacks), then a failed enqueue: everything is exactly as in the same run without the request. |
| `FailedResend.StepCommutes` | services/auth-api/internal/store/store.go:285-343 | Undoing a resend commutes with every transaction about somebody else, answers included. |
| `FailedResend.FailedResendLeavesNoTrace` | services/auth-api/internal/handler/handler.go:264-310 | Resend, then any actions of the rest of the system (transactions, enqueues and compensations of others, worker, timers, callbacks), then a failed enqueue: tables, queue, timers, blacklist, attempts and open requests are exactly those of the same run without the request. |
| `FailedResend.PipelineKeepsHolds` | services/auth-api/internal/store/store.go:285-343 | Every state of every run of the pipeline is one from which that holds. |
| `SessionChains.ReachableSessionsFormChains` | services/auth-api/internal/store/store.go:651-721 | In every reachable state the sessions form exactly as many disjoint chains along `replaced_by` as there were logins: no shared places, one user per chain, a replaced session is revoked, one without a link is the last of its chain. |
| `SessionChains.WalksAreSimple` | services/auth-api/internal/store/store.go:703-717 | Following `replaced_by` never returns to a session, never changes the user, and meets an unrevoked session only at its end. |
| `SessionChains.OnePredecessor` | services/auth-api/internal/store/store.go:703-717 | No two sessions were replaced by the same one. |
| `SessionChains.RotationConserves` | services/auth-api/internal/store/store.go:666-721 | A rotation, accepted or not, leaves every user's number of unrevoked sessions as it was. |
| `SessionChains.UnrevokedAtMostLogins` | services/auth-api/internal/store/store.go:651-735 | Over any run a user never gains more unrevoked sessions than logins. |
| `SessionChains.TokenRotatesAtMostOnce` | services/auth-api/internal/store/store.go:684-717 | Each token rotates at most once per run, and not at all once its session is revoked. |
| `SessionChains.LogoutAllCountsAndIsolates` | services/auth-api/internal/store/store.go:729-735 | Revoke-all answers with the prior number of unrevoked sessions, revokes each of them now, leaves none, and changes no other session. |
| `SessionChains.LogoutAllEndsRotation` | services/auth-api/internal/store/store.go:684-735 | After revoke-all no token of that user rotates until the user logs in again. |
| `SessionChains.LogoutRevokesAndIsolates` | services/auth-api/internal/store/store.go:723-727 | Logout revokes, now, the unrevoked session with that token, and leaves every other session as it was. |
| `SessionChains.LogoutEndsRotation` | services/auth-api/internal/store/store.go:684-727 | After logout the token never rotates again, in any continuation that issues it to no new session. |
| `SessionOrigins.SessionsComeFromRightLogins` | services/auth-api/internal/store/store.go:651-721 | In every reachable state each session is reached along `replaced_by` from the session of a login of the same user whose password was right. |
| `AuthStore.Store.CreateVerificationTx` | services/auth-api/internal/store/store.go:776-823 | Inserts one OTP row, one magic-link row and one queued record for a known user, or fails and leaves the transaction as it was. |
| `AuthStore.Store.RegisterWithVerification` | services/auth-api/internal/store/store.go:123-161 | Performs the registration transaction: a taken address or a clashing link hash commits nothing. |
| `AuthStore.Store.ResendVerification` | services/auth-api/internal/store/store.go:185-283 | Performs the resend transaction, and the snapshots it returns are, one per row, the old expiries of exactly the rows it revoked. |
| `AuthStore.Store.CollectLive` | services/auth-api/internal/store/store.go:222-247 | The loop yields one snapshot for each live row of the user, no row twice. |
| `AuthStore.Store.RollbackResendVerification` | services/auth-api/internal/store/store.go:285-343 | Applies the guarded restores in the order of the snapshots, whatever they name; for snapshots that name no row twice it performs the rollback transaction; a nil result changes nothing. |
| `AuthStore.DistinctSnapshotsRestore` | services/auth-api/internal/store/store.go:328-341 | When no row is named twice, as in every result of a resend, restoring one by one is restoring all at once. |
| `AuthStore.Store.RestoreExpiries` | services/auth-api/internal/store/store.go:328-341 | The loop applies each update to a row that is at that moment still the user's, unverified and expired at the resend. |
| `AuthStore.Store.VerifyEmailOTP` | services/auth-api/internal/store/store.go:345-417 | Looks at the newest unverified OTP row of the address; commits the attempt of a wrong guess, verifies on a right one, and otherwise changes nothing. |
| `AuthStore.Store.VerifyMagicLinkToken` | services/auth-api/internal/store/store.go:419-468 | Verifies the one open link with that hash unless it is expired, equality counting as expired. |
| `AuthStore.Store.CleanupPendingRegistration` | services/auth-api/internal/store/store.go:542-564 | Deletes records, then the pending user with its cascades; without a pending user the deletion of records is not committed either. |
| `AuthStore.Store.Bootstrap` | services/auth-api/internal/store/store.go:566-636 | Creates a pending owner or accepts a verified one; a taken tenant name undoes either. |
| `AuthStore.Store.SaveRefreshSession` | services/auth-api/internal/store/store.go:651-664 | Inserts a session unless the hash is taken or the user unknown. |
| `AuthStore.Store.RotateRefreshToken` | services/auth-api/internal/store/store.go:666-721 | Inserting the successor and then updating by token hash replaces exactly the one session; expiry at equality still rotates. |
| `AuthStore.Store.RevokeRefreshToken` | services/auth-api/internal/store/store.go:723-727 | Revokes the unrevoked session with that hash and nothing else. |
| `AuthStore.Store.RevokeAllRefreshTokensByUser` | services/auth-api/internal/store/store.go:729-735 | Revokes the user's unrevoked sessions and returns how many there were. |
| `Conservation.RunKeepsSysInv` | services/auth-api/internal/handler/handler.go:160-310 | Every run of the pipeline, with any faults, keeps the auth invariant, the bookkeeping of open requests, conservation, and the agreement of status column and log. |
| `Conservation.EveryRecordIsInOnePlace` | services/email-worker/internal/consumer/consumer.go:142-246 | In every reachable state each record has exactly one of: an open request, one queued job, one timer, one terminal outcome, or a fault that dropped its job. |
| `Conservation.FaultFreeConservation` | services/email-worker/internal/consumer/consumer.go:142-246 | In fault-free runs, failed enqueues with working compensation included, the last alternative never occurs. |
| `Conservation.StatusColumnAgreesWithLog` | services/email-worker/internal/store/store.go:36-135 | In every reachable state a record's status is that of its last history entry, or queued if it has none. |
| `Conservation.CompensationRemovesItsRecord` | services/auth-api/internal/handler/handler.go:205-310 | A compensation that succeeds removes the record of its request. |
| `Sagas.FailedRegisterIsUndone` | services/auth-api/internal/handler/handler.go:186-218 | A registration whose enqueue fails leaves tables, queue, timers, tickets and open requests exactly as before. |
| `Sagas.FailedResendIsUndone` | services/auth-api/internal/handler/handler.go:264-310 | So does a resend whose enqueue fails. |
| `Sagas.RecordsDisappearExactlyWhen` | services/auth-api/internal/store/store.go:302-322 | A record disappears iff a failed request is compensated and takes it: the resend's own record, or any record of a still unverified registration's user. |
| `Sagas.CleanupOrphansAcceptedJob` | services/auth-api/internal/store/store.go:553-555 | A clean-up takes the record of another, already queued e-mail of the same user with it; in no continuation does the record return or can handling that job be recorded. |
| `ConcretePipelineRuns.CleanupOrphansJob` | services/auth-api/internal/handler/handler.go:205-218 | From the empty system: registration, resend, the resend's enqueue succeeds, the registration's fails, and the resend's job waits without its record. |
| `Sagas.FailedRequestStrandsExactlyWhen` | services/auth-api/internal/handler/handler.go:186-310 | When the enqueue of a request fails, its record stays, and in every continuation has nothing under way, no attempt and no outcome, iff the compensating call fails, the request is a bootstrap, or it is a registration whose user has verified meanwhile or is gone. |
| `ConcretePipelineRuns.BootstrapStrandsRecord` | services/auth-api/internal/handler/handler.go:695-740 | From the empty system: bootstrap, its verification e-mail, a failed enqueue, and the record is stranded. |
| `ConcretePipelineRuns.VerifiedMeanwhileStrandsRecord` | services/auth-api/internal/handler/handler.go:205-218 | From the empty system: registration, resend, verification with the resent link, then the registration's enqueue fails, and its record is stranded. |
| `Retries.AttemptsAreFewAndSpaced` | services/email-worker/internal/consumer/consumer.go:200-239 | In every run each record is sent at most four times, the second, third and fourth time no earlier than 1, 5 and 29 hours after the first. |
| `Finished.AcceptedAtMostOnce` | services/email-worker/internal/consumer/consumer.go:174-197 | In every run, with any faults and deletions, Send succeeds at most once per record, and only on its last attempt. |
| `Finished.FinishedForGood` | services/email-worker/internal/consumer/consumer.go:142-246 | A record with nothing under way is never attempted again, in any continuation. |
| `Retries.WorkIsBounded` | services/email-worker/internal/consumer/consumer.go:225-239 | With nothing newly enqueued, every handled job and every fired timer uses up a measure, so the work is bounded in advance. |
| `Retries.WaitingWorkCanProceed` | services/email-worker/internal/consumer/consumer.go:112-139 | While anything waits some work is possible, and the measure is zero iff queue and timers are empty. |
| `Retries.BlacklistedIsNeverSentTo` | services/email-worker/internal/consumer/consumer.go:153-181 | Over any run, no attempt after an address was blacklisted goes to an address with the same normal form, retries scheduled earlier included. |
| `Retries.SuppressionIgnoresCaseAndSpace` | services/email-worker/internal/store/store.go:137-170 | So nothing is sent to an address that differs from a blacklisted one only in case and outer white space. |
| `Addresses.LowerAgreesExactlyWhen` | services/email-worker/internal/store/store.go:161-168 | Two texts have the same lower-case form iff they have the same length and differ only in the case of ASCII letters. |
| `Addresses.NormalAgreesExactlyWhen` | services/email-worker/internal/store/store.go:141-141 | Two addresses have the same normal form iff, trimmed, they differ only in case. |
| `Addresses.MailboxForgetsOuterSpace` | services/email-worker/internal/store/store.go:141-161 | White space around an address never matters to which mailbox it is. |
| `Addresses.BlankExactlyWhen` | services/email-worker/internal/store/store.go:141-144 | A text counts as empty iff all of it is white space. |
| `Retries.HardBounceSuppresses` | services/email-worker/internal/consumer/consumer.go:211-219 | After a hard bounce whose calls succeed, no later attempt goes to that address, in whatever case and with whatever white space around it. |
| `Retries.ReachableLookupIsByNormalForm` | services/email-worker/internal/store/store.go:137-170 | In every reachable state an address is refused iff its normal form is on the list. |
| `SentMails.SentExactlyWhenSendable` | services/email-worker/internal/consumer/consumer.go:142-181 | Without faults Send is called iff the address is neither blank nor suppressed and the job has a body or all three texts; otherwise the record is marked failed with the first reason that applies. |
| `SentMails.AcceptedIsRecorded` | services/email-worker/internal/consumer/consumer.go:174-197 | An accepted mail is recorded as sent under the id that Send returned. |
| `SentMails.HardBounceIsRecorded` | services/email-worker/internal/consumer/consumer.go:211-219 | A hard bounce is recorded as bounced, of class hard, with its error, and the address is suppressed. |
| `SentMails.SoftBounceIsRetried` | services/email-worker/internal/consumer/consumer.go:220-239 | The first three soft bounces are recorded as bounced, of class soft, and set a timer 1, 4 or 24 hours ahead for the same job with its count raised. |
| `SentMails.LastSoftBounceIsRecorded` | services/email-worker/internal/consumer/consumer.go:220-230 | The fourth is recorded as bounced and then failed, and not retried. |
| `SentMails.OtherErrorIsRecorded` | services/email-worker/internal/consumer/consumer.go:200-210 | Any other error is recorded as failed, with that error. |
| `SentMails.FailedMarkChangesNothing` | services/email-worker/internal/consumer/consumer.go:200-246 | When the first Mark call fails, the record is gone or the returned id is blank, nothing changes: no status, no retry, no suppression. |
| `SentMails.RecordedHardBounceSuppresses` | services/email-worker/internal/consumer/consumer.go:211-219 | A recorded hard bounce suppresses the address iff the call that does so succeeds. |
| `SentMails.RunKeepsId` | services/email-worker/internal/store/store.go:36-65 | In every run, the external id of a record with nothing under way never changes. |
| `SentMails.CallbacksFindTheSentMail` | services/email-worker/internal/store/store.go:172-247 | Once a mail is accepted under an id, in every continuation in which its record is there and no other has the id, a callback with that id is about that record, and the first of each event is recorded. |
| `SentMails.LastUpdatedIsMeant` | services/email-worker/internal/store/store.go:186-199 | Among several records with the id the one updated last is meant, then the one created last, then the one with the larger id. |
| `SentMails.CallbackEntry` | services/email-worker/internal/store/store.go:205-240 | A recorded callback appends exactly one entry, with its status, message, event id and bounce class. |
| `SentMails.TrackedExactlyWhen` | services/email-worker/internal/webhook/server.go:87-107 | A bounce is reported iff the callback says bounced, its record is known and the event was not yet in the log. |
| `SentLog.SentRecordWasAcceptedOnce` | services/email-worker/internal/consumer/consumer.go:174-197 | In every run, whatever fails, a record whose log says sent has exactly one attempt that Send accepted, and it is the last. |
| `Addressing.MailsGoToTheirUser` | services/auth-api/internal/handler/handler.go:186-310 | In every run of the pipeline, every attempt made, job queued and timer set for a record about a user goes to that user's address. |
| `Callbacks.CallbackNotesItsKey` | services/email-worker/internal/store/store.go:172-247 | A callback changes the tables iff its record is known and its (record, status, event id) is not yet in the log; afterwards it is, and the status column holds the event's own text. |
| `Callbacks.EventIsStoredUnderItsName` | services/email-worker/internal/webhook/server.go:112-119 | The four events a provider may report, and no others, are accepted, each under its own status text. |
| `Callbacks.RepetitionsDoNotMatter` | services/email-worker/internal/store/store.go:205-231 | From any sound state, dropping all but the first callback per key from a run gives a run that ends in the same state, clock apart. |
| `Callbacks.CallbacksTakeEffectOnce` | services/email-worker/internal/store/store.go:172-247 | From the empty system, the tables are the same with and without the repetitions, whatever the worker does in between. |
| `Callbacks.BounceIsTrackedOnce` | services/email-worker/internal/webhook/server.go:87-107 | A bounce is reported at most once per key in any run, and never once it is in the log. |
| `KpiReport.OneFirstRow` | services/auth-api/cmd/kpi-report/main.go:322-331 | The query's order picks exactly one first verified row per verified user. |
| `KpiReport.FirstRowIsEarliest` | services/auth-api/cmd/kpi-report/main.go:322-331 | No verified row of the user is earlier than that one, and of those at the same instant none has a smaller id. |
| `ActivationMethod.FirstRowIsTheActivatingOneExactlyWhen` | services/auth-api/cmd/kpi-report/main.go:322-331 | In every continuation of an activation the user's first verified row is the one that answered it iff no row of the user verified at the same instant has a smaller id. |
| `ActivationMethod.CountedUnderActivatingKind` | services/auth-api/cmd/kpi-report/main.go:322-345 | In every continuation at later instants the user is counted under the kind of token that activated the account and no other. |
| `ActivationMethod.SameInstantLinkTakesTheCount` | services/auth-api/cmd/kpi-report/main.go:322-331 | From any sound state, a registration whose link row draws the smaller id: with OTP and link presented at one instant the OTP activates and the link is counted. |
| `KpiReport.KindsPartitionOwners` | services/auth-api/cmd/kpi-report/main.go:322-345 | Every owner of a verified row is counted under exactly one method. |
| `KpiReport.BottlenecksAreDisjoint` | services/auth-api/cmd/kpi-report/main.go:229-286 | The two bottleneck counts are of disjoint users, and together at most the unverified part of the cohort. |
| `SentLog.UsersWithoutClickGotMail` | services/auth-api/cmd/kpi-report/main.go:229-286 | On every reachable database, whoever is counted as mailed but not clicked has an accepted attempt to the user's own address. |
| `KpiReport.ReportOnReachableDatabase` | services/auth-api/cmd/kpi-report/main.go:161-345 | On every database a run of the system reaches, the per-method counts add up to the verified users and the bottlenecks fit into the rest. |
| `Queue.RedisQueue.Enqueue` | modules/common-go/pkg/queue/queue.go:44-55 | Appends to the named list unless the name is blank or Redis fails, and touches no other list. |
| `Queue.RedisQueue.Dequeue` | modules/common-go/pkg/queue/queue.go:63-80 | Takes the head, or nothing from an empty list. |
| `Queue.RedisQueue.DequeueInto` | modules/common-go/pkg/queue/queue.go:88-102 | Takes and decodes the head; a payload that does not decode is gone and reported, and what readers will still see is unchanged by it. |
| `Queue.FirstInFirstOut` | modules/common-go/pkg/queue/queue.go:44-102 | Over any trace, what was received followed by what is still queued is what was there followed by what was pushed. |
| `Worker.EmailStore.MarkSent` | services/email-worker/internal/store/store.go:36-65 | Sets external id and status and appends the same status in one transaction; a blank id, a missing record or a fault changes nothing. |
| `Worker.EmailStore.MarkFailed` | services/email-worker/internal/store/store.go:67-96 | The same for a failure, with a default reason. |
| `Worker.EmailStore.MarkBounced` | services/email-worker/internal/store/store.go:98-135 | The same for a bounce, with defaults for reason and class. |
| `Worker.EmailStore.Blacklist` | services/email-worker/internal/store/store.go:137-155 | Adds the normal form of a non-blank address. |
| `Worker.EmailStore.IsBlacklisted` | services/email-worker/internal/store/store.go:157-170 | Looks the normal form up without regard to case; a blank address or a fault gives no answer. |
| `Worker.Consumer.HandleJob` | services/email-worker/internal/consumer/consumer.go:142-198 | Handling one job, branch by branch, changes store, blacklist and timers as the pipeline's function says, for every outcome of sending and every fault. |
| `Worker.Consumer.RenderError` | services/email-worker/internal/consumer/consumer.go:248-257 | Names the first missing text, in the order in which rendering asks for them. |
| `Worker.Consumer.HandleDeliveryError` | services/email-worker/internal/consumer/consumer.go:200-246 | The same for the failure branches; the delay table is never indexed out of range. |
| `Worker.Consumer.TakeTurn` | services/email-worker/internal/consumer/consumer.go:112-138 | One turn of the loop is one action of the pipeline, or nothing for an empty queue, a malformed payload or a Redis failure. |
| `Worker.Consumer.Run` | services/email-worker/internal/consumer/consumer.go:95-140 | What the loop does is a run of the pipeline; it serves the list in order, one element a turn, and stops at the first Redis failure. |
| `Worker.Consumer.FireTimer` | services/email-worker/internal/consumer/consumer.go:231-238 | A due timer puts its job at the back of the queue unless Redis fails: one action of the pipeline. |
| `Worker.WebhookServer.HandleEmailStatus` | services/email-worker/internal/webhook/server.go:80-107 | Refuses a payload with a blank id or an unknown event, answers a failing store with a server error and no change, records the status otherwise, and reports a bounce iff this call inserted it. |
| `Worker.WebhookServer.UpsertWebhookStatus` | services/email-worker/internal/store/store.go:172-247 | Picks the latest record with the external id and appends unless that status and event id are already in its log; without an event id it always appends; a blank external id or a failing statement changes nothing. |
| `Handlers.Handler.Register` | services/auth-api/internal/handler/handler.go:160-231 | For the pipeline the call is the registration followed by its enqueue or its failed enqueue. Accepted: exactly one job is queued, with the record, the normal form of the address and the texts of the mail. Refused: no job, and no trace in the tables unless the clean-up itself failed. Which answer is given is stated for every request. |
| `Handlers.Handler.ResendVerification` | services/auth-api/internal/handler/handler.go:233-323 | Iff the limiter passes, the call is, for the pipeline, the resend followed by its enqueue or its failed enqueue; the same guarantees for a resend and its rollback, and the answer to every request. |
| `Handlers.Handler.CheckResendRateLimit` | services/auth-api/internal/handler/handler.go:915-946 | Runs the limiter's script on the key of one address and no other key. |
| `Handlers.Handler.Login` | services/auth-api/internal/handler/handler.go:755-801 | Refused when the look-up of the counter fails, blocked iff the counter reached the limit, and then nothing changes; otherwise, for the pipeline, a login, with the counter raised, deleted or kept as the guard's step says. A failure is counted iff no user has the address or one who could log in gave the wrong password. A counter that cannot be changed is ignored; without Redis nothing is counted or blocked. |
| `FixedWindow.RateLimit.Handle` | modules/common-go/pkg/httpx/ginmid/ratelimit.go:15-40 | Counts the request, sets the expiry when the count becomes 1, admits while the count allows, and touches no other key; refuses and counts nothing when Redis fails; without Redis every request passes. |
| `FixedWindow.WindowBound` | modules/common-go/pkg/httpx/ginmid/ratelimit.go:21-37 | For every trace, limit and window and every half-open interval as long as the window, fewer than twice the limit are admitted; at most the limit for a window of one tick, none for limit or window 0. |
| `FixedWindow.WindowBoundIsReached` | modules/common-go/pkg/httpx/ginmid/ratelimit.go:21-37 | For every limit and window some trace reaches that bound exactly. |
| `FixedWindow.LifetimeBound` | modules/common-go/pkg/httpx/ginmid/ratelimit.go:21-37 | While one counter lives at most the limit is admitted. |
| `LoginGuard.FailuresBounded` | services/auth-api/internal/handler/handler.go:948-970 | With at most K requests between check and increment, the failure counter never exceeds the limit plus K - 1. |
| `LoginGuard.SerialFailuresBounded` | services/auth-api/internal/handler/handler.go:948-970 | One request at a time, it never exceeds the limit. |
| `LoginGuard.FailureBoundIsReached` | services/auth-api/internal/handler/handler.go:948-970 | For every positive limit, window and K, a run from no counter with at most K requests in flight reaches the bound. |
| `LoginGuard.CounterHoldsStreak` | services/auth-api/internal/handler/handler.go:948-970 | One request at a time, the counter always holds the number of failures since the last success within one window of the first of them, and expires a window after that first one. |
| `LoginGuard.BlockedExactlyAtLimit` | services/auth-api/internal/handler/handler.go:948-970 | The next request is blocked iff that streak has reached the limit. |
| `ResendLimit.ScriptLeavesExpiry` | services/auth-api/internal/handler/handler.go:52-63 | After every run of the script the key has an expiry within the window, even if it had none or one that rounds to 0, and retry_after lies in 1..90. |
| `ResendLimit.PassesExactlyWhenNew` | services/auth-api/internal/handler/handler.go:244-259 | A resend passes iff it starts a counter. |
| `ResendLimit.DecisionByCount` | services/auth-api/internal/handler/handler.go:244-259 | While a counter lives its second to sixth request must wait, every further one is too many, and retry_after is the remaining time in seconds. |
| `ResendLimit.PassesAreApart` | services/auth-api/internal/handler/handler.go:915-946 | Any two resends that pass for one address are at least 90 seconds apart, whatever comes in between. |
| `PolicyText.LoadOfEncode` | services/admin-api/internal/rbac/pg_adapter.go:32-64 | One row: saving and loading a rule keeps its first six fields, trimmed, and drops only the empty ones at the end. |
| `PolicyText.CanonicalRoundTrip` | services/admin-api/internal/rbac/pg_adapter.go:32-98 | A canonical rule comes back exactly. |
| `PolicyRoundTrip.SaveThenLoad` | services/admin-api/internal/rbac/pg_adapter.go:32-98 | Saving and loading a whole policy without commas and quotes gives each type what the table keeps of each of its rules, in order, each at its first occurrence. |
| `PolicyRoundTrip.NoRuleLostExactlyWhen` | services/admin-api/internal/rbac/pg_adapter.go:32-98 | No rule of a type is lost iff the table can tell all of them apart, and then each comes back as its kept form. |
| `PolicyRoundTrip.SecondReloadChangesNothing` | services/admin-api/internal/rbac/pg_adapter.go:32-98 | Saving and loading the result again changes nothing, whatever the order of the types. |
| `PolicyRoundTrip.TwoRulesBecomeOne` | services/admin-api/internal/rbac/pg_adapter.go:32-98 | Two rules that differ only in an empty last field come back as one. |
| `PolicyTable.AddRefines` | services/admin-api/internal/rbac/pg_adapter.go:100-106 | Adding a row keeps the table in step with appending to the list. |
| `PolicyTable.RemoveRefines` | services/admin-api/internal/rbac/pg_adapter.go:108-112 | Removing by query keeps the table in step with removing the rule from the list, for canonical rules. |
| `PolicyTable.RemoveFilteredRefines` | services/admin-api/internal/rbac/pg_adapter.go:114-129 | Filtered removal keeps the table in step with removing the matching rules, empty filter values matching anything. |
| `PolicyTable.SaveRefines` | services/admin-api/internal/rbac/pg_adapter.go:66-98 | A saved table lists the policy, in whatever order the types were written. |
| `PolicyTable.AddThenRemoveExactlyWhen` | services/admin-api/internal/rbac/pg_adapter.go:131-163 | On any table, adding a rule and removing it again leaves what removing it alone would leave iff every stored field of the rule is non-empty and trimmed. |
| `PolicyTable.RemoveAgreesExactlyWhen` | services/admin-api/internal/rbac/pg_adapter.go:108-163 | On the table of any list of rules, removing a rule leaves the table of the list without that rule iff the rule, where it is held, has only non-empty trimmed fields and no other held rule has the same six stored columns. |
| `PolicyTable.RemoveTakesAnother` | services/admin-api/internal/rbac/pg_adapter.go:108-163 | A concrete removal that also deletes the row of another rule. |
| `PolicyTable.RemoveMissesEmptyField` | services/admin-api/internal/rbac/pg_adapter.go:131-163 | A concrete rule with an empty field that its own removal misses. |
| `PolicyTable.LoadAfterAnyHistory` | services/admin-api/internal/rbac/pg_adapter.go:32-163 | After any history of add, remove, filtered remove, save and seed, loading gives each type exactly the rules in memory, in order. |
| `PolicyAdapter.BuildPolicyQuery` | services/admin-api/internal/rbac/pg_adapter.go:131-144 | The conditions the loop builds hold of exactly the rows that equal the rule column by column. |
| `PolicyAdapter.BuildFilterQuery` | services/admin-api/internal/rbac/pg_adapter.go:114-129 | The loop names a column that does not exist iff a non-empty value lies past v5; otherwise its conditions hold of exactly the rows that match the non-empty filter values. |
| `PolicyAdapter.PostgresAdapter.Load` | services/admin-api/internal/rbac/pg_adapter.go:32-64 | Succeeds iff every row has a known type, and then gives each type its rules in row order without repeats. |
| `PolicyAdapter.PostgresAdapter.Save` | services/admin-api/internal/rbac/pg_adapter.go:66-98 | Replaces the table by the encoded rules of all types. |
| `PolicyAdapter.PostgresAdapter.Remove` | services/admin-api/internal/rbac/pg_adapter.go:108-112 | Deletes exactly the rows that match the rule. |
| `PolicyAdapter.PostgresAdapter.RemoveFiltered` | services/admin-api/internal/rbac/pg_adapter.go:114-129 | Deletes exactly the matching rows, or fails when the filter names a column past v5. |
| `PolicyAdapter.SeedingAddsTheMissing` | services/admin-api/internal/rbac/seed.go:23-39 | Seeding only appends, and afterwards holds exactly the old rules and the defaults. |
| `PolicyAdapter.SeedingChangesExactlyWhen` | services/admin-api/internal/rbac/seed.go:23-48 | Seeding leaves the rules alone iff every default is already there. |
| `PolicyAdapter.SeedingTwiceIsSeedingOnce` | services/admin-api/internal/rbac/seed.go:19-48 | Seeding a second time changes nothing. |
| `PolicyAdapter.DefaultsAreCanonical` | services/admin-api/internal/rbac/seed.go:12-17 | The default rules are canonical, so what is proved of canonical rules holds of them. |
| `PolicyAdapter.Enforcer.SeedDefaultPolicy` | services/admin-api/internal/rbac/seed.go:23-48 | Keeps table and memory in step, adds the missing defaults, and reports a change, and writes, iff one was missing. |

## Left out

- Isolation below whole transactions: transactions are committed one after the other, and an early return leaves the tables as they were. Crashes that lose in-memory timers are not steps of the model.
- Hashing, passwords and random values: digests, the outcome of the password check and fresh ids are inputs. Ids are natural numbers, of which only equality and order are used. There is one clock for the application and the database.
- Tenant tables, roles and members: `Bootstrap` takes the answer of the tenant-name query as an input, and admin CRUD handlers are single-row operations.
- Columns that no property needs: subject, template, user agent, address of the client, and all metadata of a history entry but the event id and the bounce class. All modelled records are verification e-mails.
- Sending, templates and MIME: sending is an oracle that accepts, bounces softly or hard, or fails without a class. A job that needs rendering fails iff one of its three texts is blank.
- Retry delays follow the code, 1, 4 and 24 hours apart, not the product document's "over 24 hours". Negative retry counts in a queued payload, which no producer writes, are excluded by the type.
- Text: trimming and lower case cover ASCII. JSON and CSV decoding are reduced to "decodes or not" and to splitting at commas with leading spaces trimmed; quotes in a policy field, and the hundred-character limit of the policy columns, are not modelled.
- Redis: a key is gone from the instant of its expiry on, and TTL rounds to the nearest second.
- Queue time-outs and cancellation: a time-out is an empty answer, cancellation is the end of the list of turns given to `Worker.Consumer.Run`.
- The steps inside one handled job: look-up, Send, MarkBounced, Blacklist and MarkFailed are separate commits in the source and one action of the pipeline here, so states between them are not among the reachable ones.
- An EXPIRE that fails after its INCR succeeded, which leaves a request or login counter without expiry.
- Handlers.Handler.Login: address and password syntax checks and the building of the key are left to the caller.
- Handlers.Handler.Register: address syntax and password length are inputs.
- Queries with `order by` and `limit 1` are modelled by their result, not by an execution plan.
- JWTs, cookies, HTML pages, routing, CORS, configuration, metrics, analytics transport, medians and the text of the report: no hard property.
