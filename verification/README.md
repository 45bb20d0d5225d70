# The marketplace chain, verified

This project models the marketplace and dispute state machine of the chain
(`chain/internal/state`) and the decision logic of its determinism harness, and
proves that the money always adds up, that a block can never fail, and that
every request ends once, in time, and for a legitimate reason.

## How it is built

All stakes of the marketplace (request escrows, provider, challenger, voucher
and registration bonds) sit in one pooled escrow account. Nothing stored ties
that pool to the records; only the discipline of the code does. The model makes
the tie explicit.

- `Types`, `Addresses`, `Keys`, `Ledger`: records, messages and errors; address
  derivation; the eight-byte bucket keys; balances and their total.
- `Flows`: for each account, what one request and one service have moved over
  their whole life, as a function of the stored record alone. One account may be
  requester, owner, challenger and voucher at once; flows are sums per account.
- `Books`: the records without balances (`Book`), and `Funds(b, a)`: the balance
  the records say account `a` must have. `ext` (mints and transfers), `forfeits`
  (registration bonds swept to the treasury) and `minted` are accounting fields
  that the program does not store.
- `Machine`: the chain as a transition system over books. No payout is written
  there: a record changes, and `Funds` says what every balance has become. A
  block settles every request by itself, all at once.
- `Chains`: the program. Class `Chain` has the mutable buckets and one method per
  applier and settlement routine, debiting and crediting in the order of the
  code, with 64-bit sums that wrap. Each method is proved to end in the book of
  `Machine`, with the same error, and with every balance equal to `Funds`.
- `Payouts`, `Reconciliation`: the running totals of the settlement loops, and
  the proof that each routine pays exactly the flow of the record it writes.
- `Reachable`, `Lifecycle`, `Votes`, `DeadDomains`, `Deadlines`, `Outcomes`,
  `Batch`, `Nonces`, `ModuleAccounts`: theorems about every run from genesis, that
  is, any sequence of transactions, blocks, mints, parameter and authority
  changes (`Run`, `StateAt`), whose supply and number of operations stay within
  64 bits (`Bounded`).
- `Admission`, `Effects`, `Ticks`, `Spending`: a second description of the chain, written without the
  appliers and the settlement routines and proved equal to them. `Admission` says which envelopes are
  accepted, `Effects` which record and which balances each accepted message changes, `Ticks` what a
  block does to a request in each status, and `Spending` that money leaves an account only by a
  transaction it signed.
- `Harnesses`: what the harness files after replaying a request, and why stale
  reads do not invalidate it.

`Chains.Replay` connects the two levels: after any bounded run the class holds
the state of `Run`, every balance is `Funds`, and no block has failed. All
theorems about `Run` are therefore theorems about what the class stores.

## Where the code and its comments differ

The model follows the code.

- The comment above `applyDeactivateDomain` (`chain/internal/state/tx.go:686-691`)
  says pending requests still resolve; the code voids every open request.
- The list above `commitBlock` (`chain/internal/state/block.go:45-50`) maps an
  expired dispute to SLASHED; the code dismisses it when the vouchers earned that.
- `VoucherRewardAmount` is described as the reward of a correct voucher
  (`chain/internal/types/types.go:241-245`); no code reads it, the reward is an
  equal share of what the losing side staked.
- The harness comment says the status is SUBMITTED when it files a challenge
  (`determinism-harness/cmd/harness/main.go:331`); the code files one for every
  status but CHALLENGED.
- A deadline chosen by the requester is only required to lie in the future;
  `MaxRequestDeadlineBlocks` is a default and not a cap.
- Disputes compare the output hash of the result, which nothing ties to the
  output hash inside the provider's own attestation.

## Model

| member | source | states |
|---|---|---|
| Chains.Replay | chain/internal/state/state.go:80-124 | After any bounded run from genesis the stored state is the transition system's, every account holds exactly what the records say it must, all balances together are what was minted, and no block failed |
| Chains.Chain.CommitBlock | chain/internal/state/block.go:51-225 | The scan into four lists and the four settlement loops never fail, whatever the state, and end where settling every request at once by its own record ends, with all balances reconciled |
| Chains.Chain.Scan | chain/internal/state/block.go:69-121 | One cursor pass puts every request on exactly the list of its verdict, in ascending id order without repetition |
| Chains.Chain.Judge | chain/internal/state/block.go:75-120 | The verdict per status: deadline, challenge window, resolution window, and the vote against the domain's or the global margin |
| Chains.Chain.CountVotes | chain/internal/state/block.go:99-106 | The two counters are the sizes of the two sides |
| Chains.Chain.SettleEach | chain/internal/state/block.go:123-205 | A settlement loop working on copies taken during the scan ends exactly the listed records and cannot fail |
| Chains.Chain.RefundExpired | chain/internal/state/block.go:124-142 | An expired pending request is refunded; escrow covers it and every balance reconciles with the new record |
| Chains.Chain.FinalizeUndisputed | chain/internal/state/block.go:146-185 | An undisputed request pays its owner escrow and bond; escrow covers them and every balance reconciles |
| Chains.Chain.ExecuteSlash | chain/internal/state/resolution.go:24-105 | Cannot fail on a challenged request of a sound state, writes the slashed record and moves exactly that record's flow |
| Chains.Chain.PaySlash | chain/internal/state/resolution.go:29-83 | The sequence of payouts empties what the request had locked into exactly the slashed record's claims |
| Chains.Chain.ResolveVoucherBonds | chain/internal/state/resolution.go:63-83 | Provider-side bonds all go to the treasury and challenger-side bonds back to their vouchers, and escrow loses exactly their sum |
| Chains.Chain.ExecuteDismiss | chain/internal/state/resolution.go:117-204 | Cannot fail on a challenged request of a sound state, writes the finalized record and moves exactly that record's flow |
| Chains.Chain.PayDismiss | chain/internal/state/resolution.go:122-180 | Escrow, bond, returned voucher bonds and the split pool are together exactly what the request had locked |
| Chains.Chain.PayWinners | chain/internal/state/resolution.go:142-180 | The pool is the challenger's bond and the opponents' bonds without wrap-around; supporters get their bonds and a share, the owner the rest |
| Chains.Chain.SplitVouchers | chain/internal/state/resolution.go:142-150 | The loop keeps the provider-side vouchers in order and adds up the other side's bonds without wrap-around |
| Chains.Chain.SplitPool | chain/internal/state/resolution.go:167-180 | What leaves escrow is the pool; shares and the owner's part add up to it, even if an account is recipient twice |
| Chains.Chain.ExecuteVoid | chain/internal/state/resolution.go:217-303 | From any open status, cannot fail and returns every stake to the account that put it in |
| Chains.Chain.PayBack | chain/internal/state/resolution.go:223-280 | The payouts that depend on the prior status are exactly what was locked, contributor by contributor |
| Chains.Chain.ReturnVoucherBonds | chain/internal/state/resolution.go:262-280 | Every voucher gets its bond back and escrow loses exactly their sum |
| Chains.Chain.ApplyRegisterService | chain/internal/state/tx.go:171-242 | Each rejection in the code's order; otherwise a new service under the next id and name, its bond moved to escrow, state sound |
| Chains.Chain.ApplyRequestInference | chain/internal/state/tx.go:244-309 | Escrows the service's price, not the offered maximum; each rejection in order; default deadline; state sound |
| Chains.Chain.ApplySubmitResult | chain/internal/state/tx.go:311-444 | Owner, input, deadline and domain checks; the bond is locked, and with no challenge window escrow and bond are paid out at once; state sound either way |
| Chains.Chain.ApplyChallenge | chain/internal/state/tx.go:462-559 | Accepted only in the window with another output and the domain's tuple; the challenger's bond is locked on the record; state sound |
| Chains.Chain.ApplyVouch | chain/internal/state/tx.go:880-1018 | The whole rejection order up to the window; the bond scaled in 64 bits is locked and the vote recorded on the side of its hash; state sound |
| Chains.Chain.CheckAttestation | chain/internal/state/tx.go:343-365 | Passes exactly for the tuple and pinned tokenizer of the service's domain, and always for services without one |
| Chains.Chain.VoucherEligible | chain/internal/state/state.go:346-363 | The scan finds an active service of this owner in this domain if and only if there is one; domain 0 asks for none |
| Chains.Chain.ApplyUpdateService | chain/internal/state/tx.go:570-614 | Changes description and price of an active service of the signer and no other field, record or balance |
| Chains.Chain.ApplyDeactivateService | chain/internal/state/tx.go:623-684 | The bond goes to the owner after the minimum lifetime and to the treasury before; it always can, and leaves the record |
| Chains.Chain.ApplyDeactivateDomain | chain/internal/state/tx.go:692-814 | After the authority checks it cannot fail: exactly the domain's active services go offline with their bonds refunded, exactly their open requests are voided, all else is unchanged, and the receipt lists exactly these |
| Chains.CascadeIsExact | chain/internal/state/tx.go:721-813 | The ids collected in the three passes are, in order and without repetition, exactly the services and requests that closing the domain affects |
| Chains.Chain.ServicesOf | chain/internal/state/tx.go:721-733 | Pass 1 collects exactly the domain's services |
| Chains.Chain.RetireAll | chain/internal/state/tx.go:735-768 | Pass 2 takes exactly the active ones offline, refunding each bond in full, and cannot fail |
| Chains.Chain.OpenRequestsOf | chain/internal/state/tx.go:770-791 | Pass 3 collects exactly the open requests of the affected services, each once |
| Chains.Chain.ApplyResolveChallenge | chain/internal/state/tx.go:825-860 | Only the authority, only on a challenged request; the chosen resolution cannot fail, so the first challenge is always there |
| Chains.Chain.ApplyRegisterDomain | chain/internal/state/tx.go:1024-1088 | The first signer becomes authority; only the authority registers; a failure after that write is the caller's to undo |
| Chains.Chain.ApplyTransfer | chain/internal/state/tx.go:1090-1109 | Moves the amount to any account, escrow included, as a gift outside the marketplace, and keeps every balance reconciled |
| Chains.Chain.SubmitTx | chain/internal/state/tx.go:21-143 | Accepts exactly what the transition system accepts, with the same error otherwise; the receipt reports what was done; a rejection leaves every record, counter, balance, nonce and the authority as they were |
| Chains.Chain.Dispatch | chain/internal/state/tx.go:54-133 | Each message type reaches its own applier, and its receipt names the new id, the finality or the domain's losses |
| Chains.Chain.IncNonce | chain/internal/state/state.go:241-248 | Advances this signer's nonce alone, in 64 bits |
| Chains.Chain.Debit | chain/internal/state/state.go:223-237 | Succeeds if and only if the account has the amount; takes it from that account alone, or changes nothing |
| Chains.Chain.Credit | chain/internal/state/state.go:210-221 | Adds in 64 bits; the total grows by the amount if and only if the account's new balance fits |
| Chains.Chain.PutService | chain/internal/state/state.go:314-320 | Writes the record and its name's index entry |
| Chains.Chain.Mint | chain/internal/state/state.go:161-165 | Total and minted agree afterwards if and only if the recipient's balance does not wrap; the state stays sound while the supply fits 64 bits |
| Chains.Chain.SetParams | chain/internal/state/state.go:149-157 | Any parameters at any time leave records and money sound |
| Chains.Chain.SetAuthority | chain/internal/state/state.go:447-454 | Installs exactly valid addresses |
| Chains.Chain.constructor | chain/internal/state/state.go:80-124 | The fresh store is the genesis state and is sound |
| Machine.FourLists | chain/internal/state/block.go:69-205 | Lists collected before any settlement stay current while the earlier lists are settled, and settling the four in turn settles every request by its own record |
| Machine.NextList | chain/internal/state/block.go:123-205 | No settlement touches a record waiting on another list |
| Machine.SettleListedStep | chain/internal/state/block.go:124-142 | The copy taken in the scan equals the stored record when its turn comes |
| Batch.TickInAnyOrder | chain/internal/state/block.go:51-208 | A block equals settling the requests one at a time after advancing the height, in id order or any other, repetitions included |
| Batch.InOrderIsSet | chain/internal/state/block.go:123-205 | Settling one after another depends only on which requests are settled |
| Batch.DueIsStable | chain/internal/state/block.go:75-120 | No settlement changes what is due for another request, and a settled one is never due again |
| Batch.OutcomeIsIndependent | chain/internal/state/block.go:69-205 | A block does to a request what it would do if any other requests were absent |
| Books.EscrowReconciles | chain/internal/state/state.go:175-183 | Escrow holds exactly the gifts it got, everything open requests have locked and every registration bond still held |
| Books.EscrowCoversRequest | chain/internal/state/resolution.go:24-303 | Escrow always covers the whole of any open request |
| Books.EscrowCoversService | chain/internal/state/tx.go:652-671 | Escrow always covers any registration bond still held |
| Books.FlowAtModules | chain/internal/state/resolution.go:24-303 | A request's effect on escrow is what it has locked while open and nothing afterwards; on the treasury it is the forfeited bonds of a slash |
| Flows.SidesPartition | chain/internal/state/resolution.go:63-83 | Every voucher is on one side, so the sides' bonds and payments add up to all of them, account by account |
| Payouts.SlashPayout | chain/internal/state/resolution.go:33-83 | For every account, the steps of a slash add up to the flow of the slashed record |
| Payouts.DismissPayout | chain/internal/state/resolution.go:125-180 | For every account, the steps of a dismissal add up to the flow of the finalized record |
| Payouts.RefundPayout | chain/internal/state/resolution.go:223-280 | For every account and prior status, the steps of a refund or void return what the account put in |
| Payouts.FinalizePayout | chain/internal/state/block.go:151-168 | Escrow and bond are all an undisputed request had locked |
| Payouts.SplitIsExact | chain/internal/state/resolution.go:166-170 | Shares and remainder are the whole pool and the remainder is less than one unit per recipient |
| Reconciliation.SettlementReconciles | chain/internal/state/resolution.go:85-89 | Once the payouts of a verdict are made, storing the ended record reconciles every balance |
| Reconciliation.EscrowPays | chain/internal/state/resolution.go:33-58 | In a sound state escrow holds what a settlement will debit and all its parties are ordinary accounts |
| Reconciliation.SubmitPaid | chain/internal/state/tx.go:374-438 | Locking the bond, with or without paying at once, moves exactly the flow of the stored record |
| Reconciliation.ChallengePaid | chain/internal/state/tx.go:527-545 | Locking the challenger's bond moves exactly the flow of the challenged record |
| Reconciliation.VouchPaid | chain/internal/state/tx.go:985-1004 | Locking a voucher's bond moves exactly the flow of the record with the new voucher |
| Reconciliation.RetireReconciles | chain/internal/state/tx.go:652-676 | Releasing or sweeping a registration bond and zeroing it on the record reconcile every balance |
| Reconciliation.NewRequestReconciles | chain/internal/state/tx.go:274-298 | Escrowing the price and storing the request reconcile every balance |
| Reconciliation.NewServiceReconciles | chain/internal/state/tx.go:206-230 | Locking the bond and storing the service reconcile every balance |
| Reconciliation.TransferReconciles | chain/internal/state/tx.go:1101-1106 | A transfer, also to oneself or to escrow, reconciles every balance |
| Outcomes.FlowSumsToZero | chain/internal/state/resolution.go:24-303 | In every status, a request's flow over all its parties and the module accounts sums to zero, even when roles coincide |
| Outcomes.SlashOutcome | chain/internal/state/resolution.go:24-105 | Over its life a slashed request nets the challenger the provider's bond and the treasury the provider-side voucher bonds, at the expense of exactly those two |
| Outcomes.DismissOutcome | chain/internal/state/resolution.go:117-204 | Over its life a dismissed request pays the owner, costs the challenger's side its bonds, gives each supporter one share and the owner less than one unit per recipient more, and no supporter loses as such |
| Outcomes.RefundLeavesNoTrace | chain/internal/state/resolution.go:206-303 | Every balance is what it would be had the refunded and voided requests never been made |
| Outcomes.ScaledBondExactIff | chain/internal/state/tx.go:978-982 | The voucher's stake is the exact rounded fraction of the provider bond if and only if the 64-bit product does not wrap; it is never more, nor more than the provider bond up to 10000 basis points |
| Reachable.CoreStep | chain/internal/state/tx.go:45-138 | Any operation keeps ids gapless, references resolved, the name index exact, records in the shape of their status and module accounts out of every role |
| Reachable.StepCounters | chain/internal/state/tx.go:221-224 | One operation takes at most one id of each kind, and the supply changes only by mints |
| Reachable.RunSound | chain/internal/state/state.go:80-124 | All of this holds in every reachable state, where the supply is what was minted |
| Reachable.LookupEqualsScan | chain/internal/state/tx.go:185-187 | The index answers as a scan of all services for the name would, and no two services share one |
| Lifecycle.StepRecords | chain/internal/state/tx.go:311-559 | The only status edges, with everything each edge checks and everything it leaves alone; services and domains change only in the listed ways |
| Lifecycle.RunEvolves | chain/internal/state/tx.go:288-296 | Between any two states of a run no record is lost; identity, escrow, deadline, result, bond and challenge never change once set, vouchers only accumulate, ended records are frozen |
| Lifecycle.SettledExactlyOnce | chain/internal/state/block.go:123-205 | In any run, the number of operations that end a request is one if it has ended and zero otherwise |
| Votes.RunEvident | chain/internal/state/tx.go:928-960 | In every reachable state a record's vouchers are pairwise distinct accounts and each flag says which of two different outputs was attested |
| Votes.VotesByHash | chain/internal/state/block.go:99-106 | The two vote counts are the numbers of distinct accounts that attested each output |
| Votes.DismissedByVoteIffEarned | chain/internal/state/block.go:87-120 | A block dismisses a challenge if and only if the window is over, at least one account attested the provider's output and they exceed the others by the margin in force |
| Votes.DismissedOnlyByVoteOrAuthority | chain/internal/state/tx.go:825-860 | Nothing but such a block or the authority's accepted decision for the provider dismisses a challenge |
| Votes.VouchersWereEligible | chain/internal/state/tx.go:912-960 | Each voucher on a record got there by an operation at which its account was eligible, had not vouched and was in time |
| DeadDomains.DeadForEver | chain/internal/state/tx.go:692-814 | A dead domain stays dead; in every later state its services are offline without bonds and have only the ended requests of that day, unchanged |
| DeadDomains.ClosedIsQuiet | chain/internal/state/tx.go:721-800 | The cascade leaves no service online and no request open in the domain |
| DeadDomains.RunQuiet | chain/internal/state/tx.go:190-198 | In every reachable state a dead domain has no active service and no open request, though only registration looks at the flag |
| Deadlines.RunTimely | chain/internal/state/block.go:76-97 | With a fixed window of at least zero, no state of a run shows an open request past the bound of its status |
| Deadlines.EndedInTime | chain/internal/state/block.go:76-97 | Past deadline, challenge window and resolution window together, a request has ended |
| Deadlines.EnoughBlocksEnd | chain/internal/state/block.go:51-60 | Whatever else is submitted, enough blocks end every request |
| Deadlines.HeightCountsBlocks | chain/internal/state/block.go:57-61 | The height advances by the number of blocks, none of which is ever rolled back |
| Deadlines.NothingIsLate | chain/internal/state/tx.go:336-338 | With a fixed window the late-submission, late-challenge and late-vouch rejections cannot occur |
| Nonces.NoncesInOrder | chain/internal/state/tx.go:45-51 | A signer's i-th accepted transaction carries nonce i, and the stored nonce is their number |
| Nonces.NoReplay | chain/internal/state/tx.go:45-51 | No envelope is accepted twice, and later ones of a signer carry larger nonces |
| ModuleAccounts.TreasuryReconciles | chain/internal/state/state.go:178-183 | The treasury holds exactly gifts, forfeited voucher bonds and forfeited registration bonds |
| ModuleAccounts.StepAtModules | chain/internal/state/tx.go:661-669 | No operation takes from the treasury, nor from what escrow was given |
| ModuleAccounts.TreasuryNeverFalls | chain/internal/state/state.go:178-183 | Over any run the treasury's balance only grows |
| Addresses.DerivedAddress | chain/internal/types/types.go:659-674 | A derived address is valid, determines its digest and is never a module account |
| Addresses.HexRoundTrip | chain/internal/types/types.go:659-674 | Decoding the encoding gives the bytes back, at two characters a byte |
| Addresses.ModuleAddressesAreNotValid | chain/internal/state/state.go:175-183 | The module accounts are not addresses any key derives |
| Keys.Uint64Key | chain/internal/state/state.go:608-615 | The shifting loop writes the big-endian encoding in eight bytes |
| Keys.GetUint64 | chain/internal/state/state.go:621-631 | The accumulating loop reads the big-endian value without overflow, and zero for any other length |
| Keys.StoredNumbersReadBack | chain/internal/state/state.go:608-631 | Encoding and decoding are inverse, in both directions |
| Keys.KeyOrder | chain/internal/state/state.go:608-615 | The store's order of keys is the order of ids, so a cursor visits each once, ascending |
| Ledger.TotalPut | chain/internal/state/state.go:218-220 | Writing one account changes the total by that account's change alone |
| Admission.AcceptedIff | chain/internal/state/tx.go:21-143 | An envelope is accepted if and only if its form, signature, nonce and payload are valid and its message is one this signer may send in this state |
| Admission.RefusedChangesNothing | chain/internal/state/tx.go:21-51 | An envelope with a wrong form, signature, nonce or payload, or an inadmissible message, changes nothing |
| Admission.AdmissibleIff | chain/internal/state/tx.go:171-1109 | For each message, who may send it in which state: roles, windows, evidence, prices, margins and funds, with no condition more and none less |
| Admission.VoucherHasStake | chain/internal/state/state.go:334-363 | Whoever vouches in a domain has an active service there whose registration bond escrow holds |
| Effects.AcceptedEffect | chain/internal/state/tx.go:171-1109 | An accepted envelope advances its signer's nonce, leaves the record its message describes, moves exactly the stakes it names and changes nothing else |
| Effects.RegisterServiceEffect | chain/internal/state/tx.go:200-230 | The new service has the owner, name, price and domain asked for and the bond in force, which moved from the owner to escrow |
| Effects.RequestInferenceEffect | chain/internal/state/tx.go:263-298 | The new request has the service's price as escrow, moved from the requester, and the chosen or the default deadline |
| Effects.SubmitResultEffect | chain/internal/state/tx.go:367-442 | The record has the result and the provider bond in force, which is locked, or with no challenge window the escrow is paid |
| Effects.ChallengeEffect | chain/internal/state/tx.go:525-545 | The record has this one challenge with its height and evidence, and the challenger bond in force is locked |
| Effects.VouchEffect | chain/internal/state/tx.go:928-1004 | The record has one more vote, on the side of its output hash, with the scaled or the fixed stake, which is locked |
| Effects.UpdateServiceEffect | chain/internal/state/tx.go:597-601 | The service has the new price and description, and no balance moves |
| Effects.DeactivateServiceEffect | chain/internal/state/tx.go:643-676 | The service is offline without a bond, which moved to the owner after the minimum lifetime and to the treasury before it |
| Effects.RegistrationBondGoesTo | chain/internal/state/tx.go:652-671 | Balances after an accepted deactivation: the bond is the owner's if and only if the service lived long enough, else the treasury's, and no other user is touched |
| Effects.ProviderStake | chain/internal/state/tx.go:374-438 | Balances after an accepted result: the owner is down by exactly the provider bond in force, or up by exactly the escrow when there is no challenge window |
| Effects.RegisterDomainEffect | chain/internal/state/tx.go:1042-1072 | The new domain is active with the tuple, tokenizer and margin of the message; the first signer is the authority |
| Effects.TransferEffect | chain/internal/state/tx.go:1095-1106 | Exactly the named account gains exactly the amount from the signer |
| Effects.ResolveChallengeEffect | chain/internal/state/tx.go:845-859 | A decision for the provider dismisses and one for the challenger slashes, with the balances of every account |
| Effects.DeactivateDomainEffect | chain/internal/state/tx.go:692-800 | The domain is inactive, its active services offline, its open requests refunded, all else as before; every account but escrow gains exactly its stakes in the domain, the treasury nothing |
| Spending.OnlySignersPay | chain/internal/state/tx.go:41-43 | A user account loses money only by an envelope that it signed |
| Spending.SilentNeverPay | chain/internal/state/block.go:51-225 | Over any part of a run in which an account signs nothing its balance never falls |
| Spending.TickGains | chain/internal/state/block.go:123-205 | A block takes money from escrow alone |
| Ticks.BlockOutcome | chain/internal/state/block.go:75-120 | By status: refunded exactly after its deadline, finalized exactly after its challenge window, disputed untouched through its window and then dismissed or slashed by the vote, ended for ever; nothing else changes but the height |
| Ticks.RunBlockOutcome | chain/internal/state/block.go:75-120 | The same for every request of every reachable state |
| Ticks.EarnedIsWinning | chain/internal/state/block.go:107-116 | The vote is won by the margin of the service's domain where that sets one and by the global margin elsewhere, counted in accounts |
| Ticks.BlockPays | chain/internal/state/block.go:123-205 | For every account, the balance after a block is the one before plus what each ended request pays it by its outcome |
| DeadDomains.RetiringKills | chain/internal/state/tx.go:706-716 | An accepted deactivation leaves exactly that domain inactive, which was active before |
| DeadDomains.DeadRefuses | chain/internal/state/tx.go:190-198 | A service for a dead domain and a second deactivation of it are refused and change nothing |
| DeadDomains.ClosedForGood | chain/internal/state/tx.go:692-716 | From the operation that retires a domain, every later state has it dead and refuses whatever would use it |
| Addresses.ValidAddressIff | chain/internal/types/types.go:664-674 | The valid addresses are exactly the prefix followed by forty hex digits |
| Harnesses.Harness.CheckRequest | determinism-harness/cmd/harness/main.go:224-342 | Files a message if and only if the replay calls for one, of the kind and with the attestation it calls for, and always stores one report consistent with what was filed |
| Harnesses.Harness.Store | determinism-harness/cmd/harness/main.go:629-636 | Appends and keeps the last hundred reports |
| Harnesses.RunAttested | chain/internal/state/tx.go:342-365 | In every reachable state a result's attestation carries the tuple of its service's domain |
| Harnesses.StaleReadsStillFit | determinism-harness/cmd/harness/main.go:349-401 | An attestation built from any earlier reads of request and domain still carries the right tuple, input and outputs when it arrives |
| Harnesses.ChallengeIsWellFounded | chain/internal/state/tx.go:483-523 | A challenge the harness files, arriving while the request is submitted, can only be refused for lateness or lack of funds |
| Harnesses.VouchIsWellFounded | chain/internal/state/tx.go:900-968 | A vouch the harness files, arriving while the request is challenged, can only be refused for eligibility, repetition, lateness or lack of funds |

## Left out

- Ed25519, SHA-256 and JSON: an envelope has a flag for its form, a flag for its signature, the digest of its key, and a payload that is absent when it does not decode.
- Error texts and wrapping: each rejection has its own constant, also where the code wraps a shared one (price below the minimum, vouch window closed), and an undecodable payload is one rejection for all message types.
- bbolt: a transaction is atomic because a failed one restores every bucket; a cursor is a loop over ids in ascending order, which `Keys.KeyOrder` and the gapless ids of `Reachable.RunSound` justify. The library's own refusal of empty or oversized keys is not modelled, so a transfer or mint to the empty address, which it would refuse, succeeds here.
- Heights, windows and margins are unbounded integers; the code's 64-bit signed sums are assumed not to wrap.
- The number of reward recipients is not wrapped: it is one more than the length of a list in memory.
- Runs are bounded by 2^64 minted units and 2^64 - 2 operations; beyond, balances and counters of the code wrap (`Chains.Chain.Mint` says exactly when a mint does).
- Events, apart from the services and requests a domain closure names; subscriptions, the HTTP interface, the development keyring and the faucet account.
- Coin denominations in balances: the ledger keeps one number per account, as the code does; denominations matter in price comparisons only.
- The harness's replay, network calls and notes: their outcomes are parameters of `CheckRequest`, and `accepted` stands for the answer to what was filed. Concurrent checks and the mutex around the report list are not modelled.
- The indexer, the inference node, the frontend and the documentation renderer.
