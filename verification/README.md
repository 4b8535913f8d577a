# Verified model of the router

The router sends each LLM request to a backend "seat", moves on to the next seat when one fails, and keeps
bounded in-memory views of what happened. This project models that machinery in Dafny and proves what it
promises, for all inputs, all runs and all interleavings of its asynchronous parts. `dafny verify
dfyconfig.toml` checks everything.

| file | what it models |
|---|---|
| `seats.dfy`, `probe_backoff.dfy`, `breakers.dfy` | the availability of one seat as a machine over its events, the 64-bit probe backoff, the breaker read off its log |
| `verdict.dfy` | the verdict on a seat read off its log alone |
| `model_state.dfy`, `tracker.dfy` | the tracker: one mutable record per model, kept equal to a log of everything that happened |
| `registry.dfy`, `candidates.dfy`, `pressure.dfy`, `resolution.dfy`, `failover.dfy` | names, roles, chains, privacy tiers, load balancing, the candidate walk, the retry loop and what each attempt sends |
| `validation.dfy`, `soundness.dfy` | the load-time checks, and what they buy at run time |
| `whole_request.dfy` | whole requests, from resolution to the last attempt, and the small fleets on which documented promises fail |
| `inventory.dfy`, `listing_verdicts.dfy` | live listings: absence, adoption and retirement of discovered entries, and the verdicts in the tracker's records |
| `content_gate.dfy`, `stream_round.dfy`, `tool_loop.dfy` | the streaming tool loop: tag detection over arbitrary chunks inside a bounded conversation |
| `events.dfy`, `peers.dfy` | the event broker, and one replica mirroring another |
| `request_defaults.dfy` | the fill-only merge on JSON trees |
| `windows.dfy`, `capture.dfy`, `series.dfy` | rings, tail buffers, line scanners and chart rows against plain functions of the full log or stream |
| `sorting.dfy` | finite sets into order, and lists filtered in order |

Loops and objects of the original are methods and classes here, each proved against a function of its inputs
or of the old state; the promises are lemmas about those functions. Asynchronous results arrive as separate
steps: a probe is launched under a sequence number and reports at any later point, and the mirror protocol
interleaves its steps in any order. The clock, the network, JSON decoding, globs and tool implementations are
parameters. Times are integers.

What a proof needs of its surroundings is stated where it is needed: `Sane` is what `NewTracker` puts in
place of unset limits; `Possible` logs do not run backwards in time and only report launched probes; a ring
is in step with its log as long as no attempt arrives a whole turn late; no name may be adoptable from two
sources for the life cycle of a discovered id, which the load-time check of unique prefixes does not give.

## Where the code and its documentation disagree

The model follows the code.

- README.md:146-147 promises one trial after a breaker's cooldown. Every query is let through until a report
  arrives: `Breakers.OneTrialIffOneQuery`, `Breakers.TwoTrialsWitness`.
- README.md:190-192 calls a second application of the defaults a no-op. That needs the shape condition of
  `RequestDefaults.SecondApplicationIsNoOp`; `RequestDefaults.ClashWitness` has none of it.
- internal/router/router.go:554-558 says an attempt never carries over from the one before. The directive is
  written into a provider object that attempt and caller share: `Failover.AttemptsAreIndependent`,
  `WholeRequests.SpoiledRunWitness`.
- README.md:142-143 and internal/router/router.go:597-601 let the last candidate's own answer through. Two
  walks decide that, and they can disagree: `WholeRequests.AnswerIsLostToRepetition`,
  `WholeRequests.RepeatedSeatWitness`.
- internal/config/config.go:680-682 makes a role's semantics a load-time guarantee. The locality of an entry's
  fallbacks is not checked when the entry has its own backend, and a discovered id is judged by the source
  of the longest matching prefix while any source with a matching prefix may adopt it:
  `Soundness.LocalityHoldsForGood`, `Soundness.LocalityGap`, `Soundness.NestedPrefixGap`. Nor are the
  capabilities of a listed entry's fallbacks checked anywhere: `Soundness.CapabilitiesHoldExactly`,
  `Soundness.CapabilityGap`. The endpoint family holds without exception: `Soundness.RoleKeepsClass`.
- README.md:107-113 answers 503 when a compliant candidate is merely down. For a chain a provider that is not
  in this mode at all has the same effect: `Resolution.ChainRefusedExactly`,
  `WholeRequests.MissingProviderWitness`.
- internal/router/dashboard_events.go:49-51 calls duplicates harmless. For the open requests they are; the
  ring can lose an event out of turn when events are not published in time order:
  `Peers.MirrorRingStaysTailExactly`, `Peers.RingGapWitness`.
- internal/router/reqlog/series.go:142-145 drops what lies before the grid, except for what lies less than one
  bucket before it: `Series.OnGridExactly`, `Series.EarlyPointWitness`.

## Model

| member | source | states |
|---|---|---|
| Seats.AvailableFromPollIsEarned | internal/health/tracker.go:627-641 | in every interleaving of polls, outstanding probes, demotions and traffic, a probed seat called available on the poll's word has been through warming and since it last entered it served a request or had a probe launched in that same warm-up come back good |
| Seats.ConfirmedIsEarned | internal/health/tracker.go:508-518 | a confirmation always traces back to such a witness, at every point of every run |
| Seats.ConfirmedExactly | internal/health/tracker.go:623-641 | in every run a probed seat is confirmed exactly if, since it last entered warming, it served a request or had a probe launched in that warm-up come back good; neither a report about an unknown model nor a superseded result counts |
| Seats.WarmsExactly | internal/health/tracker.go:508-518 | a seat enters warming, and takes the next number, exactly when a poll finds it up that did not have it up before, or when it fails the way a loading model does and was confirmed or had no failure on record |
| Seats.VoidedByLoading | internal/health/tracker.go:671-684 | after either of these nothing it did before counts |
| Verdicts.VerdictIsTheLogs | internal/health/tracker.go:783-828 | in every run the answer is a function of the log: the breaker first, then a poll that condemns, then the listing, then a poll that found the seat up, with a probed seat held back until it earned it; unknown before the first round is over, assumed up after it |
| Verdicts.AvailableFromPollExactly | internal/health/tracker.go:805-828 | a probed seat is available on the poll's word exactly if its breaker is closed, its last polls do not condemn it, one found it up, the listing does not deny it, and it earned it in its present warm-up |
| Verdicts.PollIsSeen | internal/health/tracker.go:478-507 | the poll's state is what the log says of it |
| Verdicts.LoadingSeatIsHeldBack | internal/health/tracker.go:671-684 | right after failing the way a loading model does no probed seat is available on the poll's word |
| Verdicts.OnlyUnearnedAreProbed | internal/health/tracker.go:538-560 | probes go only to probed seats a poll found up, not condemned, that have not earned their keep |
| Verdicts.RetryAfterIsKept | internal/health/tracker.go:706-750 | a counted failure with a Retry-After opens the breaker at once, for as long as asked up to the limit |
| Seats.SupersededResultIsDropped | internal/health/tracker.go:623-631 | the result of a probe launched before the seat last entered warming changes nothing, however late it lands |
| Seats.JobsWereLaunched | internal/health/tracker.go:521-527 | every sequence number a probe can report under was the seat's number at an actual launch |
| Seats.SeqGrows | internal/health/tracker.go:511-518 | sequence numbers never go back |
| Seats.UnconfirmedIsNotRoutable | internal/health/tracker.go:805-828 | a listed, unconfirmed seat is held back from routing unless its breaker speaks for it |
| Seats.PollHysteresis | internal/health/tracker.go:478-507 | the poll calls a seat unavailable exactly when its last observations, at least DownAfter of them, all failed; one success forgives |
| Seats.DueAfterFailedProbe | internal/health/tracker.go:656-661 | after a failed probe of the current warm-up the seat is due again exactly from 5 s doubled per earlier failure on, capped at 60 s |
| Seats.NeverParkedForLong | internal/health/tracker.go:541-560 | in every run an unconfirmed listed seat is due exactly when no probe failed since it entered warming, or once 5 s doubled per failed probe after the first, capped at 60 s, have passed since the last failed probe, whatever else happened in between |
| Seats.ScheduleRefinesLog | internal/health/tracker.go:656-661 | in every run the schedule is what the log says: failures counted since the last entry into warming, the next probe at the last failed one plus the backoff for that count, unset exactly when none failed |
| Seats.LastFailureIs | internal/health/tracker.go:508-518 | that last failed probe is one with none later and no new warm-up after it |
| ProbeBackoffs.BackoffIsCappedDoubling | internal/health/genprobe.go:42-56 | for every failure count the 64-bit shift, wrapped or not, yields exactly min(60 s, 5 s * 2^(n-1)) |
| ProbeBackoffs.BackoffRange | internal/health/genprobe.go:47-56 | never negative, never over the cap, at least the base from the first failure on |
| ProbeBackoffs.LargeShift | internal/health/genprobe.go:51-54 | from 27 doublings on the wrapped value is over the cap or not positive, so the cap applies |
| Breakers.BreakerRefinesLog | internal/health/tracker.go:685-774 | the breaker's fields say what the event log says: open since exactly the latest opening without a later success, half-open exactly while a trial is out, counting exactly the failures since the last success |
| Breakers.DeniesExactly | internal/health/tracker.go:793-801 | the verdict denies on the breaker's account exactly from an opening until its own cooldown is over, unless a success came first |
| Breakers.ClosedMeansBelowLimit | internal/health/tracker.go:706-712 | a closed breaker has seen fewer counted failures than BreakerTrip since the last success |
| Breakers.PlainFailureNeverExtends | internal/health/tracker.go:706-712 | a failure without a Retry-After of its own while denying leaves the opening and its end as they were |
| Breakers.FailedTrialReopens | internal/health/tracker.go:706-716 | a counted failure while a trial is out starts a fresh cooldown at once |
| Breakers.CooldownBounded | internal/health/tracker.go:727-750 | no cooldown outlasts the larger of BreakerCooldown and MaxRetryAfter, whatever Retry-After (section 10.2.3 of RFC 9110) asked for |
| Breakers.OneTrialIffOneQuery | internal/health/tracker.go:795-805 | an opening keeps the documented promise of a single trial exactly when it is not asked twice between the end of its cooldown and the report that ends it, whatever else happens meanwhile |
| Breakers.EveryQueryIsATrial | internal/health/tracker.go:803-805 | for as long as an opening stands, with any other events in between, the trials it admits are exactly the queries made once its cooldown is over |
| Breakers.StandsWithoutReport | internal/health/tracker.go:706-716 | an opening stands until a success or a counted failure is reported |
| Breakers.AdmitsIsVerdict | internal/health/tracker.go:795-805 | a trial by the log is a query the seat itself answers with available on the breaker's account |
| Breakers.TwoTrialsWitness | internal/health/tracker.go:803-805 | a run of three failures and two later queries in which both are let through |
| ModelStates.ModelState.EnterWarming | internal/health/tracker.go:508-518 | voids the confirmation, takes the next number, clears the probe bookkeeping |
| ModelStates.ModelState.ApplyObservation | internal/health/tracker.go:478-507 | the record follows the seat machine on an observation |
| ModelStates.ModelState.FoldProbe | internal/health/tracker.go:623-669 | the record follows the seat machine on a probe result, whose every confirmation and every withheld one `Seats.ConfirmedExactly` pins |
| ModelStates.ModelState.FoldFailure | internal/health/tracker.go:671-725 | the record follows the seat machine on a failure, loading shape or breaker |
| ModelStates.ModelState.FoldSuccess | internal/health/tracker.go:752-774 | the record follows the seat machine on a success |
| ModelStates.ModelState.Answer | internal/health/tracker.go:783-828 | the verdict in the original's order of precedence, and the half-open mark it leaves |
| Trackers.Recorded | internal/health/tracker.go:217-242 | an event that moves the models it concerns as the seat machine does, and no others, keeps every model in step with its own part of the common log |
| Trackers.Tracker.StateFor | internal/health/tracker.go:461-475 | a record per model, its own, created on first sight and probed exactly if the switch is on, the registry says so and the filter, if there is one, has it |
| Trackers.Tracker.ApplyObservation | internal/health/tracker.go:478-507 | moves exactly the observed model, logs it, keeps the whole tracker equal to the log |
| Trackers.Tracker.DueProbes | internal/health/tracker.go:538-560 | exactly the models that are listed, unconfirmed and past their backoff, each with its current number |
| Trackers.Tracker.ApplyProbeResult | internal/health/tracker.go:623-669 | folds one outstanding result into its model alone, and nothing into a model without a record; the tracker stays equal to its log, so a good result of the current warm-up brings the seat up (`Verdicts.AvailableFromPollExactly`) |
| Trackers.Tracker.ReportFailure | internal/health/tracker.go:685-725 | moves exactly the failed model, creating its record if need be |
| Trackers.Tracker.ReportSuccess | internal/health/tracker.go:754-774 | moves exactly the served model; an unknown model leaves no trace |
| Trackers.Tracker.SetAbsent | internal/health/inventory.go:450-466 | the listing verdict changes that flag of that model and nothing else |
| Trackers.Tracker.State | internal/health/tracker.go:776-828 | the running tracker's verdict is the log's, for the log of everything that happened to all models: in particular "available, says the poll" was earned and "unavailable, says the breaker" is what the log says |
| Trackers.VerdictIsLogged | internal/health/tracker.go:783-828 | the same for any tracker in step with its log |
| Trackers.Tracker.EndRound | internal/health/tracker.go:370-378 | every result of the round folded in, in order, then the first-round flag |
| Resolution.EffectiveTier | internal/router/privacy.go:112-129 | the stricter of the role's declared tolerance and the caller's |
| Resolution.PrivacyDemandFor | internal/router/scope.go:62-89 | an unrecognised header is refused whatever the token may do; otherwise the stricter of header and scope binds, the fleet exactly if one of them says so and nothing exactly if neither says anything, and the scope answers for it when at least as strict |
| Candidates.RoleOrder | internal/router/roles.go:70-84 | candidates, then the overflow list only if the role opted into overflowing |
| Candidates.RoleListSays | internal/router/roles.go:70-84 | place by place: the candidates as preferred, then, if the role opted in, the overflow list |
| Candidates.ExpandChains | internal/router/roles.go:86-109 | each chain replaced in place by its providers, under its label and its overflow mark |
| Candidates.ExpansionSays | internal/router/roles.go:93-109 | what a chain is replaced by: the entry itself first if it has a backend, then its fallbacks as declared, all under its label and mark; any other candidate stays |
| Candidates.ExpandedAppends | internal/router/roles.go:93-109 | the expansions come one after the other, in the order of the list |
| Candidates.ExpandedMembers | internal/router/roles.go:93-109 | what is reachable through the expansion does not depend on the order of the list |
| Resolution.WalkRole | internal/router/roles.go:128-196 | stops at the first admitted candidate; otherwise its two lists hold exactly the candidates policy excludes and those something else can be said of |
| Resolution.AdmittedExactly | internal/router/roles.go:147-186 | in the terms of an entry's own fields, when the walk lets a candidate in: listed, routable, placed, on the fleet or held to zero retention as the tier asks, capable, and at most a quarter over its window |
| Resolution.DownshiftSays | internal/router/roles.go:170-178 | the downshift note names the first candidate its size kept out, and nobody if there is none |
| Resolution.TooSmallExactly | internal/router/roles.go:166-178 | its size alone: with nothing to measure it would be let in |
| Resolution.ResolveRole | internal/router/roles.go:112-218 | the first admitted candidate of the walked order is served; served iff anything is admitted; refused on policy iff policy alone rules out the declared list, which does not mention availability, size, load or order; and the refusal lists exactly the excluded candidates |
| Resolution.RoleRefusedExactly | internal/router/roles.go:199-208 | a role is refused on policy exactly if some candidate there is falls short of the tier, all there are do, and none of the rest lies under a discovery prefix |
| Resolution.ResolveChain | internal/router/resolve.go:244-294 | the first admitted provider under the caller's tier; refused on policy iff policy alone rules the chain out |
| Resolution.ChainOrderSays | internal/router/resolve.go:252-258 | a chain named by itself is walked in that same order |
| Resolution.ChainRefusedExactly | internal/router/resolve.go:262-293 | a chain is refused on policy exactly if policy rules out every one of its providers; one this mode does not have turns the refusal into an outage |
| WholeRequests.MissingProviderWitness | internal/router/resolve.go:263-267 | a chain all of whose known providers are ruled out and which nothing can ever serve: every answer to it is an outage because of a missing provider, and a refusal without that one |
| Resolution.OrderDoesNotMatter | internal/router/roles.go:206-208 | neither the policy verdict nor whether anything is admitted depends on the order of the candidates |
| Resolution.RefusalIsPermanent | internal/router/roles.go:199-208 | under a policy refusal nothing is admitted whatever is up and whatever the size: no retry helps |
| Resolution.TighterAdmitsLess | internal/router/privacy.go:131-159 | tightening the tier only takes seats away |
| Resolution.TighterStaysRefused | internal/router/privacy.go:131-159 | a policy refusal under a looser tier is one under every tighter tier |
| Resolution.NextRoleCandidate | internal/router/roles.go:220-257 | walks the untried tail under the tier, size and role of the first walk |
| Resolution.NextIsFirst | internal/router/roles.go:223-257 | the seat it picks is the first admitted one of the tail, keeps tier, size and role, takes its own chain label, and leaves exactly the rest untried |
| Resolution.NextExists | internal/router/roles.go:223-257 | there is a next seat iff the tail holds an admitted one |
| Resolution.ResolveModel | internal/router/resolve.go:82-155 | a concrete name beats a role, a role an alias, and an alias a base with an egress; an entry without fallbacks is answered by itself with nobody to fail over to, one with fallbacks by its chain, a role by the role walk, and an unknown name by nothing |
| Resolution.NamedAnswerSays | internal/router/resolve.go:129-143 | an entry without fallbacks is answered under the alias used, with no role, chain or tier of a walk and nobody to fail over to, exactly if it has an address |
| Resolution.ResolveEgress | internal/router/resolve.go:190-207 | the name is cut at the last hyphen whose base is answered by a seat behind the tool proxy; every later cut was tried and declined |
| Resolution.ResolveBase | internal/router/resolve.go:208-228 | the base is read like a name, except that an entry stands for itself alone |
| Resolution.ChainLabels | internal/router/resolve.go:252-258 | every provider a chain is tried on carries the chain's label, its own entry included, so it fails over like one |
| Resolution.LookupConcrete | internal/router/resolve.go:158-176 | an active key first, then a repository name, then a discovered entry by its full id |
| Resolution.ReadsExactly | internal/router/resolve.go:128-150 | how a name is read, in the terms of the entries: a key, a repository with or without its variant, or a discovered id; else a role; else an alias; each exactly if there is one |
| Failover.SetZdrDirective | internal/router/privacy.go:223-245 | on success the provider is an object that says zero retention, whatever stood there, and every other key of body and provider is the caller's; it fails exactly on a provider that is neither absent, null nor an object |
| Failover.EveryDispatchCarries | internal/router/privacy.go:203-245 | over every run: each dispatch carries its own seat's name, everything the caller said outside objects, and the seat's defaults where the caller left them unsaid; and under a tier each dispatch to a seat off the fleet says zero retention |
| Failover.DefaultsExact | internal/config/request_defaults.go:36-62 | the defaults a dispatch is filled with, value by value: the model's; under an alias that overrides them the alias's own, its shorthand, then the model's |
| Failover.ViaToolProxyRules | internal/router/resolve.go:296-330 | the tool proxy is used as the endpoint, then the alias, then the entry say |
| Failover.StoppedExactly | internal/router/privacy.go:203-233 | the gate stops an attempt exactly if it is held to a tier and its seat is gone, does not pass, or is off the fleet with a provider that can carry no directive |
| Failover.PrepareBody | internal/router/router.go:553-584 | what one attempt sends, what it leaves of the caller's body, and exactly when and why the gate stops it |
| Failover.TryUpstream | internal/router/router.go:597-637 | a retryable answer is suppressed iff another seat could take the request; the request moves on iff it failed with nothing written, attempts left and a seat still there |
| Failover.HandleAttempts | internal/router/router.go:553-669 | the retry loop is the attempt-by-attempt run its other theorems speak of; a model named directly is held to the caller's tier on every attempt, so below it the request is refused and nothing sent; and behind a walk at least as strict as the caller every dispatch is one the caller's tier allows |
| Failover.CallerKept | internal/router/router.go:544-552 | that of every run, be its seat named or walked to |
| Failover.NamedBelowTierIsRefused | internal/router/router.go:544-552 | a named model below the caller's tier ends in that refusal with an empty log |
| Failover.RunSays | internal/router/router.go:597-669 | every attempt of every run: its answer was held back exactly while the order had another admitted seat; it went on exactly if nothing reached the client, attempts were left and there was one still; else the client got the answer, what was cut off, or a gateway error; and when the tracker heard of a failure |
| Failover.RunIsSafe | internal/router/router.go:553-684 | at most three dispatches, at strictly increasing positions of the candidate order, each to a seat that passes the tier at the gate, and on from a seat only while nothing reached the client, its failure reported |
| Failover.RoleRequestIsTierSafe | internal/router/router.go:539-669 | from resolution to the last attempt every dispatch of a role request goes to a seat passing the stricter of role and caller tier |
| Failover.RoleRequestStaysInside | internal/router/router.go:539-669 | in the terms of the entries: every dispatch for a role that tolerates zero retention only, or for a caller who asks for it, goes to the fleet or to a host held to it; one for a caller who asks for the fleet stays there |
| Failover.ChainRequestIsTierSafe | internal/router/router.go:539-669 | the same for a chain under the caller's tier |
| Failover.WalkedIsNeverBelowTier | internal/router/privacy.go:207-212 | the dispatch-time gate never refuses a walked request for its tier, so it can only do that to a directly named model |
| Failover.NamedModelStaysPut | internal/router/router.go:539-541 | a directly named model is tried once and never replaced |
| Failover.RunIsFaithful | internal/router/router.go:554-561 | every dispatch sends the body it found with its own seat's defaults, name and directive |
| Failover.AttemptsAreIndependent | internal/router/router.go:554-561 | an attempt sends what it would have sent first, iff no directive was written into the caller's own provider object before it, or it gets the directive itself, or its provider says zero retention anyway |
| Failover.FillThenDirect | internal/router/privacy.go:235-245 | filling defaults into a body that already carries the directive is the same as adding the directive afterwards |
| Failover.SpoiledWitness | internal/router/privacy.go:239-240 | a body and two seats for which the second attempt sends a directive written for the first |
| Failover.AnswerIsLostExactly | internal/router/router.go:597-637 | the client gets a gateway error in place of an upstream's own answer exactly when that answer was retryable and the look ahead and the walk after it disagreed |
| Failover.DistinctSeatsAgree | internal/router/router.go:597-637 | they agree when the failure takes out only the failed seat and the tail does not hold it again |
| Failover.RepeatedSeatDisagrees | internal/router/router.go:597-637 | when a report takes out the failed seat at most, the two walks disagree exactly if it was taken out and is all its own tail still had to offer |
| WholeRequests.AnswerIsLostToRepetition | internal/router/router.go:597-637 | over a whole run: an answer is lost exactly when it was retryable, attempts were left, the seat was taken out by its own failure, and that seat was all the rest of the order had to offer |
| WholeRequests.DistinctOrderKeepsAnswers | internal/router/router.go:597-637 | with every seat once in the order no run loses an answer |
| WholeRequests.ReportTakesOutAtMost | internal/health/tracker.go:685-725 | a failure reported to the tracker takes the failed seat out of what can be routed to, or nothing |
| WholeRequests.RepeatedSeatWitness | internal/router/router.go:597-641 | a role that lists a seat and a chain of that seat: a 429 with a Retry-After ends in a gateway error in place of the answer |
| WholeRequests.TwiceIsValid | internal/config/config.go:680-765 | load time accepts that role |
| WholeRequests.SpoiledRunWitness | internal/router/privacy.go:239-240 | a whole run: the cloud fails, the fleet answers, and its body carries the directive put on for the cloud |
| WholeRequests.MixedIsBound | internal/router/roles.go:128-196 | load time accepts that role and its first walk binds to the cloud with the fleet left to try |
| Pressures.CandidateRanks | internal/router/pressure.go:193-220 | each candidate its declared index, or its group's smallest |
| Pressures.GroupSharesRank | internal/router/pressure.go:203-218 | the members of a balance group share the group's smallest declared index |
| Pressures.UngroupedKeepsRank | internal/router/pressure.go:196-202 | a candidate in no group keeps its own |
| Pressures.SortStable | internal/router/pressure.go:147-154 | the same entries, ordered by rank, then load, then declaration |
| Pressures.ApplyRankOverride | internal/router/pressure.go:162-191 | moves at most one entry to the front, the first idle routable one of a lower rank on the same side of the locality boundary, and only past a jammed routable head |
| Pressures.PromotedExactly | internal/router/pressure.go:162-191 | it moves one exactly if the routable head has a load of three or more and some routable seat of a lower rank on its side has at most one |
| Pressures.OrderByPressure | internal/router/pressure.go:114-160 | a permutation of the list: that sort, then that one promotion |
| Pressures.BalancedOrder | internal/router/pressure.go:114-154 | with distinct ids: overflow stays behind the candidates as declared, ranks stay in order, and within a rank the routable come first by ascending load, ties and the unroutable as declared |
| Pressures.FinalOrder | internal/router/pressure.go:155-191 | after the promotion too no overflow goes before a candidate, and all but the promoted entry stay in that order |
| Pressures.PressureTracker.AddInflight | internal/router/pressure.go:59-63 | one more in flight for that model alone, which raises its load by one unless its agent reports more |
| Pressures.PressureTracker.DoneInflight | internal/router/pressure.go:65-71 | one fewer, never below zero, which lowers its load by one unless its agent reports as many |
| Pressures.PressureTracker.MarkServed | internal/router/pressure.go:73-79 | the time of the last success of that model alone, which lowers its load by one for the length of the window |
| Pressures.BucketCounts | internal/router/pressure.go:101-113 | a GPU counts for as many as it reaches of the thresholds, and for none if it does not report |
| Registries.ModelsForMode | internal/config/config.go:1034-1057 | exactly the enabled entries without a mode tag or with this one |
| Registries.InModeExactly | internal/config/config.go:1034-1057 | enabled, and the first tag that names a mode, if there is one, names this mode or none |
| Registries.RolesForMode | internal/config/config.go:1059-1115 | every list filtered in order to what the mode can route, groups to what is left of their candidates, roles with nothing left dropped |
| Registries.SurvivorsAre | internal/config/config.go:1071-1085 | kept are exactly the active entries and the ids that are no entries but lie under a discovery prefix |
| Registries.RoleInMode | internal/config/config.go:1059-1115 | a role is offered exactly if one of its ids is kept; its candidates and overflow are the kept ids in their order of preference, its groups what is left of them, in order, and everything else is as configured |
| Registries.EntryClaimsExactly | internal/config/discovery.go:231-289 | a discovered entry claims text, what its listing says and what its source vouches for, and nothing else; it is marked discovered, and paid unless priced at zero; it stands for the listed id at the source's address and retention, with the listed window or else the source's |
| Registries.DiscoveredMember | internal/config/discovery.go:359-376 | the source with the longest matching prefix, the earliest of equals, and the rest of the id; none exactly if no prefix matches |
| Validation.ValidateFallbacks | internal/config/config.go:899-923 | reports exactly the faults of the chain: itself, unknown, nested, of another class |
| Validation.ZdrTolerable | internal/config/config.go:806-838 | local, enforceable, or a pure chain of which every member is |
| Validation.RoleMemberErrs | internal/config/config.go:767-804 | reports exactly the faults of one member, a discovered one judged by what its source promises |
| Validation.ValidateRole | internal/config/config.go:680-765 | reports exactly the faults of a role, so an empty report is the whole contract |
| Validation.GroupErrs | internal/config/config.go:749-762 | outsiders and repeats in the balance groups, exactly |
| Soundness.RoleKeepsClass | internal/config/config.go:767-804 | in a validated registry every seat reachable from a role with a required class has it: candidates, overflow, chain providers, discovered members, at any failover and whatever discovery did meanwhile |
| WholeRequests.RoleRequestKeepsClass | internal/router/router.go:512-669 | every dispatch of a role request in a validated registry goes to a seat of the required class, from resolution through every failover, whatever discovery adopts or drops meanwhile |
| WholeRequests.RunKeepsClass | internal/router/roles.go:223-257 | so does every run from a seat of the class on |
| Soundness.LinkClass | internal/config/config.go:903-923 | the links of a validated chain are entries of the registry, flat, and of the chain's class |
| Soundness.LocalityHoldsExactly | internal/config/config.go:783-797 | a validated role keeps its locality on everything it can reach under a catalog exactly if no entry it lists has a fallback that breaks it and no id it lists was adopted from a source that breaks it |
| Soundness.LocalityHoldsForGood | internal/config/config.go:783-797 | it does so under every catalog discovery may ever produce exactly if no listed entry has such a fallback and every source that may adopt a listed id keeps the locality: a check on the configuration alone |
| Soundness.DiscoveryKeepsExactly | internal/config/discovery.go:326-376 | what discovery may ever adopt keeps the locality exactly if every source that may adopt a listed id does |
| Soundness.AttributedHoldsExactly | internal/config/config.go:783-797 | when every discovered entry comes from the source its id names by longest prefix, the fallbacks alone decide |
| Soundness.PrefixFreeAttributes | internal/config/discovery.go:326-332 | with prefixes of which none starts another every catalog is of that kind |
| Soundness.NestedPrefixGap | internal/config/discovery.go:359-376 | a registry with nested prefixes that validates, in which no fallback is involved and a role that tolerates zero retention only reaches a seat that cannot be held to it |
| Soundness.LocalityGap | internal/config/config.go:786-796 | a registry that validates and whose local role reaches the cloud |
| Soundness.CapabilitiesHoldExactly | internal/config/config.go:767-804 | a validated role only ever admits seats with the capabilities it requires, whatever is up, whatever the tier and the size, exactly if no entry it lists has a fallback that lacks one and is not marked as discovered: load time asks the listed entries, the walk asks the discovered ones, nobody asks the other fallbacks |
| Soundness.CapabilityGap | internal/config/config.go:798-802 | a registry that validates and whose role requires vision and can be served by a seat without |
| Soundness.MemberVouched | internal/config/config.go:798-802 | what load time lets a role list has the capabilities, or carries the mark that makes the walk ask |
| Soundness.InventoryIsPossible | internal/health/inventory.go:468-488 | what the inventory has adopted always satisfies what those theorems ask of a catalog |
| Inventories.AdoptListed | internal/health/inventory.go:468-488 | every offered id adopted or refreshed, nothing else touched |
| Inventories.CountMisses | internal/health/inventory.go:489-505 | the source's entries not listed any more miss once more and are gone at the limit, nothing else touched |
| Inventories.Inventory.DueInventory | internal/health/inventory.go:355-377 | exactly the idle bases past the interval, each then with one fetch under way and tried as of now; the others untouched |
| Inventories.Inventory.ForgetAttempts | internal/health/inventory.go:405-412 | a refresh makes every idle base due and disturbs none in flight |
| Inventories.Inventory.ApplyInventory | internal/health/inventory.go:418-507 | keeps: at most one fetch per base; the last good listing survives failures; a member is absent exactly if the last good listing lacks its served name; adopted entries are exactly those the history of good listings leaves, never under a reserved name and never served there already |
| Inventories.JudgeMembers | internal/health/inventory.go:450-466 | the verdict on exactly this base's members |
| ListingVerdicts.JudgeSeats | internal/health/inventory.go:450-466 | the same verdict in the tracker's own records: their absent flags are judged by the listing exactly so, and nothing else of any record moves |
| ListingVerdicts.SameVerdicts | internal/health/inventory.go:450-466 | flags and set that agreed before a listing agree after it |
| Inventories.AdoptedExactly | internal/health/inventory.go:468-505 | with one adopter per name, a name is adopted exactly if one of the last two good listings of a base offered it, and its definition is of the newest that did: retired at its second omission in a row, not before |
| Inventories.LivingIsAllowed | internal/health/inventory.go:468-488 | no history adopts against the configuration: a source's prefix begins the name, the rest is an id that source adopts, does not exclude and nobody serves there, and the name is no entry, role or alias |
| Inventories.TracksStep | internal/health/inventory.go:468-505 | one listing takes a name that one source alone can adopt exactly one listing further |
| Inventories.LifeCycleExactly | internal/health/inventory.go:468-505 | under every history of listings the adopted entries are what the listings of their bases say, exactly if no name can be adopted from two sources |
| Inventories.TwoAdoptersClash | internal/health/inventory.go:468-488 | for a name two sources can adopt, two listings after which the entry cannot be what both say |
| Inventories.PrefixFreeIsEnough | internal/config/discovery.go:326-332 | prefixes of which none starts another leave one adopter per name |
| Inventories.JudgeSources | internal/health/inventory.go:468-505 | every source of the base takes the listing in, in order, name by name |
| Inventories.SafeStep | internal/health/inventory.go:468-480 | whatever the prefixes, adoption never takes a reserved name or an id served there |
| ContentGates.ContentGate.Push | internal/toolproxy/stream.go:122-140 | after any delta what was forwarded and what is held are those of the gate as a function, and settled for the text so far: all before the first tag is forwarded and the rest captured, or without a tag the longest suffix that may become one is held |
| ContentGates.ChunkingNeverMatters | internal/toolproxy/stream.go:115-151 | two gates fed the same text in different deltas have forwarded the same and hold the same |
| ContentGates.AllThroughSettles | internal/toolproxy/stream.go:115-151 | for every split of a text into deltas: if the tag first occurs at i, forwarded is the text before i and captured the rest; otherwise held back is the longest suffix that is a proper prefix of the tag |
| ContentGates.PushAll | internal/toolproxy/stream.go:115-140 | a gate object fed delta by delta ends where that function says |
| ContentGates.TagPrefixSuffix | internal/toolproxy/stream.go:142-151 | the longest suffix that is a proper prefix of the tag |
| ContentGates.SettledIsFunctional | internal/toolproxy/stream.go:115-140 | that outcome is unique |
| ContentGates.SettledExists | internal/toolproxy/stream.go:115-140 | and exists for every text |
| StreamRounds.StreamRound | internal/toolproxy/stream.go:200-320 | the client gets the text before the first tag, in order, with all the reasoning; the rest is held; calls, finish reason and usage are those of the chunks; a read error leaves a gate's output for the text so far |
| StreamRounds.MergeCallDeltas | internal/toolproxy/stream.go:254-267 | fragments of one index joined in order, the last id and name winning |
| StreamRounds.FinishCalls | internal/toolproxy/stream.go:299-318 | named calls in index order, with an id and arguments made up where missing |
| StreamRounds.CallsAreFunctional | internal/toolproxy/stream.go:299-318 | the calls of a round are determined by its chunks |
| StreamRounds.CallsExactly | internal/toolproxy/stream.go:299-318 | the calls are those of the named indices in ascending order, with id and arguments as the deltas say them and made up only where they say nothing |
| StreamRounds.FragmentsRejoin | internal/toolproxy/stream.go:254-267 | a call cut into deltas anyhow, and interleaved with others anyhow, is merged back into that call |
| StreamRounds.RoundIsFunctional | internal/toolproxy/stream.go:200-320 | the lines of a stream decide its round |
| StreamRounds.EitherNameIsRelayed | internal/toolproxy/stream.go:229-237 | a backend that names its reasoning in one way only has all of it relayed, in order |
| StreamRounds.TerminalsInOrder | internal/toolproxy/stream.go:264-285 | kept for the end, in order, are exactly the chunks with usage, with timings or with a reason to finish |
| ToolLoops.RunToolLoopStreaming | internal/toolproxy/stream.go:350-462 | at most maxToolRounds rounds, each the backend's answer to the conversation so far; no tool runs in a round with a client-owned call; delivered text, usage and counts are those of the rounds; every ending frame by frame; a run fails only on the backend's own failure in the next round, and what it had delivered by then is exact |
| ToolLoops.EndsExactly | internal/toolproxy/stream.go:380-462 | how a run ends is told by the answer to the conversation of the executed rounds: failed exactly if that answer is a refusal, or a stream that broke before its end marker, with that error; out of rounds exactly if none was left; handed back exactly if a call is the client's; final otherwise |
| ToolLoops.EmptyExactly | internal/toolproxy/stream.go:404-417 | an empty answer is reported exactly if the last round calls nothing, its cleaned content is blank and no round delivered a character |
| ToolLoops.RunIsDetermined | internal/toolproxy/stream.go:351-462 | two runs on one conversation are the same run and show the client the same text: nothing about a run is left open |
| ToolLoops.FailedRunDelivers | internal/toolproxy/stream.go:357-363 | the client of a failed run got all that its rounds delivered, of a broken stream exactly what a gate lets through of the text so far with its reasoning, then the error and the end marker |
| ToolLoops.ExecuteProxyCalls | internal/toolproxy/loop.go:190-212 | one result per call, in call order, failures counted and told to the model |
| ToolLoops.StatsSay | internal/toolproxy/loop.go:48-62 | the counts of a run are the calls made and failed, and the failure kept is the very first of all rounds |
| ToolLoops.ConversationIsAnswered | internal/toolproxy/loop.go:193-212 | every recorded tool-call turn is followed by one result per call, in call order |
| ToolLoops.ConversationSays | internal/toolproxy/loop.go:190-212 | the conversation message by message: what was given; then per round its cleaned text with its calls, structured before textual, and for each call in order its id and what the tool returned for it |
| ToolLoops.RunIsAnswered | internal/toolproxy/stream.go:447-449 | so is every turn of every run, with the tool's own output, and nothing else is recorded |
| ToolLoops.RoundDelivery | internal/toolproxy/stream.go:391-400 | a round without calls delivers all of its text; one with a textual call exactly the text before the first tag |
| ToolLoops.UsageIsSummed | internal/toolproxy/stream.go:333-348 | reported counts are the sums over the rounds that reported any |
| ToolLoops.RateIsLast | internal/toolproxy/stream.go:346-347 | the rate is that of the last round to report one |
| ToolLoops.FinishStream | internal/toolproxy/stream.go:464-484 | the last round's closing chunks with the summed usage, then the end marker |
| ToolLoops.FinishReportsTotal | internal/toolproxy/stream.go:467-484 | every usage the client is shown at the end is the total, and it is shown if there is any |
| ToolLoops.TerminalsReportNothingNew | internal/toolproxy/stream.go:322-331 | without reported usage in the round, no replayed chunk reports any |
| ToolLoops.TerminalsKeepTheEnd | internal/toolproxy/stream.go:320-331 | the replayed chunks give the finish reason and the usage of the whole round and carry no text, no reasoning and no call |
| Events.Subscriber.Offer | internal/router/events.go:129-135 | never blocks: queued or counted as dropped; queued plus taken plus dropped is what was offered |
| Events.Broker.Publish | internal/router/events.go:105-137 | ring and every subscriber take exactly this event, stamped where it was not; a start opens its request with it, a finish closes it, and nothing else of what is open moves |
| Events.OpenExactly | internal/router/events.go:120-127 | over any log a request is open exactly if the last event to start or finish it starts it, and what is kept is that event |
| Events.Broker.Write | internal/router/events.go:115-119 | the ring holds the last events up to its size, oldest first |
| Events.Broker.Reset | internal/router/events.go:161-188 | replaced wholesale by the snapshot, no subscriber told |
| Events.ByRequestExactly | internal/router/events.go:180-187 | of a snapshot's open requests each is there exactly if the list names it, by the last event to do so |
| Events.Broker.ClearInFlight | internal/router/events.go:190-197 | forgets the open requests, keeps the ring |
| Events.Broker.Replay | internal/router/events.go:211-222 | the ring's contents, oldest first |
| Events.Broker.InFlight | internal/router/events.go:224-240 | each open request once, oldest first, enough to rebuild the set |
| Events.SortByTime | internal/router/events.go:234-238 | a permutation in time order |
| Peers.KeepOwn | internal/router/peers.go:375-394 | the peer's own events in order, unnamed ones under its name, second-hand ones dropped |
| Peers.OwnExactly | internal/router/peers.go:375-394 | kept are exactly the events that do not name another replica, in order, each under the peer's name and otherwise as it came |
| Peers.ApplyFrame | internal/router/peers.go:345-373 | a snapshot replaces, an event is published, an unknown frame is ignored |
| Peers.CatchUp | internal/router/dashboard_events.go:49-53 | a set of open requests taken anywhere after the subscription, with everything since the subscription replayed over it, ends where the source is |
| Peers.ReachedKeeps | internal/router/dashboard_events.go:49-109 | in every interleaving of publishing, subscribing, listing, snapshot, sending, delivery and breaks, with no drops queue, wire and mirror together are the source's log |
| Peers.MirrorConverges | internal/router/peers.go:345-373 | past the listing the mirror's open requests are the source's as of the last event delivered, whatever earlier connections lost |
| Peers.CaughtUpIsEqual | internal/router/peers.go:345-373 | with nothing on the way that is the source's present |
| Peers.MirrorShowsOpen | internal/router/peers.go:345-373 | so a mirror that has caught up shows a request open exactly if the last thing the source published about it was its start, and shows that event |
| Peers.NothingUnaccounted | internal/router/events.go:129-135 | sent plus queued plus dropped is what was published since the subscription |
| Peers.MirrorRingIsTail | internal/router/dashboard_events.go:62-78 | past the point where the ring was read, a mirror's ring that holds no overtaken event is, as a set, a gap-free tail of the source's log, in every interleaving |
| Peers.MirrorRingStaysTailExactly | internal/router/dashboard_events.go:62-78 | for distinct events, along a connection without drops that replaces the whole ring: it is a gap-free tail in every world from a given one on exactly when in that one it holds no event from before the subscription that was followed there by one with an earlier time |
| Peers.RingStaysTailExactly | internal/router/dashboard_events.go:62-78 | the same of the positions of one log |
| Peers.OrderedWindowIsEnough | internal/router/dashboard_events.go:66-71 | a ring read in time order has nothing overtaken, however disordered the history before it |
| Peers.ByTimeSorts | internal/router/dashboard_events.go:69-71 | the snapshot's sort is a permutation by time, equal times in publishing order |
| Peers.RecentSize | internal/router/dashboard_events.go:66-76 | a snapshot is the ring, at most its last five hundred by time |
| Peers.RingGapWitness | internal/router/dashboard_events.go:66-76 | a run of the protocol out of time order after which the mirror's ring is no tail of the log at all |
| Peers.BrokerFollowsLog | internal/router/events.go:105-137 | a broker that published these events holds the tail of the log and its open requests |
| Peers.BrokerShowsOpen | internal/router/events.go:105-137 | and its open requests are those whose last start or finish is a start |
| Peers.AnswerIsListing | internal/router/events.go:224-240 | what the broker answers is a listing the protocol allows |
| RequestDefaults.ApplyRequestDefaults | internal/config/request_defaults.go:65-93 | the loop over both maps is the merge on JSON trees |
| RequestDefaults.AppliedRequestDefaultKeys | internal/config/request_defaults.go:95-114 | the loop reports the keys the algebra names |
| RequestDefaults.RequestDefaultsFor | internal/config/request_defaults.go:24-62 | alias level over model level, the shorthand folded in below the alias's own |
| RequestDefaults.LevelsExact | internal/config/request_defaults.go:36-62 | value by value: the alias's own defaults, then what its shorthand says under its one key, then the model's, each speaking only where those above left the path unsaid |
| RequestDefaults.StillOpen | internal/config/request_defaults.go:74-93 | a path is unsaid after a merge exactly if the caller left it unsaid and, from there on, the defaults did |
| RequestDefaults.FillAt | internal/config/request_defaults.go:65-93 | path by path: the caller's value where it has one, the default where the path is open |
| RequestDefaults.LeavesExact | internal/config/request_defaults.go:65-93 | every value of the merge that is no object is the caller's or an unclashing default |
| RequestDefaults.FillIdempotent | internal/config/request_defaults.go:65-93 | applying the same defaults twice is applying them once |
| RequestDefaults.AppliedKeysExact | internal/config/request_defaults.go:95-114 | the reported keys are exactly the top-level keys where the merged body differs |
| RequestDefaults.PrecedenceIsSequentialFill | internal/config/request_defaults.go:32-62 | filling with alias over model defaults is filling with one and then the other exactly if there is no path where body and model hold objects, the alias something else, and the model's object adds to the body's |
| RequestDefaults.SecondApplicationIsNoOp | internal/config/request_defaults.go:74-93 | filling in the model defaults again changes nothing under the same condition, and only under it |
| RequestDefaults.ClashWitness | internal/config/request_defaults.go:79-91 | three trees for which both fail |
| Windows.UpstreamSeries.Note | internal/router/upstreamstats.go:238-275 | the day's ring and the streak stay in step with the full log |
| Windows.UpstreamSeries.Stats | internal/router/upstreamstats.go:290-320 | 24 h and 1 h totals and failures are the counts over the full log in those windows |
| Windows.FailingSinceIsStreakStart | internal/router/upstreamstats.go:261-274 | failing_since is the first failure after the last success, and unset exactly if every failure was followed by one |
| Windows.OneMoreCounts | internal/router/upstreamstats.go:180-190 | every attempt is traffic; the client's own errors and refusals by policy are no failures and neither start nor end a streak, a success ends it, and every other error class is a failure |
| Windows.ReqRateWindow.Hit | internal/router/dashboard.go:651-661 | the ring of sixty seconds stays in step with the full log |
| Windows.ReqRateWindow.PerMinute | internal/router/dashboard.go:663-675 | the requests of the last sixty seconds, as the full log counts them |
| Windows.ScanIsCount | internal/router/upstreamstats.go:295-309 | a scan over stamped cells is the count over the log for every window of at most one turn |
| Windows.CellCounts | internal/router/upstreamstats.go:253-258 | a cell knows exactly its share of such a window |
| Windows.CellsPartition | internal/router/upstreamstats.go:295-309 | every attempt falls into exactly one cell |
| Captures.TailCapture.Read | internal/router/capture.go:72-81 | the buffer is always the last max bytes of the stream |
| Captures.ExtractSseUsage | internal/router/capture.go:159-179 | the last data line (section 9.2 of the WHATWG HTML standard) that says anything about usage |
| Captures.DataLineSays | internal/router/capture.go:163-179 | a data line says what the decoder makes of its payload, whatever space and line end stand around it; the end marker, an empty payload and any other line say nothing |
| Captures.TailUsageIsStreamUsage | internal/router/capture.go:159-179 | usage read off the tail is the usage of the whole stream whenever a line that says something about it starts inside the tail |
| Captures.TailUsageExactly | internal/router/capture.go:159-179 | tail and stream say the same exactly if a line after the one the buffer cuts into says something, or what is left of that one says what the stream up to its end says |
| Captures.SseScanner.Scan | internal/router/anthropic.go:298-312 | handles exactly the lines the chunk completes and keeps the rest unless it has outgrown the cap; lines and usage are those of all chunks so far |
| Captures.SseScanner.HandleLine | internal/router/anthropic.go:314-340 | merges what a start or delta event reports, field by field |
| Captures.FrameSays | internal/router/anthropic.go:314-323 | the same for the scanner, which looks at objects only |
| Captures.UsageIsLastReported | internal/router/anthropic.go:230-243 | each count is the last one reported for it, whatever the lines in between report of the others |
| Captures.ChunkingDoesNotMatter | internal/router/anthropic.go:298-312 | the lines handled are the newline split of the whole stream, however it is cut, exactly as long as every partial line left after a chunk stays within the cap |
| Captures.LongLineDependsOnChunking | internal/router/anthropic.go:303-306 | a line over the cap is handled if it comes whole with its newline and dropped if it does not |
| Captures.SplitAppend | internal/router/anthropic.go:298-312 | splitting goes on from the unterminated piece |
| Series.AssembleSeries | internal/router/reqlog/series.go:106-174 | slot by slot and overall the rows add up to everything on the grid; each total is the sum of its buckets; one row for each key on the grid, kept or folded; the kept ones are the keys' own and come first by requests, then by key |
| Series.TotalsConserved | internal/router/reqlog/series.go:109-174 | rows that add up slot by slot add up overall |
| Series.FoldPoints | internal/router/reqlog/series.go:109-150 | one row per key with a point on the grid, holding exactly its own points, slot by slot |
| Series.SortRows | internal/router/reqlog/series.go:151-160 | the same rows, most requests first and by key among equals |
| Series.RankedIsStrict | internal/router/reqlog/series.go:155-160 | with distinct keys the order leaves no choice |
| Series.RankedSays | internal/router/reqlog/series.go:151-160 | no row has more requests than one before it, and among equals the keys go up in dictionary order |
| Series.FoldOther | internal/router/reqlog/series.go:161-172 | the bucket-wise sum of the rows beyond the limit |
| Series.MeanIsWeighted | internal/router/reqlog/series.go:130-141 | a merged latency is the mean over all requests of both, less than one unit per request off and rounded toward zero |
| Series.MeanInRange | internal/router/reqlog/series.go:130-141 | a merged integer mean stays within the range of what was merged |
| Series.KeyMeanInRange | internal/router/reqlog/series.go:130-148 | so does a key's over any number of points |
| Series.OtherMeanInRange | internal/router/reqlog/series.go:161-172 | and the folded row's |
| Series.OnGridExactly | internal/router/reqlog/series.go:142-146 | which points count, given that the division rounds toward zero: those from one width before the grid on, which for aligned points is the grid itself |
| Series.EarlyPointWitness | internal/router/reqlog/series.go:142-146 | a point before the grid that counts |

## Left out

- Resolution.ResolveModel: the order in which a map of entries with the same repository name is met is not
  modelled; any of them may answer.
- Resolution.WalkRole: the reason lists hold ids, not the prose of the reasons.
- Trackers.Tracker.DueProbes: returns the due models as a map; the original sorts them by id.
- Trackers.Tracker.EndRound: the rest of a poll round (node snapshots to observations,
  internal/health/tracker.go:333-434) is one `ApplyObservation` per model.
- Failover.HandleAttempts: the upstream is an outcome (broke off, with or without bytes written; answered, with
  status and envelope); headers, capture and the metrics of an attempt are not modelled.
- Pressures.OrderByPressure: the header note is not modelled.
- Inventories.AdoptedExactly: asks that no name be adoptable from two sources, without which the life cycle
  is not the listings'; the safety of adopted names needs no such thing.
- Inventories.Inventory.ApplyInventory: the table of bases, members and served names is given rather than
  derived from the registry (internal/health/inventory.go:267-343).
- Peers.MirrorRingStaysTailExactly: a gap shows only once the stream has pushed enough of the ring out, so it
  asks for a connection that goes on until the whole ring has been replaced.
- Peers.ApplyFrame: one feed; the merge of several brokers into one stream (subscribeAll) and the filter by
  principal are not modelled.
- Captures.ExtractSseUsage: white space is the ASCII kind.
- Windows.UpstreamSeries.Stats: one series; the map of series by model and endpoint, and the order of the rows,
  are not modelled; counters are unbounded.
- Series.AssembleSeries: costs are reals.
- RequestDefaults.ApplyRequestDefaults: on values; what the original's result shares with the caller's body is
  modelled where it matters, in `Failover.Leaves`.
- RequestDefaults.AppliedRequestDefaultKeys: a set; the original sorts it.
- Seats.AvailableFromPollIsEarned: sequence numbers are unbounded.
- The non-streaming twin of the tool loop (`runLoop`): the same bookkeeping without the gate.
- Model records and inventory bases as shared pointers: records are objects of their own here; bases are values
  in a map the methods reassign.
- Header text: Retry-After and privacy headers come parsed, trimmed and lower-cased.
- Handlers, other headers, TLS, the reverse proxy, goroutines: replaced by outcomes and steps.
- Dashboard pages, metrics, logging, flags, schedules, lint, well-known document: reporting only.
- SQL sinks, the token store, hashing, credentials: the database and the hash do the work.
- Tool-call text parsing, think-tag stripping, JSON and glob matching: functions given to the model.
- The auto-router's embeddings, complexity scores and token estimates: the prompt size is an input.
