# Polaris core, modelled in Dafny

Polaris is a Discord bot for a NationStates region. It listens to the
game's server-sent happenings feed. Each happening line is decoded into a
typed event. The bot keeps a cache of the region's nations, World Assembly
(WA) membership and endorsements. On top of that cache it runs:

- recruitment queues ("buckets") that collect newly founded, moving or
  WA-admitted nations, selected by user-written filters;
- an endotarting helper that serves the next nation to endorse;
- a regional message board (RMB) mirror;
- WA statistics and an inactive-nation report;
- the configuration views that edit buckets and telegram templates.

This project restates that core as Dafny values, functions, classes and
methods, and proves what each operation promises. The proofs cover:

- decoding a happening is the inverse of rendering it, and at most one
  event pattern can match a line;
- the recruitment filter language parses statement by statement and
  stops at the first bad one; a rendered statement parses back to what
  was rendered;
- every cache event handler keeps the cache well formed and changes only
  what its event concerns; endorsement and WA membership counts follow
  from verified endorsements;
- bucket queues keep their bound and their order; a recruitment round
  serves the first ready bucket in most-recent-first order and pops
  exactly the nations it sends to;
- endotarting queues serve the delegate first, and adding then striking
  a nation restores every view;
- NSCode tags render line by line, and quotes are truncated at 256
  characters;
- the RMB mirror never loses a post once its views have been delivered;
- the size, priority and mode checks of the bucket editor, and the
  telegram-template code parser.

One module per source file. The async orchestration around each
operation (Discord messages, tasks, sleeps) is not modelled. Each handler
returns the notification it would dispatch, and the game API's answers
are parameters.

## Model

| member | source | states |
|---|---|---|
| Lib.Normalize | discord/lib.py:5-6 | every space becomes `_`, every other character is lower-cased, the length is kept and no space is left |
| Lib.NormalizeIdempotent | discord/lib.py:5-6 | normalizing twice is the same as normalizing once |
| Lib.SelectiveCapitalize | discord/lib.py:8-13 | the first word and any word outside the small-word list are capitalized; a listed small word at a later position is kept as is; the result differs from the word only in case |
| Lib.DisplayWords | discord/lib.py:15-18 | word `i` of the display name is `SelectiveCapitalize` of word `i` of the id with `_` read as a space |
| Lib.DisplayWordsShape | discord/lib.py:15-18 | every display word is non-empty and contains neither a space nor `_` |
| Lib.DisplayNameShape | discord/lib.py:15-18 | a display name has no `_`, is single-spaced, and splitting it on whitespace gives back the display words |
| Lib.NormalizeDisplayName | discord/lib.py:5-18 | for an id made of lower-case id words joined by `_`, normalizing its display name gives back the id |
| Strings.Words | discord/filters/__init__.py:26 | `str.split()`: every piece is non-empty and contains no whitespace |
| Strings.SplitOn | discord/filters/recruit.py:30 | `str.split(sep)`: at least one piece, and no piece contains the separator |
| Strings.JoinSplitOn | discord/filters/recruit.py:30 | joining the pieces of a split with the separator gives back the string |
| Strings.SplitOnJoin | discord/filters/recruit.py:30 | splitting a join of separator-free pieces gives back the pieces |
| Strings.NatToString | discord/views/tgsetup.py:93 | `str(int)` of a natural number: non-empty digits, no leading zero except for `0` itself |
| Strings.NatToStringValue | discord/views/tgsetup.py:93 | the decimal value of `str(n)` is `n` |
| Regex.Run | discord/cogs/events.py:40 | a greedy character-class run: all of its characters are in the class, and the next character is not |
| Regex.FirstAlt | discord/filters/recruit.py:5 | an alternation tries its alternatives in order: the chosen one is a prefix and no earlier one is |
| Regex.MatchSound | discord/cogs/events.py:40 | every match the matcher returns satisfies the relational meaning of the pattern with those captures and that remainder |
| Regex.MatchComplete | discord/cogs/events.py:40 | for a well-formed pattern, every relational match is the one the matcher returns, so matches are unique |
| Regex.MatchAppend | discord/cogs/events.py:40 | `re.match` anchors only at the start: text appended after a match keeps the captures and extends the remainder |
| Regex.MatchFill | discord/cogs/events.py:40 | filling a pattern with fitting captures and skipped text gives a string that matches with exactly those captures |
| Regex.RunIsLongest | discord/cogs/events.py:40 | when a class run is followed by a literal outside the class, the only split that matches is the longest run |
| Regex.RelFits | discord/cogs/events.py:40 | the captures of a relational match fit the pattern's groups |
| Regex.FillRel | discord/cogs/events.py:40 | a filled pattern relates to its captures with an empty remainder |
| Events.RulesWellFormed | discord/cogs/events.py:8-23 | every event pattern is well formed and has exactly as many groups as its event has fields |
| Events.RuleFacts | discord/cogs/events.py:8-23 | pattern `i` accepts exactly the captures and skipped texts its event kind allows |
| Events.MatchArity | discord/cogs/events.py:8-43 | a match of pattern `i` yields as many groups as the handler for event `i` takes |
| Events.FirstRule | discord/cogs/events.py:39-44 | the loop stops at the first pattern that matches; no earlier pattern matches |
| Events.DecodeFirstMatch | discord/cogs/events.py:39-44 | decoding returns the event built from the first matching pattern, or nothing when no pattern matches |
| Events.NationRuleMatch | discord/cogs/events.py:8-23 | a line matched by a nation pattern starts with `@@`, then an id, then that pattern's fixed text |
| Events.SignatureOfMatch | discord/cogs/events.py:8-23 | a line matched by pattern `i` carries one of that pattern's eight-character signatures after the nation |
| Events.RulesExclusive | discord/cogs/events.py:8-44 | no line matches two different event patterns, so the order of the pattern list does not change the result |
| Events.WellFormedIffOk | discord/cogs/events.py:8-23 | an event is well formed exactly when its fields are captures its pattern accepts |
| Events.BuildInverse | discord/cogs/events.py:8-43 | building an event from captures and reading its captures back are inverse |
| Events.BuildCaptures | discord/cogs/events.py:8-43 | every event is rebuilt from its own captures |
| Events.BuildFacts | discord/cogs/events.py:8-43 | captures that fit pattern `i` build a well-formed event of kind `i` |
| Events.EventFits | discord/cogs/events.py:8-23 | a well-formed event's fields fit its pattern |
| Events.DecodeRender | discord/cogs/events.py:8-44 | decoding the rendered line of a well-formed event, with any trailing text, gives back that event |
| Events.DecodeWellFormed | discord/cogs/events.py:8-44 | a decoded event is well formed, its own pattern matches the line, and no other pattern does |
| Events.DecodeAppend | discord/cogs/events.py:40 | trailing text after a decodable line does not change what it decodes to |
| Filters.CreateFrom | discord/filters/__init__.py:29-33 | the component types are tried in order: the result is "no component" only if every type declines; otherwise it is the first type's answer that is not a decline |
| Filters.Filter.constructor | discord/filters/__init__.py:19-23 | a new filter has no components and keeps the given types and pattern |
| Filters.Filter.Parse | discord/filters/__init__.py:25-38 | the components of the statements before the first bad one are appended; the error is the first bad statement's error |
| Filters.ParsedSuccess | discord/filters/__init__.py:25-38 | parsing succeeds exactly when every statement does, and then yields one component per statement, in order |
| Filters.ParsedFailure | discord/filters/__init__.py:25-38 | a failed parse reports the first failing statement's error and keeps the components of the statements before it |
| Filters.ParsedSnoc | discord/filters/__init__.py:25-38 | parsing one more statement appends its component or reports its error |
| Filters.ParsedStops | discord/filters/__init__.py:25-38 | after an error, later statements change nothing |
| Filters.Filter.CreateComponent | discord/filters/__init__.py:29-33 | the component created for one statement is the ordered choice of `CreateFrom` |
| Filters.Filter.Matches | discord/filters/__init__.py:40-45 | a filter matches exactly when one of its components does |
| Filters.AnyMatch | discord/filters/__init__.py:40-45 | the early-exit loop is true exactly when some component matches |
| Filters.ExplainLines | discord/filters/__init__.py:47-51 | the explanation has one line per component, in order, followed by an empty last line |
| Filters.EmptyFilter | discord/filters/__init__.py:26-45 | a blank filter parses to no components and matches nothing |
| Filters.AllSpaceWords | discord/filters/__init__.py:26 | a string of whitespace splits into no words |
| RecruitFilters.KindsFirst | discord/filters/recruit.py:5 | the event-kind alternation picks the kind the statement starts with |
| RecruitFilters.MatchRender | discord/filters/recruit.py:5 | the statement pattern parses a rendered statement back to the groups it was rendered from |
| RecruitFilters.MatchGroupsOk | discord/filters/recruit.py:5 | a matched statement's groups are well formed and their rendering is a prefix of the statement |
| RecruitFilters.MatchRegions | discord/filters/recruit.py:5 | the region part matches an optional `-`, a first region and a comma list |
| RecruitFilters.MatchExcluded | discord/filters/recruit.py:5 | a leading `-` is read as exclusion |
| RecruitFilters.MatchIncluded | discord/filters/recruit.py:5 | without a leading `-`, the regions are read as an inclusion list |
| RecruitFilters.CompileRegionList | discord/filters/recruit.py:26-31 | the region list starts with the first region |
| RecruitFilters.NonEmpty | discord/filters/recruit.py:30 | the empty pieces of the split are dropped and the others kept |
| RecruitFilters.SplitExtras | discord/filters/recruit.py:30 | splitting `,r1,r2…` on commas gives an empty piece and then the regions |
| RecruitFilters.CompileExtras | discord/filters/recruit.py:26-31 | the compiled list of a first region and a rendered comma list is the first region followed by those regions |
| RecruitFilters.CompiledRegions | discord/filters/recruit.py:26-31 | the compiled list is the first region followed by the comma-list items |
| RecruitFilters.ExtrasItems | discord/filters/recruit.py:30 | a matched comma list is the rendering of a list of valid regions |
| RecruitFilters.RegionsOk | discord/filters/recruit.py:26-31 | a compiled region set is non-empty and holds only valid region ids |
| RecruitFilters.Dedup | discord/filters/recruit.py:62 | the region collection holds the same regions as the list, each once |
| RecruitFilters.CreateGlobal | discord/filters/recruit.py:37-43 | a global component is created only for a kind other than `move` |
| RecruitFilters.NewRecruitFilter | discord/filters/recruit.py:91-93 | a recruitment filter starts empty, with the global/include/exclude types in order and the statement pattern |
| RecruitFilters.ComponentMatches | discord/filters/recruit.py:45-86 | a component only matches events of its own kind |
| RecruitFilters.FilterMatches | discord/filters/recruit.py:95-96 | a bucket filter matches exactly when one of its components matches |
| RecruitFilters.StatementOutcome | discord/filters/recruit.py:37-93 | a statement that matches the pattern yields the component, or the error, chosen by its groups |
| RecruitFilters.GlobalStatement | discord/filters/recruit.py:37-43 | a bare kind other than `move` yields a global component |
| RecruitFilters.MoveNeedsRegions | discord/filters/recruit.py:37-43 | a bare `move` is rejected with the "needs a list of regions" message |
| RecruitFilters.RenderedStatement | discord/filters/recruit.py:37-93 | a rendered include statement yields an include of its deduplicated regions; an exclude yields an exclude, except for `move`, which is rejected |
| RecruitFilters.StatementComponentOk | discord/filters/recruit.py:37-93 | every component a statement yields is one its explanation is defined for |
| RecruitFilters.WaFoo | discord/filters/__init__.py:27 | `re.match` accepts `wafoo` as the global `wa` statement, because only the start is anchored |
| RecruitFilters.FoundedExcludingExample | discord/filters/recruit.py:75-86 | `founded:-north,south` is an exclusion of `north` and `south` |
| RecruitFilters.WaFoundedParse | discord/filters/__init__.py:25-38 | `wa founded:-north,south` parses to a global `wa` and that exclusion |
| RecruitFilters.WaFoundedMatches | discord/filters/recruit.py:45-96 | that filter matches every WA admission, and every founding outside `north` and `south` |
| Classes.Trunc | discord/classes.py:28 | `int()` of a float truncates toward zero |
| Classes.ResetLogin | discord/classes.py:27-28 | only the last login changes, to the truncated current time |
| Classes.ResetResidency | discord/classes.py:30-32 | only residency changes: to zero days, counted from now |
| Classes.ResidencyAfterReset | discord/classes.py:30-35 | right after a reset residency is zero, and it grows one day per 86400 seconds |
| Classes.ParseAuthority | discord/classes.py:46-63 | each officer authority is set exactly when its letter occurs in the text |
| Classes.LastN | discord/classes.py:101 | a bounded deque keeps the last `maxlen` entries |
| Classes.BucketQueue.constructor | discord/classes.py:100-101 | a new bucket has an empty queue and the given settings |
| Classes.BucketQueue.Create | discord/classes.py:100-101 | creating a bucket fails exactly when its filter fails to parse, with that error; otherwise it holds the parsed filter |
| Classes.BucketQueue.Append | discord/classes.py:101 | appending to a full queue drops the oldest entry; the queue stays bounded |
| Classes.BucketQueue.Pop | discord/cogs/recruit.py:91 | popping returns the newest entry and removes it |
| Classes.AppendToFull | discord/classes.py:101 | on a full queue, append drops the head |
| Classes.AppendWithRoom | discord/classes.py:101 | on a queue with room, append keeps everything |
| Classes.LastUpdateAfterAppendAndPop | discord/classes.py:103-107 | a bucket's last update is its newest entry's time plus its priority, after an append and after a pop |
| Classes.ModeSupport | discord/classes.py:87-113 | API-only buckets do not support manual recruitment, manual-only buckets do not support the API, and "both" supports both |
| Cache.IsJPOrPuppetStorage | discord/cogs/cache.py:85-86 | a region is a jump point or puppet storage exactly when it is in either set |
| Cache.InRegion | discord/cogs/cache.py:88-92 | a nation is only ever in a region the cache tracks |
| Cache.RegionWaNations | discord/cogs/cache.py:82-83 | the region's WA nations are exactly its residents that are WA members |
| Cache.VerifiedSetMembers | discord/cogs/cache.py:94-116 | an endorsement is verified exactly when both nations are in the WA and in the same tracked region; nothing is verified for an unknown or non-WA nation |
| Cache.VerifiedSubset | discord/cogs/cache.py:94-116 | the verified endorsements are some of the recorded endorsements |
| Cache.CacheManager.VerifiedEndorsements | discord/cogs/cache.py:94-116 | the loop returns exactly the verified set |
| Cache.CacheManager.EndorsementsGiven | discord/cogs/cache.py:118-134 | the loop returns `Given`: the region WA nations this nation genuinely endorses, or `None` (the `AttributeError`) exactly when the nation lives in the tracked region and that region was never fetched or another WA resident is not cached |
| Cache.Given | discord/cogs/cache.py:118-134 | `None` exactly when `endorsementsGiven` raises; a nation that is uncached or lives elsewhere has given no endorsements |
| Cache.GivenIsVerifiedConverse | discord/cogs/cache.py:118-134 | where the code does not raise, `n` gives an endorsement to `e` exactly when `e` is another regional WA nation whose verified endorsements include `n` |
| Cache.ShouldRebuild | discord/cogs/cache.py:137-152 | rebuild when no rebuild is in progress, at least two hours have passed since the last one, and the cache is marked outdated or a day has passed |
| Cache.RebuildSchedule | discord/cogs/cache.py:137-152 | an outdated cache is rebuilt after two hours; nothing is rebuilt within two hours |
| Cache.CacheManager.CheckForRebuild | discord/cogs/cache.py:137-152 | corrected (as-written partner `Cache.RebuildAsWritten`): when the schedule says no, nothing changes; otherwise the state and notification are those of a rebuild started now |
| Cache.RebuildStart | discord/cogs/cache.py:154-178 | the start of a rebuild stores its start time and the fetched lists; the index then tracks only the main region when the region is known or fetched, and is empty with no region otherwise |
| Cache.Refreshed | discord/cogs/cache.py:183-189 | after a refresh every fetched target holds its fetched record and every other nation is unchanged |
| Cache.FetchInOrderFinishes | discord/cogs/cache.py:183-189 | the fetch loop finishes exactly when every target is cached or fetchable |
| Cache.FetchInOrderRefreshes | discord/cogs/cache.py:183-189 | a finished fetch loop, in any order, gives the refreshed map |
| Cache.CacheManager.FetchNations | discord/cogs/cache.py:183-189 | the nations map becomes the refreshed map |
| Cache.Rebuild | discord/cogs/cache.py:154-198 | corrected (as-written partner `Cache.RebuildAsWritten`): with the region neither known nor fetchable nothing changes and nothing is notified; otherwise the WA, jump-point and puppet sets are the fetched ones, the nations are the old ones refreshed for every WA resident the API answered for, the residents are the fetched region's (or the kept ones), the cache is no longer outdated, both times are recorded and completion is notified |
| Cache.RebuildResumesSchedule | discord/cogs/cache.py:137-198 | after a completed rebuild the first-cache flag holds and the next rebuild is due a day later |
| Cache.CacheManager.RebuildCache | discord/cogs/cache.py:154-198 | corrected (as-written partner `Cache.RebuildAsWritten`): the state and notification are those of `Rebuild` |
| Cache.RebuildAsWritten | discord/cogs/cache.py:154-198 | the rebuild exactly as written keeps the cache well formed and always stores its start; it notifies completion exactly when it records its end and clears the outdated mark, and otherwise leaves both as they were |
| Cache.RebuildAsWrittenWedges | discord/cogs/cache.py:186-187 | as written, one WA resident that is neither cached nor fetchable aborts the rebuild, and no rebuild is ever scheduled again |
| Cache.RebuildAsWrittenExample | discord/cogs/cache.py:186-187 | a concrete region with one unfetchable WA resident is never rebuilt again |
| Cache.RebuildAsWrittenWedgesWithoutRegion | discord/cogs/cache.py:154-178 | as written, a first rebuild whose region fetch fails raises after storing its start, and no rebuild is ever scheduled again |
| Cache.RebuildRetriesWithoutRegion | discord/cogs/cache.py:137-178 | corrected: with the region neither known nor fetchable the rebuild changes nothing, so a rebuild that was due stays due |
| Cache.RebuildAgreesWhenComplete | discord/cogs/cache.py:183-198 | whenever the as-written rebuild completes, it agrees with the corrected one |
| Cache.CacheManager.FetchNation | discord/cogs/cache.py:43-46 | a fetched nation is stored; a failed fetch changes nothing |
| Cache.CacheManager.MarkCacheOutdated | discord/cogs/cache.py:200-201 | only the outdated flag changes, to true |
| Cache.CacheManager.constructor | discord/cogs/cache.py:18-33 | a new cache is empty, tracks nothing and has never been rebuilt |
| Cache.Cte | discord/cogs/cache.py:204-225 | a nation that ceases to exist leaves the nation map and its region's residents; in the main region with no region object the handler raises after those two steps and notifies nothing |
| Cache.CteTrackedMarksStale | discord/cogs/cache.py:204-225 | a cease-to-exist in the main region marks the cache outdated and sends no notification |
| Cache.CteElsewhere | discord/cogs/cache.py:204-225 | a cease-to-exist elsewhere drops the nation from the WA set and keeps the outdated flag |
| Cache.CacheManager.OnCte | discord/cogs/cache.py:204-225 | the state and notification are those of `Cte` |
| Cache.Founding | discord/cogs/cache.py:228-240 | a founding adds the nation to its region, drops no one, and notifies a local or a world founding; a main-region founding with no region object raises once the index holds the nation and notifies nothing |
| Cache.CacheManager.OnFounding | discord/cogs/cache.py:228-240 | the state and notification are those of `Founding` |
| Cache.Moved | discord/cogs/cache.py:243-281 | a moved nation has the new region, a reset residency and a refreshed login, and nothing else changes |
| Cache.Move | discord/cogs/cache.py:243-281 | a move takes the nation out of the origin and puts it into the destination, and the moved record follows `Moved`; a move between other regions notifies a world join, a leave from the main region a local (WA) leave, a join a local join for a non-member, a WA join for an uncached member and nothing for a cached member; with no region object a move touching the main region raises after the index and record updates and notifies nothing |
| Cache.MoveFromTrackedMarksStale | discord/cogs/cache.py:243-281 | leaving the main region marks the cache outdated and notifies a local leave, or a WA leave for a WA member |
| Cache.SilentJoin | discord/cogs/cache.py:269-276 | a WA member moving into the main region becomes a resident; it is notified only when it was not cached |
| Cache.CacheManager.Relocate | discord/cogs/cache.py:243-281 | the state is the relocated one |
| Cache.CacheManager.OnMove | discord/cogs/cache.py:243-281 | the state and notification are those of `Move` |
| Cache.WaAdmit | discord/cogs/cache.py:284-299 | an admission adds the nation to the WA, marks a cached nation a member, and notifies a local or a world admission; with no region object it raises after the first two steps, fetching and notifying nothing |
| Cache.CacheManager.OnWaAdmit | discord/cogs/cache.py:284-299 | the state and notification are those of `WaAdmit` |
| Cache.WaApply | discord/cogs/cache.py:302-308 | an application changes nothing and notifies a local or a world application; with no region object it raises and notifies nothing |
| Cache.CacheManager.OnWaApply | discord/cogs/cache.py:302-308 | the notification is that of `WaApply` |
| Cache.WaResign | discord/cogs/cache.py:311-324 | a resignation drops the nation from the WA and clears its endorsements; an unknown resignation marks the cache outdated; a local resignation is notified exactly for a cached resident of a known region (with no region object a cached nation raises after every update) |
| Cache.CacheManager.OnWaResign | discord/cogs/cache.py:311-324 | the state and notification are those of `WaResign` |
| Cache.AdmitThenResign | discord/cogs/cache.py:284-320 | admitting and then resigning a nation leaves it outside the WA, with no endorsements and the same outdated flag |
| Cache.Endo | discord/cogs/cache.py:327-340 | an endorsement is added to the target; it is notified exactly when the target is a cached resident of a known region, as a delegate endorsement when the target is the delegate and a member endorsement otherwise; with no region object a cached target raises after the endorsement is added, before the endorser's login is refreshed |
| Cache.CacheManager.OnEndo | discord/cogs/cache.py:327-340 | the state and notification are those of `Endo` |
| Cache.Unendo | discord/cogs/cache.py:343-359 | a withdrawal removes the endorsement, and an unknown withdrawal marks the cache outdated; it is notified exactly when a recorded endorsement of a cached resident of a known region is removed, as a delegate withdrawal when the target is the delegate and a member withdrawal otherwise; with no region object a removal raises before the withdrawer's login is refreshed |
| Cache.CacheManager.OnUnendo | discord/cogs/cache.py:343-359 | the state and notification are those of `Unendo` |
| Cache.EndoThenUnendo | discord/cogs/cache.py:327-359 | endorsing and then withdrawing restores the target's endorsements and the outdated flag |
| Cache.Pruned | discord/cogs/cache.py:362-370 | pruning keeps every nation |
| Cache.RegionUpdate | discord/cogs/cache.py:362-370 | an update keeps the outdated flag and notifies only for the main region |
| Cache.RegionUpdateShrinksAndSettles | discord/cogs/cache.py:362-370 | an update only removes endorsements, and a second update changes nothing |
| Cache.VerifiedSetFrame | discord/cogs/cache.py:94-116 | verified endorsements depend only on the WA set, the residents, and the nation's region and endorsements |
| Cache.CacheManager.OnRegionUpdate | discord/cogs/cache.py:362-370 | the state and notification are those of `RegionUpdate` |
| Cache.Flag | discord/cogs/cache.py:373-381 | a flag change marks the nation's flag stale and refreshes its login; a local flag change is notified exactly for a cached resident of a known region (with no region object a cached nation raises after the updates) |
| Cache.CacheManager.OnFlag | discord/cogs/cache.py:373-381 | the state and notification are those of `Flag` |
| Cache.NewDelegate | discord/cogs/cache.py:384-391 | the new delegate gets delegate status; for a known main region the delegate is recorded and notified; elsewhere, or with no region object (the handler raises after the status update), the region is untouched and nothing is notified |
| Cache.CacheManager.OnNewDelegate | discord/cogs/cache.py:384-391 | the state and notification are those of `NewDelegate` |
| Cache.ReplaceDelegate | discord/cogs/cache.py:394-404 | the new delegate gets delegate status and the old one member status; for a known main region the delegate is recorded and notified; elsewhere, or with no region object (the handler raises after the status updates), nothing is notified |
| Cache.CacheManager.OnReplaceDelegate | discord/cogs/cache.py:394-404 | the state and notification are those of `ReplaceDelegate` |
| Cache.LoseDelegate | discord/cogs/cache.py:407-416 | a delegate that loses the seat becomes a member; for a known main region the delegate is cleared and notified; elsewhere, or with no region object (the handler raises after the status update), nothing is notified |
| Cache.CacheManager.OnLoseDelegate | discord/cogs/cache.py:407-416 | the state and notification are those of `LoseDelegate` |
| Recruit.DigitSuffixExamples | discord/cogs/recruit.py:62-65 | a name ending in a digit looks like a puppet, and one without does not |
| Recruit.RomanExamples | discord/cogs/recruit.py:62-65 | `iv` and the empty numeral are Roman numerals to the pattern |
| Recruit.RomanSuffixCaught | discord/cogs/recruit.py:62-65 | any id followed by `_` and a Roman numeral looks like a puppet |
| Recruit.MaxSimilarityBelow | discord/cogs/recruit.py:73-79 | the largest similarity is below a limit exactly when every similarity is |
| Recruit.PuppetSkipSpec | discord/cogs/recruit.py:67-84 | a nation is kept exactly when it does not look like a puppet and is less than 70% similar to every recent nation |
| Recruit.RecruitmentManager.CheckPuppetFilter | discord/cogs/recruit.py:67-84 | the answer is the skip decision, and a kept nation joins the window of the last 40 |
| Recruit.Popped | discord/cogs/recruit.py:86-96 | up to `max` entries come off the newest end, newest first, each with the bucket priority subtracted |
| Recruit.PopRestores | discord/cogs/recruit.py:86-96 | the queue is what remains plus the popped entries re-added in reverse with the priority restored |
| Recruit.RecruitmentManager.PopNations | discord/cogs/recruit.py:86-96 | the result is `Popped` and the queue loses exactly those entries |
| Recruit.RecruitmentManager.PopFrom | discord/cogs/recruit.py:86-96 | popping from bucket `k` changes only that bucket's queue |
| Recruit.LastMatch | discord/cogs/recruit.py:99-100 | the chosen bucket is the last whose filter matches; no bucket is chosen when none match |
| Recruit.LastMatchSkip | discord/cogs/recruit.py:99-100 | a non-matching bucket does not change the choice |
| Recruit.LastMatchHit | discord/cogs/recruit.py:99-100 | a later matching bucket takes over the choice |
| Recruit.RecruitmentManager.FindBucket | discord/cogs/recruit.py:99-100 | the loop returns the last matching bucket |
| Recruit.RecruitmentManager.AppendTo | discord/cogs/recruit.py:98-104 | appending changes only bucket `k`'s queue, as a bounded append |
| Recruit.RecruitmentManager.AddNation | discord/cogs/recruit.py:98-104 | the nation is appended, with its time, to the last matching bucket and to no other |
| Recruit.RecruitmentManager.OnWorldFounding | discord/cogs/recruit.py:107-120 | a puppet-like nation is never queued; a queued nation goes to the last matching bucket, and a refounded one must be allowed to receive recruitment; the handler raises exactly when a refounded nation that passes the puppet filter is neither cached nor fetched, and then nothing is queued |
| Recruit.RecruitmentManager.OnWorldJoin | discord/cogs/recruit.py:123-124 | a move is queued in the last bucket whose filter matches `move` into the destination |
| Recruit.RecruitmentManager.OnWorldWaAdmit | discord/cogs/recruit.py:127-146 | an admitted nation is queued only when it passes the puppet filter and is recruitable, in the last bucket matching `wa` in its region; the handler raises exactly when a nation that passes the puppet filter is neither cached nor fetched, and then nothing is queued |
| Recruit.RecruitmentManager.Screen | discord/cogs/recruit.py:127-135 | the puppet decision is `PuppetSkip`; a nation is fetched only when asked and not skipped, and the raise happens exactly when that fetch returns nothing for an uncached nation |
| Recruit.RecruitmentManager.AdmitCached | discord/cogs/recruit.py:134-146 | a cached admitted nation is queued exactly when it is recruitable and some bucket matches `wa` in its region, and then in the last such bucket |
| Recruit.RecruitmentManager.SortBuckets | discord/cogs/recruit.py:55-60 | every bucket appears once, in descending last-update order, with ties in configuration order |
| Sorting.SortDesc | discord/cogs/recruit.py:55-60 | the sorted indices are all below the count, ordered by descending key with ties by index |
| Sorting.SortDescPermutation | discord/cogs/recruit.py:55-60 | the sorted indices are a permutation of the indices |
| Sorting.SortDescSpec | discord/cogs/recruit.py:55-60 | Python's stable reverse sort: each index once, keys descending, equal keys in index order |
| Sorting.InsertMultiset | discord/cogs/recruit.py:55-60 | inserting an index adds exactly that index to the arrangement and keeps all others |
| Sorting.InsertOrdered | discord/cogs/recruit.py:55-60 | inserting a new index into an ordered list keeps it ordered |
| Sorting.OrderedUnique | discord/cogs/recruit.py:55-60 | there is exactly one ordered arrangement of a set of indices, so the sort is deterministic |
| Recruit.FirstReady | discord/cogs/recruit.py:189-195 | the first bucket in the order that supports manual recruitment and is not empty; none when there is no such bucket |
| Recruit.RecruitmentManager.SelectBucket | discord/cogs/recruit.py:189-195 | the loop returns `FirstReady` |
| Recruit.RecruitmentManager.RecruitRound | discord/cogs/recruit.py:187-237 | a round serves the first ready bucket in sorted order, or none; it pops at most 8 nations from that bucket alone, and waits the cooldown for that many |
| Recruit.CooldownShape | discord/cogs/recruit.py:148-156 | the per-nation cooldown is 14 seconds for a brand-new recruiter, never below 5 and never above 14 |
| Recruit.CooldownNonIncreasing | discord/cogs/recruit.py:148-156 | the cooldown never grows as time passes |
| Recruit.ZeroTimerBypass | discord/cogs/recruit.py:286-290 | as written, a timer of 0 is accepted, though it is below the minimum; the corrected check rejects it |
| Recruit.CorrectedTimerRespectsCooldown | discord/cogs/recruit.py:286-290 | an accepted timer is positive and at least the cooldown of every round's nations |
| Recruit.RecruitmentManager.constructor | discord/cogs/recruit.py:27-35 | the manager starts with the given buckets and an empty puppet window |
| Tart.GenerateUrlParts | discord/views/tart.py:44-46 | the endorse URL is the nation page of the normalized nation followed by the endorse anchor and the user agent; two URLs agree exactly when the nations normalize alike |
| Tart.Label | discord/views/tart.py:37-40 | the button label is "Endorse", then the title when there is one, then the name |
| Tart.QueryNewNationSpec | discord/views/tart.py:29-42 | the next nation comes off the end of the queue, and the button links to it; an empty queue leaves no current nation |
| Tart.RemoveFirst | discord/cogs/tart.py:84-89 | `remove` of an absent entry leaves the deque as it was |
| Tart.RemoveFirstMultiset | discord/cogs/tart.py:84-89 | `remove` of a present entry takes out exactly one occurrence of it |
| Tart.RemoveFirstAt | discord/cogs/tart.py:84-89 | it removes the first occurrence |
| Tart.RemoveId | discord/cogs/tart.py:64-69 | removing a view keeps only views that were registered |
| Tart.RemoveIdLast | discord/cogs/tart.py:64-69 | removing the view just registered restores the list |
| Tart.TartCog.RemoveView | discord/cogs/tart.py:64-69 | the view is removed from its endorser's list; an unknown endorser changes nothing |
| Tart.TartCog.RemoveViewKeepsValid | discord/cogs/tart.py:64-69 | removing a view keeps every remaining view registered, live and owned by its endorser |
| Tart.TartCog.OnTimeout | discord/views/tart.py:87-89 | a timed-out view is unregistered |
| Tart.ServeOrderIds | discord/cogs/tart.py:39-48 | the queue's nation ids are exactly the nations to endorse, each as often as listed |
| Tart.ServeOrderSpec | discord/cogs/tart.py:39-48 | the queue holds each nation to endorse once; the delegate, when among them, comes first with the "Delegate" title, and no other entry has a title |
| Tart.TartCog.BuildQueue | discord/cogs/tart.py:39-48 | the stored deque is the serving order reversed, because nations are taken from its end |
| Tart.TartCog.Register | discord/cogs/tart.py:58-61 | a view with a current nation is added to its endorser's list; an exhausted view is not kept |
| Tart.TartCog.StartTart | discord/cogs/tart.py:21-62 | the cache-incomplete, non-resident and non-WA refusals and the `endorsementsGiven` raise each happen exactly when their condition first holds, with no view registered; otherwise the view serves the region's WA nations the endorser has not endorsed, delegate first, and is registered while it has a nation |
| Tart.Prepended | discord/cogs/tart.py:71-79 | a new WA nation is put at the far end of every queue |
| Tart.TartCog.AddNewNation | discord/cogs/tart.py:71-79 | every endorser except those already endorsing the nation gets it prepended |
| Tart.Struck | discord/cogs/tart.py:81-89 | the nation is removed from every queue |
| Tart.TartCog.RemoveNation | discord/cogs/tart.py:81-89 | every endorser except those already endorsing the nation has it struck |
| Tart.PrependedThenStruck | discord/cogs/tart.py:71-89 | adding and then removing a nation restores every view |
| Tart.EndoAll | discord/cogs/tart.py:91-99 | after an endorsement only views that still have a nation remain |
| Tart.EndoAllKeeps | discord/cogs/tart.py:91-99 | the remaining views still belong to the endorser and were registered |
| Tart.EndoAllMovesOn | discord/cogs/tart.py:91-99 | when the endorsed nation is not queued again, no remaining view still shows it |
| Tart.EndoLiveSkipsAView | discord/cogs/tart.py:93-99 | as written, with two exhausted views of one endorser, the second is skipped and stays registered |
| Tart.TartCog.HandleEndo | discord/cogs/tart.py:91-99 | corrected (as-written partner `Tart.EndoLiveSkipsAView`, the loop over the live list): every view of the endorser advances or strikes the nation, and exhausted views are dropped |
| Tart.TartCog.HandleUnendo | discord/cogs/tart.py:101-105 | the withdrawn nation is put back into each of the endorser's queues |
| Tart.TartCog.constructor | discord/cogs/tart.py:14-18 | the cog starts with no views |
| NsCode.WrapNonEmpty | discord/nscode.py:59-63 | an empty line stays empty; any other line is wrapped in the markers |
| NsCode.WrapLinesSpec | discord/nscode.py:76-126 | wrapping works line by line: the same number of lines, each wrapped on its own |
| NsCode.LineWiseTags | discord/nscode.py:76-126 | bold, italic, underline, strike and pre tags keep the line count and wrap each line |
| NsCode.PassThrough | discord/nscode.py:69-147 | sub, sup and spoiler tags render their children unchanged, and text renders as itself |
| NsCode.Truncated | discord/nscode.py:240-242 | quotes of up to 256 characters are kept; longer ones are cut to 256 and end with `...` |
| NsCode.QuoteSpec | discord/nscode.py:240-251 | a quote has a header exactly when both author and id are set; its body quotes each line of the truncated text |
| NsCode.ResolutionLinks | discord/nscode.py:190-194 | Security Council links use council 2, UN links the UN flag, and every other council the General Assembly |
| NsCode.RenderTreeAppend | discord/nscode.py:264-271 | rendering a tree is rendering its parts in order |
| NsCode.ConcatAppend | discord/nscode.py:264-271 | concatenation distributes over appending |
| Rmb.RmbLinkParts | discord/views/rmb.py:20-21 | the post link is the normalized region's board with the post id twice; the region is normalized |
| Rmb.ParseContent | discord/views/rmb.py:23-34 | a normal post has text exactly when its markup renders; deleted and suppressed posts always have text |
| Rmb.StatusTexts | discord/views/rmb.py:23-34 | deleted and moderator-suppressed posts get fixed texts; other suppressions name the suppressor |
| Rmb.UpdateDelivers | discord/views/rmb.py:56-91 | sending delivers; a delivered view stays delivered; an unchanged post is not resent; a sent post is only edited |
| Rmb.RmbView.constructor | discord/views/rmb.py:9-18 | a new view holds the post and its rendered text |
| Rmb.RmbView.Send | discord/views/rmb.py:56-69 | the state and delivery are those of `SendView` |
| Rmb.RmbView.Update | discord/views/rmb.py:71-91 | the state and delivery are those of the corrected `UpdatedView` |
| Rmb.StepSpec | discord/cogs/rmb.py:56-66 | a known post updates only its own view and at most edits it; an old unknown post is ignored; a new post gets a view and may only be posted |
| Rmb.ProcessMonotone | discord/cogs/rmb.py:56-66 | the last post id never decreases, views are never lost, new views are newer than the last post, and deliveries are only appended |
| Rmb.ProcessDelivers | discord/cogs/rmb.py:56-66 | when every view was delivered, every view still is after a batch |
| Rmb.RmbFeed.Deliver | discord/cogs/rmb.py:56-66 | one message changes the feed as `Step` says |
| Rmb.RateWait | discord/cogs/rmb.py:31-46 | the wait is never negative, reaches the rate limit, and is zero once the limit has passed |
| Rmb.UpdateRmbFinishes | discord/cogs/rmb.py:33-70 | with delivered views an update always finishes: it clears the busy flag, records the time, never loses views, and keeps every view delivered |
| Rmb.RmbFeed.UpdateRmb | discord/cogs/rmb.py:33-70 | the state and deliveries are those of the corrected `RmbUpdate`; the wait is `RateWait` |
| Rmb.RmbFeed.constructor | discord/cogs/rmb.py:15-21 | the feed starts idle with no views |
| Rmb.StuckForever | discord/cogs/rmb.py:33-70 | as written, once the busy flag is stuck every update does nothing |
| Rmb.SuppressedUnsentPostWedges | discord/views/rmb.py:71-91 | as written, a post that never rendered and is later suppressed makes the update fail and leaves the feed stuck busy |
| Rmb.SuppressedUnsentPostDelivered | discord/views/rmb.py:71-91 | corrected, that suppressed post is posted and the feed finishes |
| WaStats.SumVerifiedRemove | discord/cogs/wastats.py:37-40 | the total verified count splits into one nation's count plus the rest |
| WaStats.SumIsPairCount | discord/cogs/wastats.py:38-40 | the summed verified counts equal the number of verified endorser/endorsee pairs |
| WaStats.PotentialIsPairCount | discord/cogs/wastats.py:37 | `n*(n-1)` is the number of ordered pairs of distinct WA nations |
| WaStats.CalculateStats | discord/cogs/wastats.py:28-44 | `None` exactly when the code raises (no region, or a delegate that is not cached); otherwise the stats hold the WA count, the potential endorsements, the size of the delegate's raw endorsement set and the summed verified endorsements |
| WaStats.StatsCount | discord/cogs/wastats.py:37-40 | endorsements given never exceed the potential |
| Inactive.DaysSinceSpec | discord/cogs/inactive.py:30 | the day count is the whole number of days since the last login |
| Inactive.SelectedSound | discord/cogs/inactive.py:25-33 | every listed nation is a WA resident inactive for at least the given days, listed with its days |
| Inactive.SelectedComplete | discord/cogs/inactive.py:25-33 | every nation inactive for at least the given days is listed |
| Inactive.SelectedIff | discord/cogs/inactive.py:25-33 | a nation is listed exactly when it has been inactive for the given days |
| Inactive.SortedByDaysSpec | discord/cogs/inactive.py:35 | the listing is a permutation of the selection, longest inactive first, with ties in visiting order |
| Inactive.SortedByDaysMembers | discord/cogs/inactive.py:35 | sorting keeps exactly the listed entries, each as often as before |
| Inactive.SortedByDaysOrder | discord/cogs/inactive.py:35 | sorted entries run from most to least days, stably |
| Inactive.PageSpec | discord/cogs/inactive.py:37-42 | page `p` holds up to 10 entries starting at `(p-1)*10`; page 0 is empty |
| Inactive.PagesAdjacent | discord/cogs/inactive.py:37-42 | consecutive pages continue each other |
| Inactive.VisitStep | discord/cogs/inactive.py:25-33 | visiting one more nation extends the selection by that nation's entry |
| Inactive.FilledStep | discord/cogs/inactive.py:26-27 | visiting one more nation stores its fetched record when it was not cached |
| Inactive.Visit | discord/cogs/inactive.py:25-33 | a nation is found exactly when cached or fetchable; a found nation is stored and extends the selection |
| Inactive.VisitAll | discord/cogs/inactive.py:25-33 | the loop stops at the first nation neither cached nor fetchable, with every earlier one stored; otherwise every member is stored and the selection is collected in order |
| Inactive.InactiveNations | discord/cogs/inactive.py:19-35 | an incomplete cache answers so; a missing nation is the first one neither cached nor fetchable; otherwise the listing is the sorted selection |
| BucketConfig.SizeCheck | discord/views/config/bucket.py:39-53 | a size is accepted exactly when it parses as an integer from 0 to the maximum; otherwise the size error |
| BucketConfig.SizeRange | discord/views/config/bucket.py:39-53 | sizes up to the maximum are accepted, larger ones and negative ones rejected |
| BucketConfig.ParseIntNat | discord/views/config/bucket.py:41 | `int(str(n))` is `n` |
| BucketConfig.DigitGroupsPlain | discord/views/config/bucket.py:41 | a plain digit string reads as itself |
| BucketConfig.PriorityDisplay | discord/views/config/bucket.py:61-85 | the four preset priorities get their names, and any other value is shown as custom |
| BucketConfig.PriorityOptionsLabelled | discord/views/config/bucket.py:143-149 | every priority option shows its own name and no two options look alike |
| BucketConfig.ModeDisplay | discord/views/config/bucket.py:55-59 | only the three known modes have a name |
| BucketConfig.CheckFilter | discord/views/config/bucket.py:18-22 | the filter check reports exactly the parse error |
| BucketConfig.BucketStore.EditFilter | discord/views/config/bucket.py:15-26 | a bad filter is rejected with its error; an unknown bucket is reported; otherwise only that bucket's filter changes; names stay unique |
| BucketConfig.BucketStore.EditSize | discord/views/config/bucket.py:39-53 | a bad size is rejected; an unknown bucket is reported; otherwise only that bucket's size changes; names stay unique |
| BucketConfig.BucketStore.CreateBucket | discord/views/config/bucket.py:203-235 | a bad filter, a bad size or a taken name is rejected without change; otherwise the new bucket is stored; names stay unique |
| BucketConfig.CreatedUnique | discord/views/config/bucket.py:219-230 | a created bucket's name belongs to it alone |
| BucketConfig.BucketStore.SelectMode | discord/views/config/bucket.py:134-141 | an empty selection changes nothing; otherwise only the mode changes |
| BucketConfig.BucketStore.SelectPriority | discord/views/config/bucket.py:150-157 | an empty selection changes nothing; otherwise only the priority changes |
| BucketConfig.BucketStore.DeleteBucket | discord/views/config/bucket.py:179-187 | deleting a bucket also deletes its templates, and nothing else |
| BucketConfig.WithoutBucket | discord/views/config/bucket.py:179-187 | exactly the templates of other buckets are kept, unchanged |
| BucketConfig.DeleteCascade | discord/views/config/bucket.py:179-187 | no template of a deleted bucket survives, all others do, and the name becomes free |
| BucketConfig.BucketStore.constructor | discord/views/config/bucket.py:203-235 | the store holds the given buckets and templates |
| BucketConfig.CreateBucketView.constructor | discord/views/config/bucket.py:237-241 | a new creation form defaults to both modes and priority 0 |
| BucketConfig.CreateBucketView.SelectMode | discord/views/config/bucket.py:260-268 | an empty selection keeps the mode; otherwise the first selected mode |
| BucketConfig.CreateBucketView.SelectPriority | discord/views/config/bucket.py:269-276 | an empty selection keeps the priority; otherwise the first selected priority |
| BucketConfig.CreateBucketView.Submit | discord/views/config/bucket.py:289-291 | submitting creates the bucket with the form's mode and priority, or rejects it without change |
| TgSetup.DigitRun | discord/views/tgsetup.py:15 | the run of leading digits |
| TgSetup.MatchCode | discord/views/tgsetup.py:15 | a matched code yields a non-empty digit string |
| TgSetup.MatchCodeSound | discord/views/tgsetup.py:15 | a matched code is the telegram prefix, the digits, a `%` and anything after |
| TgSetup.MatchCodeComplete | discord/views/tgsetup.py:15 | every code of that shape matches and yields its digits |
| TgSetup.StoredTgId | discord/views/tgsetup.py:17 | the stored id is a digit string without leading zeros |
| TgSetup.StoredTgIdValue | discord/views/tgsetup.py:17 | the stored id has the digits' value, ignores leading zeros, and storing twice changes nothing |
| TgSetup.FirstRecord | discord/views/tgsetup.py:86-97 | the first record of that template and user, or none when there is none |
| TgSetup.UpsertedSpec | discord/views/tgsetup.py:86-97 | after an upsert the record holds the new id, a record is added only when none existed, other records are unchanged, and records stay unique |
| TgSetup.UserTemplateStore.Upsert | discord/views/tgsetup.py:86-97 | the records become the upserted ones |
| TgSetup.UserTemplateStore.constructor | discord/views/tgsetup.py:86-97 | the store holds the given records |
| TgSetup.TemplateSetupView.constructor | discord/views/tgsetup.py:24-33 | the setup starts at the first template |
| TgSetup.TemplateSetupView.Send | discord/views/tgsetup.py:110-114 | it shows the current step, or that there are no templates |
| TgSetup.TemplateSetupView.UpdateTemplate | discord/views/tgsetup.py:81-104 | past the last template it is an index error; otherwise the id is stored, the step advances and the next step or the finish is shown |
| TgSetup.TemplateSetupView.OnSubmit | discord/views/tgsetup.py:14-21 | a bad code is rejected without change; a good code stores its id for the current template, advances and shows the next step or the finish; past the last template it answers the index error without change |
| RecruitView.TelegramLinkParts | discord/views/recruit.py:15-19 | the link is the sender's container compose page, then the template and recipients, then the generated-by user agent |
| RecruitView.RecipientsRoundTrip | discord/views/recruit.py:17 | the recipients can be read back from their comma list |
| RecruitView.SenderTwice | discord/views/recruit.py:16 | the container link names the sender twice |

## Left out

- The game API (`discord/cogs/api.py`) is not part of this model. Every
  answer it gives becomes a parameter: an `Option` for a nation or
  region fetch, a map of fetchable nations, the WA and jump-point sets.
- The event loop and Discord itself are not part of this model. This
  covers tasks, sleeps, message sending and editing, embeds, interaction
  checks and role checks. A handler returns the notification it would
  dispatch, and a view returns the delivery it would make.
- The clock is a `now` parameter.
- Python's iteration order over a set is an `order` parameter that
  enumerates the set.
- The Levenshtein ratio is a `ratio` parameter.
- The NSCode grammar and parser are a `parse` parameter. Only rendering a
  parsed tree is modelled.
- Nation and region name lookups are a `lookup` parameter.
- Redis persistence is not modelled. Bucket and template records are
  maps and sequences, and new keys are given as parameters.
- Happenings sources other than the event patterns are not modelled,
  because they are I/O.
- Discord select values arrive already converted to `int` or `real`.
- Float formatting is not modelled: the custom priority label keeps its
  real value instead of the two-digit text.
- Include and exclude regions are kept as a duplicate-free list in
  first-mention order, not as a Python set. Explanations therefore list
  regions in that order rather than in hash order.
- `mainRegion.nations` and `regionalNations[mainRegionId]` are one object
  in the source. The model keeps them as one set, the latter.
- The WA statistics plot, the ratios it draws, the WA history and the
  statistics file are I/O and are not modelled.
- Not modelled:
  - the random choice of a telegram template;
  - looking up telegram details and saving telegram statistics;
  - waiting for the confirmation reaction in the recruitment task;
  - the per-user recruiter bookkeeping;
  - reloading buckets from storage.
- `handle_task_result` only logs, and the embed texts are presentation;
  neither is modelled.
- Inactive.InactiveNations: a nation that can be neither found nor
  fetched is returned as `Missing`, where the source raises an
  attribute error.
- Inactive.PageSpec: states only pages from 0 upward. A negative page is
  not stated, because Python's negative slicing would apply.
- Recruit.RecruitmentManager.OnWorldFounding: states the puppet-skip side,
  the chosen bucket and when the handler raises. It does not state the
  exact queues after a nation is queued.
- Recruit.RecruitmentManager.OnWorldWaAdmit: states the same as
  `OnWorldFounding` and no more.
- An `AttributeError` raised by a handler or query is modelled as an
  outcome, not as an exception: `None` from `Cache.Given`,
  `Cache.CacheManager.EndorsementsGiven` and `WaStats.CalculateStats`,
  `Raised` from `Tart.TartCog.StartTart`, `raised` from the two recruit
  handlers and `Missing` from `Inactive.InactiveNations`. The cache's event
  handlers (`Cache.Cte`, `Cache.Founding`, `Cache.Move`, `Cache.WaAdmit`,
  `Cache.WaApply`, `Cache.WaResign`, `Cache.Endo`, `Cache.Unendo`,
  `Cache.Flag`, `Cache.NewDelegate`, `Cache.ReplaceDelegate`,
  `Cache.LoseDelegate` and their `Cache.CacheManager.On…` methods) raise
  when no region object has been fetched yet; they return the state as it
  stands at the raise, with no notification. What the event loop does with
  the exception (it logs it) is not modelled.
- Strings.Lower: `lower`, `upper` and `capitalize` change ASCII letters
  only; other letters are left as they are, so Unicode case mapping is
  not modelled.
- Tart.TartCog.RemoveNation: requires the nation to be queued in every
  affected view. Where it is not, the source's `deque.remove` raises and
  the handler stops part-way; that path is not modelled.
- Tart.TartCog.HandleEndo: has the same requirement as `RemoveNation`,
  for views whose current nation is another one.

## Findings

| source | as written | input that shows it | evidently intended | confidence | as-written member | corrected member |
|---|---|---|---|---|---|---|
| discord/cogs/recruit.py:286-290 | the timer check is skipped when the timer is 0, because 0 is falsy | `/recruit` with timer 0 | any given timer must be at least the minimum | not executed | Recruit.ZeroTimerBypass | Recruit.CorrectedTimerRespectsCooldown |
| discord/cogs/cache.py:183-198 | a nation that is neither cached nor fetchable raises during the rebuild, after the start time is stored, so the start time stays later than the end time | a WA resident whose nation fetch fails | a rebuild skips nations it cannot fetch and always records its end | not executed | Cache.RebuildAsWrittenWedges | Cache.RebuildResumesSchedule |
| discord/cogs/cache.py:154-178 | a first rebuild whose region fetch fails reads `self.mainRegion.nations` on `None` and raises after the start time is stored, so the start time stays later than the end time | the first rebuild with the region request failing | the rebuild gives up before it starts and is tried again at the next check | not executed | Cache.RebuildAsWrittenWedgesWithoutRegion | Cache.RebuildRetriesWithoutRegion |
| discord/views/rmb.py:71-91 | a view that was never sent is edited through its missing message, and the update raises while the busy flag is set | a post whose markup does not render, then suppressed by a moderator | the view sends its message the first time it has content, and the flag is cleared | not executed | Rmb.SuppressedUnsentPostWedges | Rmb.SuppressedUnsentPostDelivered |
| discord/cogs/tart.py:93-99 | the loop runs over the live list while `editMessage` removes the current view, so the next view is skipped | two views of one endorser, both showing the endorsed nation with empty queues | every view of the endorser handles the endorsement | not executed | Tart.EndoLiveSkipsAView | Tart.EndoAllMovesOn |
