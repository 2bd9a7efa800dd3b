# ENAA Lecture: a verified model of the reading app's core

ENAA Lecture is a French-language phonics web application for young pupils
in Congo-Brazzaville. A child signs in with a first name, an age and a class code. The
child then works through seven exercise screens per phoneme. The screens
recognise a sound, find it in words and locate it within a word. Scores are
kept in a backend table of progress rows. Three things make the app usable
on slow connections: a service worker that caches the application, a
network-quality provider that switches off animations and heavy media, and
demo data that stands in when the backend is out of reach.

This project is a Dafny model of that core, with proofs about the model.
There is one module per source file. Two modules are shared by all the
others:

- `Types` holds the Option/Result wrappers and the table rows.
- `Text` holds the JavaScript string operations the core relies on: the `\s`
  white-space set, `trim`, `includes`, ASCII `toLowerCase`, the two
  `replace` filters and `parseInt`.

The modelling conventions are the same throughout:

- **Missing values.** `None` stands for `null`/`undefined`, and for NaN
  where the source computes a number.
- **Backend and sign-in.** Every answer from the backend or the
  authentication service is a parameter given up front (`Reply<T>` is
  either a failure or the reply's `data` field). A flow returns the
  sequence of calls it makes, so the proofs can talk about what was asked
  and in which order.
- **State.** A React component's state, the Zustand store, the
  network-quality provider, the carousel and the service worker are
  classes. Their methods change the fields that the source's setters
  change and no others.
- **Timers.** A timer is an event method (`Tick`, `ResumeAutoPlay`). A
  delayed step (`setTimeout`) happens at once, in the same call.
- **Random order.** A shuffle is a permutation supplied by the caller.

## Model

| member | source | states |
|---|---|---|
| ServiceWorker.Protocol | app-lecture/public/sw.js:60-63 | empty exactly when the URL has no ':'; otherwise the lower-cased prefix up to and including the first ':' |
| ServiceWorker.ResolveAll | app-lecture/public/sw.js:9-15 | every manifest path is made absolute against the worker's origin, one to one and in order |
| ServiceWorker.IsStaticUrl | app-lecture/public/sw.js:68-75 | the cache-first test: some one of the eight markers occurs in the URL; its consequences are stated by `Classify` and `StaticBeforeNavigation` |
| ServiceWorker.ImageUrlIsStatic | app-lecture/public/sw.js:97 | every .png/.jpg URL is also static, so the image placeholder can only come from the cache-first branch |
| ServiceWorker.Classify | app-lecture/public/sw.js:62-75 | non-http(s) URLs are ignored; the static-marker test wins over navigation; a page is a navigation or an Accept header holding text/html; a non-navigation request without Accept is the throwing case (each an if-and-only-if) |
| ServiceWorker.Names | app-lecture/public/sw.js:41 | `caches.keys()` lists one name per partition, in creation order |
| ServiceWorker.Find | app-lecture/public/sw.js:22 | the partition found is the first with that name; none is found exactly when no partition has it |
| ServiceWorker.Match | app-lecture/public/sw.js:78 | `caches.match` misses exactly when no partition holds the URL, and a hit is some partition's stored response |
| ServiceWorker.Open | app-lecture/public/sw.js:22 | after `caches.open` the partition exists; an existing one leaves the store alone, a new one is appended empty |
| ServiceWorker.Put | app-lecture/public/sw.js:89-92 | `cache.put` makes the URL map to the response in that partition and changes no other lookup |
| ServiceWorker.MatchRequest | app-lecture/public/sw.js:78 | `caches.match(request)` misses exactly for a non-GET request or a URL no partition holds; a hit is some partition's stored response |
| ServiceWorker.PutRequest | app-lecture/public/sw.js:89-91 | the partition is opened whether or not the put is accepted, and no partition is added besides it |
| ServiceWorker.PutRequestLookup | app-lecture/public/sw.js:89-91 | the only lookup a put can change is the request's own entry in that partition, and it then holds the response |
| ServiceWorker.CacheFirst | app-lecture/public/sw.js:77-105 | cache first: no fetch exactly on a cache hit, and otherwise only the request itself is fetched |
| ServiceWorker.NetworkFirstPage | app-lecture/public/sw.js:113-141 | the page strategy always serves a response and fetches only the request |
| ServiceWorker.NetworkFirst | app-lecture/public/sw.js:145-150 | the default strategy never writes, fetches only the request, and serves a response exactly when the network or the cache has one |
| ServiceWorker.HandleFetch | app-lecture/public/sw.js:58-151 | the listener ignores exactly the non-http(s) requests and fetches nothing but the request itself |
| ServiceWorker.WhereMembers | app-lecture/public/sw.js:43-47 | the sweep keeps exactly the partitions whose name is kept |
| ServiceWorker.DeleteMembers | app-lecture/public/sw.js:46 | `caches.delete(name)` removes exactly the partitions with that name |
| ServiceWorker.DeleteOutside | app-lecture/public/sw.js:41-50 | deleting each listed name outside the kept set, one at a time, yields exactly the kept partitions in order |
| ServiceWorker.NonHttpIgnored | app-lecture/public/sw.js:62-65 | a non-http(s) request gets no response, causes no fetch and leaves the cache unchanged |
| ServiceWorker.StaticBeforeNavigation | app-lecture/public/sw.js:68-75 | a navigation whose URL carries a static marker is served cache-first |
| ServiceWorker.MissingAcceptThrows | app-lecture/public/sw.js:110-111 | a non-static, non-navigation request with no Accept header makes the listener throw before responding |
| ServiceWorker.CacheFirstHit | app-lecture/public/sw.js:78-82 | a cached static asset is returned without any fetch and the cache is unchanged |
| ServiceWorker.CacheFirstMissStores | app-lecture/public/sw.js:84-94 | on a miss for a GET request, the network response is returned and stored in the static partition whatever its status except 206 (partial content), and no other entry changes |
| ServiceWorker.CacheFirstRefusedPut | app-lecture/public/sw.js:84-94 | on a miss whose put is refused (a non-GET request or a 206 answer), the response is still returned and the static partition is opened, but no entry changes |
| ServiceWorker.CacheFirstMissFails | app-lecture/public/sw.js:96-103 | on a miss with a rejected fetch the page gets the text placeholder exactly for .png/.jpg URLs and a network error otherwise; nothing is written |
| ServiceWorker.PageAlwaysServed | app-lecture/public/sw.js:113-139 | a page request always gets a response |
| ServiceWorker.PageSuccessStores | app-lecture/public/sw.js:114-124 | a page fetched from the network is returned and stored in the dynamic partition, and no other entry changes |
| ServiceWorker.PageFallbackOrder | app-lecture/public/sw.js:125-138 | a page whose fetch fails is served from its own entry, else the cached root, else the offline page, with the cache unchanged |
| ServiceWorker.GenericNeverWrites | app-lecture/public/sw.js:145-150 | the default strategy never writes: the live response, or on failure the cached entry or a network error |
| ServiceWorker.OnlyServedResponsesAreCached | app-lecture/public/sw.js:77-150 | an entry changes only for the request being handled, only to the network's response for it, and only when the page got that very response |
| ServiceWorker.LookupWhere | app-lecture/public/sw.js:44 | a kept partition's entries survive the sweep unchanged |
| ServiceWorker.SweepKeepsCurrent | app-lecture/public/sw.js:37-51 | activation keeps exactly the static and dynamic partitions with their contents and drops the rest, the old CACHE_NAME partition included |
| ServiceWorker.PutAllLookup | app-lecture/public/sw.js:25 | after storing a URL list, each listed URL maps to its network response and every other entry is as before |
| ServiceWorker.InstallOpensStatic | app-lecture/public/sw.js:21-30 | install leaves a static partition whatever the network does |
| ServiceWorker.AddAllKeepsOpen | app-lecture/public/sw.js:25 | `addAll` on an open partition leaves it open whether or not it stores anything |
| ServiceWorker.PutAllNames | app-lecture/public/sw.js:25 | storing into an open partition creates and removes no partition |
| ServiceWorker.InstallStoresManifest | app-lecture/public/sw.js:21-26 | when every manifest fetch is ok, each manifest entry is cached in the static partition with its network response |
| ServiceWorker.InstallFailureAddsNothing | app-lecture/public/sw.js:25-29 | when some manifest fetch fails, the error is caught and no entry is added |
| ServiceWorker.PutAllShape | app-lecture/public/sw.js:25 | storing a URL list merges the fetched map into that one partition and changes nothing else |
| ServiceWorker.PutAllTwice | app-lecture/public/sw.js:163 | storing the same URLs twice equals storing them once |
| ServiceWorker.AddAll | app-lecture/public/sw.js:25 | `cache.addAll` as all-or-nothing; its stores are stated by `PutAllLookup`, `InstallStoresManifest` and `InstallFailureAddsNothing` |
| ServiceWorker.InstallStore | app-lecture/public/sw.js:21-30 | the install listener's store: the static partition opened, then the manifest added all-or-nothing; stated by `InstallOpensStatic`, `InstallStoresManifest`, `InstallFailureAddsNothing` and `InstallManifest404` |
| ServiceWorker.Sweep | app-lecture/public/sw.js:41-47 | the activation sweep: the partitions named STATIC_CACHE or DYNAMIC_CACHE kept; stated by `SweepKeepsCurrent` and `DeleteOutside` |
| ServiceWorker.MessageStore | app-lecture/public/sw.js:159-165 | a CACHE_URLS message adds its URLs to the dynamic partition all-or-nothing, any other message leaves the store; stated by `CacheUrlsIdempotent` |
| ServiceWorker.CacheUrlsIdempotent | app-lecture/public/sw.js:159-165 | a repeated CACHE_URLS message leaves the cache as one message does |
| ServiceWorker.InstallManifest404 | app-lecture/public/sw.js:21-29 | one manifest entry that answers with an error status leaves the static partition as it was: nothing of the manifest is cached |
| ServiceWorker.CacheWorker.constructor | app-lecture/public/sw.js:1-15 | the worker starts on the existing cache storage with neither skipWaiting nor claim called |
| ServiceWorker.CacheWorker.Install | app-lecture/public/sw.js:18-34 | the store becomes the install result and skipWaiting has been called |
| ServiceWorker.CacheWorker.Activate | app-lecture/public/sw.js:37-55 | the store becomes the sweep of the old store and clients are claimed |
| ServiceWorker.CacheWorker.OnFetch | app-lecture/public/sw.js:58-151 | the page's outcome, the new store and the fetched URLs are those of the fetch handler |
| ServiceWorker.CacheWorker.OnMessage | app-lecture/public/sw.js:154-166 | SKIP_WAITING calls skipWaiting; CACHE_URLS adds the URLs to the dynamic partition all-or-nothing; other messages change nothing |
| AppStore.Progressed | app-lecture/src/stores/appStore.ts:76-85 | the next screen is screenNumber + 1 capped at totalScreens; the score is recorded under screenNumber; every other recorded score, the phoneme, the start time and the total are kept |
| AppStore.ProgressedAll | app-lecture/src/stores/appStore.ts:76-85 | a run of progress updates applied in order; its bounds are stated by `ProgressedAllBounded` and `ProgressedAllKeys` |
| AppStore.ProgressedAllBounded | app-lecture/src/stores/appStore.ts:76-85 | any run of progress updates keeps the current screen within the total and records every screen it was given |
| AppStore.ProgressedAllKeys | app-lecture/src/stores/appStore.ts:80-83 | progress updates never forget a recorded screen |
| AppStore.ProgressedCanMoveBack | app-lecture/src/stores/appStore.ts:79 | recording an earlier screen moves the current screen back: nothing keeps it monotone |
| AppStore.Store.constructor | app-lecture/src/stores/appStore.ts:42-59 | the initial state: no user, not authenticated, screen 1 of 7 with no scores, empty lists, not loading, no error |
| AppStore.Store.Restore | app-lecture/src/stores/appStore.ts:107-113 | rehydration restores exactly the persisted user and flag; the session starts afresh |
| AppStore.Store.Partialize | app-lecture/src/stores/appStore.ts:109-113 | only the user and the authentication flag are persisted |
| AppStore.Store.SetUser | app-lecture/src/stores/appStore.ts:62 | sets the user and nothing else |
| AppStore.Store.SetAuthenticated | app-lecture/src/stores/appStore.ts:64 | sets the flag and nothing else |
| AppStore.Store.StartPhonemeSession | app-lecture/src/stores/appStore.ts:66-74 | a fresh session for the phoneme: started now, screen 1 of 7, no scores; nothing else changes |
| AppStore.Store.UpdateSessionProgress | app-lecture/src/stores/appStore.ts:76-85 | the session becomes `Progressed` of the old one; nothing else changes |
| AppStore.Store.SetPhonemes | app-lecture/src/stores/appStore.ts:97 | sets the phoneme list and nothing else |
| AppStore.Store.SetUserProgress | app-lecture/src/stores/appStore.ts:99 | sets the progress rows and nothing else |
| AppStore.Store.SetLoading | app-lecture/src/stores/appStore.ts:101 | sets the loading flag and nothing else |
| AppStore.Store.SetError | app-lecture/src/stores/appStore.ts:103 | sets the error and nothing else |
| AppStore.Store.ResetSession | app-lecture/src/stores/appStore.ts:105 | the session returns to its initial value and nothing else changes |
| StudentData.Guard | app-lecture/src/hooks/useStudentData.ts:14-16 | a hook with no client or no signed-in user fails with "Authentification requise", and otherwise goes on with the user's id |
| StudentData.Patch | app-lecture/src/hooks/useStudentData.ts:70-85 | one more attempt; time added to the stored total; mastery only when the caller passes true; the first-mastery timestamp exactly when mastery is reached and none is stored; the best score written exactly when none is stored or the new score beats it |
| StudentData.Updated | app-lecture/src/hooks/useStudentData.ts:87-94 | an update keeps the row's id and creation instant and every key the record leaves out (best score, first-mastery timestamp), and writes the counters and the latest score |
| StudentData.Inserted | app-lecture/src/hooks/useStudentData.ts:96-107 | an insert takes the database's id and instant, and the columns the record leaves out are null |
| StudentData.Saved | app-lecture/src/hooks/useStudentData.ts:70-107 | the saved row has the call's key, the existing row's id (or the new one), one more attempt and the added time |
| StudentData.BestIsMaximum | app-lecture/src/hooks/useStudentData.ts:82-84 | for non-negative scores the saved best is the maximum of the old best and the new score |
| StudentData.MasteryTimestampKept | app-lecture/src/hooks/useStudentData.ts:79-81 | a stored first-mastery timestamp is never replaced |
| StudentData.MasteryTimestampSet | app-lecture/src/hooks/useStudentData.ts:79-81 | a mastered save on a row without a timestamp stamps it with the save's instant |
| StudentData.Matches | app-lecture/src/hooks/useStudentData.ts:62-67 | the lookup finds exactly the rows of the (student, phoneme, screen) key, in table order |
| StudentData.Single | app-lecture/src/hooks/useStudentData.ts:68 | `.single()` gives a row only when it is the one row with that key |
| StudentData.Existing | app-lecture/src/hooks/useStudentData.ts:62-68 | the lookup's result with its error discarded: a row only when the lookup succeeds and exactly one row has the key |
| StudentData.MatchesAtMostOne | app-lecture/src/hooks/useStudentData.ts:62-68 | with one row per key, at most one row matches |
| StudentData.SingleFindsUnique | app-lecture/src/hooks/useStudentData.ts:62-68 | with one row per key, `.single()` misses exactly when no row has the key |
| StudentData.Upserted | app-lecture/src/hooks/useStudentData.ts:62-108 | the row the lookup found is updated in place, keeping the row count; with no row found (none, several, or a failed lookup) one row is appended |
| StudentData.UpsertKeepsOneRowPerKey | app-lecture/src/hooks/useStudentData.ts:62-108 | when the lookup succeeds, a save keeps keys and ids unique and leaves exactly one row for the saved key, holding the merge of the old row (or none) with the input |
| StudentData.FailedLookupDuplicatesKey | app-lecture/src/hooks/useStudentData.ts:62-107 | a failed lookup for a key already stored makes the save insert a second row for that key, so the table no longer has one row per key |
| StudentData.InsertDesc | app-lecture/src/hooks/useStudentData.ts:27 | inserting into a newest-first list keeps it newest first |
| StudentData.InsertDescPerm | app-lecture/src/hooks/useStudentData.ts:27 | inserting adds exactly the one row |
| StudentData.SortedCons | app-lecture/src/hooks/useStudentData.ts:27 | a row no older than the head of a newest-first list can go in front |
| StudentData.OrderNewestFirst | app-lecture/src/hooks/useStudentData.ts:27 | the ordering is newest first by creation instant and a permutation of its input |
| StudentData.Selected | app-lecture/src/hooks/useStudentData.ts:18-25 | exactly the student's rows, narrowed to the phoneme only when its id is truthy; a one-row table is kept or dropped whole |
| StudentData.SelectedConcat | app-lecture/src/hooks/useStudentData.ts:18-25 | the filter works row by row in table order, so with the one-row case it fixes the result |
| StudentData.SelectedCounts | app-lecture/src/hooks/useStudentData.ts:18-25 | each selected row appears exactly as often as it is stored, each other row not at all |
| StudentData.StudentProgress | app-lecture/src/hooks/useStudentData.ts:7-35 | no client or user fails with the auth error; a query error is rethrown; otherwise newest first, each of the student's matching rows exactly as often as stored |
| StudentData.ZeroIdSelectsAll | app-lecture/src/hooks/useStudentData.ts:23 | a phoneme id of 0 gives the same result as no id |
| StudentData.SessionRef | app-lecture/src/hooks/useStudentData.ts:187 | the session id is stored exactly when it is a non-empty string |
| StudentData.Backend.constructor | app-lecture/src/hooks/useStudentData.ts:19 | the tables start empty, with one row per key |
| StudentData.Backend.UpdateProgress | app-lecture/src/hooks/useStudentData.ts:38-117 | no client or user: the auth error and no write; a refused write: its error and no change; otherwise the table becomes the upsert (a failed lookup inserting), the merged row is returned, and one row per key is kept whenever the lookup succeeds |
| StudentData.Backend.CreateSession | app-lecture/src/hooks/useStudentData.ts:120-157 | no client or user: the auth error; a refused write: its error; otherwise exactly one session row appended, with the completed screens defaulting to the empty list |
| StudentData.Backend.LogInteraction | app-lecture/src/hooks/useStudentData.ts:160-199 | demo mode (no client or user) writes nothing and gives null; a refused write gives its error; otherwise exactly one interaction row appended, carrying the payload |
| Scoring.Answer | app-lecture/src/components/phoneme/EcranIdentification.tsx:59-85 | an answer on a finished screen, or one with no current word, changes nothing; otherwise one more attempt and a point when right; before the last word the next word with the feedback cleared; on the last word completion, the feedback kept and the score reported as right answers over words times 100 |
| Scoring.Percent | app-lecture/src/components/phoneme/EcranIdentification.tsx:80 | the reported percentage is 0 exactly with no right answer, 100 exactly when every word is right, and never above 100 |
| Scoring.AnswerKeepsConsistent | app-lecture/src/components/phoneme/EcranIdentification.tsx:59-85 | the score never passes the attempts, the attempts count the words answered, and the index stays on a word |
| Scoring.ReportIsPercentage | app-lecture/src/components/phoneme/EcranIdentification.tsx:80 | a reported score lies between 0 and 100 |
| Scoring.CountTrue | app-lecture/src/components/phoneme/EcranIdentification.tsx:62 | the number of right answers is at most the number of answers |
| Scoring.AnswerAll | app-lecture/src/components/phoneme/EcranIdentification.tsx:59-85 | a sequence of answers applied in turn, reporting on the last word; stated by `AnswerAllCompletes` and `FullRunReport` |
| Scoring.AnswerAllCompletes | app-lecture/src/components/phoneme/EcranIdentification.tsx:59-85 | answering every remaining word completes the activity, one attempt per word, with the earlier score plus the number of right answers |
| Scoring.FullRunReport | app-lecture/src/components/phoneme/EcranIdentification.tsx:80 | a whole activity from the start reports the share of right answers in percent |
| Scoring.CompleteIsFinal | app-lecture/src/components/phoneme/EcranIdentification.tsx:60 | once complete, further answers change nothing and report nothing |
| Identification.Take | app-lecture/src/components/phoneme/EcranIdentification.tsx:45-46 | `slice(0, 6)` keeps the first six words, or all when there are fewer |
| Identification.WordsWith | app-lecture/src/components/phoneme/EcranIdentification.tsx:281-291 | the words holding each known phoneme and the default list; their disjointness from the distractors is `TablesDisjoint` |
| Identification.WordsWithout | app-lecture/src/components/phoneme/EcranIdentification.tsx:293-303 | the distractors of each known phoneme and the default list; stated by `TablesDisjoint` and `SelectionSize` |
| Identification.Flagged | app-lecture/src/components/phoneme/EcranIdentification.tsx:45-46 | each word is tagged with its list's flag, one to one and in order |
| Identification.Selection | app-lecture/src/components/phoneme/EcranIdentification.tsx:44-47 | the words with the phoneme come first, all flagged true, then the distractors, all flagged false |
| Identification.SelectionSize | app-lecture/src/components/phoneme/EcranIdentification.tsx:44-47 | twelve words for a known phoneme and six for any other symbol |
| Identification.TablesDisjoint | app-lecture/src/components/phoneme/EcranIdentification.tsx:281-303 | for every symbol no word is both a phoneme word and a distractor |
| Identification.SelectionFlagsTrue | app-lecture/src/components/phoneme/EcranIdentification.tsx:44-47 | a selected word's flag is true exactly when the word comes from the phoneme's word list |
| Identification.Screen.constructor | app-lecture/src/components/phoneme/EcranIdentification.tsx:34-55 | the screen starts on the shuffled selection with fresh counters |
| Identification.Screen.HandleAnswer | app-lecture/src/components/phoneme/EcranIdentification.tsx:59-85 | the counters advance as `Scoring.Answer` does, an answer being right when it matches the current word's flag; the words are unchanged |
| Identification.Screen.Restart | app-lecture/src/components/phoneme/EcranIdentification.tsx:100-108 | fresh counters and the same words in a new order |
| Localisation.EntriesWellFormed | app-lecture/src/components/phoneme/EcranLocalisation.tsx:268-317 | every entry of every table, and the default word, has a valid syllable index and syllables that spell the word |
| Localisation.Entries | app-lecture/src/components/phoneme/EcranLocalisation.tsx:268-317 | the word table per phoneme with the "mot" default; its well-formedness and sizes are `EntriesWellFormed` and `EntriesSize` |
| Localisation.EntriesSize | app-lecture/src/components/phoneme/EcranLocalisation.tsx:268-317 | six words for a known phoneme, the single word "mot" for any other symbol |
| Localisation.Screen.constructor | app-lecture/src/components/phoneme/EcranLocalisation.tsx:34-43 | the screen starts on the shuffled entries with fresh counters |
| Localisation.Screen.HandlePositionClick | app-lecture/src/components/phoneme/EcranLocalisation.tsx:47-71 | the counters advance as `Scoring.Answer` does, a click being right when it names the phoneme's syllable; the words are unchanged |
| Localisation.Screen.Restart | app-lecture/src/components/phoneme/EcranLocalisation.tsx:85-92 | fresh counters and the same words in a new order |
| Reconnaissance.TargetsOffered | app-lecture/src/components/phoneme/EcranReconnaissance.tsx:23-29 | each exercise's target is among its options, and its options are distinct |
| Reconnaissance.Answer | app-lecture/src/components/phoneme/EcranReconnaissance.tsx:31-48 | a point when the choice is the target; before the last exercise the next one; on the last one completion and a report of the score over 4 times 100 |
| Reconnaissance.AnswerKeepsConsistent | app-lecture/src/components/phoneme/EcranReconnaissance.tsx:31-48 | the index stays on an exercise, the score never passes the number answered, and a report is a percentage |
| Reconnaissance.AllTargetsGive100 | app-lecture/src/components/phoneme/EcranReconnaissance.tsx:23-48 | choosing every target in turn completes the screen with 4 points and reports 100 |
| Reconnaissance.Screen.constructor | app-lecture/src/components/phoneme/EcranReconnaissance.tsx:18-20 | index 0, score 0, not complete |
| Reconnaissance.Screen.HandleAnswer | app-lecture/src/components/phoneme/EcranReconnaissance.tsx:31-48 | the counters become those of `Answer` |
| UsePhoneme.FetchPhoneme | app-lecture/src/hooks/usePhoneme.ts:14-44 | the backend's row when there is a client and the reply carries one; otherwise (no client, an error, no row, a thrown call) the demo lookup, whose own error is the query's error |
| UsePhoneme.FetchPhonemeFallsBack | app-lecture/src/hooks/usePhoneme.ts:19-43 | whatever the backend does, the demo ids 1 to 5 still yield a phoneme, the demo one when the backend has none |
| UsePhoneme.FetchPhonemes | app-lecture/src/hooks/usePhoneme.ts:66-92 | the demo list when there is no client or the query fails, otherwise the reply's data or the empty list |
| UsePhoneme.Enabled | app-lecture/src/hooks/usePhoneme.ts:45 | the query runs exactly for a number (not NaN) above 0 |
| UsePhoneme.OfPhase | app-lecture/src/hooks/usePhoneme.ts:97-102 | the reference grouping: the phonemes of one phase, each as often as in the input |
| UsePhoneme.GroupByPhase | app-lecture/src/hooks/usePhoneme.ts:97-102 | the grouping the reduce builds; its keys, contents and sizes are `GroupKeys`, `GroupsAreFilters` and `GroupSizesSum` |
| UsePhoneme.PhonemesByPhase | app-lecture/src/hooks/usePhoneme.ts:97-102 | the reduce loop builds exactly the grouping `GroupByPhase` |
| UsePhoneme.GroupKeys | app-lecture/src/hooks/usePhoneme.ts:99 | a group exists exactly for each phase present in the list |
| UsePhoneme.GroupsAreFilters | app-lecture/src/hooks/usePhoneme.ts:97-102 | each group is the list's phonemes of that phase in list order, and no group is empty |
| UsePhoneme.Phases | app-lecture/src/hooks/usePhoneme.ts:98 | the distinct phases of the list, each once, exactly those present |
| UsePhoneme.GroupSizesSum | app-lecture/src/hooks/usePhoneme.ts:97-102 | the group sizes over the phases present add up to the length of the list: no phoneme is lost or counted twice |
| DemoData.DemoPhonemesShape | app-lecture/src/lib/demo-data.ts:4-73 | five demo phonemes with ids 1 to 5, in (phase, ordre_phase) order, and a progress entry for exactly those ids |
| DemoData.IntToString | app-lecture/src/lib/demo-data.ts:89 | a non-negative id is printed in canonical decimal |
| DemoData.ParseIntIntToString | app-lecture/src/lib/demo-data.ts:89 | an id printed into the message and parsed back gives the id |
| DemoData.NotFound | app-lecture/src/lib/demo-data.ts:89 | the error names the id in decimal, from which `ParseIntIntToString` recovers it |
| DemoData.IndexOf | app-lecture/src/lib/demo-data.ts:87 | `find` returns the first phoneme with the id, and nothing exactly when none has it |
| DemoData.GetPhoneme | app-lecture/src/lib/demo-data.ts:85-92 | found exactly when some demo phoneme has the id, and then that phoneme; otherwise the error names the id |
| DemoData.GetPhonemeFinds | app-lecture/src/lib/demo-data.ts:85-92 | exactly the ids 1 to 5 are found, id k being the k-th demo phoneme |
| DemoData.SavedProgress | app-lecture/src/lib/demo-data.ts:99-106 | the record keeps its keys; a known id's score is raised only by a higher score; an unknown id changes nothing |
| DemoData.SaveKeepsMaximum | app-lecture/src/lib/demo-data.ts:102-104 | each entry becomes the larger of the old and the new score |
| DemoData.SaveIdempotent | app-lecture/src/lib/demo-data.ts:99-106 | saving the same score twice is saving it once |
| DemoData.CreateProfile | app-lecture/src/lib/demo-data.ts:108-111 | each supplied field overrides the demo student's, every other field is the demo student's |
| DemoData.CreateProfileExtremes | app-lecture/src/lib/demo-data.ts:108-111 | no fields gives the demo student; all fields give exactly the fields |
| DemoData.DemoBackend.constructor | app-lecture/src/lib/demo-data.ts:67-73 | the record starts at 85, 60, 0, 0, 0 for ids 1 to 5 |
| DemoData.DemoBackend.GetProgress | app-lecture/src/lib/demo-data.ts:94-97 | the current record, with no error, whoever asks |
| DemoData.DemoBackend.SaveProgress | app-lecture/src/lib/demo-data.ts:99-106 | the record becomes `SavedProgress` of the old one and the reply carries no data |
| ElevePage.StatusOf | app-lecture/src/app/eleve/page.tsx:106-111 | mastered exactly from 80, in progress exactly from 50 to below 80, not started below 50, a missing entry counting as 0 |
| ElevePage.ScoreOf | app-lecture/src/app/eleve/page.tsx:107 | the score behind a status, 0 for a phoneme with no entry |
| ElevePage.MissingIsNotStarted | app-lecture/src/app/eleve/page.tsx:107 | a phoneme with no entry is not started |
| ElevePage.CountersBounded | app-lecture/src/app/eleve/page.tsx:145-146 | no entry is counted both mastered and in progress, so the two counters never exceed the number of entries |
| ElevePage.MasteredCount | app-lecture/src/app/eleve/page.tsx:145 | the number of entries at 80 or more |
| ElevePage.InProgressCount | app-lecture/src/app/eleve/page.tsx:146 | the number of entries strictly between 0 and 80 |
| ElevePage.LowScoreCountedButNotStarted | app-lecture/src/app/eleve/page.tsx:107-110 | an entry strictly between 0 and 50 is counted in progress while its card says not started |
| ElevePage.TotalProgress | app-lecture/src/app/eleve/page.tsx:147 | 0 with no phonemes; a percentage when the mastered count is within the phoneme count; exactly 100 when every phoneme is mastered |
| ElevePage.RemainingNonNegative | app-lecture/src/app/eleve/page.tsx:303 | the "to discover" counter is not negative when every entry names a listed phoneme |
| ElevePage.Remaining | app-lecture/src/app/eleve/page.tsx:303 | phonemes listed minus entries recorded; not negative by `RemainingNonNegative` |
| ElevePage.EncouragementFor | app-lecture/src/app/eleve/page.tsx:310-322 | the champion line exactly at 100, the progress line from 50 below 100, the start line below 50 |
| ElevePage.EncouragementText | app-lecture/src/app/eleve/page.tsx:310-322 | the three encouragement lines, chosen by `EncouragementFor` |
| ElevePage.BuildFromRows | app-lecture/src/app/eleve/page.tsx:79-85 | the loop over the reply rows builds exactly the record `FromRows` |
| ElevePage.FromRowsLastWins | app-lecture/src/app/eleve/page.tsx:80-84 | an id is in the record exactly when some row of it has a truthy best, and its value is 100 times the best of the last such row |
| ElevePage.FromRowsLast | app-lecture/src/app/eleve/page.tsx:80-84 | the row deciding an id's value is the last of its rows with a truthy best |
| ElevePage.FromRows | app-lecture/src/app/eleve/page.tsx:79-85 | the record the reply rows build; stated by `FromRowsLastWins` and `BuildFromRows` |
| ElevePage.EntryKey | app-lecture/src/app/eleve/page.tsx:75 | `parseInt` of an entry's printed key gives back the key |
| ElevePage.CopyDemo | app-lecture/src/app/eleve/page.tsx:73-76 | the copy of the demo record has exactly its keys and values |
| ElevePage.LoadProgress | app-lecture/src/app/eleve/page.tsx:59-99 | a reply builds the record from its rows (none when data is null); a failure copies the mock backend's record |
| ElevePage.LoadPhonemes | app-lecture/src/app/eleve/page.tsx:34-57 | the reply's rows, none when data is null, or the demo list on failure |
| ElevePage.DemoRecordCounters | app-lecture/src/app/eleve/page.tsx:145-147 | on the demo record: one mastered, one in progress, nothing left to discover, 20 percent overall |
| Login.Validate | app-lecture/src/app/page.tsx:40-47 | "Tous les champs sont obligatoires" exactly when the trimmed name, the age or the trimmed class code is empty; otherwise the range message exactly when the parsed age is a number outside 3 to 12; otherwise the parsed age (possibly NaN) is handed on |
| Login.BlankNameRefused | app-lecture/src/app/page.tsx:40-42 | a name of white space only is refused as a missing field |
| Login.NonNumericAgePasses | app-lecture/src/app/page.tsx:44-47 | an age that parses to NaN passes the range check |
| Login.LocalPart | app-lecture/src/app/page.tsx:50 | no longer than the name, with no white space and no capital; a one-character name gives its lower-cased character, or nothing for white space |
| Login.LocalPartConcat | app-lecture/src/app/page.tsx:50 | the local part is built character by character, so it is the lower-cased name with its white space removed, in order |
| Login.LocalPartIgnoresSpaces | app-lecture/src/app/page.tsx:50 | white space anywhere in the name leaves the account unchanged |
| Login.Email | app-lecture/src/app/page.tsx:50 | the email is the local part, then "@classe-", the class code as typed, then ".local" |
| Login.EmailIgnoresCase | app-lecture/src/app/page.tsx:50 | two names that lower-case alike give the same account for the same class |
| Login.EmailSeparatesClasses | app-lecture/src/app/page.tsx:50 | different class codes never give the same account |
| Login.NiveauFromAge | app-lecture/src/app/page.tsx:117-126 | the level is the school-order table entry at `LevelIndex`: PS up to 4, one level a year, CM2 from 11 and for NaN |
| Login.LevelIndex | app-lecture/src/app/page.tsx:117-126 | the level's position in the school order is within the table |
| Login.NiveauMonotone | app-lecture/src/app/page.tsx:117-126 | an older child never gets a lower level |
| Login.NiveauSteps | app-lecture/src/app/page.tsx:117-126 | from 4 to 11 each year is exactly one level up, and the accepted ages 3 and 12 give PS and CM2 |
| Login.Proceed | app-lecture/src/app/page.tsx:49-100 | the first call is sign-in with the class code as password; a success returns the profile query's row and ends on that query |
| Login.Flow | app-lecture/src/app/page.tsx:33-115 | a failed check ends before any backend call with its message; otherwise the flow goes on with the parsed age |
| Login.FlowStart | app-lecture/src/app/page.tsx:53-56 | a form that passes the checks reaches sign-in first |
| Login.ProceedSignsUp | app-lecture/src/app/page.tsx:58-72 | after the checks, sign-up is called exactly when sign-in fails with an invalid-credentials message |
| Login.SignUpOnlyOnInvalidCredentials | app-lecture/src/app/page.tsx:40-72 | sign-up is called exactly when the form passes and sign-in fails with an invalid-credentials message |
| Login.OtherSignInErrorRethrown | app-lecture/src/app/page.tsx:88-90 | any other sign-in error ends the flow with that message after the one call |
| Login.ProceedInsert | app-lecture/src/app/page.tsx:74-87 | a profile row is written only as the third call, after sign-up returned a user, with that user's id, the parsed age and its level |
| Login.InsertNeedsSignUp | app-lecture/src/app/page.tsx:58-90 | without an invalid-credentials error no profile row is written |
| Login.CreatedProfileLevel | app-lecture/src/app/page.tsx:75-84 | a written profile row carries the form's parsed age and the level of that age |
| Login.ErrorText | app-lecture/src/app/page.tsx:111 | the shown error is the message, or "Erreur de connexion" when it is empty |
| Login.Page.constructor | app-lecture/src/app/page.tsx:18-19 | no error, not loading |
| Login.Page.HandleLogin | app-lecture/src/app/page.tsx:33-115 | the flow runs for `Email(form)`; on success the store holds the profile and is authenticated and the page redirects; on failure the error text is shown and the store is untouched; loading ends either way |
| LoginCongo.HookClassify | app-lecture/src/app/page-congo-buggy.tsx:19-28 | slow exactly for slow-2g, 2g and 3g; the hook never reports offline |
| LoginCongo.QualityHook.constructor | app-lecture/src/app/page-congo-buggy.tsx:13-30 | fast without the Connection API, otherwise the classification of the current type |
| LoginCongo.QualityHook.OnChange | app-lecture/src/app/page-congo-buggy.tsx:31 | a change event reclassifies only when the Connection API is there; the quality is never offline |
| LoginCongo.ShouldUseAnimations | app-lecture/src/app/page-congo-buggy.tsx:63-65 | animations exactly on a fast connection |
| LoginCongo.AuthTimeout | app-lecture/src/app/page-congo-buggy.tsx:87-90 | 15 s on a slow connection, 10 s otherwise |
| LoginCongo.LocalPart | app-lecture/src/app/page-congo-buggy.tsx:84 | only a to z, a letter occurring exactly when it or its capital is in the name; a one-character name gives its lower-cased letter, or nothing |
| LoginCongo.LocalPartConcat | app-lecture/src/app/page-congo-buggy.tsx:84 | the local part is built character by character, so it is the lower-cased name with everything outside a to z removed, in order |
| LoginCongo.Email | app-lecture/src/app/page-congo-buggy.tsx:84 | the email is the local part, then "@classe", the lower-cased class code, then ".enaa" |
| LoginCongo.AccentsDropped | app-lecture/src/app/page-congo-buggy.tsx:84 | an accented letter is dropped: "Zoé" signs in as "zo" |
| LoginCongo.SignInError | app-lecture/src/app/page-congo-buggy.tsx:87-100 | a timeout gives the "Connexion trop lente" rejection; otherwise the backend's own error |
| LoginCongo.Flow | app-lecture/src/app/page-congo-buggy.tsx:67-162 | a failed check ends before any backend call, as on the main page |
| LoginCongo.FlowStart | app-lecture/src/app/page-congo-buggy.tsx:92-95 | a form that passes the checks reaches sign-in first, for this page's email |
| LoginCongo.TimeoutEndsFlow | app-lecture/src/app/page-congo-buggy.tsx:97-129 | a sign-in that times out ends the flow with the timeout message after the one call, and never creates an account |
| LoginCongo.TimeoutIsNotInvalidCredentials | app-lecture/src/app/page-congo-buggy.tsx:102 | the timeout's text is not an invalid-credentials message |
| LoginCongo.MissingCharNotContained | app-lecture/src/app/page-congo-buggy.tsx:102 | a string lacking a character of `sub` does not contain `sub` |
| LoginCongo.ErrorText | app-lecture/src/app/page-congo-buggy.tsx:154-158 | a message naming "timeout" or "network" becomes the slow-connection text; any other is shown as on the main page |
| LoginCongo.TimeoutShownVerbatim | app-lecture/src/app/page-congo-buggy.tsx:88 | the timeout's own message is shown word for word, since it names neither |
| LoginCongo.NetworkErrorReplaced | app-lecture/src/app/page-congo-buggy.tsx:154-155 | a message containing "network" is replaced by the slow-connection text |
| LoginCongo.Page.constructor | app-lecture/src/app/page-congo-buggy.tsx:46-47 | no error, not loading |
| LoginCongo.Page.HandleLogin | app-lecture/src/app/page-congo-buggy.tsx:67-162 | the flow runs for this page's email with the race deciding sign-in; on success the store holds the profile and the page redirects; on failure the mapped error is shown; loading ends either way |
| NetworkProvider.Classify | app-lecture/src/components/providers/CongoNetworkProvider.tsx:39-74 | offline exactly when the browser says so; online with the Connection API, slow exactly for 2g/3g types or a downlink under 2 Mb/s; online without it, slow exactly when the probe fails or takes over 2000 ms |
| NetworkProvider.OfflineWins | app-lecture/src/components/providers/CongoNetworkProvider.tsx:40-43 | offline wins whatever the Connection API or the probe says |
| NetworkProvider.LowDownlinkIsSlow | app-lecture/src/components/providers/CongoNetworkProvider.tsx:52 | a 4g connection with a 1.5 Mb/s downlink is slow |
| NetworkProvider.ShouldUseAnimations | app-lecture/src/components/providers/CongoNetworkProvider.tsx:128 | animations on a fast connection; stated by `FlagsComplementary` |
| NetworkProvider.ShouldUseLowBandwidthMode | app-lecture/src/components/providers/CongoNetworkProvider.tsx:129 | low-bandwidth mode on a slow or offline connection; stated by `FlagsComplementary` |
| NetworkProvider.FlagsComplementary | app-lecture/src/components/providers/CongoNetworkProvider.tsx:128-129 | exactly one of the two flags holds for every quality, animations exactly when fast |
| NetworkProvider.BodyClass | app-lecture/src/components/providers/CongoNetworkProvider.tsx:121-125 | the low-bandwidth class exactly in low-bandwidth mode, the high-bandwidth class exactly when animations are on |
| NetworkProvider.Restyled | app-lecture/src/components/providers/CongoNetworkProvider.tsx:114-126 | both classes removed and the quality's class added; every other class of the body kept |
| NetworkProvider.RestyledOneClass | app-lecture/src/components/providers/CongoNetworkProvider.tsx:114-126 | the body always ends with exactly one bandwidth class, and restyling twice is restyling once |
| NetworkProvider.Provider.constructor | app-lecture/src/components/providers/CongoNetworkProvider.tsx:28-34 | on mount the online flag is the browser's, the quality is classified from the first reading and the body is restyled for it |
| NetworkProvider.Provider.OnOnline | app-lecture/src/components/providers/CongoNetworkProvider.tsx:80-83 | online, then reclassified from the current reading, the body restyled |
| NetworkProvider.Provider.OnOffline | app-lecture/src/components/providers/CongoNetworkProvider.tsx:85-88 | offline quality whatever the connection says, the body in low-bandwidth style |
| NetworkProvider.Provider.OnConnectionChange | app-lecture/src/components/providers/CongoNetworkProvider.tsx:90-100 | reclassified only when a Connection object existed at mount, the body restyled |
| SponsorCarousel.NextIndex | app-lecture/src/components/ui/sponsor-carousel.tsx:63-67 | on a slide, next stays on a slide and is one step forward modulo five |
| SponsorCarousel.PrevIndex | app-lecture/src/components/ui/sponsor-carousel.tsx:69-73 | on a slide, previous stays on a slide and is one step back modulo five |
| SponsorCarousel.PrevNextInverse | app-lecture/src/components/ui/sponsor-carousel.tsx:63-73 | previous undoes next, and next undoes previous |
| SponsorCarousel.AdvanceBy | app-lecture/src/components/ui/sponsor-carousel.tsx:47-50 | k autoplay ticks; their position is `AdvanceByIsModular` |
| SponsorCarousel.AdvanceByIsModular | app-lecture/src/components/ui/sponsor-carousel.tsx:47-50 | k advances from slide i land on slide (i + k) mod 5 |
| SponsorCarousel.FullTurn | app-lecture/src/components/ui/sponsor-carousel.tsx:47-50 | five advances return to the starting slide |
| SponsorCarousel.Carousel.constructor | app-lecture/src/components/ui/sponsor-carousel.tsx:40-41 | the first slide, autoplaying |
| SponsorCarousel.Carousel.NextSlide | app-lecture/src/components/ui/sponsor-carousel.tsx:63-67 | the index becomes `NextIndex` of the old one; autoplay untouched; the index stays on a slide |
| SponsorCarousel.Carousel.PrevSlide | app-lecture/src/components/ui/sponsor-carousel.tsx:69-73 | the index becomes `PrevIndex` of the old one; autoplay untouched; the index stays on a slide |
| SponsorCarousel.Carousel.GoToSlide | app-lecture/src/components/ui/sponsor-carousel.tsx:56-58 | a dot jumps to its slide and pauses autoplay |
| SponsorCarousel.Carousel.Tick | app-lecture/src/components/ui/sponsor-carousel.tsx:44-54 | the autoplay tick advances only while autoplay is on |
| SponsorCarousel.Carousel.ResumeAutoPlay | app-lecture/src/components/ui/sponsor-carousel.tsx:60 | the delayed restart turns autoplay back on and keeps the slide |
| KidsProgress.ProgressValue | app-lecture/src/components/ui/kids-progress.tsx:42 | no finite fill with no steps; otherwise a percentage for a step in range, 100 exactly when done, 0 exactly at the start |
| KidsProgress.Stars | app-lecture/src/components/ui/kids-progress.tsx:63-70 | one star per step, numbered from 1, completed exactly before the current step and current exactly at it |
| KidsProgress.CurrentStarUnique | app-lecture/src/components/ui/kids-progress.tsx:63-70 | no star is both completed and current; at most one is current; none once every step is done |
| KidsProgress.CountCompleted | app-lecture/src/components/ui/kids-progress.tsx:67 | the number of completed stars; stated by `CountCompletedPrefix` |
| KidsProgress.CountCompletedPrefix | app-lecture/src/components/ui/kids-progress.tsx:67 | the completed stars number the current step, clamped to the row |
| KidsProgress.CompletedStarsCount | app-lecture/src/components/ui/kids-progress.tsx:67 | as many stars are completed as steps are done |
| KidsProgress.Label | app-lecture/src/components/ui/kids-progress.tsx:29 | "Réussi !" when completed, "En cours" when current, "À venir" otherwise |
| KidsProgress.Face | app-lecture/src/components/ui/kids-progress.tsx:23 | the star emoji once completed, the number otherwise |
| PhonemeHeader.ProgressValue | app-lecture/src/components/phoneme/shared/PhonemeHeader.tsx:37 | no finite value with no screens; 0 exactly on screen 1; below 100 on every screen of the exercise |
| PhonemeHeader.ProgressMonotone | app-lecture/src/components/phoneme/shared/PhonemeHeader.tsx:37 | a later screen never shows less progress |
| PhonemeHeader.DotColour | app-lecture/src/components/phoneme/shared/PhonemeHeader.tsx:82-86 | green before the current screen, blue on it, gray after it |
| PhonemeHeader.Dots | app-lecture/src/components/phoneme/shared/PhonemeHeader.tsx:77-89 | one dot per screen, dot i coloured for screen i + 1 |
| PhonemeHeader.ExactlyOneBlue | app-lecture/src/components/phoneme/shared/PhonemeHeader.tsx:77-89 | on a screen of the exercise exactly one dot is blue, the screens before it green and the rest gray |
| PhonemeHeader.CountsAddUp | app-lecture/src/components/phoneme/shared/PhonemeHeader.tsx:77-89 | every dot has exactly one colour |
| PhonemeHeader.Title | app-lecture/src/components/phoneme/shared/PhonemeHeader.tsx:18-27 | the title table's entry, undefined outside it |
| PhonemeHeader.TitlesDefined | app-lecture/src/components/phoneme/shared/PhonemeHeader.tsx:18-27 | screens 1 to 7 have non-empty titles; index 0 is the empty unused one and 8 has none |
| PhonemeHeader.Shown | app-lecture/src/components/phoneme/shared/PhonemeHeader.tsx:134 | at most the first four graphemes, in order |
| PhonemeHeader.More | app-lecture/src/components/phoneme/shared/PhonemeHeader.tsx:142-144 | the "+k" marker exactly when there are more than four graphemes, k being the number not shown |
| PhonemeHeader.ShownAndMoreCoverAll | app-lecture/src/components/phoneme/shared/PhonemeHeader.tsx:134-144 | the shown graphemes and the marker's number account for every grapheme |
| Text.TrimStart | app-lecture/src/app/page.tsx:40 | the result is the suffix after a run of white space, and does not start with white space |
| Text.TrimEnd | app-lecture/src/app/page.tsx:40 | the result is the prefix before a run of white space, and does not end with white space |
| Text.Trim | app-lecture/src/app/page.tsx:40 | `trim()`; its emptiness is `TrimEmptyIffAllSpace` |
| Text.Contains | app-lecture/src/app/page.tsx:58 | `includes`: the substring occurs at some index |
| Text.TrimEmptyIffAllSpace | app-lecture/src/app/page.tsx:40 | `trim()` is empty exactly when the string is all white space |
| Text.RemoveSpaces | app-lecture/src/app/page.tsx:50 | `replace(/\s+/g, '')` keeps exactly the non-white-space characters; one character is kept unless it is white space |
| Text.RemoveSpacesConcat | app-lecture/src/app/page.tsx:50 | the filter works character by character: the kept characters stay in order, none lost or repeated |
| Text.RemoveSpacesNone | app-lecture/src/app/page.tsx:50 | a string without white space is unchanged |
| Text.RemoveSpacesAllSpace | app-lecture/src/app/page.tsx:50 | a run of white space is removed entirely |
| Text.ToLower | app-lecture/src/app/page.tsx:50 | `toLowerCase` maps each character, and only A to Z change |
| Text.ToLowerConcat | app-lecture/src/app/page.tsx:50 | lower-casing works character by character |
| Text.ToLowerIdempotent | app-lecture/src/app/page.tsx:50 | lower-casing leaves no capital and is idempotent |
| Text.KeepLowerLetters | app-lecture/src/app/page-congo-buggy.tsx:84 | `replace(/[^a-z]/g, '')` keeps exactly the letters a to z; one character is kept exactly when it is one |
| Text.KeepLowerLettersConcat | app-lecture/src/app/page-congo-buggy.tsx:84 | the letter filter works character by character, keeping order |
| Text.DigitRun | app-lecture/src/app/page.tsx:44 | `parseInt` reads the longest run of digits |
| Text.ParseInt | app-lecture/src/app/page.tsx:44 | `parseInt` with no radix; stated by `ParseIntDigits` and `ParseIntNatToString` |
| Text.NatToString | app-lecture/src/components/phoneme/shared/PhonemeHeader.tsx:143 | the decimal spelling is non-empty, all digits, with no leading zero |
| Text.ValueOfNatToString | app-lecture/src/components/phoneme/shared/PhonemeHeader.tsx:143 | a printed number denotes its value |
| Text.ParseIntDigits | app-lecture/src/app/page.tsx:44 | a plain string of decimal digits parses to its value |
| Text.ParseIntNatToString | app-lecture/src/app/page.tsx:44 | printing a number and parsing it back gives the number |

## Left out

- Time: the 1.5 s and 1 s feedback delays, the 5 s autoplay resume, `setInterval` and `Date.now` are not modelled as clocks. A delayed step happens at once within the same call, and instants (`startTime`, timestamps) are parameters. A second click during a feedback delay, which the source does not guard against, is therefore not modelled.
- Randomness: each `sort(() => Math.random() - 0.5)` shuffle is a permutation supplied by the caller. Nothing is claimed about its distribution.
- Backend and authentication I/O: every query, insert, update, sign-in and sign-up answer is a parameter. For the progress save, the parameters are whether the `.single()` lookup failed (its error is discarded, so the save then inserts) and whether the write was refused. The id and creation instant of a new row are parameters too, the id being fresh. The model cannot say what the hosted service actually returns or whether it enforces the table's constraints.
- URL parsing: `new URL(...)` is reduced to the protocol prefix and substring tests on the full URL text. Relative paths are made absolute by prefixing a worker origin parameter, with no normalisation.
- ServiceWorker.AddAll: the model's `cache.addAll` is a simplified all-or-nothing rule. Everything is stored when every fetch answers with a 2xx status, and nothing otherwise. So one manifest entry that fails or answers with an error status leaves nothing of the manifest cached, and a reading in which the other entries are still stored does not match the code. The real API also rejects a 206 answer and a list holding the same request twice; the model accepts both.
- Service worker lifecycle: Response cloning, `waitUntil`, concurrent fetch handlers and console logging are left out. `skipWaiting` and `clients.claim` are recorded only as flags. The `updatefound` listener that posts a message to clients (app-lecture/public/sw.js:169-180) is left out because it is a platform notification with no state of its own.
- Text: `toLowerCase` is modelled for the ASCII letters only. Non-ASCII case mapping and Unicode normalisation are left out.
- Numbers: JavaScript doubles are reals, and NaN and division by zero are `None`. `Math.round` and `toFixed` display rounding are left out, and `createdAt` is an integer instant.
- Profiles: the free-form `preferences` column is not modelled.
- Persistence: the Zustand `persist` storage mechanics and `localStorage` are left out, including the Congo page's write of the signed-in profile under `enaa_user_cache` (app-lecture/src/app/page-congo-buggy.tsx:141-143), the only explicit `localStorage` write in the source (the `persist` middleware of app-lecture/src/stores/appStore.ts:107-113 writes there too, by default). Only the persisted projection and its restore are modelled.
- Congo sign-in race: the `Promise.race` between sign-in and the timeout is an outcome parameter. The connection probe's asynchrony is taken as one atomic classification step.
- Browser APIs: the body `classList` is a set of class names. `speechSynthesis`, audio playback and the `navigator.connection` listener wiring are left out.
- SponsorCarousel.Carousel.GoToSlide: requires an index within the slides, because its only callers are the five dots.
- Reconnaissance.Answer: requires the index to be on an exercise. The source has no guard here, and only the completion screen stops further answers. Reconnaissance.Screen.HandleAnswer carries the same precondition.
- Eleve page: navigation, the signed-out redirect, `handlePhonemeSelect` (app-lecture/src/app/eleve/page.tsx:101-104), logout and the icon and colour lookups of `getStatusIcon`/`getStatusColor` (app-lecture/src/app/eleve/page.tsx:113-127) are left out. They are routing and presentation with no rule of their own.
- Login pages: the redirect of a user who is already signed in (app-lecture/src/app/page.tsx:26-31, app-lecture/src/app/page-congo-buggy.tsx:56-60) is left out as routing.
- React Query: caching, retries, `staleTime` and invalidation after a mutation are left out. Only each query function's result is modelled.
- Record lookups: property names inherited from `Object.prototype` (for example a key spelled `constructor`) are not modelled. A record is a plain map from its own keys.
- Session summary: `completeSession` (app-lecture/src/stores/appStore.ts:87-95) only writes a summary to the console and changes no state, so it is left out with the other logging.
- Markup: the JSX, styling and animation of every screen and widget are left out. So are the stub screens that always report 85.
