# Reverie journal core, modelled in Dafny

Reverie is a client-side dream journal. This project models its state layer and the logic around it:

- **Journal store:** the in-memory list of dreams, plus the pending-edit ledger and the pending-delete list. These keep local changes alive until the backend confirms them. It also covers the merge that rebuilds the list after a fetch.
- **Session store:** the signed-in user, the persisted `{email, hasProfile}` record and the per-email profile cache.
- **Profile rules:** the table-driven zodiac classifier, the three-goal cap, the setup wizard and the profile editor.
- **Form and list helpers:** dream entry, tag chips, the list filter, and the comma-separated tag editor with its round trip.
- **Alarms:** the alarm list and its 12-hour time display.
- **Statistics:** the astrology panel (streaks, counts, achievements and insight fallbacks), the dashboard metrics and redirects, the analysis summary (mood and tag breakdowns, timeline, insight messages), and the sign-in page's submit guards and redirect.

The modules follow the source files:

| module | file |
|---|---|
| `Journal` | components/dreams-provider.tsx |
| `Session` | components/auth-provider.tsx |
| `ProfileSetup` | components/profile-setup.tsx |
| `ProfileModal` | components/profile-modal.tsx |
| `DreamEntry` | components/dream-entry.tsx |
| `DreamList` | components/dream-list.tsx |
| `Alarms` | components/alarm-settings.tsx |
| `AstroInsights` | components/astro-insights.tsx |
| `Dashboard` | app/dashboard/page.tsx |
| `DreamAnalysis` | components/dream-analysis.tsx |
| `SignIn` | app/auth/signin/page.tsx |

The modules they share:

- `Dreams`: the `Dream` record, the moods, the API mapping and the seed.
- `Profiles`: the profile record, the zodiac search and the goal toggle.
- `Counting`: a JavaScript `Map` or object used as a counter, keeping keys in first-insertion order. It also holds the running-maximum scan and integer rounding.
- `DreamCounts`: the per-dream tallies.
- Small libraries: `Text`, `Seqs`, `Sorting` and `Wrappers`.

State that the source updates in place is a class:

- `Journal.JournalStore`
- `Session.SessionStore`
- `ProfileSetup.SetupWizard`
- `ProfileModal.ProfileEditor`
- `Alarms.AlarmBoard`

Each method states its new state in terms of a pure function of the old one, and the lemmas are about those functions. Loops of the source are methods with invariants, proved against a specification function: the streak scans, the `forEach` counters, the running-maximum scans and the timeline.

The outside world enters as parameters. These are:
- each remote call's outcome (success flag, created id, fetched list);
- whether a window exists;
- the storage slots (empty, corrupt, or holding a value);
- the bearer token and the user id;
- fresh ids;
- today's day number, the current month, and the calendar month of an instant;
- the instant thirty days before now.

Dates are integer milliseconds since the epoch. The calendar day is `date / 86400000`.

The analysis view's insight messages are values of `DreamAnalysis.Insight`, one per kind of message. `DreamAnalysis.InsightText` gives the wording the view shows for each kind, and `DreamAnalysis.MessagesDistinct` shows that the wordings tell the kinds apart.

## Model

| member | source | states |
|---|---|---|
| Journal.KeysPerUser | components/dreams-provider.tsx:29-34 | storage keys are per email; a missing or empty email shares the guest slot |
| Journal.KeyFamiliesDisjoint | components/dreams-provider.tsx:29-34 | the dreams, pending-edit and pending-delete keys never collide |
| Journal.Excluding | components/dreams-provider.tsx:104-105 | the filter keeps exactly the records whose id is not excluded, in order |
| Journal.ExcludingAppend | components/dreams-provider.tsx:235 | filtering by id keeps relative order (distributes over concatenation) |
| Journal.Renamed | components/dreams-provider.tsx:167-172 | only records carrying the temporary id get the server id; positions and other records unchanged |
| Journal.Patched | components/dreams-provider.tsx:185-191 | only records with the matching id take the patch; an unknown id leaves the list unchanged |
| Journal.LastWithId | components/dreams-provider.tsx:184-191 | the record the update remembers is the last one carrying the id, absent iff none does |
| Journal.Ledger.Put | components/dreams-provider.tsx:199 | `pendingEdits[id] = d` sets that key only and keeps the ledger well formed |
| Journal.Ledger.Remove | components/dreams-provider.tsx:221-222 | `delete pendingEdits[id]` drops that key only; removing an absent key is the identity |
| Journal.PutThenRemove | components/dreams-provider.tsx:199-222 | recording an edit and then deleting it leaves the ledger as a plain deletion would |
| Journal.Ledger.Values | components/dreams-provider.tsx:116 | `Object.values` lists exactly the ledger's records |
| Journal.Overlay | components/dreams-provider.tsx:106-112 | each kept server record is replaced wholesale by its pending edit when there is one |
| Journal.Merge | components/dreams-provider.tsx:104-120 | merged length = local-only records + kept server records; every record comes from the server or the ledger |
| Journal.MergeDropsDeletes | components/dreams-provider.tsx:104-105 | no merged record carries a pending-delete id |
| Journal.MergeLayout | components/dreams-provider.tsx:114-120 | local-only records come first, then the kept server records in server order, each resolved against the ledger |
| Journal.LocalOnlyMembers | components/dreams-provider.tsx:115-118 | a ledger record is local-only iff the server lacks its id and it is not pending deletion |
| Journal.MergeShowsPendingEdit | components/dreams-provider.tsx:104-120 | a pending edit not pending deletion always appears after a merge |
| Journal.MergeEditWins | components/dreams-provider.tsx:106-111 | every merged record with a pending edit's id is the ledger's record, with no field-level merge |
| Journal.FailedCreateIsLost | components/dreams-provider.tsx:145-179 | a created dream that is neither on the server nor in the ledger is absent after a merge |
| Journal.JournalStore.constructor | components/dreams-provider.tsx:45-69 | the stored list when it parses, else an empty journal |
| Journal.JournalStore.SwitchUser | components/dreams-provider.tsx:45-69 | the load effect re-run for a new storage key: the new slot's list when it parses; an empty or corrupt slot keeps the previous user's records, which the persist effect then writes under the new key |
| Journal.SwitchCarriesOver | components/dreams-provider.tsx:45-69 | a switch to a user with an empty slot shows exactly the previous user's journal |
| Journal.JournalStore.SyncFromApi | components/dreams-provider.tsx:72-131 | without a token or on fetch failure nothing changes; otherwise the list becomes the merge of the mapped fetch |
| Journal.JournalStore.AddDream | components/dreams-provider.tsx:145-179 | the dream is prepended; with a token and a returned id only the temporary id is renamed; ledgers untouched |
| Journal.JournalStore.UpdateDream | components/dreams-provider.tsx:181-230 | list patched by id; the updated record is stored in the ledger and removed only on remote success; with a token and a successful call the id's ledger entry is removed even when no record carries the id; otherwise an unknown id changes nothing |
| Journal.JournalStore.DeleteDream | components/dreams-provider.tsx:232-278 | every record with the id leaves; the id is appended (duplicates possible) and its pending edit dropped; remote success removes all its occurrences |
| Journal.JournalStore.ResetDreams | components/dreams-provider.tsx:280-282 | the list becomes the fixed seed, nothing else changes |
| Journal.FailedUpdateSurvivesMerge | components/dreams-provider.tsx:194-227 | an update kept in the ledger after a failed call shows, and wins, in a later merge |
| Journal.DeleteHidesFromMerge | components/dreams-provider.tsx:237-253 | after a delete no later merge shows the id, as long as the id stays on the pending-delete list (a failed call keeps it there; a successful one takes it off) |
| Dreams.NewestFirst | components/dream-list.tsx:70-72 | a permutation of the input in non-increasing date order |
| Dreams.MoodLabel | app/dashboard/page.tsx:28-38 | a label exists exactly for the nine mood values |
| Dreams.MoodOptionsDistinct | components/dream-entry.tsx:6-16 | nine mood values, pairwise distinct |
| Dreams.FromApi | components/dreams-provider.tsx:78-87 | description = text, else summary, else ""; mood defaults to neutral; tags to []; lucidity = truthiness; analysis = summary or "" |
| Dreams.AllFromApi | components/dreams-provider.tsx:78 | every fetched record mapped, in order |
| Dreams.ApplyPatch | components/dreams-provider.tsx:187 | `{...d, ...p}`: present fields replace, the id never changes |
| Dreams.ApplyPatchIdempotent | components/dreams-provider.tsx:187 | patching twice is patching once; the empty patch is the identity |
| Session.ReadStoredAuth | components/auth-provider.tsx:34-54 | a record only with a window and a stored record carrying an email; corrupt text is removed |
| Session.ReadProfiles | components/auth-provider.tsx:56-76 | the cached object, else {}; corrupt text is removed |
| Session.InitialState | components/auth-provider.tsx:95-113 | no user without a stored email; otherwise hasProfile is the stored flag when defined (`??`), else whether a profile is cached |
| Session.LoginState | components/auth-provider.tsx:115-132 | empty email or password refused with nothing changed; hasProfile iff no setup required and a profile is cached; profile attached iff hasProfile; `{email, hasProfile}` persisted |
| Session.LogoutState | components/auth-provider.tsx:134-139 | no user; only the auth record is removed |
| Session.CompleteProfileState | components/auth-provider.tsx:141-160 | no-op without a user; otherwise hasProfile, the profile cached under the email and the flag persisted |
| Session.IsAuthenticated | components/auth-provider.tsx:165 | authenticated iff a user is present |
| Session.CompleteProfileKeepsOthers | components/auth-provider.tsx:153-155 | the cache maps the user's email to the profile, and other emails are untouched |
| Session.ProfileRoundTrip | components/auth-provider.tsx:115-160 | complete profile P, log out, log in again: hasProfile and profile P |
| Session.InitialFlagCanDisagree | components/auth-provider.tsx:110 | with `??` a stored false flag overrides a cached profile |
| Session.SessionStore.constructor | components/auth-provider.tsx:95-113 | the store starts in the initial state |
| Session.SessionStore.ReadProfileCache | components/auth-provider.tsx:56-76 | returns the cache and removes corrupt text, nothing else changes |
| Session.SessionStore.Login | components/auth-provider.tsx:115-132 | new state = LoginState; the error is returned exactly when login refuses |
| Session.SessionStore.Logout | components/auth-provider.tsx:134-139 | new state = LogoutState |
| Session.SessionStore.CompleteProfile | components/auth-provider.tsx:141-160 | new state = CompleteProfileState |
| Session.SessionStore.IsAuthenticated | components/auth-provider.tsx:165 | authenticated iff a user is present |
| Profiles.FirstMatch | components/profile-setup.tsx:134-148 | the first table row whose condition holds, none iff no row matches |
| Profiles.Classify | components/profile-setup.tsx:134-150 | the first matching row, else the first row |
| Profiles.SameRangesSameMatch | components/profile-modal.tsx:53-66 | two tables with equal signs and ranges classify every date the same |
| Profiles.ToggleGoal | components/profile-setup.tsx:184-194 | a present goal is filtered out, the others keeping their order; an absent one is appended at the end below the cap of 3, and at the cap the list is unchanged; cap and no-duplicates preserved |
| Profiles.ToggleGoalTwice | components/profile-setup.tsx:184-194 | adding then removing a goal restores the selection |
| ProfileSetup.CalculateZodiacSign | components/profile-setup.tsx:129-151 | sign, element and range of the first matching row, or Aries when none matches |
| ProfileSetup.CapricornRow | components/profile-setup.tsx:43-49 | only the tenth row is Capricorn |
| ProfileSetup.SignIndex | components/profile-setup.tsx:17-114 | a row index for every date |
| ProfileSetup.MatchesIffSignIndex | components/profile-setup.tsx:134-148 | a row's condition holds exactly at the dates assigned to it |
| ProfileSetup.ExactlyOneSign | components/profile-setup.tsx:17-150 | for months 1..12 exactly one row matches, so the Aries fallback is unreachable |
| ProfileSetup.CapricornWraps | components/profile-setup.tsx:137-140 | Capricorn covers December 22 on and January 19 back |
| ProfileSetup.CancerInJuly | components/profile-setup.tsx:137-140 | July up to the 22nd classifies as Cancer |
| ProfileSetup.SignElementsOffered | components/profile-setup.tsx:17-127 | every sign's element is one of the four offered |
| ProfileSetup.ZodiacFor | components/profile-setup.tsx:174-182 | a blank birthday has no zodiac, a picked one its computed sign |
| ProfileSetup.SetupRedirect | components/profile-setup.tsx:157-163 | signed out goes to sign-in, with a profile to the dashboard, otherwise stays |
| ProfileSetup.SetupWizard.RemainingSlots | components/profile-setup.tsx:172 | 3 minus the selection, never negative, 0 iff the cap is reached |
| ProfileSetup.SetupWizard.constructor | components/profile-setup.tsx:165-170 | step 1 with every field empty |
| ProfileSetup.SetupWizard.SetName | components/profile-setup.tsx:165-166 | only the name changes |
| ProfileSetup.SetupWizard.ChangeBirthday | components/profile-setup.tsx:174-182 | a blank date clears the zodiac, a picked one recomputes it |
| ProfileSetup.SetupWizard.ChooseElement | components/profile-setup.tsx:168 | only the element changes |
| ProfileSetup.SetupWizard.ClickGoal | components/profile-setup.tsx:486-501 | an enabled goal button toggles the goal; a disabled one changes nothing |
| ProfileSetup.SetupWizard.Next | components/profile-setup.tsx:329-330 | moves one step on only when the current step's field is filled |
| ProfileSetup.SetupWizard.Back | components/profile-setup.tsx:393 | moves one step back from steps 2-4 |
| ProfileSetup.SetupWizard.Complete | components/profile-setup.tsx:198-228 | completes iff user, name, birthday, element, a goal and a zodiac are present; request iff a user id; element lowercased |
| ProfileModal.CalculateZodiacSign | components/profile-modal.tsx:48-69 | sign, symbol, element, traits and dates of the first matching row, without a range; Aries when none matches |
| ProfileModal.ClassifiersAgree | components/profile-modal.tsx:33-69 | agrees with the setup classifier on every date |
| ProfileModal.DisplayedZodiac | components/profile-modal.tsx:109 | recomputed from a picked birthday, else the stored sign |
| ProfileModal.GoalDisabled | components/profile-modal.tsx:327 | disabled iff unselected and 3 are chosen |
| ProfileModal.EnabledGoalToggles | components/profile-modal.tsx:111-121 | an enabled button always changes the selection, a disabled one never |
| ProfileModal.ProfileEditor.constructor | components/profile-modal.tsx:73-82 | empty form, not editing, no message |
| ProfileModal.ProfileEditor.LoadFrom | components/profile-modal.tsx:97-104 | the form fields are taken from the stored profile |
| ProfileModal.ProfileEditor.ToggleGoalButton | components/profile-modal.tsx:111-121 | the selection becomes its toggle, nothing else changes |
| ProfileModal.ProfileEditor.Save | components/profile-modal.tsx:123-175 | no user id or a missing field sets an error; completeProfile with a recomputed zodiac runs only after remote success; failure sets the message; a refused save leaves the editing and success flags as they were |
| ProfileModal.ProfileEditor.Cancel | components/profile-modal.tsx:177-186 | the fields return to the stored profile and editing ends |
| DreamEntry.Submit | components/dream-entry.tsx:53-81 | ignored while submitting; a blank title or description or no mood is rejected; otherwise a dream with trimmed texts, analysis = description, and the form reset |
| DreamEntry.AddTag | components/dream-entry.tsx:83-94 | the trimmed input is appended only if non-blank and new; chips stay trimmed, non-empty and distinct |
| DreamEntry.RemoveTag | components/dream-entry.tsx:96-101 | the chips filtered by that tag, the others kept in order; nothing else changes |
| DreamEntry.AddThenRemoveTag | components/dream-entry.tsx:83-101 | removing a just-added chip restores the chips |
| DreamList.Select | components/dream-list.tsx:53-69 | keeps exactly the dreams the filter accepts, all of them when every dream passes |
| DreamList.SelectAppend | components/dream-list.tsx:53-69 | the filter distributes over concatenation, so kept dreams stay in journal order with all their occurrences |
| DreamList.FilterDreams | components/dream-list.tsx:51-73 | the accepted dreams, newest first, as a permutation of the selection |
| DreamList.FilterHonoursSelectors | components/dream-list.tsx:55-60 | lucid-only and a selected mood hold for every dream shown |
| DreamList.NoFiltersShowsAll | components/dream-list.tsx:52-63 | a blank search with no selectors shows every dream |
| DreamList.CleanTags | components/dream-list.tsx:93-94 | trimmed, non-empty tags |
| DreamList.ParseTags | components/dream-list.tsx:91-94 | no parsed tag is empty, untrimmed or contains a comma |
| DreamList.ParseTagsRoundTrip | components/dream-list.tsx:81-94 | tags joined with ", " and re-parsed come back unchanged when trimmed, non-empty and comma-free |
| DreamList.BeginEditing | components/dream-list.tsx:75-84 | the form is filled from the dream, and its tag text parses back to the tags |
| DreamList.SaveEdits | components/dream-list.tsx:86-105 | nothing without an edited dream; otherwise the patch has trimmed texts and analysis = description |
| DreamList.EditUnchangedKeepsDream | components/dream-list.tsx:75-105 | saving an unchanged editor keeps the dream, with analysis set to the description |
| Alarms.AlarmsKey | components/alarm-settings.tsx:23-26 | per-email key, guest fallback |
| Alarms.DisplayHour | components/alarm-settings.tsx:74 | 0 gives 12, 1..12 are unchanged, above 12 subtract 12; always 1..12 |
| Alarms.Period | components/alarm-settings.tsx:73 | AM iff before noon |
| Alarms.FormatTime | components/alarm-settings.tsx:72-77 | 7-8 characters, ending in the period |
| Alarms.FormatTimeRoundTrip | components/alarm-settings.tsx:72-77 | the displayed text reads back to the same hour and minute |
| Alarms.ApplyAlarmPatch | components/alarm-settings.tsx:114 | present fields replace, the id never changes |
| Alarms.Toggled | components/alarm-settings.tsx:103-107 | only matching alarms flip `enabled` |
| Alarms.ToggleTwice | components/alarm-settings.tsx:103-107 | toggling twice is the identity |
| Alarms.Updated | components/alarm-settings.tsx:113-115 | only matching alarms take the updates |
| Alarms.Removed | components/alarm-settings.tsx:109-111 | every alarm with the id goes, the others stay |
| Alarms.RemovedAppend | components/alarm-settings.tsx:109-111 | removal keeps relative order |
| Alarms.AlarmBoard.constructor | components/alarm-settings.tsx:37-62 | the stored list when it parses, else the single default alarm |
| Alarms.AlarmBoard.OpenComposer | components/alarm-settings.tsx:79-88 | the draft is reset to the new-alarm template |
| Alarms.AlarmBoard.EditDraft | components/alarm-settings.tsx:241-290 | the draft becomes ApplyAlarmPatch of the old draft; the list and the composer flag stay |
| Alarms.AlarmBoard.CloseComposer | components/alarm-settings.tsx:295 | the composer closes; the list and the draft stay |
| Alarms.AlarmBoard.SaveDraft | components/alarm-settings.tsx:90-101 | exactly one alarm is prepended, with the draft id or else the fresh one |
| Alarms.AlarmBoard.ToggleAlarm | components/alarm-settings.tsx:103-107 | the list becomes Toggled |
| Alarms.AlarmBoard.DeleteAlarm | components/alarm-settings.tsx:109-111 | the list becomes Removed |
| Alarms.AlarmBoard.UpdateAlarmField | components/alarm-settings.tsx:113-115 | the list becomes Updated |
| Counting.Bump | app/dashboard/page.tsx:113 | `map.set(k, (map.get(k) ?? 0) + 1)`: a new key goes last, an existing key keeps its place |
| Counting.BumpCount | app/dashboard/page.tsx:113 | the bumped key gains one, every other count is unchanged |
| Counting.BumpKeys | app/dashboard/page.tsx:113 | keys stay distinct, and the key set gains the bumped key |
| Counting.BumpTotal | app/dashboard/page.tsx:113 | the total grows by one |
| Counting.BumpAll | app/dashboard/page.tsx:114-116 | the inner `forEach` counts every element of the list |
| Counting.TallyKeys | app/dashboard/page.tsx:104-117 | distinct keys, exactly the elements counted |
| Counting.TallyCounts | app/dashboard/page.tsx:104-117 | each key's count is its number of occurrences |
| Counting.TallyTotal | app/dashboard/page.tsx:104-117 | counts add up to the number of elements |
| Counting.TallyFirstSeen | app/dashboard/page.tsx:104-117 | keys are in first-occurrence order |
| Counting.Leader | app/dashboard/page.tsx:119-126 | none iff no positive count; otherwise the first entry with the maximal count |
| Counting.TopEntry | app/dashboard/page.tsx:119-135 | the strict-`>` running-maximum scan returns the leader and its count, or null and 0 |
| Counting.MostCommonFirstSeen | app/dashboard/page.tsx:119-135 | on a counting map: a most frequent element, ties going to the first seen; none iff the input is empty |
| Counting.DistinctKeys | app/dashboard/page.tsx:144 | the map's size is the number of distinct elements |
| Counting.PermutedTally | components/dream-analysis.tsx:59-70 | a reordered counting map has distinct keys, one per element, with their occurrence counts, adding up to the total |
| Counting.RoundPercent | app/dashboard/page.tsx:137 | `Math.round(part / whole * 100)` in exact arithmetic: at most 100 for part <= whole, 0 for part 0 |
| Counting.RoundPercentNearest | app/dashboard/page.tsx:137 | the rounded percentage is the nearest integer to 100 * part / whole, halves going up |
| DreamCounts.LucidCount | components/astro-insights.tsx:118 | at most the number of dreams |
| DreamCounts.CountDreams | app/dashboard/page.tsx:104-117 | one pass computes the lucid count and the mood and tag counting maps |
| AstroInsights.Days | components/astro-insights.tsx:83-87 | each dream's calendar day, in order |
| AstroInsights.RunEnd | components/astro-insights.tsx:82-96 | the first break at or after i, with the run unbroken before it |
| AstroInsights.InnerRunShorter | components/astro-insights.tsx:99-115 | a run inside another spans no more days |
| AstroInsights.RunsBounded | components/astro-insights.tsx:101-114 | the runs seen so far are bounded by the running maximum |
| AstroInsights.CurrentStreak | components/astro-insights.tsx:75-97 | 0 unless the newest dream is at most a day old; otherwise the days spanned by the leading run |
| AstroInsights.LongestStreak | components/astro-insights.tsx:99-115 | at least the current streak and at least 1; no unbroken run spans more; attained by the current streak or by some run |
| AstroInsights.MoodsOf | components/astro-insights.tsx:123-127 | only non-empty moods, at most one per dream |
| AstroInsights.MoodDistribution | components/astro-insights.tsx:121-127 | the loop builds the counting map of the non-empty moods |
| AstroInsights.TagFrequency | components/astro-insights.tsx:129-135 | the nested loop builds the counting map of all tags |
| AstroInsights.MoodDistributionCounts | components/astro-insights.tsx:121-127 | one entry per non-empty mood with its count; the sum is at most the number of dreams |
| AstroInsights.TagFrequencyCounts | components/astro-insights.tsx:129-135 | one entry per tag with its count; the sum is the number of tag occurrences |
| AstroInsights.Achievements | components/astro-insights.tsx:137-147 | eight achievements, each unlocked iff its metric reaches its threshold |
| AstroInsights.AchievementsMonotone | components/astro-insights.tsx:137-147 | larger counts never lock an achievement |
| AstroInsights.CalculateDreamStats | components/astro-insights.tsx:50-159 | empty input gives zeros and empty maps; otherwise the streaks, the lucid count, a rate in 0..100, the maps and achievements |
| AstroInsights.DayMonotone | components/astro-insights.tsx:65 | sorting newest first makes the days non-increasing |
| AstroInsights.InsightSign | components/astro-insights.tsx:263-281 | a sign with texts maps to itself, any other sign falls back to Aries |
| AstroInsights.CompatibilityElement | components/astro-insights.tsx:287 | an element with a text maps to itself, any other element falls back to Fire |
| AstroInsights.ClassifiedSignsHaveTexts | components/astro-insights.tsx:263-287 | every sign and element either classifier yields has its own texts |
| Dashboard.ComputeMetrics | app/dashboard/page.tsx:89-151 | empty gives zeros, null tops and a dash; otherwise count, lucid count, rounded rate <= 100, distinct tags, recent mood label and most frequent mood and tag with first-seen ties |
| Dashboard.DashboardRedirect | app/dashboard/page.tsx:61-67 | signed out goes to sign-in (home while logging out); without a profile to setup; otherwise stays |
| Dashboard.GreetingName | app/dashboard/page.tsx:305 | the trimmed profile name, else the email, else "dreamer"; never empty |
| Dashboard.DisplayName | app/dashboard/page.tsx:305-307 | the greeting name with its first letter uppercased |
| Dashboard.HelperTextsReadBack | app/dashboard/page.tsx:216-231 | the helper text starts with the count and is singular iff the count is 1 |
| DreamAnalysis.FrequentTagsRanked | components/dream-analysis.tsx:59-62 | min(10, n) entries from the map, non-increasing counts, none left out larger than one kept |
| DreamAnalysis.MoodBreakdown | components/dream-analysis.tsx:64-70 | one row per entry of the mood map |
| DreamAnalysis.MoodBreakdownRanked | components/dream-analysis.tsx:64-70 | a permutation of the map in non-increasing count order, each with its rounded share |
| DreamAnalysis.BreakdownCountsMoods | components/dream-analysis.tsx:52-70 | one row per distinct mood with its count, shares at most 100, counts summing to the total |
| DreamAnalysis.FrequentTagsCounted | components/dream-analysis.tsx:52-62 | the frequent tags are distinct tags with their occurrence counts |
| DreamAnalysis.InMonth | components/dream-analysis.tsx:78-84 | at most the number of dreams |
| DreamAnalysis.Timeline | components/dream-analysis.tsx:72-88 | the loop builds exactly 6 months, oldest first ending at this month, each with its dream count |
| DreamAnalysis.OnOrAfter | components/dream-analysis.tsx:90-96 | exactly the dreams dated at or after the cutoff |
| DreamAnalysis.OnOrAfterAppend | components/dream-analysis.tsx:92-96 | the cutoff filter distributes over concatenation, so the recent dreams keep list order with all their occurrences |
| DreamAnalysis.RecentDreams | components/dream-analysis.tsx:90-97 | the first min(6, n) recent dreams |
| DreamAnalysis.MoodMessage | components/dream-analysis.tsx:123-126 | starts with the mood prefix |
| DreamAnalysis.LucidityMessage | components/dream-analysis.tsx:101-112 | none lucid, rate >= 25, rate >= 10 and below 10 each select their own message |
| DreamAnalysis.RecallMessages | components/dream-analysis.tsx:114-118 | at most one message, neither lucidity nor mood; great recall iff 5 or more recent dreams; slowed iff fewer and more than 5 dreams |
| DreamAnalysis.MoodMessages | components/dream-analysis.tsx:120-128 | a mood message iff the top row holds at least 40 percent, naming the mood's label or else the mood |
| DreamAnalysis.InsightLucidityFirst | components/dream-analysis.tsx:99-112 | exactly one lucidity message, and it comes first |
| DreamAnalysis.InsightRecall | components/dream-analysis.tsx:114-118 | the great-recall and slowed-recall messages appear exactly under their thresholds |
| DreamAnalysis.InsightMood | components/dream-analysis.tsx:120-128 | a mood message appears iff the top mood holds at least 40 percent |
| DreamAnalysis.MessagesDistinct | components/dream-analysis.tsx:104-125 | distinct fixed messages have distinct texts, and a text starts with the mood prefix iff it is a mood message |
| DreamAnalysis.AssembledDescribes | components/dream-analysis.tsx:43-142 | the summary built from the journal's tallies and timeline has a non-empty breakdown and describes the journal |
| DreamAnalysis.Summarize | components/dream-analysis.tsx:43-142 | none iff no dreams; otherwise a summary that describes the journal: every field as the parts above define it, with a rate of at most 100 |
| SignIn.HandleSubmit | app/auth/signin/page.tsx:48-74 | an empty field or a sign-up mismatch sets its message without calling login; otherwise login runs with setup required iff signing up, succeeds, and the form resets |
| SignIn.SubmitSignsIn | app/auth/signin/page.tsx:64-67 | a submit that reaches login signs in that email; a sign-up lands without a profile and is sent to setup |
| SignIn.SignInRedirect | app/auth/signin/page.tsx:25-33 | signed in goes to the dashboard with a profile, else to setup; signed out stays |
| SignIn.RedirectsSettle | app/auth/signin/page.tsx:25-33 | the sign-in, dashboard and setup redirects never send a visitor to a page that redirects back |

## Left out

- Time zones, daylight saving and local midnight: a calendar day is UTC `date / 86400000`, and "today", the current month and the calendar month of an instant are parameters.
- Invalid dates (`NaN` times) and parsing of date strings: dates are integers.
- `Math.round` on floating-point ratios: modelled as exact round-half-up, which can differ from the float result only in the last bit of a tie.
- Integer-like keys and special keys such as `__proto__` in JavaScript objects: objects and `Map`s keep plain insertion order in the model.
- Sorting.SortBy: the sort is stable by construction (equal counts keep first-seen order), but stability is not stated as a contract.
- React effects, `startTransition`, async interleaving and deferred state updaters: each operation runs to completion with its remote outcome given.
- The HTTP calls (lib/api): each remote call is a success flag, a returned id or a fetched list.
- JSON parsing and localStorage: a storage slot is empty, corrupt or holds a value. `SHOULD_PERSIST_AUTH` is always true.
- JWT decoding with `atob` in the profile editor: the user id is an input.
- The `saveSuccess` timeout in the profile editor.
- `getMoonPhase`, the astrology text tables, emoji, icons, styles and month labels (`toLocaleDateString`).
- The wizard's sign glyphs are kept as opaque texts. They take no part in any contract.
- `Trim` strips ASCII whitespace, U+00A0 and U+FEFF; `ToLower` and `UpperChar` (behind `Dashboard.DisplayName`) map ASCII letters only; other Unicode whitespace and case mapping are not modelled.
- Dreams.ApplyPatch: an `id` in a patch is not modelled; no caller passes one.
- Journal.JournalStore.constructor: it requires a well-formed ledger (keys listed once, each record under its own id). The source assumes this too, because the ledger is only written by the store itself.
- DreamCounts.CountDreams: the analysis view counts lucid dreams with a separate filter. Reusing the one-pass count there gives the same number.
- The landing page, the celestial components, the routing shells and static content.
- Three behaviours of the source that may look unintended are modelled as the code does them:
  - the stored `hasProfile` flag is combined with `??`, so a stored `false` flag wins over a cached profile (Session.InitialFlagCanDisagree);
  - a created dream whose remote create fails is lost on the next merge (Journal.FailedCreateIsLost);
  - repeated deletes append duplicate ids (Journal.JournalStore.DeleteDream).
