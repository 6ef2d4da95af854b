# Excuse generator front end — a Dafny model

This project models the state and logic of the five main views of a browser app that generates excuses:

- **excuse generator** — picks a template of the chosen category, rewrites it for the urgency and believability sliders and the custom context, records it at the head of a history capped at 50 entries, and counts it in a statistics record;
- **excuse history** — loads the stored history and gives each entry a synthetic success rate, then searches, filters, sorts, favourites, deletes and clears it. Favouriting, deleting and clearing write back to storage. Sorting does not: when no filter applies it reorders the state array in place, and that order reaches storage only with the next favourite or delete;
- **settings page** — a flat configuration record, shallow-merged with stored and imported JSON objects;
- **emergency panel** — four scenarios, a two-field activation state, and the rule that greys out the other scenarios' buttons. The page mounts the component twice, once as the header button (src/pages/Index.tsx:61) and once as the panel (src/pages/Index.tsx:144). Each mount is its own `EmergencySystem` object, so the header button activates its own instance and the panel's state does not change;
- **proof generator** — builds one of four kinds of document from a form whose empty fields fall back to defaults, and names the downloaded file.

Storage, the clock and `Math.random()` are not part of the model. A storage key's value is an `Option` parameter that a member takes in and returns. A clock reading is an `int` or `string` parameter. A random draw is a `real` in `[0, 1)`.

Modules:

- `Wrappers` — `Option`.
- `Lists` — `Filter` and subsequences.
- `Text` — the string operations the views use:
  - `includes`;
  - non-global `replace`;
  - ASCII `toLowerCase`;
  - `replace(/\s+/g, …)`;
  - decimal rendering.
- `ExcuseRecord` — the stored history entry, shared by two views.
- `ExcuseHistory`, `ExcuseGenerator`, `Settings`, `Emergency` and `ProofGenerator` — one module per view.

Modules that hold state use a class whose methods update its fields in place. The history view keeps its lists in arrays. This is because `Array.prototype.sort` reorders the state array itself when neither filter applies. The settings page and the proof generator replace their state wholesale, so they are modelled as functions on values.

## Model

| member | source | states |
|---|---|---|
| ExcuseHistory.Persisted | src/components/ExcuseHistory.tsx:106-114 | the record written back keeps exactly the seven stored fields and drops the success rate |
| ExcuseHistory.SyntheticRate | src/components/ExcuseHistory.tsx:52 | the synthetic success rate lies between 70 and 99: 100 is never drawn |
| ExcuseHistory.Loaded | src/components/ExcuseHistory.tsx:48-53 | a missing key loads as the empty list; each stored record is kept and gains a rate in 70..99 |
| ExcuseHistory.Persist | src/components/ExcuseHistory.tsx:106-114 | the list written back has the same length and order, each record projected |
| ExcuseHistory.PersistLoadedRoundTrip | src/components/ExcuseHistory.tsx:48-53 | writing back what was loaded gives exactly the stored list |
| ExcuseHistory.SuccessRateColor | src/components/ExcuseHistory.tsx:162-166 | green exactly from 90, yellow exactly on 75..89, red exactly below 75 |
| ExcuseHistory.ParseSortKey | src/components/ExcuseHistory.tsx:78-94 | each of the five selector values maps to its own key and only it; any other value sorts nothing |
| ExcuseHistory.Insert | src/components/ExcuseHistory.tsx:78-94 | inserting into a sorted list keeps it sorted and adds exactly the one record |
| ExcuseHistory.ComparatorIsRankDifference | src/components/ExcuseHistory.tsx:80-92 | each of the five comparators is the difference of two ranks: a record goes first exactly when it ranks higher, and the comparator reports a tie exactly on equal ranks |
| ExcuseHistory.OfRank | src/components/ExcuseHistory.tsx:78-94 | the records of one rank, in list order: never more than the list, and all of that rank |
| ExcuseHistory.InsertIsStable | src/components/ExcuseHistory.tsx:78-94 | inserting a record into a sorted list puts it before the records of its own rank and keeps their order |
| ExcuseHistory.SortBy | src/components/ExcuseHistory.tsx:78-94 | the comparator sort yields a list sorted by the key that is a permutation of its input |
| ExcuseHistory.SortByIsStable | src/components/ExcuseHistory.tsx:78-94 | the sort is stable: the records of each rank come out in their input order |
| ExcuseHistory.MatchesSearch | src/components/ExcuseHistory.tsx:61-65 | an empty term matches every record; a record matches only a term no longer than its text or its category |
| ExcuseHistory.MatchesCategory | src/components/ExcuseHistory.tsx:69-75 | with 'favorites' a record matches exactly when it is a favourite; with any other value exactly when its category is that value |
| ExcuseHistory.Selected | src/components/ExcuseHistory.tsx:58-75 | never longer than the list; with no term and category 'all' it is the list itself; every record kept matches the term (when there is one) and the category (unless 'all') |
| ExcuseHistory.SelectedKeepsExactlyMatches | src/components/ExcuseHistory.tsx:60-75 | the filters keep an order-preserving subsequence; a record stays iff it matches the term (when there is one) and the category (unless 'all'; 'favorites' means the flag) |
| ExcuseHistory.Arrange | src/components/ExcuseHistory.tsx:57-96 | as long as the filtered list; an unknown sort value leaves the filtered list as it is |
| ExcuseHistory.ArrangeIsPermutationOfSelected | src/components/ExcuseHistory.tsx:77-94 | sorting the filtered list adds and drops nothing |
| ExcuseHistory.ArrangeOrder | src/components/ExcuseHistory.tsx:77-94 | 'recent' gives newest first, 'oldest' oldest first; success (missing as 0), urgency and believability give largest first; an unknown key keeps the filtered order |
| ExcuseHistory.FavoriteToggled | src/components/ExcuseHistory.tsx:99-102 | same length; the flag flips exactly on the records carrying the id; every other field and record is unchanged |
| ExcuseHistory.ToggleTwiceRestores | src/components/ExcuseHistory.tsx:99-102 | toggling the same id twice restores the list |
| ExcuseHistory.Deleted | src/components/ExcuseHistory.tsx:131-132 | the result is a subsequence holding exactly the records whose id differs, each as often as before |
| ExcuseHistory.DeleteAbsentIdKeepsAll | src/components/ExcuseHistory.tsx:131-132 | deleting an id nobody carries keeps the list as it is |
| ExcuseHistory.FavoriteCount | src/components/ExcuseHistory.tsx:205 | the counter is at most the list's length, and 0 exactly when no record is a favourite |
| ExcuseHistory.FavoriteCountCounts | src/components/ExcuseHistory.tsx:205 | the counter is 0 for no records and grows by one exactly for each favourite |
| ExcuseHistory.CategoriesUsed | src/components/ExcuseHistory.tsx:213-216 | the categories counter holds every category of the list and nothing else; it is at least 1 for a non-empty list |
| ExcuseHistory.ToggleKeepsCategories | src/components/ExcuseHistory.tsx:213-216 | toggling a favourite leaves the categories in use unchanged |
| ExcuseHistory.SortInPlace | src/components/ExcuseHistory.tsx:80-93 | the array afterwards holds the sorted sequence of its old contents |
| ExcuseHistory.HistoryView.constructor | src/components/ExcuseHistory.tsx:32-36 | empty lists, empty search, category 'all', sort 'recent' |
| ExcuseHistory.HistoryView.LoadExcuses | src/components/ExcuseHistory.tsx:47-55 | the list becomes the loaded list, the controls are untouched |
| ExcuseHistory.HistoryView.FilterAndSortExcuses | src/components/ExcuseHistory.tsx:57-97 | the shown list is the filtered, sorted list; with no term and category 'all' it is the state array itself, which the sort reorders in place; otherwise a new array, and the state list is untouched |
| ExcuseHistory.HistoryView.ToggleFavorite | src/components/ExcuseHistory.tsx:99-115 | the new list is the toggled list, and the stored value is its projection |
| ExcuseHistory.HistoryView.DeleteExcuse | src/components/ExcuseHistory.tsx:131-145 | the new list is the list without the id, and the stored value is its projection |
| ExcuseHistory.HistoryView.ClearAllHistory | src/components/ExcuseHistory.tsx:153-155 | the list is emptied and the storage key removed |
| Text.ContainsIffOccurs | src/components/ExcuseHistory.tsx:63-64 | `includes` holds exactly when the needle occurs at some position |
| Text.IndexOf | src/components/ExcuseHistory.tsx:63-64 | the position found is an occurrence with none before it; no position means the needle occurs nowhere |
| Text.ReplaceFirst | src/components/ExcuseGenerator.tsx:89 | with no occurrence the text is unchanged; with one, the length changes by the difference between replacement and pattern |
| Text.ReplaceFirstAt | src/components/ExcuseGenerator.tsx:89 | the replacement happens at the first occurrence and leaves both sides intact |
| Text.ToLower | src/components/ExcuseHistory.tsx:63-64 | the same length, each ASCII capital lowered and every other character kept |
| Text.ToLowerIdempotent | src/components/ExcuseHistory.tsx:63-64 | lower-casing twice is lower-casing once |
| Text.ReplaceWhitespaceRuns | src/components/ProofGenerator.tsx:192 | replacing whitespace runs never makes a string longer |
| Text.NoWhitespaceLeft | src/components/ProofGenerator.tsx:192 | after replacing whitespace runs with a non-space separator, no whitespace remains |
| Text.NoWhitespaceUnchanged | src/components/ProofGenerator.tsx:192 | a string without whitespace is left as it is |
| Text.OneSpaceReplaced | src/components/ProofGenerator.tsx:192 | two words without whitespace joined by one space come out joined by the separator |
| Text.DecimalString | src/components/ProofGenerator.tsx:192 | the rendering has at least one character, only decimal digits, and no leading zero for a positive number |
| Text.DecimalRoundTrip | src/components/ProofGenerator.tsx:192 | the decimal rendering of the clock reading reads back to the same number |
| ExcuseGenerator.Templates | src/components/ExcuseGenerator.tsx:46-75 | exactly the four categories have templates, five each |
| ExcuseGenerator.TemplateIndex | src/components/ExcuseGenerator.tsx:85 | the random index always falls inside the template list |
| ExcuseGenerator.Emphasised | src/components/ExcuseGenerator.tsx:88-90 | below urgency 8 the template is unchanged, and so is a template with neither "I'm" nor "There's" |
| ExcuseGenerator.LeadingOccurrenceReplaced | src/components/ExcuseGenerator.tsx:89 | a template starting with the pattern has that leading occurrence replaced and the rest kept |
| ExcuseGenerator.Composed | src/components/ExcuseGenerator.tsx:87-98 | the unusual-note sentence is appended exactly at believability 3 or below; the context label and context end the text exactly when a context is given |
| ExcuseGenerator.ContextComesLast | src/components/ExcuseGenerator.tsx:92-98 | the text with a context is the text without one followed by the context label and the context |
| ExcuseGenerator.ComposeExcuse | src/components/ExcuseGenerator.tsx:85-98 | the successive reassignments produce the composed text |
| ExcuseGenerator.CappedPrepend | src/components/ExcuseGenerator.tsx:113-114 | the new entry is first, followed by the old entries in order, truncated to 50 |
| ExcuseGenerator.GenerationsStayBounded | src/components/ExcuseGenerator.tsx:113-114 | however many generations happen, the history length is min(old + generated, 50) |
| ExcuseGenerator.GenerationsNewestFirst | src/components/ExcuseGenerator.tsx:113-114 | after several generations the newest are first, newest at the head, then the earlier history in order |
| ExcuseGenerator.CountGeneration | src/components/ExcuseGenerator.tsx:117-121 | the total grows by one, the category becomes the favourite, the rate is kept; with nothing stored it starts from 0/85/'work' |
| ExcuseGenerator.SaveToFavorites | src/components/ExcuseGenerator.tsx:155-165 | with a non-empty history only the newest entry becomes a favourite; otherwise nothing is written |
| ExcuseGenerator.GeneratorView.constructor | src/components/ExcuseGenerator.tsx:29-34 | category 'work', urgency 3, believability 7, nothing generated |
| ExcuseGenerator.GeneratorView.GenerateExcuse | src/components/ExcuseGenerator.tsx:77-145 | a category without templates fails before anything is shown or stored; otherwise the shown text, the capped history, the counted statistics and the published statistics; never left generating |
| Settings.Merge | src/components/Settings.tsx:55 | each key present in the object overrides its field, every other field is kept |
| Settings.AsPatch | src/components/Settings.tsx:60 | the JSON object of a whole record carries every key |
| Settings.MergeNoKeys | src/components/Settings.tsx:52-56 | an object without configuration keys changes nothing |
| Settings.MergeIdempotent | src/components/Settings.tsx:93 | merging the same object twice is merging it once |
| Settings.MergeWholeRecord | src/components/Settings.tsx:93 | merging a whole record's object replaces everything |
| Settings.SaveSettings | src/components/Settings.tsx:59-60 | the stored value carries the whole current record |
| Settings.LoadSettings | src/components/Settings.tsx:52-57 | a missing key changes nothing; a stored object is merged shallowly |
| Settings.SaveThenLoad | src/components/Settings.tsx:52-60 | loading what was saved restores it over any current record |
| Settings.ImportSettings | src/components/Settings.tsx:85-107 | no file: no change and no notice; an unparsable file: no change and a failure notice; a parsed object: merged, with a success notice |
| Settings.ImportOfExportRestores | src/components/Settings.tsx:67-107 | importing an exported record restores it exactly |
| Settings.ResetSettings | src/components/Settings.tsx:109-122 | the defaults are the initial record, three empty contacts, and the stored value is removed |
| Settings.UpdateEmergencyContact | src/components/Settings.tsx:138-142 | only the indexed contact changes; the list's length and every other field are kept |
| Emergency.FindIn | src/components/EmergencySystem.tsx:58 | a found scenario is in the table with that id; none found means no entry has it |
| Emergency.FindScenario | src/components/EmergencySystem.tsx:26-59 | a scenario is found exactly for the four ids of the table |
| Emergency.ButtonDisabled | src/components/EmergencySystem.tsx:152 | a button is disabled exactly while a scenario is active and the button is another scenario's; the selected scenario's button never is |
| Emergency.DisabledButtons | src/components/EmergencySystem.tsx:150-152 | in a consistent state no button is disabled while inactive, and exactly three while active |
| Emergency.UrgencyBadge | src/components/EmergencySystem.tsx:136-137 | destructive exactly for 'critical', default exactly for 'high', secondary otherwise |
| Emergency.EmergencySystem.constructor | src/components/EmergencySystem.tsx:22-23 | inactive, nothing selected |
| Emergency.EmergencySystem.Activate | src/components/EmergencySystem.tsx:57-79 | an unknown id changes nothing; a known id becomes selected and active and its message is spoken; active iff selected is kept |
| Emergency.EmergencySystem.PressHeaderButton | src/components/EmergencySystem.tsx:96 | the header button always activates the family scenario, whatever was active |
| Emergency.EmergencySystem.Deactivate | src/components/EmergencySystem.tsx:81-88 | inactive with nothing selected |
| ProofGenerator.DisplayName | src/components/ProofGenerator.tsx:35-40 | a name exists exactly for the four kinds of the table |
| ProofGenerator.DisplayNamesFromTable | src/components/ProofGenerator.tsx:35-40 | each table entry is a known kind, and a proof of that kind carries the entry's name |
| ProofGenerator.BuildProof | src/components/ProofGenerator.tsx:58-166 | a proof exists exactly for a known kind; its type is the kind's display name; its date and time are the form's, or today's and now when the form leaves them empty |
| ProofGenerator.MedicalText | src/components/ProofGenerator.tsx:67-82 | the certificate text shows the date and time lines, and "Dr. " + doctor on the line before the hospital |
| ProofGenerator.LocationText | src/components/ProofGenerator.tsx:112-125 | the log text shows the location line and the check-in line with time and date |
| ProofGenerator.AppointmentText | src/components/ProofGenerator.tsx:138-156 | the confirmation text shows the date and time lines, the provider and location lines together, the reason line and the confirmation number after "APT-" |
| ProofGenerator.MedicalCertificateFields | src/components/ProofGenerator.tsx:64-89 | hospital and doctor default as the metadata shows; the text shows the date and time, and "Dr. " + doctor (default 'Sarah Johnson') followed by the hospital |
| ProofGenerator.ChatAlternates | src/components/ProofGenerator.tsx:92-106 | the chat is the fixed four messages, alternating contact and user, on WhatsApp, with the used date and time |
| ProofGenerator.LocationLogFields | src/components/ProofGenerator.tsx:109-132 | the location defaults to 'City Hospital Emergency Room', the coordinates are fixed, and the text shows the location and the check-in time and date |
| ProofGenerator.AppointmentFields | src/components/ProofGenerator.tsx:135-164 | provider, location and reason default as the source gives them; the text shows the used date and time and agrees with the metadata on provider and location; each confirmation number comes from its own clock reading |
| ProofGenerator.GenerateProof | src/components/ProofGenerator.tsx:42-184 | with no kind chosen nothing changes and the user is asked to choose; otherwise the built proof replaces the shown one (none for an unknown kind), and generation ends |
| ProofGenerator.DownloadName | src/components/ProofGenerator.tsx:192 | the file name ends in ".txt" |
| ProofGenerator.DownloadNameIsPlain | src/components/ProofGenerator.tsx:192 | the file name contains no whitespace and no ASCII capital |
| ProofGenerator.TwoWordFileName | src/components/ProofGenerator.tsx:192 | a two-word type name gives the two words lower-cased and joined by '_', then '_', the clock reading and ".txt" |
| ProofGenerator.DownloadProof | src/components/ProofGenerator.tsx:186-192 | nothing without a proof; otherwise the file name and the proof's content |
| ProofGenerator.ShareProof | src/components/ProofGenerator.tsx:203-212 | nothing without a proof; otherwise the type as title and the content |

## Left out

- Rendering, icons, CSS classes, toasts other than the notices named above, and the 1.5 s and 2 s simulated delays are not modelled. The `async`/`await` flow is modelled as one atomic step.
- The `localStorage`, `FileReader`, `Blob`/object-URL download, `navigator.share` and emergency text-to-speech calls are not modelled as side effects. Each appears as a value passed in or returned: the stored values, the import file, `ProofGenerator.DownloadProof`, `ProofGenerator.ShareProof` and the spoken message of `Emergency.EmergencySystem.Activate`.
- ExcuseGenerator.GeneratorView.GenerateExcuse: the generator's speech of the new excuse when `enableVoice` is on (src/components/ExcuseGenerator.tsx:128-134) is not modelled at all.
- The two copy buttons, `copyToClipboard` in the generator (src/components/ExcuseGenerator.tsx:147-153) and `copyExcuse` in the history view (src/components/ExcuseHistory.tsx:123-129), are not modelled at all: they only write to the clipboard and show a toast.
- JSON encoding and decoding are not modelled. Stored values are structured values. An import file is `NoFile`, `Unparsable` or a parsed object. A JSON object's unknown extra keys, and values of the wrong type, are not modelled.
- Stored history that is malformed (not an array, or entries missing fields) is not modelled. The model assumes well-formed stored records.
- Timestamps are modelled as integers, the milliseconds `new Date(timestamp).getTime()` yields. The ISO-string form and date formatting are not modelled. The proof generator's "today" and "now" are strings supplied by the caller.
- Text.ToLower: only the ASCII letters are lowered. JavaScript's full Unicode case mapping is not modelled.
- ProofGenerator.AppointmentFields: the two `Date.now().toString().slice(-6)` readings are two independent string parameters. Their derivation from the clock is not modelled.
- ProofGenerator.ShareProof: the `JSON.stringify(content, null, 2)` text of a chat proof, and the choice between sharing and copying, are not modelled. The content is returned as a value.
- `voiceSpeed` is a `real`, and `testVoice` is not modelled: it only speaks.
- The average success rate shown on the history statistics card is not modelled: it divides and rounds.
- Settings.UpdateEmergencyContact requires an index inside the list. The page only calls it with the index of an existing input.
- The other inline setters are not modelled separately. In the views they are plain field assignments. On the settings page each is a merge with a one-key object, which `Settings.Merge` covers.
- React's effect wiring is not modelled: the re-run of `filterAndSortExcuses` after each state change, and the load on mount. The corresponding methods are called explicitly.
- The JSON text and file name of `exportSettings` are not modelled. Its exported object is `Settings.AsPatch` of the record.
- The page that hosts the five views (src/pages/Index.tsx) is not part of this model, beyond the two separate emergency mounts noted above.
