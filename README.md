# MyCare+ session logic in Dafny

A Dafny model of the logic inside MyCare+'s `app.py`, a Streamlit demo of a health companion. The model covers four pieces:

- **Emotion classifier** (`detect_emotion`). The text is lower-cased. Four keyword lists are tried in the fixed order sadness, anger, stress, happiness, and `neutral` is the fallback. The first list with a keyword occurring as a substring of the text decides the label. The label comes back with its fixed reply message.
- **Mood log and dominant-mood summary.** Every non-empty chat submission appends exactly one label to the session's `mood_log`; an empty one is ignored. From three entries on, the assistant reports a label whose count is maximal.
- **Health dashboard counts.** These are the per-label counts of the mood log, zero-filled so that all five emotions are present.
- **Tablet scanner bookkeeping.** A medicine name is classified by substring into one of three fixed "uses / side effects" records. The name is then appended to `recent_medicines`, which keeps only the last three names.

Modules:

- `Text` (text.dfy): ASCII lower-casing, and substring search. The search is proved equal to an existential "some window equals the word" predicate.
- `Emotion` (emotion.dfy): labels, keyword lists, messages, the classifier and its first-match specification.
- `Medicine` (medicine.dfy): the tablet list and the three-way lookup.
- `Mood` (mood.dfy): counting, the summary and the dashboard's emotion list.
- `Session` (session.dfy): the class `CareSession`. It holds the two session lists that the source mutates (`moodLog`, `recentMedicines`) and a ghost history of all scans.
- `Wrappers` (wrappers.dfy): `Option`.

In the source, labels are the strings `"sadness"`, `"anger"`, `"stress"`, `"happiness"` and `"neutral"`. Here they are the constructors of `Emotion.Label`, and `Emotion.Name` gives back the string.

## Model

| member | source | states |
|---|---|---|
| Text.Lower | app.py:99 | the result has the input's length, and each character is the input's character with ASCII upper case mapped to lower case, so no upper-case letter remains |
| Text.LowerChar | app.py:99 | upper-case ASCII letters map to the matching lower-case letter; every other character is unchanged |
| Text.ContainsIsOccurs | app.py:100 | the recursive substring search answers true exactly when some window of the text equals the word (Python's `word in text`), including the empty word and the empty text |
| Text.AnyContained | app.py:100 | `any(word in text for word in words)` is true exactly when some word of the list occurs in the text |
| Text.AnyOccursAppend | app.py:100-109 | a keyword of a concatenated list occurs exactly when a keyword of one of the two parts occurs |
| Text.LowerIdempotent | app.py:99 | lower-casing an already lower-cased text changes nothing |
| Text.MissingCharNotOccurs | app.py:193-199 | a word containing a character the text lacks does not occur in the text |
| Emotion.Classify | app.py:98-109 | the label is one whose rule fires on the lower-cased text (the neutral rule always fires), and no rule earlier in the order sadness, anger, stress, happiness fires |
| Emotion.DetectEmotion | app.py:98-109 | the same first-match property for the returned label, and the message is always that label's fixed message |
| Emotion.DetectEmotionTotal | app.py:98-109 | every text, including the empty one, gets one of exactly five names, and the reply is the classified label paired with its message (the types already give this; the lemma spells it out) |
| Emotion.ClassifyIsFirstMatch | app.py:100-109 | for every label, the classifier returns it exactly when its rule fires and no earlier rule fires (both directions) |
| Emotion.CaseInsensitive | app.py:99 | classifying a text and classifying its lower-cased form give the same label and message |
| Emotion.SadnessWins | app.py:100-101 | if any sadness keyword occurs in the lower-cased text, the label is sadness, whatever else occurs |
| Emotion.HappinessOnlyWithoutEarlierKeywords | app.py:100-107 | a happiness result implies that no sadness, anger or stress keyword occurs |
| Emotion.NeutralIffNoKeyword | app.py:100-109 | there are 17 keywords, and the label is neutral exactly when none of them occurs in the lower-cased text |
| Emotion.UpperCaseSadExample | app.py:99-101 | "I feel SAD today" is classified as sadness |
| Emotion.SadButGreatExample | app.py:100-101 | "I'm sad but also great" is classified as sadness, not happiness |
| Medicine.KindOf | app.py:193-201 | the pain-and-fever record is chosen exactly when "Paracetamol" or "Dolo 650" occurs in the name; the pain-and-inflammation record exactly when neither occurs but "Ibuprofen" or "Aspirin" does; the infection-or-allergy record exactly when none of the four occurs |
| Medicine.LookUp | app.py:193-201 | a name mentioning "Paracetamol" or "Dolo 650" gets the pain-and-fever uses and side effects; failing that, one mentioning "Ibuprofen" or "Aspirin" gets the pain-and-inflammation record; any other name, the empty one included, gets the infection-or-allergy record |
| Medicine.TabletKinds | app.py:181-201 | each of the seven names the scanner can report gets the group the source assigns it (pain-and-fever for Paracetamol and Dolo 650, pain-and-inflammation for Ibuprofen and Aspirin, infection-or-allergy for the other three), so all three branches are reached |
| Medicine.PainAndFeverTablets | app.py:193-195 | "Paracetamol (500mg)" and "Dolo 650" get the pain-and-fever record |
| Medicine.PainAndInflammationTablets | app.py:196-198 | "Ibuprofen (400mg)" and "Aspirin (81mg)" get the pain-and-inflammation record |
| Medicine.NoGroupKeyword | app.py:199-201 | a name lacking the letters P, D, b and p falls through to the infection-or-allergy record |
| Medicine.AmoxicillinTablet | app.py:199-201 | "Amoxicillin (250mg)" falls through to the infection-or-allergy record |
| Medicine.CetirizineTablet | app.py:199-201 | "Cetirizine (10mg)" falls through to the infection-or-allergy record |
| Medicine.AzithromycinTablet | app.py:199-201 | "Azithromycin (500mg)" falls through to the infection-or-allergy record |
| Mood.AllEmotionsListed | app.py:241 | the dashboard's emotion list has five entries, all distinct, and it names every label |
| Mood.Count | app.py:155 | a label's count is at most the log length, and it is positive exactly when the label occurs in the log |
| Mood.CountAppend | app.py:139 | appending one entry raises that label's count by one and leaves every other count unchanged |
| Mood.CountsSumToLength | app.py:240-245 | the five per-label counts of a log add up to its length |
| Mood.Counts | app.py:155 | the count table has a key for exactly the labels present in the log, each mapped to its positive count |
| Mood.PresentAmong | app.py:155 | the filtered list holds exactly the labels that are both in the given order and in the log, without duplicates when the order has none |
| Mood.Present | app.py:155 | the candidate list holds exactly the labels of the log, each once |
| Mood.ArgMax | app.py:156 | the chosen label is one of the candidates, and no candidate has a higher count |
| Mood.Dominant | app.py:154-156 | there is a summary exactly when the log has at least 3 entries; the reported label occurs in the log and no label has a higher count; which tied label wins is not promised |
| Mood.DominantStrictWinner | app.py:156 | a label that strictly out-counts every other label is the one reported, whatever the tie-break |
| Mood.SadSadAngryExample | app.py:154-156 | the log [sadness, sadness, anger] has counts {sadness: 2, anger: 1} and dominant mood sadness |
| Session.RecentShape | app.py:208-210 | the recent-medicines window holds exactly min(3, n) names for a history of n scans; it ends with the latest scan; and it is the tail of the history in scan order |
| Session.RecentAppend | app.py:208-210 | appending a name and dropping the oldest entry when there are more than 3 gives the window over the history extended by that name |
| Session.CareSession.constructor | app.py:53-56 | a new session starts with an empty mood log, no recent medicines and no scan history |
| Session.CareSession.ProcessInput | app.py:130-156 | an empty submission changes nothing and yields no reply and no summary; otherwise the reply is the classifier's result for the input, the mood log becomes the old log plus exactly that label, and the summary is the dominant mood of the new log; the medicine state is unchanged either way |
| Session.CareSession.ScanTablet | app.py:193-210 | the returned record is `LookUp`'s record for the name; the recent list is the old list plus the name, minus its oldest entry when that exceeds 3; it has at most 3 names and ends with the new one; it stays equal to the last min(3, n) names of the scan history; the mood log is unchanged |
| Session.CareSession.Dashboard | app.py:239-245 | there are no counts for an empty log; otherwise every one of the five emotions has an entry equal to its count in the log (0 when absent), and the entries add up to the log's length |

## Left out

- Streamlit rendering is not modelled: page setup, splash screen, sidebar, chat containers, `st.rerun`, the emergency-alert button and its blink animation (app.py:37-48, 66-93, 111-136, 213-228, 258-279). Neither are the assistant and tablet chat histories, which only feed the display.
- Speech output through gTTS (`speak_real_audio`, app.py:14-31) is a foreign library and audio I/O.
- Camera capture and PIL image decoding (app.py:172-176) are I/O.
- The random choice of the tablet name (app.py:182) is nondeterministic. `Session.CareSession.ScanTablet` takes the name as a parameter.
- The `time.sleep` delays (app.py:46, 84-86, 179, 190) have no logical effect.
- The matplotlib bar chart (app.py:247-254) is rendering. Only the count map that feeds it is modelled, as a map from label to count. The order of the plotted bars follows Python dict order and is not modelled.
- Lower-casing covers ASCII only. Python's `str.lower()` also maps non-ASCII letters, and those are not modelled.
- Mood.Dominant: does not promise which label wins a tie. The source iterates a Python set, whose order is unspecified. The model tries labels in the dashboard order and keeps the first maximal one, but its contract states only that the result has maximal count.
- The `"N/A"` fallback of the summary (app.py:156) is not modelled separately. It is used only when the count table is empty, which cannot happen once the log has 3 entries; `Mood.Dominant` shows that the table is then non-empty.
- The summary reports only the dominant label, as the code does. It does not report the whole count table. The count table itself is `Mood.Counts`.
- The display of recent medicines in reverse order (app.py:227) is presentation and is not modelled.
- Labels are a datatype here, not strings, so the mood log cannot hold anything but the five labels. In the source it is a list of strings that only `detect_emotion` fills.
