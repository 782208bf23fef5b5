/** One user's session state in app.py: the log of detected moods (appended
    once per chat input) and the bounded list of recently scanned medicines,
    together with the operations the three pages perform on them. */
module Session {
  import opened Wrappers
  import opened Emotion
  import opened Medicine
  import opened Mood

  /** How many scanned medicines the session remembers. */
  const RecentCapacity: nat := 3

  /** The most recent `min(3, |scans|)` entries of a scan history, oldest first. */
  function Recent(scans: seq<string>): seq<string> {
    if |scans| <= RecentCapacity then scans else scans[|scans| - RecentCapacity..]
  }

  /** The window keeps scan order, holds at most three names, ends with the
      latest scan, and is exactly the history once that is short enough. */
  lemma RecentShape(scans: seq<string>)
    ensures |Recent(scans)| == if |scans| <= RecentCapacity then |scans| else RecentCapacity
    ensures scans != [] ==> Recent(scans)[|Recent(scans)| - 1] == scans[|scans| - 1]
    ensures forall i :: 0 <= i < |Recent(scans)| ==>
      Recent(scans)[i] == scans[|scans| - |Recent(scans)| + i]
  {
  }

  /** Appending a scan and dropping the oldest entry once there are more than
      three keeps the list equal to the window over the whole history. */
  lemma RecentAppend(scans: seq<string>, name: string)
    ensures Recent(scans + [name]) ==
      var grown := Recent(scans) + [name];
      if |grown| > RecentCapacity then grown[1..] else grown
  {
  }

  class CareSession {
    /** `mood_log`: one label per chat input, oldest first. */
    var moodLog: seq<Label>
    /** `recent_medicines`: the last few scanned medicine names, oldest first. */
    var recentMedicines: seq<string>
    /** Every medicine name scanned in this session, in scan order. */
    ghost var scans: seq<string>

    ghost predicate Valid()
      reads this
    {
      recentMedicines == Recent(scans)
    }

    /** A fresh session: empty logs (app.py's session-state initialisation). */
    constructor ()
      ensures Valid()
      ensures moodLog == [] && recentMedicines == [] && scans == []
    {
      moodLog := [];
      recentMedicines := [];
      scans := [];
    }

    /** One chat submission. An empty submission is ignored (the source's
        `if user_input:` guard): nothing is logged and no summary is shown.
        Otherwise the text is classified, exactly its label is appended to
        the mood log, and the dominant-mood summary is produced when the log
        is long enough. */
    method ProcessInput(text: string) returns (reply: Option<Detection>, summary: Option<Label>)
      requires Valid()
      modifies this
      ensures Valid()
      ensures text == "" ==> reply == None && summary == None && moodLog == old(moodLog)
      ensures text != "" ==> reply == Some(DetectEmotion(text))
      ensures text != "" ==> moodLog == old(moodLog) + [reply.value.emotion]
      ensures text != "" ==> summary == Dominant(moodLog)
      ensures recentMedicines == old(recentMedicines) && scans == old(scans)
    {
      if text == "" {
        return None, None;
      }
      var detection := DetectEmotion(text);
      moodLog := moodLog + [detection.emotion];
      reply := Some(detection);
      summary := Dominant(moodLog);
    }

    /** One tablet scan, with the identified name given: look up its record,
        append the name to the recent list and drop the oldest entry when the
        list grows past three. */
    method ScanTablet(name: string) returns (info: DrugInfo)
      requires Valid()
      modifies this
      ensures Valid()
      ensures info == LookUp(name)
      ensures scans == old(scans) + [name]
      ensures recentMedicines ==
        var grown := old(recentMedicines) + [name];
        if |grown| > RecentCapacity then grown[1..] else grown
      ensures |recentMedicines| <= RecentCapacity
      ensures recentMedicines[|recentMedicines| - 1] == name
      ensures moodLog == old(moodLog)
    {
      info := LookUp(name);
      RecentAppend(scans, name);
      recentMedicines := recentMedicines + [name];
      if |recentMedicines| > RecentCapacity {
        recentMedicines := recentMedicines[1..];
      }
      scans := scans + [name];
      RecentShape(scans);
    }

    /** The health dashboard's counts: absent for an empty log; otherwise the
        per-label counts of the log with every one of the five emotions
        present (zero when it never occurred), adding up to the log's length. */
    method Dashboard() returns (counts: Option<map<Label, nat>>)
      ensures counts.Some? <==> moodLog != []
      ensures counts.Some? ==> forall l :: l in counts.value && counts.value[l] == Count(moodLog, l)
      ensures counts.Some? ==> Total(counts.value) == |moodLog|
    {
      if moodLog == [] {
        return None;
      }
      var m := Counts(moodLog);
      AllEmotionsListed();
      for i := 0 to |AllEmotions|
        invariant forall l :: l in m <==> l in moodLog || l in AllEmotions[..i]
        invariant forall l :: l in m ==> m[l] == Count(moodLog, l)
      {
        var e := AllEmotions[i];
        if e !in m {
          m := m[e := 0];
        }
      }
      assert AllEmotions[..|AllEmotions|] == AllEmotions;
      CountsSumToLength(moodLog);
      counts := Some(m);
    }
  }
}
