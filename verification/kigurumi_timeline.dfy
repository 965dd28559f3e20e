/** The admission rule of `KigurumiTimelineService`: a note enters the
    kigurumi timeline when it is visible beyond home, carries files, and is
    tagged `kigurumi` or `着ぐるみ`. The timeline store is a plain sequence of
    note ids. */
module KigurumiTimeline {

  datatype Visibility = Public | Home | Followers | Specified

  /** The fields of a note that the admission rule reads. */
  datatype Note = Note(id: string, visibility: Visibility, fileIds: seq<string>, tags: seq<string>)

  const KigurumiTag: string := "kigurumi"

  /** `着ぐるみ` */
  const KigurumiTagJa: string := "\U{7740}\U{3050}\U{308B}\U{307F}"

  /** Visibility `home` or narrower: such notes are never admitted. */
  predicate IsHomeOrNarrower(v: Visibility)
  {
    v == Specified || v == Followers || v == Home
  }

  predicate HasKigurumiHashTag(tags: seq<string>)
  {
    KigurumiTag in tags || KigurumiTagJa in tags
  }

  /** `checkHitKigurumi`. */
  function CheckHitKigurumi(note: Note): (hit: bool)
    ensures hit ==> note.visibility == Public
    ensures hit ==> |note.fileIds| > 0
    ensures hit ==> HasKigurumiHashTag(note.tags)
  {
    if IsHomeOrNarrower(note.visibility) then false
    else
      var hasFile := |note.fileIds| > 0;
      hasFile && HasKigurumiHashTag(note.tags)
  }

  /** A public note is admitted exactly when it has a file and one of the two tags. */
  lemma PublicAdmission(note: Note)
    requires note.visibility == Public
    ensures CheckHitKigurumi(note) <==>
      |note.fileIds| > 0 && HasKigurumiHashTag(note.tags)
  {
  }

  /** Keeping the visibility and adding files or tags never turns an admitted note away. */
  lemma AdmissionMonotone(note: Note, more: Note)
    requires more.visibility == note.visibility
    requires |note.fileIds| <= |more.fileIds|
    requires forall t :: t in note.tags ==> t in more.tags
    ensures CheckHitKigurumi(note) ==> CheckHitKigurumi(more)
  {
  }

  /** `pushTLIfKigurumi`: append the note's id when it is admitted, otherwise
      leave the timeline as it is. */
  function PushIfKigurumi(timeline: seq<string>, note: Note): (pushed: seq<string>)
    ensures |timeline| <= |pushed| <= |timeline| + 1 && pushed[..|timeline|] == timeline
    ensures |pushed| > |timeline| <==>
      note.visibility == Public && |note.fileIds| > 0 && HasKigurumiHashTag(note.tags)
    ensures |pushed| > |timeline| ==> pushed[|timeline|] == note.id
  {
    var r := if CheckHitKigurumi(note) then timeline + [note.id] else timeline;
    assert r[..|timeline|] == timeline;
    r
  }

  /** The timeline after one `pushTLIfKigurumi` call per note, in order. */
  function PushAll(timeline: seq<string>, notes: seq<Note>): seq<string>
    decreases |notes|
  {
    if |notes| == 0 then timeline
    else PushAll(PushIfKigurumi(timeline, notes[0]), notes[1..])
  }

  /** The ids of the admitted notes, in order: the reference description of
      what a run of pushes adds. */
  function AdmittedIds(notes: seq<Note>): (ids: seq<string>)
    ensures |ids| <= |notes|
    ensures forall id :: id in ids <==> exists n :: n in notes && CheckHitKigurumi(n) && n.id == id
  {
    if |notes| == 0 then []
    else
      var rest := AdmittedIds(notes[1..]);
      assert forall n :: n in notes <==> n == notes[0] || n in notes[1..];
      if CheckHitKigurumi(notes[0]) then [notes[0].id] + rest else rest
  }

  /** Pushing the notes one by one appends exactly the ids of the admitted
      ones, in order, and nothing else. */
  lemma {:induction false} PushAllAppendsAdmitted(timeline: seq<string>, notes: seq<Note>)
    ensures PushAll(timeline, notes) == timeline + AdmittedIds(notes)
    decreases |notes|
  {
    if |notes| > 0 {
      PushAllAppendsAdmitted(PushIfKigurumi(timeline, notes[0]), notes[1..]);
      if CheckHitKigurumi(notes[0]) {
        assert timeline + [notes[0].id] + AdmittedIds(notes[1..])
            == timeline + ([notes[0].id] + AdmittedIds(notes[1..]));
      }
    }
  }

  /** Starting from an empty timeline, an id is on it exactly when some pushed note with that id was admitted. */
  lemma TimelineHoldsExactlyAdmitted(notes: seq<Note>, id: string)
    ensures id in PushAll([], notes) <==> exists n :: n in notes && CheckHitKigurumi(n) && n.id == id
  {
    PushAllAppendsAdmitted([], notes);
    assert [] + AdmittedIds(notes) == AdmittedIds(notes);
  }
}
