/**
 * The remote client's record of what is playing (app.js): `currentlyPlaying` maps a sound
 * id to the playing instance last started for it, `activeSounds` maps a playing instance
 * id to its progress record, and `polling` says whether progress is being polled. Each
 * poll of the server reconciles the records with the server's list of playing instances.
 *
 * The server's answer is a parameter of each step: `Failed` when the request throws or
 * the answer is not an array, else the array's elements. Map keys compare as JSON values.
 */
module Progress {
  import opened Wrappers
  import opened Json

  /** The progress record of one playing instance. Every field is always defined. */
  datatype Playing = Playing(
    id: Json, soundId: Json, lengthInMs: Json, readInMs: Json, name: Json, paused: Json, repeat: Json)

  datatype Tracker = Tracker(currentlyPlaying: map<Json, Json>, activeSounds: map<Json, Playing>, polling: bool)

  datatype Response = Failed | Received(updates: seq<Json>)

  const CLEARED: Tracker := Tracker(map[], map[], false)

  /** Every sound marked as playing points at a tracked instance of that sound. */
  predicate Consistent(t: Tracker) {
    forall s :: s in t.currentlyPlaying ==>
      t.currentlyPlaying[s] in t.activeSounds && t.activeSounds[t.currentlyPlaying[s]].soundId == s
  }

  /** An update is used only if it carries both an instance id and a sound id. */
  predicate IsValid(u: Json) {
    Prop(u, "id").Some? && Prop(u, "soundId").Some?
  }

  /** A positive number: the only length an update may replace a known length with. */
  predicate PositiveNumber(v: Option<Json>) {
    v.Some? && v.value.JNum? && v.value.n > 0
  }

  /** The reconciliation of one server entry with the records. */
  function ApplyUpdate(t: Tracker, u: Json): (r: Tracker)
    ensures !IsValid(u) ==> r == t
    ensures r.polling == t.polling
    ensures IsValid(u) ==> r.activeSounds.Keys == t.activeSounds.Keys + {Prop(u, "id").value}
    ensures IsValid(u) ==> forall k :: k in t.activeSounds && k != Prop(u, "id").value ==> r.activeSounds[k] == t.activeSounds[k]
    // an instance already tracked: its sound, id and name stay; paused, position and repeat follow the update unless it
    // says null or nothing; the length follows only a positive number
    ensures IsValid(u) && Prop(u, "id").value in t.activeSounds ==>
              var old_ := t.activeSounds[Prop(u, "id").value];
              var new_ := r.activeSounds[Prop(u, "id").value];
              && r.currentlyPlaying == t.currentlyPlaying
              && new_.id == old_.id && new_.soundId == old_.soundId && new_.name == old_.name
              && new_.paused == Coalesce(Prop(u, "paused"), Coalesce(Some(old_.paused), JBool(true)))
              && new_.readInMs == Coalesce(Prop(u, "readInMs"), Coalesce(Some(old_.readInMs), JNum(0)))
              && new_.repeat == Coalesce(Prop(u, "repeat"), old_.repeat)
              && new_.lengthInMs == (if PositiveNumber(Prop(u, "lengthInMs")) then Prop(u, "lengthInMs").value else old_.lengthInMs)
    // an instance not tracked yet: added to both maps, with defaults for what the update leaves out
    ensures IsValid(u) && Prop(u, "id").value !in t.activeSounds ==>
              var id := Prop(u, "id").value;
              var soundId := Prop(u, "soundId").value;
              var new_ := r.activeSounds[id];
              && r.currentlyPlaying == t.currentlyPlaying[soundId := id]
              && new_.id == id && new_.soundId == soundId
              && new_.paused == Coalesce(Prop(u, "paused"), JBool(true))
              && new_.readInMs == Coalesce(Prop(u, "readInMs"), JNum(0))
              && new_.lengthInMs == (if PositiveNumber(Prop(u, "lengthInMs")) then Prop(u, "lengthInMs").value else JNum(0))
              && new_.name == OrElse(Prop(u, "name"), JStr("Sound"))
              && new_.repeat == OrElse(Prop(u, "repeat"), JBool(false))
  {
    if !IsValid(u) then t
    else
      var id := Prop(u, "id").value;
      var existing := if id in t.activeSounds then Some(t.activeSounds[id]) else None;
      var isPaused := Coalesce(Prop(u, "paused"), Coalesce(if existing.Some? then Some(existing.value.paused) else None, JBool(true)));
      var lengthMs := OrElse(if PositiveNumber(Prop(u, "lengthInMs")) then Prop(u, "lengthInMs")
                             else if existing.Some? then Some(existing.value.lengthInMs) else None, JNum(0));
      var readMs := Coalesce(Prop(u, "readInMs"), Coalesce(if existing.Some? then Some(existing.value.readInMs) else None, JNum(0)));
      match existing
      case None =>
        var soundId := Prop(u, "soundId").value;
        var entry := Playing(id, soundId, lengthMs, readMs, OrElse(Prop(u, "name"), JStr("Sound")), isPaused,
                             OrElse(Prop(u, "repeat"), JBool(false)));
        Tracker(t.currentlyPlaying[soundId := id], t.activeSounds[id := entry], t.polling)
      case Some(e) =>
        var e' := e.(readInMs := readMs, paused := isPaused, repeat := Coalesce(Prop(u, "repeat"), e.repeat),
                     lengthInMs := if PositiveNumber(Prop(u, "lengthInMs")) then lengthMs else e.lengthInMs);
        Tracker(t.currentlyPlaying, t.activeSounds[id := e'], t.polling)
  }

  /** The instance ids of the valid entries of an answer. */
  function ValidIds(us: seq<Json>): (ids: set<Json>)
    ensures forall i :: 0 <= i < |us| && IsValid(us[i]) ==> Prop(us[i], "id").value in ids
    ensures forall id :: id in ids ==> exists i :: 0 <= i < |us| && IsValid(us[i]) && Prop(us[i], "id").value == id
  {
    set i | 0 <= i < |us| && IsValid(us[i]) :: Prop(us[i], "id").value
  }

  /** The instance ids the server reports playing (entries without an id report none). */
  function ReportedIds(us: seq<Json>): (ids: set<Json>)
    ensures ValidIds(us) <= ids
    ensures forall id :: id in ids <==> exists i :: 0 <= i < |us| && Prop(us[i], "id") == Some(id)
  {
    set i | 0 <= i < |us| && Prop(us[i], "id").Some? :: Prop(us[i], "id").value
  }

  lemma ValidIdsCons(us: seq<Json>)
    requires us != []
    ensures ValidIds(us) == ValidIds([us[0]]) + ValidIds(us[1..])
  {
    forall id | id in ValidIds(us) ensures id in ValidIds([us[0]]) + ValidIds(us[1..]) {
      var i :| 0 <= i < |us| && IsValid(us[i]) && Prop(us[i], "id").value == id;
      if i == 0 {
        assert [us[0]][0] == us[i];
      } else {
        assert us[1..][i - 1] == us[i];
      }
    }
    forall id | id in ValidIds(us[1..]) ensures id in ValidIds(us) {
      var i :| 0 <= i < |us[1..]| && IsValid(us[1..][i]) && Prop(us[1..][i], "id").value == id;
      assert us[1..][i] == us[i + 1];
    }
    forall id | id in ValidIds([us[0]]) ensures id in ValidIds(us) {
      assert [us[0]][0] == us[0];
    }
  }

  lemma ReportedIdsCons(us: seq<Json>)
    requires us != []
    ensures ReportedIds(us) == ReportedIds([us[0]]) + ReportedIds(us[1..])
  {
    forall id | id in ReportedIds(us) ensures id in ReportedIds([us[0]]) + ReportedIds(us[1..]) {
      var i :| 0 <= i < |us| && Prop(us[i], "id") == Some(id);
      if i == 0 {
        assert [us[0]][0] == us[i];
      } else {
        assert us[1..][i - 1] == us[i];
      }
    }
    forall id | id in ReportedIds(us[1..]) ensures id in ReportedIds(us) {
      var i :| 0 <= i < |us[1..]| && Prop(us[1..][i], "id") == Some(id);
      assert us[1..][i] == us[i + 1];
    }
    forall id | id in ReportedIds([us[0]]) ensures id in ReportedIds(us) {
      assert [us[0]][0] == us[0];
    }
  }

  lemma ValidIdsSingle(u: Json)
    ensures ValidIds([u]) == if IsValid(u) then {Prop(u, "id").value} else {}
  {
    assert [u][0] == u;
  }

  lemma ReportedIdsSingle(u: Json, id: Json)
    requires Prop(u, "id") == Some(id)
    ensures ReportedIds([u]) == {id}
  {
    assert [u][0] == u;
  }

  lemma ApplySingle(t: Tracker, u: Json)
    ensures ApplyUpdates(t, [u]) == ApplyUpdate(t, u)
  {
    assert [u][0] == u && [u][1..] == [];
  }

  /** The entries of an answer, one after the other: the valid entries' instances are
      tracked, no other record changes, and no instance changes sound. */
  function ApplyUpdates(t: Tracker, us: seq<Json>): (r: Tracker)
    ensures r.polling == t.polling
    ensures r.activeSounds.Keys == t.activeSounds.Keys + ValidIds(us)
    ensures forall k :: k in t.activeSounds && k !in ValidIds(us) ==> r.activeSounds[k] == t.activeSounds[k]
    ensures forall k :: k in t.activeSounds ==> r.activeSounds[k].soundId == t.activeSounds[k].soundId
    decreases |us|
  {
    if us == [] then t
    else
      ValidIdsCons(us);
      ValidIdsSingle(us[0]);
      ApplyUpdates(ApplyUpdate(t, us[0]), us[1..])
  }

  /** Applying an answer never removes a playing mark; a mark either stays or moves to an
      instance the answer reports. */
  lemma {:induction false} ApplyUpdatesKeepsMarks(t: Tracker, us: seq<Json>)
    ensures var r := ApplyUpdates(t, us);
            && t.currentlyPlaying.Keys <= r.currentlyPlaying.Keys
            && forall s :: s in t.currentlyPlaying ==>
                 r.currentlyPlaying[s] == t.currentlyPlaying[s] || r.currentlyPlaying[s] in ValidIds(us)
    decreases |us|
  {
    if us != [] {
      ValidIdsCons(us);
      ApplyUpdatesKeepsMarks(ApplyUpdate(t, us[0]), us[1..]);
    }
  }

  /** Applying an answer keeps every mark pointing at a tracked instance of its sound. */
  lemma {:induction false} ApplyUpdatesConsistent(t: Tracker, us: seq<Json>)
    requires Consistent(t)
    ensures Consistent(ApplyUpdates(t, us))
    decreases |us|
  {
    if us != [] {
      ApplyUpdatesConsistent(ApplyUpdate(t, us[0]), us[1..]);
    }
  }

  /** The tracked instances the server no longer reports. */
  function Finished(t: Tracker, reported: set<Json>): set<Json> {
    set k | k in t.activeSounds && k !in reported
  }

  /** The removal of finished instances as written: each finished instance's sound loses
      its playing mark, whichever instance the mark points at. */
  function RemoveFinishedAsWritten(t: Tracker, reported: set<Json>): (r: Tracker)
    ensures r.activeSounds.Keys == t.activeSounds.Keys - Finished(t, reported)
    ensures forall k :: k in r.activeSounds ==> r.activeSounds[k] == t.activeSounds[k]
    ensures forall k :: k in Finished(t, reported) ==> t.activeSounds[k].soundId !in r.currentlyPlaying
    // a sound no finished instance belongs to keeps its mark, whatever instance it points at
    ensures forall s :: s in r.currentlyPlaying <==>
              s in t.currentlyPlaying && (forall k :: k in Finished(t, reported) ==> t.activeSounds[k].soundId != s)
    ensures forall s :: s in r.currentlyPlaying ==> r.currentlyPlaying[s] == t.currentlyPlaying[s]
    ensures r.polling == t.polling
  {
    var fin := Finished(t, reported);
    var sounds := set k | k in fin :: t.activeSounds[k].soundId;
    Tracker(map s | s in t.currentlyPlaying && s !in sounds :: t.currentlyPlaying[s],
            map k | k in t.activeSounds && k !in fin :: t.activeSounds[k],
            t.polling)
  }

  /** The removal of finished instances as intended: a sound loses its playing mark only
      when the mark points at the finished instance. */
  function RemoveFinished(t: Tracker, reported: set<Json>): (r: Tracker)
    ensures r.activeSounds.Keys == t.activeSounds.Keys - Finished(t, reported)
    ensures forall k :: k in r.activeSounds ==> r.activeSounds[k] == t.activeSounds[k]
    ensures forall s :: s in r.currentlyPlaying <==> s in t.currentlyPlaying && t.currentlyPlaying[s] !in Finished(t, reported)
    ensures forall s :: s in r.currentlyPlaying ==> r.currentlyPlaying[s] == t.currentlyPlaying[s]
    ensures Consistent(t) ==> Consistent(r)
    ensures r.polling == t.polling
  {
    var fin := Finished(t, reported);
    Tracker(map s | s in t.currentlyPlaying && t.currentlyPlaying[s] !in fin :: t.currentlyPlaying[s],
            map k | k in t.activeSounds && k !in fin :: t.activeSounds[k],
            t.polling)
  }

  /** Reading `.id` of a null entry throws. */
  predicate HasNullEntry(us: seq<Json>) {
    exists i :: 0 <= i < |us| && us[i] == JNull
  }

  /** fetchSoundProgress, parameterised by how finished instances are removed. */
  function PollWith(t: Tracker, response: Response, asWritten: bool): (r: Tracker)
    ensures t.activeSounds == map[] ==> r == t.(polling := false)
    ensures t.activeSounds != map[] && (response.Failed? || HasNullEntry(response.updates)) ==> r == CLEARED
    ensures r.polling <==> r.activeSounds != map[]
  {
    if t.activeSounds == map[] then t.(polling := false)
    else
      match response
      case Failed => CLEARED
      case Received(us) =>
        if HasNullEntry(us) then CLEARED
        else
          var updated := ApplyUpdates(t, us);
          var removed := if asWritten then RemoveFinishedAsWritten(updated, ReportedIds(us))
                         else RemoveFinished(updated, ReportedIds(us));
          removed.(polling := removed.activeSounds != map[])
  }

  /** fetchSoundProgress as written. Which instances it tracks agrees with the intended poll;
      only the playing marks differ (OverlapLosesMark). */
  function PollAsWritten(t: Tracker, response: Response): (r: Tracker)
    ensures t.activeSounds == map[] ==> r == t.(polling := false)
    ensures t.activeSounds != map[] && (response.Failed? || HasNullEntry(response.updates)) ==> r == CLEARED
    ensures r.polling <==> r.activeSounds != map[]
    ensures t.activeSounds != map[] && response.Received? && !HasNullEntry(response.updates) ==>
              r.activeSounds.Keys == (t.activeSounds.Keys * ReportedIds(response.updates)) + ValidIds(response.updates)
  {
    PollWith(t, response, true)
  }

  /** A poll with the intended removal: finished instances leave both maps, every reported
      instance is tracked, and a sound whose marked instance is still reported keeps its mark. */
  function Poll(t: Tracker, response: Response): (r: Tracker)
    ensures t.activeSounds == map[] ==> r == t.(polling := false)
    ensures t.activeSounds != map[] && (response.Failed? || HasNullEntry(response.updates)) ==> r == CLEARED
    ensures r.polling <==> r.activeSounds != map[]
    ensures Consistent(t) ==> Consistent(r)
    ensures t.activeSounds != map[] && response.Received? && !HasNullEntry(response.updates) ==>
              && r.activeSounds.Keys == (t.activeSounds.Keys * ReportedIds(response.updates)) + ValidIds(response.updates)
              && (forall s :: s in t.currentlyPlaying && t.currentlyPlaying[s] in ReportedIds(response.updates)
                    ==> s in r.currentlyPlaying)
  {
    if t.activeSounds != map[] && response.Received? && !HasNullEntry(response.updates) then
      ApplyUpdatesKeepsMarks(t, response.updates);
      if Consistent(t) then
        ApplyUpdatesConsistent(t, response.updates);
        PollWith(t, response, false)
      else PollWith(t, response, false)
    else PollWith(t, response, false)
  }

  /** Every tracked instance missing from a successful answer leaves the records (as written too). */
  lemma PollRemovesFinished(t: Tracker, us: seq<Json>, k: Json)
    requires t.activeSounds != map[] && !HasNullEntry(us)
    requires k in t.activeSounds && k !in ReportedIds(us)
    ensures k !in PollAsWritten(t, Received(us)).activeSounds
    ensures t.activeSounds[k].soundId !in PollAsWritten(t, Received(us)).currentlyPlaying
    ensures k !in Poll(t, Received(us)).activeSounds
  {
    var updated := ApplyUpdates(t, us);
    assert k in Finished(updated, ReportedIds(us));
    PollResult(t, us, true);
    PollResult(t, us, false);
    PollIsPollWith(t, Received(us));
  }

  /** The records a successful poll leaves: those of the removal after the updates. */
  lemma PollResult(t: Tracker, us: seq<Json>, asWritten: bool)
    requires t.activeSounds != map[] && !HasNullEntry(us)
    ensures var removed := if asWritten then RemoveFinishedAsWritten(ApplyUpdates(t, us), ReportedIds(us))
                           else RemoveFinished(ApplyUpdates(t, us), ReportedIds(us));
            && PollWith(t, Received(us), asWritten).activeSounds == removed.activeSounds
            && PollWith(t, Received(us), asWritten).currentlyPlaying == removed.currentlyPlaying
  {
  }

  lemma PollIsPollWith(t: Tracker, response: Response)
    ensures Poll(t, response) == PollWith(t, response, false)
  {
  }

  /** Two instances of sound 5 play at once (overlapping playback is the default); the
      mark points at the newer one, 2. */
  const OVERLAP: Tracker := Tracker(
    map[JNum(5) := JNum(2)],
    map[JNum(1) := Playing(JNum(1), JNum(5), JNum(1000), JNum(0), JStr("Sound"), JBool(false), JBool(false)),
        JNum(2) := Playing(JNum(2), JNum(5), JNum(1000), JNum(0), JStr("Sound"), JBool(false), JBool(false))],
    true)

  /** The server's answer once instance 1 has finished. */
  const ONLY_SECOND: Json := JObj(map["id" := JNum(2), "soundId" := JNum(5)])

  /** When the older instance finishes, the poll as written drops sound 5's mark although
      instance 2 is still playing; the intended poll keeps it. */
  lemma OverlapLosesMark()
    ensures Consistent(OVERLAP)
    ensures JNum(2) in PollAsWritten(OVERLAP, Received([ONLY_SECOND])).activeSounds
    ensures PollAsWritten(OVERLAP, Received([ONLY_SECOND])).currentlyPlaying == map[]
    ensures Poll(OVERLAP, Received([ONLY_SECOND])).currentlyPlaying == map[JNum(5) := JNum(2)]
  {
    var u := ONLY_SECOND;
    assert Prop(u, "id") == Some(JNum(2)) && Prop(u, "soundId") == Some(JNum(5));
    assert !HasNullEntry([u]) by {
      assert forall i :: 0 <= i < |[u]| ==> [u][i] == u;
    }
    ReportedIdsSingle(u, JNum(2));
    ApplySingle(OVERLAP, u);
    OverlapUpdateChangesNothing();
    OverlapRemovals();
    PollResult(OVERLAP, [u], true);
    PollResult(OVERLAP, [u], false);
    PollIsPollWith(OVERLAP, Received([u]));
  }

  lemma OverlapUpdateChangesNothing()
    ensures ApplyUpdate(OVERLAP, ONLY_SECOND) == OVERLAP
  {
    var u := ONLY_SECOND;
    assert Prop(u, "id") == Some(JNum(2)) && Prop(u, "soundId") == Some(JNum(5));
    assert Prop(u, "paused").None? && Prop(u, "readInMs").None? && Prop(u, "repeat").None? && Prop(u, "lengthInMs").None?;
  }

  lemma OverlapRemovals()
    ensures Finished(OVERLAP, {JNum(2)}) == {JNum(1)}
    ensures RemoveFinishedAsWritten(OVERLAP, {JNum(2)}).currentlyPlaying == map[]
    ensures JNum(2) in RemoveFinishedAsWritten(OVERLAP, {JNum(2)}).activeSounds
    ensures RemoveFinished(OVERLAP, {JNum(2)}).currentlyPlaying == map[JNum(5) := JNum(2)]
  {
    assert Finished(OVERLAP, {JNum(2)}) == {JNum(1)};
  }

  /** startProgressPolling: nothing while polling; otherwise polling starts with an immediate poll. */
  function StartPolling(t: Tracker, response: Response): (r: Tracker)
    ensures t.polling ==> r == t
    ensures !t.polling ==> (r.polling <==> r.activeSounds != map[])
    ensures !t.polling && t.activeSounds == map[] ==> r == t
    ensures !t.polling && t.activeSounds != map[] && (response.Failed? || HasNullEntry(response.updates)) ==> r == CLEARED
    ensures !t.polling && t.activeSounds != map[] && response.Received? && !HasNullEntry(response.updates) ==>
              r.activeSounds.Keys == (t.activeSounds.Keys * ReportedIds(response.updates)) + ValidIds(response.updates)
    ensures Consistent(t) ==> Consistent(r)
  {
    if t.polling then t else Poll(t.(polling := true), response)
  }

  /** stopAllSounds: after the server accepted the request both maps are empty and polling stops. */
  function StopAll(t: Tracker, accepted: bool): (r: Tracker)
    ensures accepted ==> r.currentlyPlaying == map[] && r.activeSounds == map[] && !r.polling
    ensures !accepted ==> r == t
  {
    if accepted then CLEARED else t
  }

  /** updateTopBarProgress: the percentage shown is clamped to [0, 100]. */
  function ClampPercentage(p: real): (r: real)
    ensures 0.0 <= r <= 100.0
    ensures 0.0 <= p <= 100.0 ==> r == p
    ensures p < 0.0 ==> r == 0.0
    ensures p > 100.0 ==> r == 100.0
  {
    if p < 0.0 then 0.0 else if p > 100.0 then 100.0 else p
  }
}
