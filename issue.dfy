/**
 * The Issue resource: the per-operation field whitelists, the `issue` body of
 * create and update, the two shorthands built on update, and the journal
 * filter that drops system notes.
 */
module Issue {
  import opened Wrappers
  import opened OrderedMap
  import opened PhpValue
  import opened Errors
  import opened Json
  import opened Query
  import opened Http
  import opened AbstractResource

  /** The fields an issue may be created with, in this order. */
  const BaseFields: seq<string> := [
    "project_id", "tracker_id", "status_id", "priority_id", "subject", "description",
    "category_id", "fixed_version_id", "assigned_to_id", "parent_issue_id",
    "custom_fields", "watcher_user_ids", "is_private", "estimated_hours"
  ]

  /** getPermittedFields: an update may also carry notes. */
  function PermittedFields(updating: bool): seq<string>
  {
    if !updating then BaseFields else BaseFields + ["notes", "private_notes"]
  }

  /** The two lists share the base fields; only the update list admits notes. */
  lemma PermittedFieldsShape()
    ensures |PermittedFields(false)| == 14 && |PermittedFields(true)| == 16
    ensures PermittedFields(true)[..14] == PermittedFields(false)
    ensures PermittedFields(true)[14..] == ["notes", "private_notes"]
    ensures "notes" !in PermittedFields(false) && "private_notes" !in PermittedFields(false)
    ensures "notes" in PermittedFields(true) && "private_notes" in PermittedFields(true)
  {
  }

  function IssueUri(id: int): string
  {
    "/issues/" + IntToString(id) + ".json"
  }

  /** create: POST `{issue: sanitizeData(data, base fields)}`. */
  function CreateRequest(data: OMap<Key, Value>): (r: Request)
    ensures r.HttpPost? && r.uri == "/issues.json"
  {
    HttpPost("/issues.json", [(StrKey("issue"), Arr(SanitizedData(data, PermittedFields(false))))])
  }

  /** update: PUT `{issue: sanitizeData(data, base fields + notes)}`. */
  function UpdateRequest(id: int, data: OMap<Key, Value>): (r: Request)
    ensures r.HttpPut? && r.uri == IssueUri(id)
  {
    HttpPut(IssueUri(id), [(StrKey("issue"), Arr(SanitizedData(data, PermittedFields(true))))])
  }

  /** The `issue` object of a create body holds exactly the kept base fields, and never a note. */
  lemma CreateBody(data: OMap<Key, Value>, k: Key)
    ensures CreateRequest(data).body == [(StrKey("issue"), Arr(Whitelisted(data, BaseFields)))]
    ensures Get(Whitelisted(data, BaseFields), k) == KeptValue(data, BaseFields, k)
  {
    WhitelistedGet(data, BaseFields, k);
  }

  /** Notes given to create are dropped. */
  lemma CreateDropsNotes(data: OMap<Key, Value>)
    ensures StrKey("notes") !in Keys(Whitelisted(data, BaseFields))
    ensures StrKey("private_notes") !in Keys(Whitelisted(data, BaseFields))
  {
    PermittedFieldsShape();
    WhitelistedGet(data, BaseFields, StrKey("notes"));
    WhitelistedGet(data, BaseFields, StrKey("private_notes"));
  }

  /** The `issue` object of an update body holds exactly the kept update fields, notes included. */
  lemma UpdateBody(id: int, data: OMap<Key, Value>, k: Key)
    ensures UpdateRequest(id, data).body == [(StrKey("issue"), Arr(Whitelisted(data, PermittedFields(true))))]
    ensures Get(Whitelisted(data, PermittedFields(true)), k) == KeptValue(data, PermittedFields(true), k)
  {
    WhitelistedGet(data, PermittedFields(true), k);
  }

  /** An update carries a non-null note given in the data. */
  lemma UpdateKeepsNotes(id: int, data: OMap<Key, Value>, note: Value)
    requires Get(data, StrKey("notes")) == Some(note) && note != Null
    ensures var fields := PermittedFields(true);
      && UpdateRequest(id, data).body == [(StrKey("issue"), Arr(Whitelisted(data, fields)))]
      && Get(Whitelisted(data, fields), StrKey("notes")) == Some(note)
  {
    WhitelistedGet(data, PermittedFields(true), StrKey("notes"));
  }

  /** addNote: an update whose data is only the note. */
  function AddNoteRequest(id: int, note: string): (r: Request)
    ensures r.HttpPut? && r.uri == IssueUri(id)
  {
    UpdateRequest(id, [(StrKey("notes"), Str(note))])
  }

  /** updateStatus: an update whose data is only the status. */
  function UpdateStatusRequest(id: int, statusId: int): (r: Request)
    ensures r.HttpPut? && r.uri == IssueUri(id)
  {
    UpdateRequest(id, [(StrKey("status_id"), Int(statusId))])
  }

  /** The note survives the update whitelist, so addNote sends exactly `{issue: {notes: note}}`. */
  lemma AddNoteBody(id: int, note: string)
    ensures AddNoteRequest(id, note) == HttpPut(IssueUri(id), [(StrKey("issue"), Arr([(StrKey("notes"), Str(note))]))])
  {
    WhitelistedSingle("notes", Str(note), PermittedFields(true));
  }

  /** updateStatus sends exactly `{issue: {status_id: statusId}}`. */
  lemma UpdateStatusBody(id: int, statusId: int)
    ensures UpdateStatusRequest(id, statusId) == HttpPut(IssueUri(id), [(StrKey("issue"), Arr([(StrKey("status_id"), Int(statusId))]))])
  {
    WhitelistedSingle("status_id", Int(statusId), PermittedFields(true));
  }

  // ---------------------------------------------------------------------------
  // System notes

  const TrimTypeErrorMessage := "trim(): Argument #1 ($string) must be of type string"
  const ScalarAsArrayMessage := "Cannot use a scalar value as an array"

  /**
   * The text filterSystemNotes trims for one journal entry, `$note['notes'] ?? ''`.
   * A null or false entry reads as '' and is turned into an array by the
   * assignment; any other scalar cannot be written to, and a note that is
   * neither a string nor null cannot be trimmed under strict types.
   */
  function NoteText(note: Value): Result<string, Error>
  {
    match note
    case Arr(e) =>
      var n: Option<Value> := Get(e, StrKey("notes"));
      (match n
       case None => Success("")
       case Some(Null) => Success("")
       case Some(Str(s)) => Success(s)
       case Some(_) => Failure(EngineError(TrimTypeErrorMessage)))
    case Null => Success("")
    case Bool(false) => Success("")
    case _ => Failure(EngineError(ScalarAsArrayMessage))
  }

  /** A journal entry a user wrote: its note text is not made of trim characters only. */
  predicate UserNote(note: Value)
  {
    NoteText(note).Success? && !Blank(NoteText(note).value)
  }

  /** The error of the first entry that cannot be examined, if any. */
  function FirstError(notes: OMap<Key, Value>): Option<Error>
    decreases |notes|
  {
    if notes == [] then None
    else
      match FirstError(notes[..|notes| - 1])
      case Some(e) => Some(e)
      case None =>
        var t := NoteText(notes[|notes| - 1].1);
        if t.Failure? then Some(t.error) else None
  }

  /** The entries that are not system notes, in their original order and unmodified. */
  function Surviving(notes: OMap<Key, Value>): OMap<Key, Value>
    decreases |notes|
  {
    if notes == [] then []
    else
      var last := notes[|notes| - 1];
      Surviving(notes[..|notes| - 1]) + (if UserNote(last.1) then [last] else [])
  }

  /** filterSystemNotes: the surviving entries re-indexed from 0, or the first error raised. */
  function FilteredNotes(notes: OMap<Key, Value>): Result<OMap<Key, Value>, Error>
  {
    match FirstError(notes)
    case Some(e) => Failure(e)
    case None => Success(ArrayValues(Surviving(notes)))
  }

  /** Exactly the user notes survive. */
  lemma {:induction false} SurvivingMembers(notes: OMap<Key, Value>)
    ensures forall e :: e in Surviving(notes) <==> e in notes && UserNote(e.1)
    decreases |notes|
  {
    if notes != [] {
      var front := notes[..|notes| - 1];
      SurvivingMembers(front);
      assert notes == front + [notes[|notes| - 1]];
    }
  }

  /** Filtering distributes over concatenation, so survivors keep their relative order. */
  lemma {:induction false} SurvivingConcat(a: OMap<Key, Value>, b: OMap<Key, Value>)
    ensures Surviving(a + b) == Surviving(a) + Surviving(b)
    decreases |b|
  {
    if b == [] {
      assert a + b == a;
    } else {
      var front := b[..|b| - 1];
      SurvivingConcat(a, front);
      assert (a + b)[..|a + b| - 1] == a + front;
    }
  }

  /** The filter fails exactly when some entry cannot be examined, and then with that entry's error. */
  lemma {:induction false} FirstErrorMeaning(notes: OMap<Key, Value>)
    ensures FirstError(notes).None? <==> forall i :: 0 <= i < |notes| ==> NoteText(notes[i].1).Success?
    ensures FirstError(notes).Some? ==> exists i :: 0 <= i < |notes| && NoteText(notes[i].1) == Failure(FirstError(notes).value)
    decreases |notes|
  {
    if notes != [] {
      var front := notes[..|notes| - 1];
      FirstErrorMeaning(front);
      if FirstError(front).Some? {
        var i :| 0 <= i < |front| && NoteText(front[i].1) == Failure(FirstError(front).value);
        assert notes[i] == front[i];
      } else {
        assert forall i :: 0 <= i < |front| ==> notes[i] == front[i];
      }
    }
  }

  /** The survivors of the entries before position i do not use the key at position i. */
  lemma SurvivorKeysBefore(notes: OMap<Key, Value>, i: nat)
    requires UniqueKeys(notes) && i < |notes|
    ensures notes[i].0 !in Keys(Surviving(notes[..i]))
    ensures notes[i].0 !in Keys(notes[i + 1..])
  {
    var key, before, rest := notes[i].0, Surviving(notes[..i]), notes[i + 1..];
    SurvivingMembers(notes[..i]);
    forall j | 0 <= j < |before| ensures Keys(before)[j] != key {
      assert before[j] in notes[..i];
      var p :| 0 <= p < i && notes[..i][p] == before[j];
      assert Keys(notes)[p] == before[j].0 && Keys(notes)[i] == key;
    }
    forall j | 0 <= j < |rest| ensures Keys(rest)[j] != key {
      assert Keys(notes)[i + 1 + j] == rest[j].0 && Keys(notes)[i] == key;
    }
  }

  /** Extending the examined prefix by one entry adds that entry exactly when it is a user note. */
  lemma SurvivingSnoc(notes: OMap<Key, Value>, i: nat)
    requires i < |notes|
    ensures Surviving(notes[..i + 1]) == Surviving(notes[..i]) + (if UserNote(notes[i].1) then [notes[i]] else [])
  {
    assert notes[..i + 1][..i] == notes[..i];
  }

  /** Unsetting a key held by one entry only removes that entry. */
  lemma UnsetBetween<K(!new), V(!new)>(before: OMap<K, V>, e: (K, V), rest: OMap<K, V>)
    requires e.0 !in Keys(before) && e.0 !in Keys(rest)
    ensures Unset(before + ([e] + rest), e.0) == before + rest
  {
    UnsetConcat(before, [e] + rest, e.0);
    UnsetConcat([e], rest, e.0);
  }

  /** One turn of the loop: the entry at position i is unset exactly when it is a system note. */
  lemma SurvivingStep(notes: OMap<Key, Value>, i: nat)
    requires UniqueKeys(notes) && i < |notes|
    ensures !UserNote(notes[i].1) ==>
      Surviving(notes[..i + 1]) + notes[i + 1..] == Unset(Surviving(notes[..i]) + notes[i..], notes[i].0)
    ensures UserNote(notes[i].1) ==>
      Surviving(notes[..i + 1]) + notes[i + 1..] == Surviving(notes[..i]) + notes[i..]
  {
    var before, e, rest := Surviving(notes[..i]), notes[i], notes[i + 1..];
    assert notes[i..] == [e] + rest;
    if UserNote(e.1) {
      assert Surviving(notes[..i + 1]) == before + [e] by { SurvivingSnoc(notes, i); }
      assert before + [e] + rest == before + ([e] + rest);
    } else {
      assert Surviving(notes[..i + 1]) == before by { SurvivingSnoc(notes, i); }
      assert Unset(before + ([e] + rest), e.0) == before + rest by {
        SurvivorKeysBefore(notes, i);
        UnsetBetween(before, e, rest);
      }
    }
  }

  /**
   * The loop of filterSystemNotes: entries whose trimmed note is empty are
   * unset from `$notes` one by one, and the rest are re-indexed.
   */
  method FilterSystemNotes(notes: OMap<Key, Value>) returns (r: Result<OMap<Key, Value>, Error>)
    requires UniqueKeys(notes)
    ensures r == FilteredNotes(notes)
  {
    var live := notes;
    for i := 0 to |notes|
      invariant live == Surviving(notes[..i]) + notes[i..]
      invariant FirstError(notes[..i]).None?
    {
      var key := notes[i].0;
      var text := NoteText(notes[i].1);
      FirstErrorSnoc(notes, i);
      if text.Failure? {
        FirstErrorPrefix(notes, i + 1);
        return Failure(text.error);
      }
      SurvivingStep(notes, i);
      TrimEmptyIffBlank(text.value);
      if Trim(text.value) == "" {
        live := Unset(live, key);
      }
    }
    FilterDone(notes, live);
    return Success(ArrayValues(live));
  }

  /** Examining one more entry: its error, if any, becomes the first error of the longer prefix. */
  lemma FirstErrorSnoc(notes: OMap<Key, Value>, i: nat)
    requires i < |notes| && FirstError(notes[..i]).None?
    ensures FirstError(notes[..i + 1]) == if NoteText(notes[i].1).Failure? then Some(NoteText(notes[i].1).error) else None
  {
    assert notes[..i + 1][..i] == notes[..i];
  }

  /** When every entry has been examined, the loop state is the filter's result. */
  lemma FilterDone(notes: OMap<Key, Value>, live: OMap<Key, Value>)
    requires live == Surviving(notes[..|notes|]) + notes[|notes|..] && FirstError(notes[..|notes|]).None?
    ensures FilteredNotes(notes) == Success(ArrayValues(live))
  {
    assert notes[..|notes|] == notes;
    assert notes[|notes|..] == [];
    var survivors := Surviving(notes);
    assert live == survivors + [];
    assert survivors + [] == survivors;
  }

  /** An error among the first n entries is the error of the whole filter. */
  lemma {:induction false} FirstErrorPrefix(notes: OMap<Key, Value>, n: nat)
    requires n <= |notes| && FirstError(notes[..n]).Some?
    ensures FirstError(notes) == FirstError(notes[..n])
    decreases |notes| - n
  {
    if n < |notes| {
      assert notes[..n + 1][..n] == notes[..n];
      FirstErrorPrefix(notes, n + 1);
    } else {
      assert notes[..n] == notes;
    }
  }

  /** A whitespace-only note, a missing note and a null note are system notes; written text is not. */
  lemma NoteExamples()
    ensures !UserNote(Arr([(StrKey("notes"), Str(" \n"))]))
    ensures !UserNote(Arr([])) && !UserNote(Arr([(StrKey("notes"), Null)]))
    ensures UserNote(Arr([(StrKey("notes"), Str("done"))]))
  {
    assert !IsTrimChar("done"[0]);
  }

  /** Of three examinable notes of which only the last is a user note, only that one survives, at index 0. */
  lemma FilterThree(k0: Key, a: Value, k1: Key, b: Value, k2: Key, c: Value)
    requires NoteText(a).Success? && NoteText(b).Success? && NoteText(c).Success?
    requires !UserNote(a) && !UserNote(b) && UserNote(c)
    ensures FilteredNotes([(k0, a), (k1, b), (k2, c)]) == Success([(IntKey(0), c)])
  {
    var notes := [(k0, a), (k1, b), (k2, c)];
    SurvivingConcat([notes[0]], [notes[1]]);
    SurvivingConcat([notes[0], notes[1]], [notes[2]]);
    assert [notes[0]] + [notes[1]] == [notes[0], notes[1]] && [notes[0], notes[1]] + [notes[2]] == notes;
    assert Surviving(notes) == [(k2, c)];
    FirstErrorMeaning(notes);
    var values := ArrayValues([(k2, c)]);
    assert |values| == 1 && values[0] == (IntKey(0), c);
    assert values == [(IntKey(0), c)];
  }

  /** Of a blank, a missing and a written note only the last survives, at index 0 and unmodified. */
  lemma FilterExample()
    ensures var written := Arr([(StrKey("notes"), Str("done"))]);
      FilteredNotes([(IntKey(0), Arr([(StrKey("notes"), Str(" \n"))])), (IntKey(1), Arr([])), (IntKey(2), written)])
      == Success([(IntKey(0), written)])
  {
    var blank := Arr([(StrKey("notes"), Str(" \n"))]);
    var written := Arr([(StrKey("notes"), Str("done"))]);
    NoteExamples();
    FilterThree(IntKey(0), blank, IntKey(1), Arr([]), IntKey(2), written);
  }

  // ---------------------------------------------------------------------------
  // Notes of an issue

  /** getNotes fetches the issue with its journals included. */
  function NotesRequest(id: int, encode: Encoder): (r: Request)
    ensures r.HttpGet? && r.uri == IssueUri(id)
  {
    HttpGet(IssueUri(id), Flattened([Arr([(StrKey("include"), Arr([(IntKey(0), Str("journals"))]))])], encode))
  }

  /** The request asks for `include=<encoded "journals">` and nothing else. */
  lemma NotesRequestQuery(id: int, encode: Encoder)
    ensures NotesRequest(id, encode) == HttpGet(IssueUri(id), [(StrKey("include"), encode("journals"))])
  {
    assert ImplodeValues([(IntKey(0), Str("journals"))]) == "journals";
  }

  const JournalsTypeErrorMessage := "Return value must be of type array"

  /** `$data['issue']['journals']`, which both branches of getNotes need to be an array. */
  function Journals(data: OMap<Key, Value>): Result<OMap<Key, Value>, Error>
  {
    var i: Option<Value> := Get(data, StrKey("issue"));
    match i
    case Some(Arr(issue)) =>
      var j: Option<Value> := Get(issue, StrKey("journals"));
      (match j
       case Some(Arr(journals)) => Success(journals)
       case _ => Failure(EngineError(JournalsTypeErrorMessage)))
    case _ => Failure(EngineError(JournalsTypeErrorMessage))
  }

  /** getNotes once the issue has been fetched. */
  function GetNotes(outcome: Transport, decode: Decoder, skipSystem: bool): (r: Result<OMap<Key, Value>, Error>)
    ensures outcome.Threw? ==> r == Failure(ThrowRequestException(outcome.e))
    ensures r.Success? ==> Send(outcome, decode).Success?
  {
    match Send(outcome, decode)
    case Failure(e) => Failure(e)
    case Success(data) =>
      match Journals(data)
      case Failure(e) => Failure(e)
      case Success(journals) => if skipSystem then FilteredNotes(journals) else Success(journals)
  }

  /** Without skipping, the journals come back as they were received; with it, filtered. */
  lemma GetNotesJournals(outcome: Transport, decode: Decoder, data: OMap<Key, Value>, issue: OMap<Key, Value>, journals: OMap<Key, Value>)
    requires Send(outcome, decode) == Success(data)
    requires Get(data, StrKey("issue")) == Some(Arr(issue)) && Get(issue, StrKey("journals")) == Some(Arr(journals))
    ensures GetNotes(outcome, decode, false) == Success(journals)
    ensures GetNotes(outcome, decode, true) == FilteredNotes(journals)
  {
  }

  /** A failed fetch fails getNotes with the same error. */
  lemma GetNotesFetchError(outcome: Transport, decode: Decoder, skipSystem: bool)
    requires Send(outcome, decode).Failure?
    ensures GetNotes(outcome, decode, skipSystem) == Failure(Send(outcome, decode).error)
  {
  }
}
