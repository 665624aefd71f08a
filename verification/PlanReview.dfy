/** Reviewing a drafted plan: which edits are accepted, and what applying them changes. */
module PlanReview {
  import opened Wrappers
  import opened Whitespace

  /** A submitted item; None stands for a value of the wrong type, Missing for an item that is not an object. */
  datatype Item =
    | Missing
    | Item(id: Option<string>, text: Option<string>)

  datatype Edit = Edit(id: string, text: string)

  /** None stands for a value of the wrong type. */
  datatype Submission = Submission(
    objective: Option<string>,
    requirements: Option<seq<Item>>,
    steps: Option<seq<Item>>,
    notes: Option<seq<Option<string>>>)

  datatype Edits = Edits(objective: string, requirements: seq<Edit>, steps: seq<Edit>, notes: seq<string>)

  datatype Entry = Entry(id: string, text: string, other: int)

  datatype Note = Note(contextId: string, statement: string)

  /** A research bundle: what a review can edit, what it appends to, and everything else as one value. */
  datatype Research = Research(
    objective: string, requirements: seq<Entry>, steps: seq<Entry>, context: seq<Note>, evidence: seq<Edits>, other: int)

  const MAX_TEXT := 20000
  const MAX_NOTES := 50

  /** A text field: present, not blank, at most 20000 characters; kept without surrounding white space. */
  function Nonempty(value: Option<string>): Option<string> {
    if value.None? || Trim(value.value) == "" || |value.value| > MAX_TEXT then None else Some(Trim(value.value))
  }

  predicate HasId(item: Item, id: string) {
    item.Item? && item.id == Some(id)
  }

  function Matches(items: seq<Item>, id: string): (r: seq<Item>)
    ensures forall m :: m in r <==> m in items && HasId(m, id)
  {
    if items == [] then []
    else
      var last := |items| - 1;
      var before := Matches(items[..last], id);
      assert items == items[..last] + [items[last]];
      if HasId(items[last], id) then before + [items[last]] else before
  }

  function KeyedEdit(items: seq<Item>, id: string): Option<Edit> {
    var matches := Matches(items, id);
    if |matches| != 1 then None
    else
      assert matches[0] in matches;
      match Nonempty(matches[0].text)
      case None => None
      case Some(text) => Some(Edit(id, text))
  }

  /** One edit for each original, in the originals' order; None when any original is rejected. */
  function EditAll(items: seq<Item>, originals: seq<string>): Option<seq<Edit>> {
    if originals == [] then Some([])
    else
      var last := |originals| - 1;
      var before := EditAll(items, originals[..last]);
      var edit := KeyedEdit(items, originals[last]);
      if before.None? || edit.None? then None else Some(before.value + [edit.value])
  }

  function KeyedEdits(items: Option<seq<Item>>, originals: seq<string>): Option<seq<Edit>> {
    if items.None? || |items.value| != |originals| then None else EditAll(items.value, originals)
  }

  /** At most 20000 characters, not all of them white space. */
  predicate IsUsable(value: Option<string>) {
    value.Some? && |value.value| <= 20000 && !AllSpace(value.value)
  }

  /** A text is accepted exactly when it is usable, and stored without the white space around it. */
  lemma NonemptyIff(value: Option<string>)
    ensures Nonempty(value).Some? <==> IsUsable(value)
    ensures Nonempty(value).Some? ==> Nonempty(value).value == Trim(value.value)
  {
    if value.Some? {
      hide Trim;
      var lead, trail := TrimIsTheCore(value.value);
      var core := Trim(value.value);
      assert value.value == lead + core + trail;
      if core != "" {
        assert value.value[|lead|] == core[0];
      }
    }
  }

  // ---- Which submissions are accepted ----

  ghost predicate Distinct(ids: seq<string>) {
    forall i, j :: 0 <= i < j < |ids| ==> ids[i] != ids[j]
  }

  /** The ids of the items that carry one. */
  function GivenIds(items: seq<Item>): seq<string> {
    if items == [] then []
    else
      var last := items[|items| - 1];
      GivenIds(items[..|items| - 1]) + if last.Item? && last.id.Some? then [last.id.value] else []
  }

  lemma {:induction false} MatchesCount(items: seq<Item>, id: string)
    ensures |Matches(items, id)| == multiset(GivenIds(items))[id]
  {
    if items != [] {
      MatchesCount(items[..|items| - 1], id);
    }
  }

  lemma {:induction false} GivenIdsBound(items: seq<Item>)
    ensures |GivenIds(items)| <= |items|
  {
    if items != [] {
      GivenIdsBound(items[..|items| - 1]);
    }
  }

  predicate EachOnce(given: seq<string>, originals: seq<string>) {
    forall i :: 0 <= i < |originals| ==> multiset(given)[originals[i]] == 1
  }

  predicate TextsAreGood(items: seq<Item>, originals: seq<string>) {
    forall i :: 0 <= i < |items| && items[i].Item? && items[i].id.Some? && items[i].id.value in originals ==>
      IsUsable(items[i].text)
  }

  lemma KeyedEditIff(items: seq<Item>, id: string)
    ensures KeyedEdit(items, id).Some? <==>
              multiset(GivenIds(items))[id] == 1
              && (forall i :: 0 <= i < |items| && HasId(items[i], id) ==> Nonempty(items[i].text).Some?)
    ensures KeyedEdit(items, id).Some? ==>
              KeyedEdit(items, id).value.id == id
              && (forall i :: 0 <= i < |items| && HasId(items[i], id) ==>
                    Nonempty(items[i].text) == Some(KeyedEdit(items, id).value.text))
  {
    MatchesCount(items, id);
    var matches := Matches(items, id);
    forall i | 0 <= i < |items| && HasId(items[i], id) ensures items[i] in matches {
      assert items[i] in items;
    }
    if |matches| == 1 {
      assert matches[0] in matches;
      assert forall m :: m in matches ==> m == matches[0];
    }
  }

  lemma {:induction false} EditAllIff(items: seq<Item>, originals: seq<string>)
    ensures EditAll(items, originals).Some? <==>
              forall i :: 0 <= i < |originals| ==> KeyedEdit(items, originals[i]).Some?
    ensures EditAll(items, originals).Some? ==>
              && |EditAll(items, originals).value| == |originals|
              && forall i :: 0 <= i < |originals| ==>
                   KeyedEdit(items, originals[i]) == Some(EditAll(items, originals).value[i])
  {
    if originals != [] {
      EditAllIff(items, originals[..|originals| - 1]);
    }
  }

  /** Accepted exactly when every original is given once, nothing else is counted, and every text is usable. */
  lemma {:induction false} AcceptedIff(items: seq<Item>, originals: seq<string>)
    ensures KeyedEdits(Some(items), originals).Some? <==>
              |items| == |originals| && EachOnce(GivenIds(items), originals) && TextsAreGood(items, originals)
  {
    hide Nonempty, IsUsable;
    forall text: Option<string> {
      NonemptyIff(text);
    }
    EditAllIff(items, originals);
    forall i | 0 <= i < |originals|
      ensures KeyedEdit(items, originals[i]).Some? <==>
                multiset(GivenIds(items))[originals[i]] == 1
                && (forall k :: 0 <= k < |items| && HasId(items[k], originals[i]) ==> Nonempty(items[k].text).Some?)
    {
      KeyedEditIff(items, originals[i]);
    }
    if |items| == |originals| && KeyedEdits(Some(items), originals).Some? {
      forall k | 0 <= k < |items| && items[k].Item? && items[k].id.Some? && items[k].id.value in originals
        ensures Nonempty(items[k].text).Some?
      {
        var i :| 0 <= i < |originals| && originals[i] == items[k].id.value;
        assert HasId(items[k], originals[i]);
      }
    }
  }

  /** Distinct originals that each occur in a list no longer than theirs use the list up: the pigeonhole. */
  lemma {:induction false} Pigeonhole(given: seq<string>, originals: seq<string>)
    requires Distinct(originals) && EachOnce(given, originals) && |given| <= |originals|
    ensures multiset(given) == multiset(originals)
    decreases |originals|
  {
    if originals == [] {
      assert given == [];
    } else {
      var init, last := originals[..|originals| - 1], originals[|originals| - 1];
      assert originals == init + [last];
      assert last in multiset(given);
      var k :| 0 <= k < |given| && given[k] == last;
      var rest := given[..k] + given[k + 1..];
      assert given == given[..k] + [given[k]] + given[k + 1..];
      assert multiset(given) == multiset(rest) + multiset{last};
      forall i | 0 <= i < |init| ensures multiset(rest)[init[i]] == 1 {
        assert init[i] == originals[i] && originals[i] != last;
      }
      Pigeonhole(rest, init);
    }
  }

  /**
   * An accepted submission's ids are a permutation of the originals exactly when the originals are distinct:
   * then no unknown and no duplicate id can pass.
   */
  lemma {:induction false} AcceptedIsPermutationIff(items: seq<Item>, originals: seq<string>)
    requires KeyedEdits(Some(items), originals).Some?
    ensures multiset(GivenIds(items)) == multiset(originals) <==> Distinct(originals)
  {
    AcceptedIff(items, originals);
    GivenIdsBound(items);
    if Distinct(originals) {
      Pigeonhole(GivenIds(items), originals);
    }
    if multiset(GivenIds(items)) == multiset(originals) {
      forall i, j | 0 <= i < j < |originals| ensures originals[i] != originals[j] {
        assert originals == originals[..j] + originals[j..];
        assert originals[..j][i] == originals[i] && originals[j..][0] == originals[j];
        assert multiset(originals) == multiset(originals[..j]) + multiset(originals[j..]);
      }
    }
  }

  /** With a repeated original an unknown id does pass. */
  lemma {:induction false} RepeatedOriginalAdmitsUnknownId()
    ensures KeyedEdits(Some([Item(Some("a"), Some("x")), Item(Some("b"), Some("y"))]), ["a", "a"]).Some?
  {
    var items := [Item(Some("a"), Some("x")), Item(Some("b"), Some("y"))];
    assert items[..1] == [items[0]];
    assert GivenIds([items[0]]) == ["a"] && GivenIds(items) == ["a", "b"];
    assert !AllSpace("x") && !AllSpace("y") by {
      assert !IsSpace("x"[0]) && !IsSpace("y"[0]);
    }
    AcceptedIff(items, ["a", "a"]);
  }

  // ---- The whole submission ----

  function IdsOf(entries: seq<Entry>): (ids: seq<string>)
    ensures |ids| == |entries|
  {
    seq(|entries|, i requires 0 <= i < |entries| => entries[i].id)
  }

  function GoodNotes(notes: seq<Option<string>>): Option<seq<string>> {
    if notes == [] then Some([])
    else
      var before := GoodNotes(notes[..|notes| - 1]);
      var last := Nonempty(notes[|notes| - 1]);
      if before.None? || last.None? then None else Some(before.value + [last.value])
  }

  function ValidateEdits(submitted: Option<Submission>, research: Research): Option<Edits> {
    if submitted.None? || submitted.value.notes.None? || |submitted.value.notes.value| > MAX_NOTES then None
    else
      var s := submitted.value;
      var objective := Nonempty(s.objective);
      var requirements := KeyedEdits(s.requirements, IdsOf(research.requirements));
      var steps := KeyedEdits(s.steps, IdsOf(research.steps));
      var notes := GoodNotes(s.notes.value);
      if objective.None? || requirements.None? || steps.None? || notes.None? then None
      else Some(Edits(objective.value, requirements.value, steps.value, notes.value))
  }

  lemma {:induction false} GoodNotesIff(notes: seq<Option<string>>)
    ensures GoodNotes(notes).Some? <==> forall i :: 0 <= i < |notes| ==> IsUsable(notes[i])
    ensures GoodNotes(notes).Some? ==>
              && |GoodNotes(notes).value| == |notes|
              && forall i :: 0 <= i < |notes| ==>
                   IsUsable(notes[i]) && GoodNotes(notes).value[i] == Trim(notes[i].value)
  {
    hide IsUsable, Nonempty, Trim;
    if notes != [] {
      GoodNotesIff(notes[..|notes| - 1]);
      NonemptyIff(notes[|notes| - 1]);
    }
  }

  /** The items of a submission fit these originals: each given once, with a usable text, and no further item. */
  predicate Fits(items: Option<seq<Item>>, originals: seq<string>) {
    && items.Some? && |items.value| == |originals|
    && EachOnce(GivenIds(items.value), originals) && TextsAreGood(items.value, originals)
  }

  /** A whole review is accepted exactly when objective, items and notes are usable and the notes at most fifty. */
  lemma ReviewAcceptedIff(submitted: Option<Submission>, research: Research)
    ensures ValidateEdits(submitted, research).Some?
            <==> && submitted.Some? && IsUsable(submitted.value.objective)
                 && Fits(submitted.value.requirements, IdsOf(research.requirements))
                 && Fits(submitted.value.steps, IdsOf(research.steps))
                 && submitted.value.notes.Some? && |submitted.value.notes.value| <= 50
                 && (forall i :: 0 <= i < |submitted.value.notes.value| ==> IsUsable(submitted.value.notes.value[i]))
  {
    hide IsUsable, Nonempty, EditAll, EachOnce, TextsAreGood;
    if submitted.Some? {
      var s := submitted.value;
      NonemptyIff(s.objective);
      if s.notes.Some? {
        GoodNotesIff(s.notes.value);
      }
      if s.requirements.Some? {
        AcceptedIff(s.requirements.value, IdsOf(research.requirements));
      }
      if s.steps.Some? {
        AcceptedIff(s.steps.value, IdsOf(research.steps));
      }
    }
  }

  // ---- Applying edits ----

  /** find: the first edit with this id. */
  function FindEdit(edits: seq<Edit>, id: string): Option<Edit> {
    if edits == [] then None else if edits[0].id == id then Some(edits[0]) else FindEdit(edits[1..], id)
  }

  /** Each entry with the text of its edit; None where find comes back empty, which throws. */
  function Edited(entries: seq<Entry>, edits: seq<Edit>): Option<seq<Entry>> {
    if entries == [] then Some([])
    else
      var last := entries[|entries| - 1];
      var before := Edited(entries[..|entries| - 1], edits);
      var edit := FindEdit(edits, last.id);
      if before.None? || edit.None? then None else Some(before.value + [last.(text := edit.value.text)])
  }

  function NotesFrom(runId: string, notes: seq<string>, number: nat -> string): seq<Note> {
    seq(|notes|, i requires 0 <= i < |notes| => Note("review:" + runId + ":note:" + number(i + 1), notes[i]))
  }

  function ApplyEdits(runId: string, research: Research, edits: Edits, number: nat -> string): Option<Research> {
    var requirements := Edited(research.requirements, edits.requirements);
    var steps := Edited(research.steps, edits.steps);
    if requirements.None? || steps.None? then None
    else
      Some(Research(edits.objective, requirements.value, steps.value,
                    research.context + NotesFrom(runId, edits.notes, number), research.evidence + [edits], research.other))
  }

  lemma {:induction false} FindEditAt(edits: seq<Edit>, k: nat)
    requires k < |edits| && forall j :: 0 <= j < k ==> edits[j].id != edits[k].id
    ensures FindEdit(edits, edits[k].id) == Some(edits[k])
  {
    if k > 0 {
      assert edits[0].id != edits[k].id;
      FindEditAt(edits[1..], k - 1);
    }
  }

  lemma {:induction false} EditedIff(entries: seq<Entry>, edits: seq<Edit>)
    ensures Edited(entries, edits).Some? <==> forall i :: 0 <= i < |entries| ==> FindEdit(edits, entries[i].id).Some?
    ensures Edited(entries, edits).Some? ==>
              && |Edited(entries, edits).value| == |entries|
              && forall i :: 0 <= i < |entries| ==>
                   FindEdit(edits, entries[i].id).Some?
                   && Edited(entries, edits).value[i] == entries[i].(text := FindEdit(edits, entries[i].id).value.text)
  {
    if entries != [] {
      EditedIff(entries[..|entries| - 1], edits);
    }
  }

  /** The edits accepted for a list of entries give each entry its own submitted text. */
  lemma AcceptedEditsApply(entries: seq<Entry>, items: seq<Item>)
    requires KeyedEdits(Some(items), IdsOf(entries)).Some?
    ensures var edits := KeyedEdits(Some(items), IdsOf(entries)).value;
            && Edited(entries, edits).Some?
            && |Edited(entries, edits).value| == |entries|
            && (forall i :: 0 <= i < |entries| ==>
                  var after := Edited(entries, edits).value[i];
                  after.id == entries[i].id && after.other == entries[i].other)
            && (forall i, k :: 0 <= i < |entries| && 0 <= k < |items| && HasId(items[k], entries[i].id) ==>
                  Nonempty(items[k].text) == Some(Edited(entries, edits).value[i].text))
  {
    var ids := IdsOf(entries);
    var edits := KeyedEdits(Some(items), ids).value;
    EditAllIff(items, ids);
    EditedIff(entries, edits);
    forall i | 0 <= i < |entries|
      ensures FindEdit(edits, entries[i].id) == KeyedEdit(items, entries[i].id)
      ensures KeyedEdit(items, entries[i].id).Some?
    {
      FoundIsKeyed(items, ids, edits, i);
    }
    forall i, k | 0 <= i < |entries| && 0 <= k < |items| && HasId(items[k], entries[i].id)
      ensures Nonempty(items[k].text) == Some(Edited(entries, edits).value[i].text)
    {
      KeyedEditIff(items, entries[i].id);
    }
  }

  lemma FoundIsKeyed(items: seq<Item>, ids: seq<string>, edits: seq<Edit>, i: nat)
    requires EditAll(items, ids) == Some(edits) && i < |ids|
    ensures FindEdit(edits, ids[i]) == KeyedEdit(items, ids[i]) && KeyedEdit(items, ids[i]).Some?
  {
    EditAllIff(items, ids);
    KeyedEditIff(items, ids[i]);
    var k := 0;
    while ids[k] != ids[i]
      invariant k <= i && forall j :: 0 <= j < k ==> ids[j] != ids[i]
      decreases i - k
    {
      k := k + 1;
    }
    forall j | 0 <= j <= k ensures edits[j].id == ids[j] {
      KeyedEditIff(items, ids[j]);
    }
    FindEditAt(edits, k);
    assert KeyedEdit(items, ids[k]) == Some(edits[k]);
  }

  /**
   * A validated review always applies. It keeps the ids, the order and every other field of requirements and
   * steps, keeps the earlier context and evidence, and gives each entry the text submitted under its id.
   */
  lemma {:induction false} ReviewKeepsThePlan(runId: string, research: Research, submitted: Submission, number: nat -> string)
    requires ValidateEdits(Some(submitted), research).Some?
    ensures var edits := ValidateEdits(Some(submitted), research).value;
            var reviewed := ApplyEdits(runId, research, edits, number);
            && reviewed.Some?
            && IdsOf(reviewed.value.requirements) == IdsOf(research.requirements)
            && IdsOf(reviewed.value.steps) == IdsOf(research.steps)
            && (forall i :: 0 <= i < |research.requirements| ==>
                  reviewed.value.requirements[i].other == research.requirements[i].other)
            && (forall i :: 0 <= i < |research.steps| ==> reviewed.value.steps[i].other == research.steps[i].other)
            && research.context <= reviewed.value.context && research.evidence <= reviewed.value.evidence
            && reviewed.value.evidence == research.evidence + [edits] && reviewed.value.other == research.other
    ensures submitted.requirements.Some? && submitted.steps.Some? && submitted.notes.Some?
    ensures var reviewed := ApplyEdits(runId, research, ValidateEdits(Some(submitted), research).value, number).value;
            && Some(reviewed.objective) == Nonempty(submitted.objective)
            && NotesCarried(runId, submitted.notes.value, research.context, reviewed.context, number)
            && TextsCarried(submitted.requirements.value, reviewed.requirements)
            && TextsCarried(submitted.steps.value, reviewed.steps)
  {
    hide Nonempty, Matches, EditAll, Edited, Trim;
    GoodNotesIff(submitted.notes.value);
    AcceptedEditsApply(research.requirements, submitted.requirements.value);
    AcceptedEditsApply(research.steps, submitted.steps.value);
  }

  /** The notes follow the earlier context, in order and numbered from one, without the white space around them. */
  predicate NotesCarried(
    runId: string, notes: seq<Option<string>>, before: seq<Note>, after: seq<Note>, number: nat -> string)
  {
    && |after| == |before| + |notes| && before <= after
    && (forall i :: 0 <= i < |notes| ==>
          && notes[i].Some? && after[|before| + i].statement == Trim(notes[i].value)
          && after[|before| + i].contextId == "review:" + runId + ":note:" + number(i + 1))
  }

  predicate TextsCarried(items: seq<Item>, entries: seq<Entry>) {
    forall i, k :: 0 <= i < |entries| && 0 <= k < |items| && HasId(items[k], entries[i].id) ==>
      Nonempty(items[k].text) == Some(entries[i].text)
  }

  /** Every entry's text comes from some submitted item: accepted reviews leave no draft text unreviewed. */
  lemma {:induction false} EveryEntryWasSubmitted(items: seq<Item>, originals: seq<string>, i: nat) returns (k: nat)
    requires KeyedEdits(Some(items), originals).Some? && i < |originals|
    ensures k < |items| && HasId(items[k], originals[i])
    ensures forall j :: 0 <= j < |items| && HasId(items[j], originals[i]) ==> items[j] == items[k]
  {
    EditAllIff(items, originals);
    var matches := Matches(items, originals[i]);
    assert matches[0] in matches;
    k :| 0 <= k < |items| && items[k] == matches[0];
    forall j | 0 <= j < |items| && HasId(items[j], originals[i]) ensures items[j] == items[k] {
      assert items[j] in items;
      assert items[j] in matches;
    }
  }

  // ---- The loop that applies edits to a private copy ----

  /** Rewrites the text of every entry in place; false where find comes back empty, which throws. */
  method ApplyToEntries(entries: array<Entry>, edits: seq<Edit>) returns (ok: bool)
    modifies entries
    ensures ok == Edited(old(entries[..]), edits).Some?
    ensures ok ==> entries[..] == Edited(old(entries[..]), edits).value
  {
    ghost var before := entries[..];
    EditedIff(before, edits);
    for i := 0 to entries.Length
      invariant forall j :: 0 <= j < i ==>
                  FindEdit(edits, before[j].id).Some?
                  && entries[j] == before[j].(text := FindEdit(edits, before[j].id).value.text)
      invariant forall j :: i <= j < entries.Length ==> entries[j] == before[j]
    {
      var edit := FindEdit(edits, entries[i].id);
      if edit.None? {
        return false;
      }
      entries[i] := entries[i].(text := edit.value.text);
    }
    ok := true;
  }
}
