/**
 * The deal detail page: colour lookups with their fallbacks, the defaults it
 * displays for missing fields, and the deal's notes log. The log is one text
 * field; adding a note appends a timestamped entry after a blank line, and
 * the page shows the log split back into entries on blank lines.
 */
module DealDetails {
  import opened Wrappers
  import opened Seqs
  import opened JsText
  import opened Remote
  import opened UseDeals

  // ---------------------------------------------------------------- lookups

  /** `getPriorityColor`: badge classes per priority; anything else gets the medium classes. */
  function PriorityColor(priority: string): string {
    match priority
    case "critical" => "bg-red-500/20 text-red-400 border-red-500/30"
    case "high" => "bg-orange-500/20 text-orange-400 border-orange-500/30"
    case "medium" => MediumPriorityColor
    case "low" => "bg-emerald-500/20 text-emerald-400 border-emerald-500/30"
    case _ => MediumPriorityColor
  }

  const MediumPriorityColor := "bg-amber-500/20 text-amber-400 border-amber-500/30"

  /** `getStageColor`: colour per stage id; anything else gets the prospecting colour. */
  function StageColor(stage: string): string {
    match stage
    case "prospecting" => "#a78bfa"
    case "qualification" => "#22d3ee"
    case "proposal" => "#fbbf24"
    case "negotiation" => "#fb923c"
    case "closed-won" => "#10b981"
    case "closed-lost" => "#f87171"
    case _ => "#a78bfa"
  }

  predicate IsKnownPriority(priority: string) {
    priority in ["critical", "high", "medium", "low"]
  }

  predicate IsKnownStage(stage: string) {
    stage in ["prospecting", "qualification", "proposal", "negotiation", "closed-won", "closed-lost"]
  }

  /** Unknown priorities fall back to the medium colour, and unknown stages to `#a78bfa`. */
  lemma ColorFallbacks(priority: string, stage: string)
    ensures !IsKnownPriority(priority) ==> PriorityColor(priority) == PriorityColor("medium")
    ensures !IsKnownStage(stage) ==> StageColor(stage) == "#a78bfa"
    ensures StageColor(stage) == "#a78bfa" <==> !IsKnownStage(stage) || stage == "prospecting"
  {
  }

  // ------------------------------------------------------- display defaults

  /** The probability card: `deal.probability || 50`. */
  function ShownProbability(d: Deal): int {
    OrNumber(d.probability, 50)
  }

  /** The days-in-stage card: `deal.days_in_stage || 0`. */
  function ShownDays(d: Deal): int {
    OrNumber(d.daysInStage, 0)
  }

  /** The header's company line: `deal.company || 'No company specified'`. */
  function ShownCompany(d: Deal): string {
    OrString(d.company, "No company specified")
  }

  /** The priority badge's colour: `getPriorityColor(deal.priority || 'medium')`. */
  function ShownPriorityColor(d: Deal): string {
    PriorityColor(OrString(d.priority, "medium"))
  }

  /** A stored probability of 0 (or none) is shown as 50; a missing day count as 0. */
  lemma DisplayDefaults(d: Deal)
    ensures d.probability.None? || d.probability == Some(0) ==> ShownProbability(d) == 50
    ensures d.probability.Some? && d.probability.value != 0 ==> ShownProbability(d) == d.probability.value
    ensures d.daysInStage.None? ==> ShownDays(d) == 0
    ensures d.daysInStage.Some? ==> ShownDays(d) == d.daysInStage.value
    ensures d.priority.None? ==> ShownPriorityColor(d) == MediumPriorityColor
    ensures d.company.None? || d.company == Some("") ==> ShownCompany(d) == "No company specified"
    ensures d.company.Some? && d.company.value != "" ==> ShownCompany(d) == d.company.value
  {
  }

  /** `deals.find(d => d.id === id)`: the first deal with that id. */
  function FindDeal(deals: seq<Deal>, id: string): (r: Option<Deal>)
    ensures r.Some? ==> r.value in deals && r.value.id == id
    ensures r.None? <==> forall i :: 0 <= i < |deals| ==> deals[i].id != id
  {
    if deals == [] then None
    else if deals[0].id == id then Some(deals[0])
    else FindDeal(deals[1..], id)
  }

  /** The deal found is the first one carrying the id. */
  lemma {:induction false} FindDealIsFirst(deals: seq<Deal>, id: string)
    requires FindDeal(deals, id).Some?
    ensures exists k :: 0 <= k < |deals| && deals[k] == FindDeal(deals, id).value
                        && forall j :: 0 <= j < k ==> deals[j].id != id
  {
    if deals[0].id != id {
      FindDealIsFirst(deals[1..], id);
      var k :| 0 <= k < |deals[1..]| && deals[1..][k] == FindDeal(deals[1..], id).value
                && forall j :: 0 <= j < k ==> deals[1..][j].id != id;
      assert deals[k + 1] == deals[1..][k];
      assert forall j :: 1 <= j < k + 1 ==> deals[j] == deals[1..][j - 1];
    } else {
      assert deals[0] == FindDeal(deals, id).value;
    }
  }

  // ------------------------------------------------------------- notes log

  /** One log entry: `[<timestamp>] <note>`. */
  function Entry(timestamp: string, note: string): string {
    "[" + timestamp + "] " + note
  }

  /**
   * The notes text after `handleAddNote`: the new entry alone when there are
   * no notes yet, otherwise the old text, a blank line, and the new entry.
   */
  function AppendNote(notes: Option<string>, timestamp: string, note: string): string {
    var current := OrString(notes, "");
    if current == [] then Entry(timestamp, note)
    else current + "\n\n" + Entry(timestamp, note)
  }

  /** The log is append-only: the old text is a prefix of the new, and the new entry ends it. */
  lemma AppendOnly(notes: Option<string>, timestamp: string, note: string)
    ensures var current := OrString(notes, "");
            var r := AppendNote(notes, timestamp, note);
            && current <= r
            && r[|r| - |Entry(timestamp, note)|..] == Entry(timestamp, note)
            && (current == [] ==> r == Entry(timestamp, note))
  {
  }

  /** No two consecutive newlines: text that `split('\n\n')` leaves whole. */
  predicate NoBlankLine(s: string) {
    forall i :: 0 <= i < |s| - 1 ==> !(s[i] == '\n' && s[i + 1] == '\n')
  }

  /** `s.split('\n\n')`: the pieces between non-overlapping separators, scanned left to right. */
  function SplitParagraphs(s: string): (parts: seq<string>)
    ensures |parts| >= 1
    decreases |s|
  {
    if |s| < 2 then [s]
    else if s[0] == '\n' && s[1] == '\n' then [""] + SplitParagraphs(s[2..])
    else
      var rest := SplitParagraphs(s[1..]);
      [[s[0]] + rest[0]] + rest[1..]
  }

  /** `parts.join('\n\n')`. */
  function JoinParagraphs(parts: seq<string>): string
    requires |parts| >= 1
  {
    if |parts| == 1 then parts[0] else parts[0] + "\n\n" + JoinParagraphs(parts[1..])
  }

  /** Splitting loses nothing: joining the pieces back gives the original text. */
  lemma {:induction false} JoinSplit(s: string)
    ensures JoinParagraphs(SplitParagraphs(s)) == s
    decreases |s|
  {
    if |s| < 2 {
    } else if s[0] == '\n' && s[1] == '\n' {
      JoinSplit(s[2..]);
      assert s == "\n\n" + s[2..];
    } else {
      var rest := SplitParagraphs(s[1..]);
      JoinSplit(s[1..]);
      JoinPrepend(s[0], rest);
      assert s == [s[0]] + s[1..];
    }
  }

  /** Putting a character in front of the first piece puts it in front of the joined text. */
  lemma JoinPrepend(c: char, parts: seq<string>)
    requires |parts| >= 1
    ensures JoinParagraphs([[c] + parts[0]] + parts[1..]) == [c] + JoinParagraphs(parts)
  {
    var head := [c] + parts[0];
    var joined := [head] + parts[1..];
    assert joined[0] == head;
    if |parts| > 1 {
      assert joined[1..] == parts[1..];
      var tail := JoinParagraphs(parts[1..]);
      ConcatAssoc([c], parts[0], "\n\n" + tail);
      calc {
        JoinParagraphs(joined);
        head + "\n\n" + tail;
        { ConcatAssoc(head, "\n\n", tail); }
        head + ("\n\n" + tail);
        [c] + (parts[0] + ("\n\n" + tail));
        { ConcatAssoc(parts[0], "\n\n", tail); }
        [c] + JoinParagraphs(parts);
      }
    }
  }

  lemma ConcatAssoc(a: string, b: string, c: string)
    ensures a + b + c == a + (b + c)
  {
  }

  /** Text with no blank line splits into itself alone. */
  lemma {:induction false} SplitNoBlankLine(s: string)
    requires NoBlankLine(s)
    ensures SplitParagraphs(s) == [s]
    decreases |s|
  {
    if |s| >= 2 {
      SplitNoBlankLine(s[1..]);
      assert s == [s[0]] + s[1..];
    }
  }

  /** A first character that does not start a separator joins the first piece of the rest. */
  lemma SplitCons(c: char, t: string)
    requires !(c == '\n' && |t| > 0 && t[0] == '\n')
    ensures SplitParagraphs([c] + t) == [[c] + SplitParagraphs(t)[0]] + SplitParagraphs(t)[1..]
  {
    var s := [c] + t;
    assert s[0] == c && s[1..] == t;
    if t == [] {
      assert SplitParagraphs(t) == [[]];
    }
  }

  /** Splitting across an appended separator, when the left part does not end in a newline. */
  lemma {:induction false} SplitConcat(a: string, b: string)
    requires a == [] || a[|a| - 1] != '\n'
    ensures SplitParagraphs(a + "\n\n" + b) == SplitParagraphs(a) + SplitParagraphs(b)
    decreases |a|
  {
    if a == [] {
      assert (a + "\n\n" + b)[2..] == b;
    } else if |a| >= 2 && a[0] == '\n' && a[1] == '\n' {
      SplitConcat(a[2..], b);
      SplitConcatSeparator(a, b);
    } else {
      SplitConcat(a[1..], b);
      SplitConcatChar(a, b);
    }
  }

  /** The step of `SplitConcat` for text that starts with a separator. */
  lemma SplitConcatSeparator(a: string, b: string)
    requires |a| >= 2 && a[0] == '\n' && a[1] == '\n'
    requires SplitParagraphs(a[2..] + "\n\n" + b) == SplitParagraphs(a[2..]) + SplitParagraphs(b)
    ensures SplitParagraphs(a + "\n\n" + b) == SplitParagraphs(a) + SplitParagraphs(b)
  {
    var t := a[2..] + "\n\n" + b;
    var sa, sb := SplitParagraphs(a[2..]), SplitParagraphs(b);
    calc {
      SplitParagraphs(a + "\n\n" + b);
      { assert a + "\n\n" + b == "\n\n" + t; }
      SplitParagraphs("\n\n" + t);
      { SplitSeparator(t); }
      [""] + (sa + sb);
      { SeqAssoc([""], sa, sb); }
      ([""] + sa) + sb;
      { SplitSeparator(a[2..]); assert a == "\n\n" + a[2..]; }
      SplitParagraphs(a) + sb;
    }
  }

  lemma SeqAssoc(x: seq<string>, y: seq<string>, z: seq<string>)
    ensures x + (y + z) == (x + y) + z
  {
  }

  /** A leading separator contributes an empty first piece. */
  lemma SplitSeparator(t: string)
    ensures SplitParagraphs("\n\n" + t) == [""] + SplitParagraphs(t)
  {
    assert ("\n\n" + t)[2..] == t;
  }

  /** The step of `SplitConcat` for text whose first character does not start a separator. */
  lemma SplitConcatChar(a: string, b: string)
    requires a != [] && !(|a| >= 2 && a[0] == '\n' && a[1] == '\n')
    requires a[|a| - 1] != '\n'
    requires SplitParagraphs(a[1..] + "\n\n" + b) == SplitParagraphs(a[1..]) + SplitParagraphs(b)
    ensures SplitParagraphs(a + "\n\n" + b) == SplitParagraphs(a) + SplitParagraphs(b)
  {
    var t := a[1..] + "\n\n" + b;
    var ra, rb := SplitParagraphs(a[1..]), SplitParagraphs(b);
    ConcatAfterFirst(a, "\n\n" + b);
    assert a + "\n\n" + b == [a[0]] + t;
    SplitCons(a[0], t);
    assert a == [a[0]] + a[1..];
    SplitCons(a[0], a[1..]);
    PrependToFirst([a[0]] + ra[0], ra, rb);
  }

  lemma ConcatAfterFirst(a: string, rest: string)
    requires a != []
    ensures a + rest == [a[0]] + (a[1..] + rest)
  {
    assert a == [a[0]] + a[1..];
  }

  /** Replacing the first piece of `ra + rb` by `h` is replacing the first piece of `ra`, then appending `rb`. */
  lemma PrependToFirst(h: string, ra: seq<string>, rb: seq<string>)
    requires |ra| >= 1
    ensures [h] + (ra + rb)[1..] == ([h] + ra[1..]) + rb
  {
    assert (ra + rb)[1..] == ra[1..] + rb;
  }

  /** The filter `formatNotes` applies: `note.trim()` is non-empty. */
  predicate HasText(piece: string) {
    Trim(piece) != []
  }

  /** `formatNotes`: no entries for empty notes, else the blank-line pieces that are not whitespace only. */
  function FormatNotes(notes: string): (entries: seq<string>)
    ensures notes == [] ==> entries == []
    ensures notes != [] ==> entries == Filter(SplitParagraphs(notes), NotBlank)
    ensures IsSubsequence(entries, SplitParagraphs(notes))
    ensures forall i :: 0 <= i < |entries| ==> !IsBlank(entries[i])
  {
    if notes == [] then []
    else
      var pieces := SplitParagraphs(notes);
      forall i | 0 <= i < |pieces| ensures HasText(pieces[i]) == NotBlank(pieces[i]) {
        TrimEmptyIffBlank(pieces[i]);
      }
      FilterCongruent(pieces, HasText, NotBlank);
      Filter(pieces, HasText)
  }

  /** A piece with some non-whitespace character. */
  predicate NotBlank(piece: string) {
    !IsBlank(piece)
  }

  lemma NoBlankLineConcat(a: string, b: string)
    requires NoBlankLine(a) && NoBlankLine(b)
    requires a == [] || b == [] || a[|a| - 1] != '\n' || b[0] != '\n'
    ensures NoBlankLine(a + b)
  {
    var s := a + b;
    forall i | 0 <= i < |s| - 1 ensures !(s[i] == '\n' && s[i + 1] == '\n') {
      if i + 1 < |a| {
        assert s[i] == a[i] && s[i + 1] == a[i + 1];
      } else if i >= |a| {
        assert s[i] == b[i - |a|] && s[i + 1] == b[i + 1 - |a|];
      }
    }
  }

  /** An entry whose timestamp and note hold no blank line holds none either. */
  lemma EntryHasNoBlankLine(timestamp: string, note: string)
    requires NoBlankLine(timestamp) && NoBlankLine(note)
    ensures NoBlankLine(Entry(timestamp, note))
  {
    NoBlankLineConcat("[", timestamp);
    NoBlankLineConcat("[" + timestamp, "] ");
    NoBlankLineConcat("[" + timestamp + "] ", note);
  }

  /**
   * Round trip: when neither the timestamp nor the note holds a blank line
   * and the old notes do not end in a newline, the page shows the old
   * entries followed by exactly the new one.
   */
  lemma FormatNotesAfterAppend(notes: Option<string>, timestamp: string, note: string)
    requires NoBlankLine(timestamp) && NoBlankLine(note)
    requires var current := OrString(notes, ""); current == [] || current[|current| - 1] != '\n'
    ensures FormatNotes(AppendNote(notes, timestamp, note))
            == FormatNotes(OrString(notes, "")) + [Entry(timestamp, note)]
  {
    var current := OrString(notes, "");
    var e := Entry(timestamp, note);
    EntryIsOneParagraph(timestamp, note);
    if current != [] {
      SplitConcat(current, e);
      FilterConcat(SplitParagraphs(current), SplitParagraphs(e), HasText);
    }
  }

  /** A single entry is one non-blank paragraph, so it is kept whole. */
  lemma EntryIsOneParagraph(timestamp: string, note: string)
    requires NoBlankLine(timestamp) && NoBlankLine(note)
    ensures SplitParagraphs(Entry(timestamp, note)) == [Entry(timestamp, note)]
    ensures Filter([Entry(timestamp, note)], HasText) == [Entry(timestamp, note)]
  {
    var e := Entry(timestamp, note);
    EntryHasNoBlankLine(timestamp, note);
    SplitNoBlankLine(e);
    TrimEmptyIffBlank(e);
    assert !IsBlank(e) by {
      assert e[0] == '[';
    }
  }

  // ----------------------------------------------------------- page state

  /** The patch `handleAddNote` sends: only `notes` is set. */
  function NotesPatch(notes: string): (p: DealPatch)
    ensures p.notes == Some(notes)
    ensures p.name.None? && p.company.None? && p.value.None? && p.stage.None? && p.priority.None?
    ensures p.probability.None? && p.daysInStage.None? && p.lastActivity.None?
  {
    DealPatch(None, None, None, None, None, None, None, None, Some(notes))
  }

  const NoteAddedToast := Toast("Note added", "Your note has been added to the deal.", false)

  /** The note editor's state on the detail page: the draft text and whether the editor is open. */
  class NoteEditor {
    var newNote: string
    var isAddingNote: bool
    /** The toasts the page itself has shown, oldest first. */
    var toasts: seq<Toast>

    constructor ()
      ensures newNote == "" && !isAddingNote && toasts == []
    {
      newNote := "";
      isAddingNote := false;
      toasts := [];
    }

    /** The "Add Note" button toggles the editor. */
    method ToggleAdding()
      modifies this
      ensures isAddingNote == !old(isAddingNote)
      ensures newNote == old(newNote) && toasts == old(toasts)
    {
      isAddingNote := !isAddingNote;
    }

    /** Typing in the editor. */
    method Edit(text: string)
      modifies this
      ensures newNote == text
      ensures isAddingNote == old(isAddingNote) && toasts == old(toasts)
    {
      newNote := text;
    }

    /** The editor's "Cancel" button closes it and clears the draft. */
    method Cancel()
      modifies this
      ensures newNote == "" && !isAddingNote && toasts == old(toasts)
    {
      isAddingNote := false;
      newNote := "";
    }

    /**
     * `handleAddNote`: a blank draft does nothing. Otherwise exactly one update
     * carrying only the new notes text goes to the deals hook, the editor is
     * cleared and closed, and "Note added" is shown whatever the update's outcome.
     */
    method AddNote(hook: DealsHook, deal: Deal, timestamp: string, response: Response<Deal>)
      modifies this, hook
      ensures !HasText(old(newNote)) ==>
                && newNote == old(newNote) && isAddingNote == old(isAddingNote) && toasts == old(toasts)
                && hook.deals == old(hook.deals) && hook.requests == old(hook.requests)
                && hook.toasts == old(hook.toasts) && hook.loading == old(hook.loading)
      ensures HasText(old(newNote)) ==>
                && hook.requests == old(hook.requests)
                                    + [UpdateDeal(deal.id, NotesPatch(AppendNote(deal.notes, timestamp, old(newNote))))]
                && hook.deals == (if response.Ok? then ReplaceById(old(hook.deals), DealId, deal.id, response.data)
                                  else old(hook.deals))
                && hook.loading == old(hook.loading)
                && hook.toasts == old(hook.toasts) + [if response.Ok? then SuccessToast("Deal updated successfully")
                                                      else ErrorToast("Failed to update deal")]
                && newNote == "" && !isAddingNote
                && toasts == old(toasts) + [NoteAddedToast]
    {
      if !HasText(newNote) {
        return;
      }
      var updatedNotes := AppendNote(deal.notes, timestamp, newNote);
      var _ := hook.Update(deal.id, NotesPatch(updatedNotes), response);
      newNote := "";
      isAddingNote := false;
      toasts := toasts + [NoteAddedToast];
    }
  }
}
