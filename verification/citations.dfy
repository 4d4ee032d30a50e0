/**
 * Research notes and the writer's list of allowed sources (services/researchService.ts).
 *
 * Each researcher note is the text `Source: T (U)\nSummary: S`. The writer stage, as
 * written, recovers `T` and `U` from that text with `/Source: (.*?)\s\((.*?)\)/` and lists
 * them as `- [T](U)`. That recovery goes wrong when a title itself contains a white-space
 * character followed by `(`, as the simulated local search's titles do. The writer's
 * prompt is rendered with the list as written; the list built from the structured notes
 * is the corrected version, and the two are related below.
 */
module Citations {
  import opened Wrappers
  import opened Text

  /** A collected note: the search result's title and URL and the model's summary of it. */
  datatype SourceNote = SourceNote(title: string, url: string, summary: string)

  const SourceLabel: string := "Source: "
  const NoteSeparator: string := "\n\n---\n\n"
  const NoSources: string := "No sources found."

  /** `Source: ${title} (${url})`. */
  function NoteHead(title: string, url: string): string {
    SourceLabel + title + " (" + url + ")"
  }

  /** The note text the researcher pushes for one search result. */
  function NoteText(n: SourceNote): string {
    NoteHead(n.title, n.url) + "\nSummary: " + n.summary
  }

  function NoteTexts(notes: seq<SourceNote>): (texts: seq<string>)
    ensures |texts| == |notes|
    ensures forall i | 0 <= i < |notes| :: texts[i] == NoteText(notes[i])
  {
    seq(|notes|, i requires 0 <= i < |notes| => NoteText(notes[i]))
  }

  /** `researchNotes.join('\n\n---\n\n')`, the notes block of the writer prompt. */
  function NotesBlock(notes: seq<SourceNote>): string {
    Join(NoteTexts(notes), NoteSeparator)
  }

  /** A source-list line: `- [title](url)`. */
  function Entry(title: string, url: string): string {
    "- [" + title + "](" + url + ")"
  }

  // ---------------------------------------------------------------------------
  // The regular expression /Source: (.*?)\s\((.*?)\)/, leftmost match, lazy groups

  /** Group 2 starting at `k`: the first `)` that is not preceded by a line break. */
  function GroupTwoEnd(s: string, k: nat): (r: Option<nat>)
    requires k <= |s|
    ensures r.Some? ==> k <= r.value < |s| && s[r.value] == ')'
    ensures r.Some? ==> forall m | k <= m < r.value :: s[m] != ')' && !IsLineTerminator(s[m])
    decreases |s| - k
  {
    if k == |s| then None
    else if s[k] == ')' then Some(k)
    else if IsLineTerminator(s[k]) then None
    else GroupTwoEnd(s, k + 1)
  }

  /**
   * Group 1 being extended at `j`: stop here if `\s\(` follows and group 2 can close,
   * otherwise take one more character (never a line break).
   * The result is the end of group 1 and the index of the closing `)`.
   */
  function GroupOneEnd(s: string, j: nat): (r: Option<(nat, nat)>)
    requires j <= |s|
    ensures r.Some? ==> j <= r.value.0 && r.value.0 + 2 <= r.value.1 < |s|
    ensures r.Some? ==>
      && IsWhitespace(s[r.value.0]) && s[r.value.0 + 1] == '('
      && GroupTwoEnd(s, r.value.0 + 2) == Some(r.value.1)
    ensures r.Some? ==> forall m | j <= m < r.value.0 :: !IsLineTerminator(s[m])
    decreases |s| - j
  {
    if j + 1 < |s| && IsWhitespace(s[j]) && s[j + 1] == '(' && GroupTwoEnd(s, j + 2).Some? then
      Some((j, GroupTwoEnd(s, j + 2).value))
    else if j == |s| || IsLineTerminator(s[j]) then None
    else GroupOneEnd(s, j + 1)
  }

  /** The match starting at `p`, as its two groups. */
  function MatchAt(s: string, p: nat): Option<(string, string)>
    requires p <= |s|
  {
    if p + |SourceLabel| <= |s| && s[p..p + |SourceLabel|] == SourceLabel then
      match GroupOneEnd(s, p + |SourceLabel|)
      case Some((j, k)) => Some((s[p + |SourceLabel|..j], s[j + 2..k]))
      case None => None
    else None
  }

  /** `note.match(...)`: the match at the leftmost position where there is one. */
  function FirstMatch(s: string, p: nat): Option<(string, string)>
    requires p <= |s|
    decreases |s| - p
  {
    match MatchAt(s, p)
    case Some(m) => Some(m)
    case None => if p == |s| then None else FirstMatch(s, p + 1)
  }

  /** The `.map` callback: the entry when both groups are non-empty, `''` otherwise. */
  function EntryOrBlank(note: string): string {
    match FirstMatch(note, 0)
    case Some((title, url)) => if title != "" && url != "" then Entry(title, url) else ""
    case None => ""
  }

  /** `.map(...).filter(Boolean)` over the note texts. */
  function SourceEntriesAsWritten(notes: seq<string>): (entries: seq<string>)
    ensures |entries| <= |notes|
    ensures forall i | 0 <= i < |entries| :: entries[i] != "" && entries[i][0] == '-'
    ensures entries == [] <==> forall i | 0 <= i < |notes| :: EntryOrBlank(notes[i]) == ""
  {
    if notes == [] then []
    else
      var e := EntryOrBlank(notes[0]);
      var rest := SourceEntriesAsWritten(notes[1..]);
      assert forall i | 1 <= i < |notes| :: notes[i] == notes[1..][i - 1];
      (if e != "" then [e] else []) + rest
  }

  /**
   * `finalSourceList || 'No sources found.'`, as the writer stage computes it: the
   * fallback exactly when the regular expression recovers a title and a URL from no note.
   */
  function SourceListAsWritten(notes: seq<string>): (list: string)
    ensures list == NoSources <==> forall i | 0 <= i < |notes| :: EntryOrBlank(notes[i]) == ""
  {
    var entries := SourceEntriesAsWritten(notes);
    if entries == [] then NoSources
    else
      assert NoSources[0] == 'N';
      JoinStartsWithFirst(entries, "\n");
      Join(entries, "\n")
  }

  // ---------------------------------------------------------------------------
  // When the regular expression recovers the fields

  predicate NoLineBreak(s: string) {
    forall i | 0 <= i < |s| :: !IsLineTerminator(s[i])
  }

  /** A title the lazy group 1 reads in full: no line break, no white space before a `(`. */
  predicate PlainTitle(t: string) {
    && NoLineBreak(t)
    && forall i | 0 <= i < |t| - 1 :: !(IsWhitespace(t[i]) && t[i + 1] == '(')
  }

  /** A URL the lazy group 2 reads in full: no line break, no `)`. */
  predicate PlainUrl(u: string) {
    NoLineBreak(u) && ')' !in u
  }

  lemma {:induction false} GroupTwoScan(s: string, b: nat, u: string, i: nat)
    requires b + |u| < |s| && s[b..b + |u|] == u && s[b + |u|] == ')'
    requires PlainUrl(u) && i <= |u|
    ensures GroupTwoEnd(s, b + i) == Some(b + |u|)
    decreases |u| - i
  {
    if i < |u| {
      assert s[b + i] == u[i];
      GroupTwoScan(s, b, u, i + 1);
    }
  }

  lemma {:induction false} GroupOneScan(s: string, a: nat, t: string, u: string, i: nat)
    requires a + |t| + 2 + |u| < |s|
    requires s[a..a + |t|] == t && s[a + |t|] == ' ' && s[a + |t| + 1] == '('
    requires s[a + |t| + 2..a + |t| + 2 + |u|] == u && s[a + |t| + 2 + |u|] == ')'
    requires PlainTitle(t) && PlainUrl(u) && i <= |t|
    ensures GroupOneEnd(s, a + i) == Some((a + |t|, a + |t| + 2 + |u|))
    decreases |t| - i
  {
    GroupTwoScan(s, a + |t| + 2, u, 0);
    if i < |t| {
      assert s[a + i] == t[i];
      if i + 1 < |t| {
        assert s[a + i + 1] == t[i + 1];
      }
      GroupOneScan(s, a, t, u, i + 1);
    }
  }

  /** The regular expression reads `Source: t (u)` back as `(t, u)` when both are plain. */
  lemma MatchOfPlainHead(t: string, u: string, rest: string)
    requires PlainTitle(t) && PlainUrl(u)
    ensures FirstMatch(NoteHead(t, u) + rest, 0) == Some((t, u))
  {
    var s := NoteHead(t, u) + rest;
    var a := |SourceLabel|;
    assert s[..a] == SourceLabel;
    assert s[a..a + |t|] == t;
    assert s[a + |t| + 2..a + |t| + 2 + |u|] == u;
    GroupOneScan(s, a, t, u, 0);
  }

  /** On a note whose title and URL are plain, the recovered entry is the note's own. */
  lemma EntryOfPlainNote(n: SourceNote)
    requires PlainTitle(n.title) && PlainUrl(n.url)
    ensures EntryOrBlank(NoteText(n)) == if n.title != "" && n.url != "" then Entry(n.title, n.url) else ""
  {
    assert NoteText(n) == NoteHead(n.title, n.url) + ("\nSummary: " + n.summary);
    MatchOfPlainHead(n.title, n.url, "\nSummary: " + n.summary);
  }

  // ---------------------------------------------------------------------------
  // The source list built from the structured notes

  /** A note that earns a source-list line: both fields non-empty. */
  predicate Citable(n: SourceNote) {
    n.title != "" && n.url != ""
  }

  /**
   * One `- [title](url)` line per citable note, in note order, taken from the note's own
   * fields.
   */
  function SourceEntries(notes: seq<SourceNote>): (entries: seq<string>)
    ensures |entries| <= |notes|
    ensures forall i | 0 <= i < |entries| :: |entries[i]| > 0 && entries[i][0] == '-'
    ensures forall i | 0 <= i < |notes| && Citable(notes[i]) ::
      Entry(notes[i].title, notes[i].url) in entries
    ensures (entries == []) <==> forall i | 0 <= i < |notes| :: !Citable(notes[i])
  {
    if notes == [] then []
    else
      var n := notes[0];
      var rest := SourceEntries(notes[1..]);
      assert forall i | 1 <= i < |notes| :: notes[i] == notes[1..][i - 1];
      (if Citable(n) then [Entry(n.title, n.url)] else []) + rest
  }

  /** Source entries of consecutive note runs are consecutive: note order is kept. */
  lemma {:induction false} SourceEntriesAppend(a: seq<SourceNote>, b: seq<SourceNote>)
    ensures SourceEntries(a + b) == SourceEntries(a) + SourceEntries(b)
    decreases |a|
  {
    if a != [] {
      assert (a + b)[1..] == a[1..] + b;
      SourceEntriesAppend(a[1..], b);
    } else {
      assert a + b == b;
    }
  }

  /**
   * The allowed-sources block of the writer prompt: the entries one per line, or
   * `No sources found.` when no note is citable.
   */
  function SourceList(notes: seq<SourceNote>): (list: string)
    ensures list == NoSources <==> forall i | 0 <= i < |notes| :: !Citable(notes[i])
  {
    var entries := SourceEntries(notes);
    if entries == [] then NoSources
    else
      assert NoSources[0] == 'N';
      JoinStartsWithFirst(entries, "\n");
      Join(entries, "\n")
  }

  lemma JoinStartsWithFirst(parts: seq<string>, sep: string)
    requires |parts| > 0
    ensures parts[0] <= Join(parts, sep)
  {
  }

  lemma {:induction false} AsWrittenEntriesAgree(notes: seq<SourceNote>)
    requires forall i | 0 <= i < |notes| :: PlainTitle(notes[i].title) && PlainUrl(notes[i].url)
    ensures SourceEntriesAsWritten(NoteTexts(notes)) == SourceEntries(notes)
    decreases |notes|
  {
    if notes != [] {
      EntryOfPlainNote(notes[0]);
      assert NoteTexts(notes)[1..] == NoteTexts(notes[1..]);
      AsWrittenEntriesAgree(notes[1..]);
    }
  }

  /**
   * On notes whose titles and URLs are plain, the regular-expression recovery produces
   * exactly the list built from the structured notes.
   */
  lemma AsWrittenAgreesOnPlainNotes(notes: seq<SourceNote>)
    requires forall i | 0 <= i < |notes| :: PlainTitle(notes[i].title) && PlainUrl(notes[i].url)
    ensures SourceListAsWritten(NoteTexts(notes)) == SourceList(notes)
  {
    AsWrittenEntriesAgree(notes);
    var entries := SourceEntries(notes);
    if entries != [] {
      JoinStartsWithFirst(entries, "\n");
      assert Join(entries, "\n")[0] == '-';
    }
  }

  // ---------------------------------------------------------------------------
  // Where the regular expression goes wrong

  lemma PlainConcat(a: string, b: string)
    requires NoLineBreak(a) && '(' !in a && NoLineBreak(b) && '(' !in b
    ensures NoLineBreak(a + b) && '(' !in a + b
  {
    forall i | 0 <= i < |a + b|
      ensures !IsLineTerminator((a + b)[i])
    {
      if i < |a| { assert (a + b)[i] == a[i]; } else { assert (a + b)[i] == b[i - |a|]; }
    }
  }

  /** The title of the first simulated local-search result, before its ` (PDF)`. */
  const StorageTitleStem: string := StorageTitleHead + StorageTitleTail
  const StorageTitleHead: string := "Local Doc: Report on"
  const StorageTitleTail: string := " Energy Storage Solutions"

  lemma StorageTitleHeadIsPlain()
    ensures NoLineBreak(StorageTitleHead) && '(' !in StorageTitleHead
  {
    var w1, w2 := "Local Doc:", " Report on";
    assert NoLineBreak(w1) && '(' !in w1;
    assert NoLineBreak(w2) && '(' !in w2;
    PlainConcat(w1, w2);
    assert w1 + w2 == StorageTitleHead;
  }

  lemma StorageTitleTailIsPlain()
    ensures NoLineBreak(StorageTitleTail) && '(' !in StorageTitleTail
  {
    var w1, w2 := " Energy St", "orage Solutions";
    assert NoLineBreak(w1) && '(' !in w1;
    assert NoLineBreak(w2) && '(' !in w2;
    PlainConcat(w1, w2);
    assert w1 + w2 == StorageTitleTail;
  }

  lemma StorageTitleStemIsPlain()
    ensures PlainTitle(StorageTitleStem)
  {
    StorageTitleHeadIsPlain();
    StorageTitleTailIsPlain();
    PlainConcat(StorageTitleHead, StorageTitleTail);
    NoParenIsPlain(StorageTitleStem);
  }

  /** A title without a `(` or a line break is plain. */
  lemma NoParenIsPlain(t: string)
    requires NoLineBreak(t) && '(' !in t
    ensures PlainTitle(t)
  {
    forall i | 0 <= i < |t| - 1
      ensures !(IsWhitespace(t[i]) && t[i + 1] == '(')
    {
      assert t[i + 1] in t;
    }
  }

  /**
   * A title that ends in a parenthesised tag, `stem (tag)`, is read back by the regular
   * expression as the stem linked to the tag: the lazy group 1 stops at the tag's
   * parenthesis, and the note's real URL never reaches the list.
   */
  lemma TaggedTitleLinksToTag(stem: string, tag: string, url: string, summary: string)
    requires PlainTitle(stem) && PlainUrl(tag) && stem != "" && tag != ""
    ensures var n := SourceNote(stem + " (" + tag + ")", url, summary);
      EntryOrBlank(NoteText(n)) == Entry(stem, tag)
  {
    var n := SourceNote(stem + " (" + tag + ")", url, summary);
    var rest := " (" + url + ")" + "\nSummary: " + summary;
    assert NoteText(n) == NoteHead(stem, tag) + rest;
    MatchOfPlainHead(stem, tag, rest);
  }

  /** The entry linking the stem to the tag is not the note's own entry. */
  lemma TaggedEntryDiffers(stem: string, tag: string, url: string)
    ensures Entry(stem, tag) != Entry(stem + " (" + tag + ")", url)
  {
    assert Entry(stem, tag)[3 + |stem|] == ']';
    assert Entry(stem + " (" + tag + ")", url)[3 + |stem|] == ' ';
  }

  /**
   * The simulated local search's first result, `Local Doc: Report on Energy Storage
   * Solutions (PDF)` at `file:///local/docs/energy_storage.pdf`, comes out of the
   * regular expression as a link to `PDF`, while the structured list keeps its URL.
   */
  lemma PdfTitleLosesItsUrl(summary: string)
    ensures var n := SourceNote(StorageTitleStem + " (PDF)", "file:///local/docs/energy_storage.pdf", summary);
      && EntryOrBlank(NoteText(n)) == Entry(StorageTitleStem, "PDF")
      && SourceEntries([n]) == [Entry(StorageTitleStem + " (PDF)", "file:///local/docs/energy_storage.pdf")]
      && EntryOrBlank(NoteText(n)) != SourceEntries([n])[0]
  {
    var url := "file:///local/docs/energy_storage.pdf";
    StorageTitleStemIsPlain();
    assert PlainUrl("PDF");
    assert StorageTitleStem + " (PDF)" == StorageTitleStem + " (" + "PDF" + ")";
    TaggedTitleLinksToTag(StorageTitleStem, "PDF", url, summary);
    TaggedEntryDiffers(StorageTitleStem, "PDF", url);
  }
}
