/**
 * The sublimation consumption note kept inside an order's description,
 * `[Consumo Estimado: X mts]`, and the regular expression
 * `/\[Consumo Estimado: (.*?) mts\]/` that finds it again. Saving a
 * sublimation order strips every earlier note (a global replace) and appends
 * a fresh one; editing it reads X back from the first note and removes that
 * note's text; the statistics view reads X to total the sublimated metres.
 */
module Annotation {
  import opened Wrappers
  import opened Text

  const Prefix: string := "[Consumo Estimado: "
  const Suffix: string := " mts]"

  // ---------------------------------------------------------------------------
  // The regular expression
  // ---------------------------------------------------------------------------

  /** The lazy group `(.*?)` started at `from`: the first position at which
      " mts]" follows, reached over characters other than line terminators. */
  function GroupEnd(s: string, from: nat): (r: Option<nat>)
    ensures r.Some? ==> from <= r.value && OccursAt(s, Suffix, r.value)
    decreases |s| - from
  {
    if OccursAt(s, Suffix, from) then Some(from)
    else if from < |s| && !IsLineTerminator(s[from]) then GroupEnd(s, from + 1)
    else None
  }

  /** The group is as short as it can be: it crosses no line terminator and no
      earlier " mts]". */
  lemma {:induction false} GroupEndShortest(s: string, from: nat, k: nat)
    requires GroupEnd(s, from).Some? && from <= k < GroupEnd(s, from).value
    ensures !IsLineTerminator(s[k]) && !OccursAt(s, Suffix, k)
    decreases |s| - from
  {
    if from < k {
      GroupEndShortest(s, from + 1, k);
    }
  }

  /** The match attempted at position `i`: where its group ends, if it matches there. */
  function MatchAt(s: string, i: nat): (r: Option<nat>)
    ensures r.Some? ==> OccursAt(s, Prefix, i) && i + |Prefix| <= r.value
    ensures r.Some? ==> r.value + |Suffix| <= |s|
  {
    if OccursAt(s, Prefix, i) then GroupEnd(s, i + |Prefix|) else None
  }

  /** A match: where it starts and where its group ends (the match itself ends
      `|Suffix|` characters later). */
  datatype Match = Match(start: nat, groupEnd: nat) {
    function End(): nat { groupEnd + |Suffix| }
  }

  /** `s.match(re)` searching from `from`: the leftmost position where the expression matches. */
  function FirstMatch(s: string, from: nat): (r: Option<Match>)
    ensures r.Some? ==> from <= r.value.start && MatchAt(s, r.value.start) == Some(r.value.groupEnd)
    decreases |s| - from
  {
    if from >= |s| then None
    else match MatchAt(s, from)
      case Some(e) => Some(Match(from, e))
      case None => FirstMatch(s, from + 1)
  }

  /** The match found is the leftmost: no position before it (or, when there is
      none, no position at all) starts a match. */
  lemma {:induction false} FirstMatchLeftmost(s: string, from: nat, k: nat)
    requires from <= k
    requires FirstMatch(s, from).Some? ==> k < FirstMatch(s, from).value.start
    ensures MatchAt(s, k).None?
    decreases |s| - from
  {
    if from < |s| && MatchAt(s, from).None? && from < k {
      FirstMatchLeftmost(s, from + 1, k);
    }
  }

  /** The group of a match: the text between the prefix and the suffix. */
  function Group(s: string, m: Match): string
    requires MatchAt(s, m.start) == Some(m.groupEnd)
  {
    s[m.start + |Prefix|..m.groupEnd]
  }

  /** `s.replace(/…/g, '')` from position `from`: every match, leftmost first,
      each search resuming where the previous match ended, is deleted. */
  function StripAll(s: string, from: nat): (r: string)
    requires from <= |s|
    ensures |r| <= |s| - from
    decreases |s| - from
  {
    match FirstMatch(s, from)
    case None => s[from..]
    case Some(m) => s[from..m.start] + StripAll(s, m.End())
  }

  /** A text with no note is left as it is by the global replace. */
  lemma StripAllNoMatch(s: string)
    requires FirstMatch(s, 0).None?
    ensures StripAll(s, 0) == s
  {
  }

  /** The global replace deletes at least one note from a text that has one. */
  lemma StripAllShortens(s: string)
    requires FirstMatch(s, 0).Some?
    ensures |StripAll(s, 0)| < |s|
  {
    var m := FirstMatch(s, 0).value;
    assert |StripAll(s, m.End())| <= |s| - m.End();
  }

  // ---------------------------------------------------------------------------
  // Literal search and replace
  // ---------------------------------------------------------------------------

  /** `s.indexOf(t, from)` */
  function IndexOf(s: string, t: string, from: nat): (r: Option<nat>)
    ensures r.Some? ==> from <= r.value && OccursAt(s, t, r.value)
    decreases |s| - from
  {
    if from + |t| > |s| then None
    else if OccursAt(s, t, from) then Some(from)
    else IndexOf(s, t, from + 1)
  }

  /** The occurrence found is the first one. */
  lemma {:induction false} IndexOfLeftmost(s: string, t: string, from: nat, k: nat)
    requires from <= k
    requires IndexOf(s, t, from).Some? ==> k < IndexOf(s, t, from).value
    ensures !OccursAt(s, t, k)
    decreases |s| - from
  {
    if from + |t| <= |s| && !OccursAt(s, t, from) && from < k {
      IndexOfLeftmost(s, t, from + 1, k);
    }
  }

  /** `s.replace(t, '')` with a string pattern: only the first occurrence goes. */
  function RemoveFirst(s: string, t: string): (r: string)
    ensures IndexOf(s, t, 0).None? ==> r == s
    ensures IndexOf(s, t, 0).Some? ==> |r| == |s| - |t|
  {
    match IndexOf(s, t, 0)
    case None => s
    case Some(i) => s[..i] + s[i + |t|..]
  }

  // ---------------------------------------------------------------------------
  // Saving and editing an order
  // ---------------------------------------------------------------------------

  /** The note written for `meters`. */
  function Note(meters: string): string {
    Prefix + meters + Suffix
  }

  /** The description stored by `handleSaveOrder`: for a sublimation order with
      metres given, the old notes stripped, the result trimmed, and the new note
      appended after a blank line; the whole trimmed. */
  function SaveDescription(description: string, sublimation: bool, meters: string): (r: string)
    ensures !(sublimation && meters != []) ==> r == Trim(description)
    ensures IsTrimmed(r)
  {
    if sublimation && meters != [] then
      Trim(Trim(StripAll(description, 0)) + "\n\n" + Note(meters))
    else Trim(description)
  }

  /** What `handleEditClick` puts back in the form: the metres and the description. */
  datatype Decoded = Decoded(meters: string, description: string)

  /** `handleEditClick`: in sublimation mode the first note gives the metres and its
      text is removed (the first literal occurrence of it) and the rest trimmed;
      otherwise the stored description is shown as it is. */
  function DecodeDescription(stored: string, sublimation: bool): (r: Decoded)
    ensures !sublimation || FirstMatch(stored, 0).None? ==> r == Decoded("", stored)
  {
    if !sublimation then Decoded("", stored)
    else match FirstMatch(stored, 0)
      case None => Decoded("", stored)
      case Some(m) => Decoded(Group(stored, m), Trim(RemoveFirst(stored, stored[m.start..m.End()])))
  }

  /** The metres the statistics view reads from a description: the first note's
      group, when there is one and it is not empty. */
  function NotedMeters(description: string): (r: Option<string>)
    ensures r.Some? ==> r.value != [] && FirstMatch(description, 0).Some?
  {
    match FirstMatch(description, 0)
    case None => None
    case Some(m) => var g := Group(description, m); if g != [] then Some(g) else None
  }

  /** Metres that can be written into a note and read back unchanged. */
  predicate Writable(meters: string) {
    && meters != []
    && (forall k :: 0 <= k < |meters| ==> !IsLineTerminator(meters[k]))
    && !Contains(meters, Suffix)
  }

  // ---------------------------------------------------------------------------
  // The round trip
  // ---------------------------------------------------------------------------

  /** A text without line terminators cannot occur across one. */
  lemma NoOccurrenceAcrossBreak(s: string, t: string, i: nat, p: nat)
    requires forall k :: 0 <= k < |t| ==> !IsLineTerminator(t[k])
    requires i <= p < i + |t| && p < |s| && IsLineTerminator(s[p])
    ensures !OccursAt(s, t, i)
  {
    if i + |t| <= |s| {
      assert s[i..i + |t|][p - i] == s[p];
      assert !IsLineTerminator(t[p - i]);
    }
  }

  /** " mts]" has no border: it never occurs again less than five characters after
      an occurrence of itself. */
  lemma SuffixNoBorder(s: string, j: nat, e: nat)
    requires j < e < j + |Suffix| && OccursAt(s, Suffix, e)
    ensures !OccursAt(s, Suffix, j)
  {
    assert s[e..e + |Suffix|][0] == s[e] == ' ';
    assert s[j..j + |Suffix|][e - j] == s[e];
    assert Suffix[e - j] != ' ';
  }

  /** Where a note for writable metres stands, the expression matches it exactly:
      the group cannot stop early, since the metres contain no " mts]" and
      " mts]" cannot start inside the metres and run into the closing " mts]". */
  lemma NoteMatches(s: string, k: nat, meters: string)
    requires Writable(meters)
    requires OccursAt(s, Note(meters), k)
    ensures MatchAt(s, k) == Some(k + |Prefix| + |meters|)
  {
    NotePieces(s, k, meters);
    GroupOverMeters(s, k + |Prefix|, meters);
  }

  /** A note is its prefix, its metres and its suffix, one after the other. */
  lemma NotePieces(s: string, k: nat, meters: string)
    requires OccursAt(s, Note(meters), k)
    ensures OccursAt(s, Prefix, k)
    ensures k + |Prefix| + |meters| <= |s|
    ensures s[k + |Prefix|..k + |Prefix| + |meters|] == meters
    ensures OccursAt(s, Suffix, k + |Prefix| + |meters|)
  {
    var note, p, x := Note(meters), |Prefix|, |meters|;
    var w := s[k..k + |note|];
    assert |note| == p + x + |Suffix|;
    assert w[..p] == Prefix;
    assert w[p..p + x] == meters;
    assert w[p + x..] == Suffix;
    assert s[k..k + p] == w[..p];
    var mid, wmid := s[k + p..k + p + x], w[p..p + x];
    forall i | 0 <= i < x ensures mid[i] == wmid[i] {
      assert w[p + i] == s[k + p + i];
    }
    assert mid == wmid;
    assert s[k + p + x..k + p + x + |Suffix|] == w[p + x..];
  }

  /** The lazy group runs over writable metres up to the suffix that follows them. */
  lemma GroupOverMeters(s: string, from: nat, meters: string)
    requires Writable(meters)
    requires from + |meters| <= |s| && s[from..from + |meters|] == meters
    requires OccursAt(s, Suffix, from + |meters|)
    ensures GroupEnd(s, from) == Some(from + |meters|)
  {
    var e := from + |meters|;
    forall j | from <= j < e
      ensures !IsLineTerminator(s[j]) && !OccursAt(s, Suffix, j)
    {
      assert s[j] == meters[j - from];
      if j + |Suffix| <= e {
        SuffixNotInMeters(s, from, meters, j);
      } else {
        SuffixNoBorder(s, j, e);
      }
    }
    GroupEndIs(s, from, e);
  }

  /** An occurrence of " mts]" wholly inside the metres would be one in the metres. */
  lemma SuffixNotInMeters(s: string, from: nat, meters: string, j: nat)
    requires !Contains(meters, Suffix)
    requires from + |meters| <= |s| && s[from..from + |meters|] == meters
    requires from <= j && j + |Suffix| <= from + |meters|
    ensures !OccursAt(s, Suffix, j)
  {
    var i := j - from;
    var here, there := s[j..j + |Suffix|], meters[i..i + |Suffix|];
    forall t | 0 <= t < |Suffix| ensures here[t] == there[t] {
      assert meters[i + t] == s[from..from + |meters|][i + t] == s[j + t];
    }
    assert here == there;
    assert 0 <= i <= |meters| - |Suffix|;
    assert !OccursAt(meters, Suffix, i);
  }

  lemma {:induction false} GroupEndIs(s: string, from: nat, e: nat)
    requires from <= e && OccursAt(s, Suffix, e)
    requires forall j :: from <= j < e ==> !IsLineTerminator(s[j]) && !OccursAt(s, Suffix, j)
    ensures GroupEnd(s, from) == Some(e)
    decreases e - from
  {
    if from < e {
      GroupEndIs(s, from + 1, e);
    }
  }

  /** Nothing can be matched across a line terminator: at any position of `c` the
      expression sees the same in `c` followed by a line break as in `c` alone. */
  lemma MatchBeforeBreak(c: string, rest: string, k: nat)
    requires rest != [] && IsLineTerminator(rest[0])
    requires k < |c|
    ensures MatchAt(c + rest, k) == MatchAt(c, k)
  {
    var s := c + rest;
    if k + |Prefix| > |c| {
      NoOccurrenceAcrossBreak(s, Prefix, k, |c|);
    } else {
      assert s[k..k + |Prefix|] == c[k..k + |Prefix|];
      GroupEndBeforeBreak(c, rest, k + |Prefix|);
    }
  }

  lemma {:induction false} GroupEndBeforeBreak(c: string, rest: string, from: nat)
    requires rest != [] && IsLineTerminator(rest[0])
    requires from <= |c|
    ensures GroupEnd(c + rest, from) == GroupEnd(c, from)
    decreases |c| - from
  {
    var s := c + rest;
    if from + |Suffix| <= |c| {
      assert s[from..from + |Suffix|] == c[from..from + |Suffix|];
    } else {
      NoOccurrenceAcrossBreak(s, Suffix, from, |c|);
    }
    if from < |c| {
      assert s[from] == c[from];
      GroupEndBeforeBreak(c, rest, from + 1);
    }
  }

  lemma {:induction false} FirstMatchIs(s: string, from: nat, m: Match)
    requires from <= m.start && MatchAt(s, m.start) == Some(m.groupEnd)
    requires forall k :: from <= k < m.start ==> MatchAt(s, k).None?
    ensures FirstMatch(s, from) == Some(m)
    decreases m.start - from
  {
    if from < m.start {
      FirstMatchIs(s, from + 1, m);
    }
  }

  lemma {:induction false} IndexOfIs(s: string, t: string, from: nat, i: nat)
    requires from <= i && OccursAt(s, t, i)
    requires forall k :: from <= k < i ==> !OccursAt(s, t, k)
    ensures IndexOf(s, t, from) == Some(i)
    decreases i - from
  {
    if from < i {
      IndexOfIs(s, t, from + 1, i);
    }
  }

  /** What is stored for a cleaned description `c`: the note alone, or `c`, a blank
      line and the note. */
  function Framed(c: string, meters: string): string {
    if |c| == 0 then Note(meters) else c + "\n\n" + Note(meters)
  }

  lemma SavedIsFramed(description: string, meters: string)
    requires meters != []
    ensures SaveDescription(description, true, meters)
         == Framed(Trim(StripAll(description, 0)), meters)
  {
    var c := Trim(StripAll(description, 0));
    assert SaveDescription(description, true, meters) == Trim(c + "\n\n" + Note(meters));
    assert Trim(c + "\n\n" + Note(meters)) == Framed(c, meters) by {
      FrameNote(c, meters);
    }
  }

  /** The stored text of a trimmed description is already trimmed. */
  lemma FrameNote(c: string, meters: string)
    requires IsTrimmed(c)
    ensures Trim(c + "\n\n" + Note(meters)) == Framed(c, meters)
  {
    var note := Note(meters);
    assert note[0] == '[' && note[|note| - 1] == ']';
    TrimFrame(c, note);
  }

  /** Trimming a trimmed text, a blank line and a trimmed note keeps all three,
      or only the note when the text is empty. */
  lemma TrimFrame(c: string, note: string)
    requires IsTrimmed(c) && IsTrimmed(note) && |note| > 0
    ensures Trim(c + "\n\n" + note) == if |c| == 0 then note else c + "\n\n" + note
  {
    var t := c + "\n\n" + note;
    if |c| == 0 {
      assert t == "\n\n" + note;
      TrimDropsLeadingSpace("\n\n", note);
    } else {
      assert t[0] == c[0] && t[|t| - 1] == note[|note| - 1];
      TrimOfTrimmed(t);
    }
  }

  /** No match starts in the cleaned description or the blank line after it. */
  lemma FramedNoEarlyMatch(c: string, meters: string, k: nat)
    requires FirstMatch(c, 0).None?
    requires k < |Framed(c, meters)| - |Note(meters)|
    ensures MatchAt(Framed(c, meters), k).None?
  {
    var rest := "\n\n" + Note(meters);
    assert |c| != 0;
    assert Framed(c, meters) == c + rest;
    if k < |c| {
      FirstMatchLeftmost(c, 0, k);
      MatchBeforeBreak(c, rest, k);
    } else {
      assert (c + rest)[k] == '\n';
      assert Prefix[0] == '[';
    }
  }

  /** A writable note preceded by no match is the first match of the text, and the
      first literal occurrence of its own text. */
  lemma NoteFirst(saved: string, n: nat, meters: string)
    requires Writable(meters)
    requires OccursAt(saved, Note(meters), n)
    requires forall k :: 0 <= k < n ==> MatchAt(saved, k).None?
    ensures FirstMatch(saved, 0) == Some(Match(n, n + |Prefix| + |meters|))
    ensures IndexOf(saved, Note(meters), 0) == Some(n)
  {
    NoteMatches(saved, n, meters);
    FirstMatchIs(saved, 0, Match(n, n + |Prefix| + |meters|));
    forall k | 0 <= k < n
      ensures !OccursAt(saved, Note(meters), k)
    {
      if OccursAt(saved, Note(meters), k) {
        NoteMatches(saved, k, meters);
      }
    }
    IndexOfIs(saved, Note(meters), 0, n);
  }

  /** The stored text ends with the note, after the cleaned description and a blank line. */
  lemma FramedParts(c: string, meters: string, saved: string, n: nat)
    requires saved == Framed(c, meters) && n == |saved| - |Note(meters)|
    ensures OccursAt(saved, Note(meters), n)
    ensures saved[..n] == (if |c| == 0 then [] else c + "\n\n")
    ensures saved[n + |Note(meters)|..] == []
  {
  }

  /** In the stored text the note is the first match and the first occurrence of itself. */
  lemma FramedFirstNote(c: string, meters: string, saved: string, n: nat)
    requires Writable(meters)
    requires FirstMatch(c, 0).None?
    requires saved == Framed(c, meters) && n == |saved| - |Note(meters)|
    ensures FirstMatch(saved, 0) == Some(Match(n, n + |Prefix| + |meters|))
    ensures IndexOf(saved, Note(meters), 0) == Some(n)
  {
    assert OccursAt(saved, Note(meters), n) by {
      FramedParts(c, meters, saved, n);
    }
    forall k | 0 <= k < n
      ensures MatchAt(saved, k).None?
    {
      FramedNoEarlyMatch(c, meters, k);
    }
    NoteFirst(saved, n, meters);
  }

  /** Removing the note from the stored text leaves the description and its blank line. */
  lemma FramedRemoveNote(c: string, meters: string)
    requires Writable(meters)
    requires FirstMatch(c, 0).None?
    ensures RemoveFirst(Framed(c, meters), Note(meters)) == (if |c| == 0 then [] else c + "\n\n")
  {
    var saved, note := Framed(c, meters), Note(meters);
    var n := |saved| - |note|;
    var body := if |c| == 0 then [] else c + "\n\n";
    assert IndexOf(saved, note, 0) == Some(n) by {
      FramedFirstNote(c, meters, saved, n);
    }
    assert saved[..n] == body && saved[n + |note|..] == [] by {
      FramedParts(c, meters, saved, n);
    }
    assert RemoveFirst(saved, note) == saved[..n] + saved[n + |note|..];
    assert body + [] == body;
  }

  /** A match at a place where a note occurs, ending where the note's metres end,
      spans exactly that note, and its group is the note's metres. */
  lemma NoteGroup(s: string, n: nat, meters: string)
    requires OccursAt(s, Note(meters), n)
    requires MatchAt(s, n) == Some(n + |Prefix| + |meters|)
    ensures var m := Match(n, n + |Prefix| + |meters|);
      m.End() <= |s| && Group(s, m) == meters && s[m.start..m.End()] == Note(meters)
  {
    NotePieces(s, n, meters);
  }

  /** Editing a stored text of that form gives back the metres and the description. */
  lemma DecodeFramed(c: string, meters: string)
    requires Writable(meters)
    requires IsTrimmed(c)
    requires FirstMatch(c, 0).None?
    ensures DecodeDescription(Framed(c, meters), true) == Decoded(meters, c)
  {
    var saved, note := Framed(c, meters), Note(meters);
    var n := |saved| - |note|;
    var body := if |c| == 0 then [] else c + "\n\n";
    assert FirstMatch(saved, 0) == Some(Match(n, n + |Prefix| + |meters|)) && IndexOf(saved, note, 0) == Some(n) by {
      FramedFirstNote(c, meters, saved, n);
    }
    assert RemoveFirst(saved, note) == body by {
      FramedRemoveNote(c, meters);
    }
    assert Trim(body) == c by {
      TrimBody(c);
    }
    DecodeFirstNote(saved, n, meters, body);
  }

  /** A text whose first match is a note gives that note's metres and the rest. */
  lemma DecodeFirstNote(saved: string, n: nat, meters: string, rest: string)
    requires FirstMatch(saved, 0) == Some(Match(n, n + |Prefix| + |meters|))
    requires IndexOf(saved, Note(meters), 0) == Some(n)
    requires RemoveFirst(saved, Note(meters)) == rest
    ensures DecodeDescription(saved, true) == Decoded(meters, Trim(rest))
  {
    NoteGroup(saved, n, meters);
  }

  /** Trimming the description with its blank line gives the trimmed description back. */
  lemma TrimBody(c: string)
    requires IsTrimmed(c)
    ensures Trim(if |c| == 0 then [] else c + "\n\n") == c
  {
    if |c| != 0 {
      TrimDropsTrailingSpace(c, "\n\n");
    }
  }

  /** Saving writable metres and editing the order again gives back the metres and
      the cleaned description, provided that cleaning left no note behind (the
      strip can join two pieces into a new note). */
  lemma NoteRoundTrip(description: string, meters: string)
    requires Writable(meters)
    requires FirstMatch(Trim(StripAll(description, 0)), 0).None?
    ensures DecodeDescription(SaveDescription(description, true, meters), true)
         == Decoded(meters, Trim(StripAll(description, 0)))
  {
    SavedIsFramed(description, meters);
    DecodeFramed(Trim(StripAll(description, 0)), meters);
  }
}
