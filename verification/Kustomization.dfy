/**
 Listing a vcluster in a cluster's kustomization.yaml, and taking it off again,
 by editing lines of text.
 */
module Kustomization {
  import opened Text
  import opened LineEdit

  const MARK := "./vclusters/"

  function Entry(name: string): string {
    "  - ./vclusters/" + name
  }

  /** A line lists the vcluster when it is its entry, up to surrounding space. */
  function Lists(entry: string): string -> bool {
    (line: string) => Trim(line) == Trim(entry)
  }

  function Mentions(): string -> bool {
    (line: string) => ContainsText(line, MARK)
  }

  function Added(content: string, name: string): string {
    AddLine(content, Entry(name), Lists(Entry(name)), Mentions())
  }

  function Removed(content: string, name: string): string {
    RemoveLine(content, Lists(Entry(name)))
  }

  method UpdateKustomization(content: string, name: string, add: bool) returns (r: string)
    ensures r == if add then Added(content, name) else Removed(content, name)
  {
    var entry := Entry(name);
    if add {
      r := AddEntry(content, entry);
    } else {
      r := RemoveEntry(content, entry);
    }
  }

  method AddEntry(content: string, entry: string) returns (r: string)
    ensures r == AddLine(content, entry, Lists(entry), Mentions())
  {
    hide Split, Join, Trim, ContainsText, Hits;
    var lines := Split(content, NL);
    NoHits(lines, Lists(entry));
    for i := 0 to |lines|
      invariant forall j | 0 <= j < i :: !Lists(entry)(lines[j])
    {
      if Trim(lines[i]) == Trim(entry) {
        return content;
      }
    }
    var last := -1;
    for i := 0 to |lines|
      invariant last == LastMention(lines[..i], Mentions())
    {
      assert lines[..i + 1][..i] == lines[..i];
      if ContainsText(lines[i], MARK) {
        last := i;
      }
    }
    assert lines[..|lines|] == lines;
    if last >= 0 {
      var newLines := lines[..last + 1];
      newLines := newLines + [entry];
      newLines := newLines + lines[last + 1..];
      assert newLines == Insert(lines, last, entry);
      return Join(newLines, NL);
    }
    return content + entry + [NL];
  }

  method RemoveEntry(content: string, entry: string) returns (r: string)
    ensures r == RemoveLine(content, Lists(entry))
  {
    var lines := Split(content, NL);
    var newLines := [];
    for i := 0 to |lines|
      invariant newLines + Others(lines[i..], Lists(entry)) == Others(lines, Lists(entry))
    {
      if Trim(lines[i]) != Trim(entry) {
        newLines := newLines + [lines[i]];
      }
      assert lines[i..][1..] == lines[i + 1..];
    }
    assert newLines + [] == newLines;
    return Join(newLines, NL);
  }

  // ---- what the editing promises ----

  /** How many lines list the vcluster. */
  function Listings(content: string, name: string): nat {
    Hits(Split(content, NL), Lists(Entry(name)))
  }

  predicate MentionsAny(content: string) {
    LastMention(Split(content, NL), Mentions()) >= 0
  }

  /** There is a line end, or an earlier entry, to add the new line after. */
  predicate Appendable(content: string) {
    content == "" || content[|content| - 1] == NL || MentionsAny(content)
  }

  /** A one-line name; the callers only pass [a-z][a-z0-9-]*. */
  predicate OneLineName(name: string) {
    NL !in name
  }

  lemma EntryIsText(name: string)
    ensures Entry(name) == "  " + ("- " + MARK + name) && ("- " + MARK + name)[0] == '-'
  {
  }

  lemma TrimmedEntry(s: string, d: string)
    requires s == "  " + d && d != "" && d[0] == '-'
    ensures Trim(s) == TrimRight(d) && |Trim(s)| > 0 && Trim(s)[0] == '-'
  {
    TrimLeftSkips("  ", d);
    TrimRightStops("", d);
    TrimRightShape(d);
    assert "" + d == d;
  }

  lemma EntryIsListed(name: string)
    ensures !Lists(Entry(name))("") && Lists(Entry(name))(Entry(name))
    ensures OneLineName(name) ==> NL !in Entry(name)
  {
    EntryIsText(name);
    TrimmedEntry(Entry(name), "- " + MARK + name);
  }

  lemma {:induction false} LongerWhenGlued(front: string, d: string)
    requires d != "" && !IsSpace(d[0])
    ensures |TrimRight(front + d)| == |front| + |TrimRight(d)|
    decreases |d|
  {
    var u := front + d;
    if IsSpace(d[|d| - 1]) {
      assert u[..|u| - 1] == front + d[..|d| - 1];
      LongerWhenGlued(front, d[..|d| - 1]);
    }
  }

  lemma GluedTrim(line: string, s: string, d: string)
    requires s == "  " + d && d != "" && d[0] == '-'
    ensures Trim(line + s) == Trim(s) <==> Trim(line) == ""
  {
    TrimmedEntry(s, d);
    TrimLeftShape(line);
    TrimRightShape(TrimLeft(line));
    var rest := TrimLeft(line);
    var w := line[..|line| - |rest|];
    assert line + s == w + (rest + s);
    TrimLeftSkips(w, rest + s);
    if rest == "" {
      assert rest + s == s;
    } else {
      assert rest + s == (rest + "  ") + d && (rest + s)[0] == rest[0];
      LongerWhenGlued(rest + "  ", d);
      TrimRightStops("", [rest[0]]);
      TrimLeftSkips("", rest);
      NonBlank(rest);
    }
  }

  lemma {:induction false} NonBlank(s: string)
    requires s != "" && !IsSpace(s[0])
    ensures TrimRight(s) != ""
  {
    if IsSpace(s[|s| - 1]) {
      NonBlank(s[..|s| - 1]);
    }
  }

  lemma GluedListed(line: string, name: string)
    ensures Lists(Entry(name))(line + Entry(name)) <==> Trim(line) == ""
  {
    EntryIsText(name);
    GluedTrim(line, Entry(name), "- " + MARK + name);
  }

  /** Removing what was just added gives the file back, exactly when the new
      line had somewhere to go: otherwise it was glued to an unterminated line. */
  lemma RemoveUndoesAdd(content: string, name: string)
    requires OneLineName(name) && Listings(content, name) == 0
    ensures Removed(Added(content, name), name) == content <==> Appendable(content)
  {
    EntryIsListed(name);
    LastLineEmpty(content);
    if MentionsAny(content) {
      RemoveUndoesInsert(content, Entry(name), Lists(Entry(name)), Mentions());
    } else {
      RemoveUndoesAppend(content, Entry(name), Lists(Entry(name)));
    }
  }

  /** After adding, the vcluster is listed exactly once, unless its line was glued
      to an unterminated line that is not blank. */
  lemma AddListsOnce(content: string, name: string)
    requires OneLineName(name) && Listings(content, name) == 0
    ensures Listings(Added(content, name), name) ==
            if MentionsAny(content) || Trim(LastLine(content)) == "" then 1 else 0
  {
    EntryIsListed(name);
    if MentionsAny(content) {
      InsertedLines(content, Entry(name), Lists(Entry(name)), Mentions());
      InsertCounts(Split(content, NL), LastMention(Split(content, NL), Mentions()), Entry(name), Lists(Entry(name)));
    } else {
      AppendCounts(content, Entry(name), Lists(Entry(name)));
      GluedListed(LastLine(content), name);
    }
  }

  /** Adding twice is adding once, exactly when the first addition listed it. */
  lemma AddIsIdempotent(content: string, name: string)
    requires OneLineName(name)
    ensures Added(Added(content, name), name) == Added(content, name) <==>
            Listings(content, name) > 0 || MentionsAny(content) || Trim(LastLine(content)) == ""
  {
    if Listings(content, name) == 0 {
      EntryIsListed(name);
      SecondAdd(content, Entry(name), Lists(Entry(name)), Mentions());
      AddListsOnce(content, name);
    }
  }

  /** Removing leaves no listing and every other line, in order. */
  lemma RemoveDropsOnlyTheEntry(content: string, name: string)
    ensures var kept := Others(Split(content, NL), Lists(Entry(name)));
            Split(Removed(content, name), NL) == if kept == [] then [""] else kept
    ensures Listings(Removed(content, name), name) == 0
  {
    EntryIsListed(name);
    RemoveDropsOnlyHits(content, Lists(Entry(name)));
  }

  /** Adding keeps every other line, in order, and nothing else appears. */
  lemma AddKeepsOtherLines(content: string, name: string)
    requires OneLineName(name) && Listings(content, name) == 0 && Appendable(content)
    ensures Others(Split(Added(content, name), NL), Lists(Entry(name))) == Split(content, NL)
  {
    EntryIsListed(name);
    LastLineEmpty(content);
    KeepsOtherLines(content, Entry(name), Lists(Entry(name)), Mentions());
  }

  /** A line lists the vcluster exactly when it reads "- ./vclusters/" and its name, up to the space
      around it: never another vcluster whose name merely begins like it. */
  lemma ListedExactly(line: string, name: string)
    requires name != "" && !IsSpace(name[|name| - 1])
    ensures Lists(Entry(name))(line) <==> Trim(line) == "- ./vclusters/" + name
  {
    var d := "- " + MARK + name;
    EntryIsText(name);
    TrimmedEntry(Entry(name), d);
    assert d[|d| - 1] == name[|name| - 1];
    assert TrimRight(d) == d;
    assert d == "- ./vclusters/" + name;
    hide Trim, TrimRight;
  }

  /** The new line goes right after the last line that mentions a vcluster; nothing else moves. */
  lemma AddedAfterLastEntry(content: string, name: string, i: nat)
    requires OneLineName(name) && Listings(content, name) == 0
    requires var lines := Split(content, '\n');
             && i < |lines| && ContainsText(lines[i], "./vclusters/")
             && forall j | i < j < |lines| :: !ContainsText(lines[j], "./vclusters/")
    ensures var lines := Split(content, '\n');
            Split(Added(content, name), '\n') == lines[..i + 1] + ["  - ./vclusters/" + name] + lines[i + 1..]
  {
    EntryIsListed(name);
    var lines := Split(content, NL);
    hide Split, Hits, Trim, ContainsText, LastMention;
    LastMentionIsLast(lines, Mentions());
    var last := LastMention(lines, Mentions());
    assert Mentions()(lines[i]);
    assert last == i by {
      assert last >= 0 ==> ContainsText(lines[last], MARK);
    }
    InsertedLines(content, Entry(name), Lists(Entry(name)), Mentions());
    assert Insert(lines, i, Entry(name)) == lines[..i + 1] + [Entry(name)] + lines[i + 1..];
  }

  /** Where no line mentions one, it goes at the end, with an end of line. */
  lemma AddedAtTheEnd(content: string, name: string)
    requires OneLineName(name) && Listings(content, name) == 0
    requires forall l | l in Split(content, '\n') :: !ContainsText(l, "./vclusters/")
    ensures Added(content, name) == content + ("  - ./vclusters/" + name + "\n")
  {
    var lines := Split(content, NL);
    LastMentionIsLast(lines, Mentions());
    hide Split, Hits, Trim, ContainsText, LastMention;
    assert forall k | 0 <= k < |lines| :: !Mentions()(lines[k]);
    assert content + Entry(name) + [NL] == content + ("  - ./vclusters/" + name + "\n");
  }
}
