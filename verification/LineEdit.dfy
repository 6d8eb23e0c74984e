/**
 Adding a line to a text, and taking lines out of it: the theory behind editing a
 list kept as lines. `hit` recognises the line being edited, `mention` the lines
 it belongs next to.
 */
module LineEdit {
  import opened Text

  const NL := '\n'

  /** The lines that are not hit, in their order. */
  function Others(lines: seq<string>, hit: string -> bool): seq<string> {
    if lines == [] then []
    else (if hit(lines[0]) then [] else [lines[0]]) + Others(lines[1..], hit)
  }

  function Hits(lines: seq<string>, hit: string -> bool): nat {
    if lines == [] then 0 else (if hit(lines[0]) then 1 else 0) + Hits(lines[1..], hit)
  }

  /** Index of the last line with a mention, -1 without one. */
  function LastMention(lines: seq<string>, mention: string -> bool): (i: int)
    ensures -1 <= i < |lines|
  {
    if lines == [] then -1
    else if mention(lines[|lines| - 1]) then |lines| - 1
    else LastMention(lines[..|lines| - 1], mention)
  }

  function LastLine(content: string): string {
    var lines := Split(content, NL);
    lines[|lines| - 1]
  }

  function Insert(lines: seq<string>, i: int, entry: string): seq<string>
    requires -1 <= i < |lines|
  {
    lines[..i + 1] + ([entry] + lines[i + 1..])
  }

  function AddLine(content: string, entry: string, hit: string -> bool, mention: string -> bool): string {
    var lines := Split(content, NL);
    var last := LastMention(lines, mention);
    if Hits(lines, hit) > 0 then content
    else if last >= 0 then Join(Insert(lines, last, entry), NL)
    else content + entry + [NL]
  }

  function RemoveLine(content: string, hit: string -> bool): string {
    Join(Others(Split(content, NL), hit), NL)
  }

  // ---- counting ----

  lemma {:induction false} Distributes(a: seq<string>, b: seq<string>, hit: string -> bool)
    ensures Hits(a + b, hit) == Hits(a, hit) + Hits(b, hit)
    ensures Others(a + b, hit) == Others(a, hit) + Others(b, hit)
  {
    if a == [] {
      assert a + b == b;
    } else {
      assert (a + b)[1..] == a[1..] + b;
      Distributes(a[1..], b, hit);
    }
  }

  lemma {:induction false} NoHits(lines: seq<string>, hit: string -> bool)
    ensures Hits(lines, hit) == 0 <==> forall i | 0 <= i < |lines| :: !hit(lines[i])
    ensures Hits(lines, hit) == 0 ==> Others(lines, hit) == lines
    ensures |Others(lines, hit)| == |lines| - Hits(lines, hit)
  {
    if lines == [] {
    } else {
      NoHits(lines[1..], hit);
      assert lines == [lines[0]] + lines[1..];
      assert forall i | 1 <= i < |lines| :: lines[i] == lines[1..][i - 1];
    }
  }

  lemma {:induction false} OthersAreUnhit(lines: seq<string>, hit: string -> bool)
    ensures Hits(Others(lines, hit), hit) == 0
    ensures forall l | l in Others(lines, hit) :: l in lines
  {
    if lines == [] {
    } else {
      OthersAreUnhit(lines[1..], hit);
      Distributes(if hit(lines[0]) then [] else [lines[0]], Others(lines[1..], hit), hit);
    }
  }

  lemma OneLine(l: string, hit: string -> bool)
    ensures Hits([l], hit) == if hit(l) then 1 else 0
    ensures Others([l], hit) == if hit(l) then [] else [l]
  {
    assert [l][1..] == [];
  }

  lemma InsertCounts(lines: seq<string>, i: int, entry: string, hit: string -> bool)
    requires -1 <= i < |lines| && hit(entry)
    ensures Hits(Insert(lines, i, entry), hit) == Hits(lines, hit) + 1
    ensures Others(Insert(lines, i, entry), hit) == Others(lines, hit)
  {
    hide Hits, Others;
    var a, b := lines[..i + 1], lines[i + 1..];
    OneLine(entry, hit);
    Distributes([entry], b, hit);
    Distributes(a, [entry] + b, hit);
    Distributes(a, b, hit);
    assert a + b == lines;
    assert [] + Others(b, hit) == Others(b, hit);
  }

  lemma {:induction false} LastMentionIsLast(lines: seq<string>, mention: string -> bool)
    ensures var i := LastMention(lines, mention);
            (i >= 0 ==> mention(lines[i])) && forall j | i < j < |lines| :: !mention(lines[j])
  {
    if lines != [] && !mention(lines[|lines| - 1]) {
      LastMentionIsLast(lines[..|lines| - 1], mention);
    }
  }

  // ---- the text after an addition ----

  /** The text is empty or newline-terminated exactly when its last line is empty. */
  lemma {:induction false} LastLineEmpty(content: string)
    ensures LastLine(content) == "" <==> (content == "" || content[|content| - 1] == NL)
  {
    if content == "" {
    } else {
      LastLineEmpty(content[1..]);
      if |content| > 1 {
        assert content[1..][|content| - 2] == content[|content| - 1];
      }
    }
  }

  lemma InsertedLines(content: string, entry: string, hit: string -> bool, mention: string -> bool)
    requires NL !in entry && Hits(Split(content, NL), hit) == 0
    requires LastMention(Split(content, NL), mention) >= 0
    ensures Split(AddLine(content, entry, hit, mention), NL) ==
            Insert(Split(content, NL), LastMention(Split(content, NL), mention), entry)
  {
    var lines := Split(content, NL);
    JoinOfSplit(content, NL);
    var l' := Insert(lines, LastMention(lines, mention), entry);
    assert forall p | p in l' :: p in lines || p == entry;
    SplitOfJoin(l', NL);
  }

  lemma AppendedLines(content: string, entry: string)
    requires NL !in entry
    ensures var lines := Split(content, NL);
            Split(content + entry + [NL], NL) == lines[..|lines| - 1] + [LastLine(content) + entry, ""]
  {
    SplitGlue(content, entry, NL);
    SplitAppend(content + entry, "", NL);
    assert content + entry + [NL] + "" == content + entry + [NL];
  }

  lemma AppendCounts(content: string, entry: string, hit: string -> bool)
    requires NL !in entry && !hit("") && Hits(Split(content, NL), hit) == 0
    ensures Hits(Split(content + entry + [NL], NL), hit) == if hit(LastLine(content) + entry) then 1 else 0
    ensures var lines := Split(content, NL);
            Others(Split(content + entry + [NL], NL), hit) ==
            lines[..|lines| - 1] + (if hit(LastLine(content) + entry) then [] else [LastLine(content) + entry]) + [""]
  {
    var lines := Split(content, NL);
    var front, glued := lines[..|lines| - 1], LastLine(content) + entry;
    AppendedLines(content, entry);
    assert front + [glued, ""] == front + [glued] + [""];
    Distributes(front + [glued], [""], hit);
    Distributes(front, [glued], hit);
    OneLine(glued, hit);
    OneLine("", hit);
    Distributes(front, [LastLine(content)], hit);
    assert lines == front + [LastLine(content)];
    NoHits(front, hit);
  }

  // ---- removing what was added ----

  lemma RemoveUndoesInsert(content: string, entry: string, hit: string -> bool, mention: string -> bool)
    requires NL !in entry && hit(entry) && Hits(Split(content, NL), hit) == 0
    requires LastMention(Split(content, NL), mention) >= 0
    ensures RemoveLine(AddLine(content, entry, hit, mention), hit) == content
  {
    InsertedLines(content, entry, hit, mention);
    InsertCounts(Split(content, NL), LastMention(Split(content, NL), mention), entry, hit);
    NoHits(Split(content, NL), hit);
    JoinOfSplit(content, NL);
  }

  lemma RemoveUndoesAppend(content: string, entry: string, hit: string -> bool)
    requires NL !in entry && hit(entry) && !hit("") && Hits(Split(content, NL), hit) == 0
    ensures RemoveLine(content + entry + [NL], hit) == content <==> LastLine(content) == ""
  {
    var lines := Split(content, NL);
    var front, end := lines[..|lines| - 1], LastLine(content);
    assert lines == front + [end];
    AppendCounts(content, entry, hit);
    JoinOfSplit(content, NL);
    assert forall p | p in front :: p in lines;
    var left := Others(Split(content + entry + [NL], NL), hit);
    if end == "" {
      assert end + entry == entry;
      assert front + [] + [""] == lines;
    } else {
      assert end in lines && Free(left, NL);
      SplitOfJoin(left, NL);
      assert left[|left| - 1] == "" && lines[|lines| - 1] == end;
    }
  }

  /** Removing leaves no hit and every other line, in order. */
  lemma RemoveDropsOnlyHits(content: string, hit: string -> bool)
    requires !hit("")
    ensures var kept := Others(Split(content, NL), hit);
            Split(RemoveLine(content, hit), NL) == if kept == [] then [""] else kept
    ensures Hits(Split(RemoveLine(content, hit), NL), hit) == 0
  {
    var lines := Split(content, NL);
    JoinOfSplit(content, NL);
    OthersAreUnhit(lines, hit);
    if Others(lines, hit) != [] {
      SplitOfJoin(Others(lines, hit), NL);
    } else {
      assert [""][1..] == [];
    }
  }

  lemma AddChanges(content: string, entry: string, hit: string -> bool, mention: string -> bool)
    requires NL !in entry && Hits(Split(content, NL), hit) == 0
    ensures AddLine(content, entry, hit, mention) != content
  {
    if LastMention(Split(content, NL), mention) >= 0 {
      InsertedLines(content, entry, hit, mention);
      assert |Split(AddLine(content, entry, hit, mention), NL)| == |Split(content, NL)| + 1;
    }
  }

  /** A second addition changes nothing exactly when the first one is recognised. */
  lemma SecondAdd(content: string, entry: string, hit: string -> bool, mention: string -> bool)
    requires NL !in entry
    ensures var once := AddLine(content, entry, hit, mention);
            AddLine(once, entry, hit, mention) == once <==> Hits(Split(once, NL), hit) > 0
  {
    var once := AddLine(content, entry, hit, mention);
    if Hits(Split(once, NL), hit) == 0 {
      AddChanges(once, entry, hit, mention);
    }
  }

  lemma AppendKeeps(content: string, entry: string, hit: string -> bool)
    requires NL !in entry && hit(entry) && !hit("") && Hits(Split(content, NL), hit) == 0 && LastLine(content) == ""
    ensures Others(Split(content + entry + [NL], NL), hit) == Split(content, NL)
  {
    var lines := Split(content, NL);
    AppendCounts(content, entry, hit);
    assert "" + entry == entry;
    assert lines[..|lines| - 1] + [] + [""] == lines;
  }

  /** An addition to a text that can take it leaves the other lines as they were. */
  lemma KeepsOtherLines(content: string, entry: string, hit: string -> bool, mention: string -> bool)
    requires NL !in entry && hit(entry) && !hit("") && Hits(Split(content, NL), hit) == 0
    requires LastLine(content) == "" || LastMention(Split(content, NL), mention) >= 0
    ensures Others(Split(AddLine(content, entry, hit, mention), NL), hit) == Split(content, NL)
  {
    hide Hits, Others, Split, LastMention;
    if LastMention(Split(content, NL), mention) >= 0 {
      NoHits(Split(content, NL), hit);
      InsertedLines(content, entry, hit, mention);
      InsertCounts(Split(content, NL), LastMention(Split(content, NL), mention), entry, hit);
    } else {
      AppendKeeps(content, entry, hit);
    }
  }
}
